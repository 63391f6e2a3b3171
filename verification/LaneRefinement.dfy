/**
 * The promise chain implements the protocol's one lane: every run of the concurrent worker is a run of the protocol, at
 * most one body runs at a time, and a task that has settled without throwing has written its row exactly once.
 */
module LaneRefinement {
  import opened Json
  import opened QueueTables
  import opened Protocol
  import opened ProtocolInvariant
  import opened ProtocolProof
  import opened ConcurrentWorker
  import EL = ExclusiveLane

  // ---------------------------------------------------------------- invariant

  /** What a body's position says about its task. */
  predicate BodyFits(task: Task, body: Body) {
    body.Active? ==>
      && !body.lane.Idle?
      && (body.lane.HoldsRow() <==> task.RowTask?)
      && (body.lane.HoldsRow() ==> body.lane.row == task.row)
  }

  /** Bodies belong to the running promises, tasks to the task runs. */
  ghost predicate BodiesOk(m: Machine) {
    && (forall i: nat :: i in m.bodies <==> i < |m.line.promises| && m.line.promises[i].progress == EL.Running)
    && (forall i: nat :: i in m.tasks <==> i < |m.line.promises| && m.line.promises[i].kind == EL.TaskRun)
    && (forall i :: i in m.bodies ==> i in m.tasks && BodyFits(m.tasks[i], m.bodies[i]))
  }

  /** Only a poll pass enqueues rows, one at a time. */
  ghost predicate PassOk(m: Machine) {
    && (m.pass.Awaiting? ==> m.pass.run in m.tasks && m.tasks[m.pass.run].RowTask?)
    && (forall i :: i in m.tasks && m.tasks[i].RowTask? && i < |m.line.promises| && !m.line.promises[i].Settled() ==>
          m.pass.Awaiting? && m.pass.run == i)
  }

  /** A task is marked as persisted from the moment its body has returned. */
  ghost predicate PersistedOk(m: Machine) {
    && (forall i :: i in m.line.persisted ==> i in m.tasks && !IsWaiting(m, i))
    && (forall i :: i in m.bodies ==> (i in m.line.persisted <==> m.bodies[i].Returned?))
  }

  ghost predicate MachineInv(m: Machine) {
    EL.Linear(m.line) && BodiesOk(m) && PassOk(m) && PersistedOk(m)
  }

  /** Nothing but the chain enforces this. */
  lemma OneBody(m: Machine, i: nat, j: nat)
    requires MachineInv(m) && i in m.bodies && j in m.bodies
    ensures i == j
  {
    var a, b := if i < j then i else j, if i < j then j else i;
    assert !m.line.promises[a].Settled() && m.line.promises[b].progress == EL.Running;
  }

  // ---------------------------------------------------------------- the lane of the protocol

  ghost predicate IsBusy(bodies: map<nat, Body>) {
    exists i :: i in bodies && bodies[i].Active?
  }

  ghost function LaneOf(bodies: map<nat, Body>): Lane {
    if IsBusy(bodies) then var i :| i in bodies && bodies[i].Active?; bodies[i].lane else Idle
  }

  ghost function Abs(m: Machine): State {
    View(m, LaneOf(m.bodies))
  }

  lemma LaneOfBody(m: Machine, i: nat)
    requires MachineInv(m) && i in m.bodies
    ensures m.bodies == map[i := m.bodies[i]]
    ensures LaneOf(m.bodies) == if m.bodies[i].Active? then m.bodies[i].lane else Idle
  {
    forall j | j in m.bodies ensures j == i {
      OneBody(m, i, j);
    }
  }

  /** A task whose reaction is ready finds no body running. */
  lemma ReadyFindsIdle(m: Machine, i: nat)
    requires MachineInv(m) && EL.Possible(m.line, EL.React(i))
    ensures m.bodies == map[] || m.line.promises[i].kind != EL.TaskRun
  {
    if m.line.promises[i].kind == EL.TaskRun {
      assert EL.LinkedAt(m.line, i);
      EL.AllBeforeSettled(m.line, i - 1);
      assert forall j :: 0 <= j < i ==> m.line.promises[j].Settled();
      assert forall j :: i <= j < |m.line.promises| ==> m.line.promises[j].progress == EL.Waiting;
    }
  }

  // ---------------------------------------------------------------- steps of the protocol

  /** What a step of a body leaves to the rest of the worker. */
  lemma WorkShape(c: Config, s: State, l: Label)
    requires IsWork(l) && Enabled(s, l)
    ensures var u := Step(c, s, l);
            && u.comments == s.comments
            && u.poll == (if Throwing(c, s.lane, l) && s.lane.HoldsRow() then None else s.poll)
            && (Throwing(c, s.lane, l) ==> u.lane.Idle?)
            && (!u.lane.Idle? ==> (u.lane.HoldsRow() <==> s.lane.HoldsRow()) && (u.lane.HoldsRow() ==> u.lane.row == s.lane.row))
  {
  }

  lemma WorkTurns(c: Config, s: State, l: Label)
    requires IsWork(l) && Enabled(s, l)
    requires s.lane.HoldsRow() ==> s.lane.row.id < |s.db.events|
    ensures var u := Step(c, s, l);
            u.h.turns == s.h.turns + if s.lane.HoldsRow() && u.lane.Idle? && !Throwing(c, s.lane, l) then multiset{s.lane.row.id} else multiset{}
  {
  }

  lemma OutsideShape(c: Config, s: State, l: Label, lane: Lane)
    requires IsOutside(l) && Enabled(s, l)
    ensures Enabled(s.(lane := lane), l)
    ensures var u := Step(c, s, l);
            && u.poll == s.poll && u.lane == s.lane && u.h.turns == s.h.turns
            && Step(c, s.(lane := lane), l) == u.(lane := lane)
  {
  }

  // ---------------------------------------------------------------- every move keeps the invariant

  lemma EnqueueKeeps(m: Machine, task: Task, pass: Pass)
    requires MachineInv(m) && EL.Possible(m.line, EL.Enqueue)
    requires if task.RowTask? then m.pass.Between? && pass.Awaiting? && pass.run == |m.line.promises| else pass == m.pass
    ensures MachineInv(Enqueued(m, task).(pass := pass))
  {
    var u := Enqueued(m, task).(pass := pass);
    EL.EnqueueLinear(m.line);
    EnqueuedBodies(m, u);
    EnqueuedPass(m, u);
    EnqueuedPersisted(m, u);
  }

  /** `u` is `m` with a task enqueued. */
  predicate EnqueuedFrom(m: Machine, u: Machine) {
    var n := |m.line.promises|;
    && EL.Possible(m.line, EL.Enqueue) && u.line == EL.Next(m.line, EL.Enqueue) && u.bodies == m.bodies
    && n in u.tasks && u.tasks == m.tasks[n := u.tasks[n]]
  }

  lemma EnqueuedBodies(m: Machine, u: Machine)
    requires BodiesOk(m) && EnqueuedFrom(m, u)
    ensures BodiesOk(u)
  {
    var n := |m.line.promises|;
    forall i: nat | i < |u.line.promises|
      ensures (i in u.tasks <==> u.line.promises[i].kind == EL.TaskRun) && (i in u.bodies <==> u.line.promises[i].progress == EL.Running)
    {
      if i < n {
        assert u.line.promises[i] == m.line.promises[i];
      }
    }
    assert n !in m.tasks;
  }

  lemma EnqueuedPass(m: Machine, u: Machine)
    requires BodiesOk(m) && PassOk(m) && EnqueuedFrom(m, u)
    requires var n := |m.line.promises|;
             if u.tasks[n].RowTask? then m.pass.Between? && u.pass.Awaiting? && u.pass.run == n else u.pass == m.pass
    ensures PassOk(u)
  {
    var n := |m.line.promises|;
    forall i | i in u.tasks && u.tasks[i].RowTask? && i < |u.line.promises| && !u.line.promises[i].Settled()
      ensures u.pass.Awaiting? && u.pass.run == i
    {
      if i < n {
        assert i in m.tasks && u.line.promises[i] == m.line.promises[i];
      }
    }
  }

  lemma EnqueuedPersisted(m: Machine, u: Machine)
    requires BodiesOk(m) && PersistedOk(m) && EnqueuedFrom(m, u)
    ensures PersistedOk(u)
  {
    forall i | i in u.line.persisted ensures i in u.tasks && !IsWaiting(u, i) {
      assert i in m.tasks && u.line.promises[i] == m.line.promises[i];
    }
  }

  lemma ReactKeeps(m: Machine, i: nat)
    requires MachineInv(m) && MayReact(m, i)
    ensures MachineInv(Reacted(m, i))
  {
    EL.ReactLinear(m.line, i);
    assert EL.LinkedAt(m.line, i);
    if m.line.promises[i].kind == EL.TaskRun {
      ReadyFindsIdle(m, i);
      StartKeeps(m, i, Reacted(m, i));
    } else {
      LinkKeeps(m, i, Reacted(m, i));
    }
  }

  lemma LinkKeeps(m: Machine, i: nat, u: Machine)
    requires MachineInv(m) && EL.Linear(u.line) && IsWaiting(m, i) && m.line.promises[i].kind == EL.Link
    requires u == m.(line := u.line) && u.line == EL.WithProgress(m.line, i, EL.Fulfilled)
    ensures MachineInv(u)
  {
    assert i !in m.tasks;
    assert PassOk(u) && BodiesOk(u);
  }

  lemma StartKeeps(m: Machine, i: nat, u: Machine)
    requires MachineInv(m) && EL.Linear(u.line) && IsWaiting(m, i) && m.bodies == map[] && i in m.tasks
    requires u.tasks == m.tasks && u.pass == m.pass && u.line.persisted == m.line.persisted
    requires u.line.promises == EL.WithProgress(m.line, i, EL.Running).promises
    requires u.bodies.Keys == {i} && u.bodies[i].Active? && BodyFits(m.tasks[i], u.bodies[i])
    ensures MachineInv(u)
  {
    assert i !in m.line.persisted;
    assert PassOk(u);
    assert BodiesOk(u);
  }

  lemma SettleKeeps(m: Machine, i: nat)
    requires MachineInv(m) && MaySettle(m, i)
    ensures EL.Possible(m.line, EL.Settle(i, m.bodies[i].Returned?))
    ensures MachineInv(SettledBody(m, i))
  {
    var u := SettledBody(m, i);
    EL.SettleLinear(m.line, i, m.bodies[i].Returned?);
    assert u.line.promises == m.line.promises[i := u.line.promises[i]];
    forall j | j in u.bodies ensures j in u.line.persisted <==> u.bodies[j].Returned? {
      assert j in m.bodies;
    }
    assert PassOk(u);
  }

  lemma WorkKeeps(c: Config, m: Machine, i: nat, l: Label)
    requires MachineInv(m) && CanMove(m, Work(i, l))
    ensures MachineInv(Worked(c, m, i, l))
  {
    var u := Worked(c, m, i, l);
    WorkedRest(c, m, i, l);
    WorkedBody(c, m, i, l, m.tasks[i]);
    WorkedKeeps(m, i, u.bodies[i], u);
  }

  lemma WorkedBody(c: Config, m: Machine, i: nat, l: Label, task: Task)
    requires CanMove(m, Work(i, l)) && BodyFits(task, m.bodies[i])
    ensures i in Worked(c, m, i, l).bodies && BodyFits(task, Worked(c, m, i, l).bodies[i])
  {
    WorkShape(c, View(m, m.bodies[i].lane), l);
  }

  /** What a working step changes besides the tables and their history. */
  lemma WorkedRest(c: Config, m: Machine, i: nat, l: Label)
    requires CanMove(m, Work(i, l))
    ensures var u := Worked(c, m, i, l);
            && i in u.bodies && u.tasks == m.tasks && u.pass == m.pass && u.base == m.base && u.bodies == m.bodies[i := u.bodies[i]]
            && u.line == if u.bodies[i].Returned? then m.line.(persisted := m.line.persisted + {i}) else m.line
  {
  }

  /** The part of a working step that does not depend on what the protocol did. */
  lemma WorkedKeeps(m: Machine, i: nat, body: Body, u: Machine)
    requires MachineInv(m) && i in m.bodies && m.bodies[i].Active? && BodyFits(m.tasks[i], body)
    requires u.tasks == m.tasks && u.pass == m.pass && u.bodies == m.bodies[i := body]
    requires u.line == if body.Returned? then m.line.(persisted := m.line.persisted + {i}) else m.line
    ensures MachineInv(u)
  {
    if body.Returned? {
      EL.NextLinear(m.line, EL.PersistStep(i));
    }
    forall j | j in u.bodies ensures j in u.line.persisted <==> u.bodies[j].Returned? {
      assert j in m.bodies;
    }
    assert PassOk(u) && BodiesOk(u);
  }

  lemma MoveKeeps(c: Config, m: Machine, mv: Move)
    requires MachineInv(m) && CanMove(m, mv)
    ensures MachineInv(Moved(c, m, mv))
  {
    match mv
    case EnqueueRow => EnqueueKeeps(m, RowTask(m.pass.rest[0]), Awaiting(|m.line.promises|, m.pass.rest[1..]));
    case EnqueueReconcile => EnqueueKeeps(m, ReconcileTask, m.pass);
    case React(i) => ReactKeeps(m, i);
    case Work(i, l) => WorkKeeps(c, m, i, l);
    case Settle(i) => SettleKeeps(m, i);
    case _ => QuietMoveKeeps(c, m, mv);
  }

  lemma QuietMoveKeeps(c: Config, m: Machine, mv: Move)
    requires MachineInv(m) && CanMove(m, mv)
    requires !mv.EnqueueRow? && !mv.EnqueueReconcile? && !mv.React? && !mv.Work? && !mv.Settle?
    ensures MachineInv(Moved(c, m, mv))
  {
    var u := Moved(c, m, mv);
    assert mv.Restart? ==> u.line == EL.FRESH;
    assert PassOk(u) && BodiesOk(u) && PersistedOk(u);
  }

  // ---------------------------------------------------------------- every move is a step of the protocol

  /** The protocol's label for a move, if it is not one that only the chain can see. */
  function Labels(m: Machine, mv: Move): seq<Label> {
    match mv
    case Outside(l) => [l]
    case Poll(now) => [PollStart(now)]
    case EndPass => [PollEnd]
    case React(i) => if i !in m.tasks then [] else if m.tasks[i].RowTask? then [NextRow] else [ReconcileStart]
    case Work(_, l) => [l]
    case Restart => [Crash]
    case _ => []
  }

  /** `u` is `m` after these labels. */
  ghost predicate Follows(c: Config, m: Machine, labels: seq<Label>, u: Machine) {
    if labels == [] then Abs(u) == Abs(m) else Enabled(Abs(m), labels[0]) && Abs(u) == Step(c, Abs(m), labels[0])
  }

  lemma OutsideFollows(c: Config, m: Machine, l: Label)
    requires MachineInv(m) && CanMove(m, Outside(l))
    ensures Follows(c, m, [l], Moved(c, m, Outside(l)))
  {
    var u := Moved(c, m, Outside(l));
    OutsideShape(c, View(m, Idle), l, LaneOf(m.bodies));
    assert PollOf(u) == PollOf(m);
  }

  /** A task whose body has not ended and that belongs to a row is the one the pass awaits. */
  lemma RowIsAwaited(m: Machine, i: nat)
    requires MachineInv(m) && i in m.tasks && m.tasks[i].RowTask? && !m.line.promises[i].Settled()
    ensures m.pass.Awaiting? && m.pass.run == i
  {
  }

  /** Between two rows no body holds one. */
  lemma NoRowBetween(m: Machine)
    requires MachineInv(m) && !m.pass.Awaiting?
    ensures !LaneOf(m.bodies).HoldsRow()
  {
    if IsBusy(m.bodies) {
      var i :| i in m.bodies && m.bodies[i].Active?;
      LaneOfBody(m, i);
      if m.bodies[i].lane.HoldsRow() {
        RowIsAwaited(m, i);
      }
    }
  }

  lemma PassFollows(c: Config, m: Machine, mv: Move)
    requires MachineInv(m) && CanMove(m, mv) && (mv.Poll? || mv.EndPass? || mv.Resume? || mv.Restart?)
    ensures Follows(c, m, Labels(m, mv), Moved(c, m, mv))
  {
    if mv.EndPass? {
      NoRowBetween(m);
    }
    if mv.Restart? {
      assert !IsBusy(Moved(c, m, mv).bodies);
    }
  }

  lemma EnqueueFollows(m: Machine, u: Machine)
    requires MachineInv(m) && EL.Possible(m.line, EL.Enqueue)
    requires || (m.pass.Between? && m.pass.rest != [] && u == Enqueued(m, RowTask(m.pass.rest[0])).(pass := Awaiting(|m.line.promises|, m.pass.rest[1..])))
             || u == Enqueued(m, ReconcileTask)
    ensures Abs(u) == Abs(m)
  {
    var n := |m.line.promises|;
    assert n !in m.bodies;
    if u.pass.Awaiting? && u.pass.run == n {
      assert [m.pass.rest[0]] + m.pass.rest[1..] == m.pass.rest;
    } else if m.pass.Awaiting? {
      assert u.line.promises[m.pass.run] == m.line.promises[m.pass.run];
    }
  }

  lemma ReactFollows(c: Config, m: Machine, i: nat)
    requires MachineInv(m) && MayReact(m, i)
    ensures Follows(c, m, Labels(m, React(i)), Reacted(m, i))
  {
    assert EL.LinkedAt(m.line, i);
    if i in m.tasks {
      StartedView(m, i);
      StartStep(c, Abs(m), m.tasks[i], if m.tasks[i].RowTask? then m.pass.rest else [], StartBody(m, i).h);
    } else {
      LinkFollows(m, i);
    }
  }

  lemma LinkFollows(m: Machine, i: nat)
    requires MachineInv(m) && MayReact(m, i) && i !in m.tasks
    ensures Abs(Reacted(m, i)) == Abs(m)
  {
    var u := Reacted(m, i);
    assert m.line.promises[i].kind != EL.TaskRun;
    assert forall j :: 0 <= j < |m.line.promises| && j != i ==> u.line.promises[j] == m.line.promises[j];
    assert PollOf(u) == PollOf(m);
  }

  /** The view before and after a task function is called. */
  lemma StartedView(m: Machine, i: nat)
    requires MachineInv(m) && MayReact(m, i) && i in m.tasks
    ensures var s, u := Abs(m), Reacted(m, i);
            && s.lane.Idle?
            && Abs(u) == State(m.db, PollOf(u), u.bodies[i].lane, m.comments, u.h)
            && u.h == StartBody(m, i).h && u.bodies[i] == StartBody(m, i).bodies[i]
            && (if m.tasks[i].RowTask? then m.pass.Awaiting? && s.poll == Some([m.tasks[i].row] + m.pass.rest) && PollOf(u) == Some(m.pass.rest)
                else PollOf(u) == s.poll)
  {
    var u := Reacted(m, i);
    ReadyFindsIdle(m, i);
    assert !IsBusy(m.bodies);
    ReactKeeps(m, i);
    LaneOfBody(u, i);
    StartedPoll(m, i, u);
  }

  lemma StartedPoll(m: Machine, i: nat, u: Machine)
    requires MachineInv(m) && IsWaiting(m, i) && i in m.tasks && m.bodies == map[]
    requires u.tasks == m.tasks && u.pass == m.pass && u.line.promises == EL.WithProgress(m.line, i, EL.Running).promises
    requires u.bodies.Keys == {i} && u.bodies[i].Active?
    ensures if m.tasks[i].RowTask? then m.pass.Awaiting? && PollOf(m) == Some([m.tasks[i].row] + m.pass.rest) && PollOf(u) == Some(m.pass.rest)
            else PollOf(u) == PollOf(m)
  {
    assert forall j :: 0 <= j < |m.line.promises| && j != i ==> u.line.promises[j] == m.line.promises[j];
    if m.tasks[i].RowTask? {
      RowIsAwaited(m, i);
    }
  }

  /** Starting a task body is the protocol's step. */
  lemma StartStep(c: Config, s: State, task: Task, rest: seq<Event>, h: History)
    requires s.lane.Idle? && (task.RowTask? ==> s.poll == Some([task.row] + rest))
    requires h == if task.RowTask? && task.row.jobType == Review
                  then var row := task.row; s.h.(starts := s.h.starts + {Start(row.id, row.issue, row.cycleId, TrustedRevision(s.db, row.issue))})
                  else s.h
    ensures var l := if task.RowTask? then NextRow else ReconcileStart;
            && Enabled(s, l)
            && Step(c, s, l) ==
               if task.ReconcileTask? then s.(lane := Discovering(Execute))
               else s.(poll := Some(rest), h := h,
                       lane := if task.row.jobType == Review then Reviewing(task.row, TrustedRevision(s.db, task.row.issue)) else Executing(task.row))
  {
    if task.RowTask? {
      assert ([task.row] + rest)[1..] == rest;
    }
  }

  lemma WorkFollows(c: Config, m: Machine, i: nat, l: Label)
    requires MachineInv(m) && CanMove(m, Work(i, l))
    ensures Follows(c, m, [l], Worked(c, m, i, l))
  {
    LaneOfBody(m, i);
    var s := Abs(m);
    WorkShape(c, s, l);
    WorkedFollows(m, i, AfterWork(c, s.lane, l, Step(c, s, l).lane), Step(c, s, l), Worked(c, m, i, l));
  }

  lemma WorkedFollows(m: Machine, i: nat, body: Body, s: State, u: Machine)
    requires MachineInv(m) && i in m.bodies && m.bodies[i].Active?
    requires u.tasks == m.tasks && u.pass == m.pass && u.line.promises == m.line.promises && u.bodies == m.bodies[i := body]
    requires u.db == s.db && u.h == s.h && u.comments == s.comments
    requires s.lane == if body.Active? then body.lane else Idle
    requires s.poll == if body.Threw? && m.tasks[i].RowTask? then None else PollOf(m)
    ensures Abs(u) == s
  {
    LaneOfBody(m, i);
    assert u.bodies == map[i := body];
    assert LaneOf(u.bodies) == s.lane;
    if m.tasks[i].RowTask? {
      RowIsAwaited(m, i);
    } else if m.pass.Awaiting? {
      assert m.pass.run != i;
    }
    assert PollOf(u) == s.poll;
  }

  lemma SettleFollows(m: Machine, i: nat)
    requires MachineInv(m) && MaySettle(m, i)
    ensures Abs(SettledBody(m, i)) == Abs(m)
  {
    var u := SettledBody(m, i);
    LaneOfBody(m, i);
    assert u.bodies == map[];
    assert forall j :: 0 <= j < |m.line.promises| && j != i ==> u.line.promises[j] == m.line.promises[j];
    assert PollOf(u) == PollOf(m);
  }

  lemma MoveFollows(c: Config, m: Machine, mv: Move)
    requires MachineInv(m) && CanMove(m, mv)
    ensures Follows(c, m, Labels(m, mv), Moved(c, m, mv))
  {
    match mv
    case Outside(l) => OutsideFollows(c, m, l);
    case EnqueueRow => EnqueueFollows(m, Moved(c, m, mv));
    case EnqueueReconcile => EnqueueFollows(m, Moved(c, m, mv));
    case React(i) => ReactFollows(c, m, i);
    case Work(i, l) => WorkFollows(c, m, i, l);
    case Settle(i) => SettleFollows(m, i);
    case _ => PassFollows(c, m, mv);
  }

  // ---------------------------------------------------------------- every move is an event of the chain

  /** What a move does to the chain. */
  ghost function LineEvents(c: Config, m: Machine, mv: Move): seq<EL.Event>
    requires CanMove(m, mv)
  {
    match mv
    case EnqueueRow => [EL.Enqueue]
    case EnqueueReconcile => [EL.Enqueue]
    case React(i) => [EL.React(i)]
    case Settle(i) => [EL.Settle(i, m.bodies[i].Returned?)]
    case Work(i, l) => if Worked(c, m, i, l).bodies[i].Returned? then [EL.PersistStep(i)] else []
    case _ => []
  }

  /** What the chain's own events demand is met: a task settles as fulfilled only when its body has returned, which it does
      only by its last write, and as rejected only when its body has thrown. */
  lemma LineFollows(c: Config, m: Machine, mv: Move)
    requires MachineInv(m) && CanMove(m, mv) && !mv.Restart?
    ensures EL.Feasible(m.line, LineEvents(c, m, mv)) && EL.Execute(m.line, LineEvents(c, m, mv)) == Moved(c, m, mv).line
  {
    var events := LineEvents(c, m, mv);
    if mv.Settle? {
      SettleKeeps(m, mv.i);
    }
    if events != [] {
      assert EL.Possible(m.line, events[0]);
      assert events == [events[0]] + [];
      EL.StepThen(m.line, events[0], []);
    }
  }

  // ---------------------------------------------------------------- recorded turns are tasks

  /** The tasks since the last restart that have written this row. */
  function Written(m: Machine, id: nat): set<nat> {
    set i | i in m.line.persisted && i in m.tasks && m.tasks[i].RowTask? && m.tasks[i].row.id == id
  }

  /** Since the worker was started, every recorded turn of a row is one task of that row whose body has returned, and
      every such task has recorded exactly one. */
  ghost predicate TurnsAreTasks(m: Machine) {
    forall id: nat :: m.h.turns[id] == m.base[id] + |Written(m, id)|
  }

  lemma SameWrites(m: Machine, u: Machine)
    requires PersistedOk(m) && TurnsAreTasks(m)
    requires u.line.persisted == m.line.persisted && u.h.turns == m.h.turns && u.base == m.base
    requires forall i :: i in m.tasks ==> i in u.tasks && u.tasks[i] == m.tasks[i]
    ensures TurnsAreTasks(u)
  {
    forall id: nat ensures Written(u, id) == Written(m, id) {
    }
  }

  /** What a working step adds to the recorded turns. */
  lemma WorkedTurns(c: Config, m: Machine, i: nat, l: Label)
    requires CanMove(m, Work(i, l))
    requires m.bodies[i].lane.HoldsRow() ==> m.bodies[i].lane.row.id < |m.db.events|
    ensures var u := Worked(c, m, i, l);
            && i in u.bodies
            && u.h.turns == m.h.turns + if u.bodies[i].Returned? && m.bodies[i].lane.HoldsRow() then multiset{m.bodies[i].lane.row.id} else multiset{}
  {
    var s := View(m, m.bodies[i].lane);
    WorkTurns(c, s, l);
    if Throwing(c, s.lane, l) {
      WorkShape(c, s, l);
    }
  }

  lemma WorkCounts(c: Config, m: Machine, i: nat, l: Label)
    requires MachineInv(m) && TurnsAreTasks(m) && CanMove(m, Work(i, l))
    requires m.bodies[i].lane.HoldsRow() ==> m.bodies[i].lane.row.id < |m.db.events|
    ensures TurnsAreTasks(Worked(c, m, i, l))
  {
    WorkedTurns(c, m, i, l);
    WorkedRest(c, m, i, l);
    assert BodyFits(m.tasks[i], m.bodies[i]);
    WorkedCounts(m, i, Worked(c, m, i, l));
  }

  lemma WorkedCounts(m: Machine, i: nat, u: Machine)
    requires PersistedOk(m) && TurnsAreTasks(m) && i in m.bodies && m.bodies[i].Active? && i in u.bodies && i in m.tasks
    requires u.tasks == m.tasks && u.base == m.base
    requires u.line.persisted == if u.bodies[i].Returned? then m.line.persisted + {i} else m.line.persisted
    requires u.h.turns == m.h.turns + if u.bodies[i].Returned? && m.tasks[i].RowTask? then multiset{m.tasks[i].row.id} else multiset{}
    ensures TurnsAreTasks(u)
  {
    forall id: nat ensures u.h.turns[id] == u.base[id] + |Written(u, id)| {
      OneMoreWritten(m, i, u, id);
    }
  }

  lemma OneMoreWritten(m: Machine, i: nat, u: Machine, id: nat)
    requires i in m.tasks && i !in m.line.persisted && u.tasks == m.tasks
    requires u.line.persisted == m.line.persisted || u.line.persisted == m.line.persisted + {i}
    ensures |Written(u, id)| ==
            |Written(m, id)| + if i in u.line.persisted && m.tasks[i].RowTask? && m.tasks[i].row.id == id then 1 else 0
  {
    if i in u.line.persisted && m.tasks[i].RowTask? && m.tasks[i].row.id == id {
      assert Written(u, id) == Written(m, id) + {i};
    } else {
      assert Written(u, id) == Written(m, id);
    }
  }

  lemma OutsideCounts(c: Config, m: Machine, l: Label)
    requires MachineInv(m) && TurnsAreTasks(m) && CanMove(m, Outside(l))
    ensures TurnsAreTasks(Moved(c, m, Outside(l)))
  {
    OutsideShape(c, View(m, Idle), l, Idle);
    SameWrites(m, Moved(c, m, Outside(l)));
  }

  /** After a restart the count starts anew. */
  lemma RestartCounts(m: Machine, u: Machine)
    requires u.line.persisted == {} && u.base == u.h.turns
    ensures TurnsAreTasks(u)
  {
    forall id: nat ensures Written(u, id) == {} {
    }
  }

  /** Every row a body holds is still as it was listed. */
  ghost predicate BodiesCurrent(m: Machine) {
    forall i :: i in m.bodies && m.bodies[i].Active? && m.bodies[i].lane.HoldsRow() ==> Current(m.db, m.bodies[i].lane.row)
  }

  lemma BodiesAreCurrent(c: Config, m: Machine)
    requires MachineInv(m) && Inv(c, Abs(m))
    ensures BodiesCurrent(m)
  {
    forall i | i in m.bodies && m.bodies[i].Active? && m.bodies[i].lane.HoldsRow() ensures Current(m.db, m.bodies[i].lane.row) {
      LaneOfBody(m, i);
    }
  }

  lemma MoveCounts(c: Config, m: Machine, mv: Move)
    requires MachineInv(m) && TurnsAreTasks(m) && BodiesCurrent(m) && CanMove(m, mv)
    ensures TurnsAreTasks(Moved(c, m, mv))
  {
    match mv
    case Work(i, l) => WorkCounts(c, m, i, l);
    case Outside(l) => OutsideCounts(c, m, l);
    case Restart => LineCounts(c, m, mv);
    case React(_) => LineCounts(c, m, mv);
    case Settle(_) => LineCounts(c, m, mv);
    case _ => PassCounts(c, m, mv);
  }

  lemma LineCounts(c: Config, m: Machine, mv: Move)
    requires MachineInv(m) && TurnsAreTasks(m) && CanMove(m, mv) && (mv.Restart? || mv.React? || mv.Settle?)
    ensures TurnsAreTasks(Moved(c, m, mv))
  {
    match mv
    case Restart => RestartCounts(m, Moved(c, m, mv));
    case React(i) => SameWrites(m, Reacted(m, i));
    case Settle(i) => SameWrites(m, SettledBody(m, i));
  }

  lemma PassCounts(c: Config, m: Machine, mv: Move)
    requires MachineInv(m) && TurnsAreTasks(m) && CanMove(m, mv)
    requires mv.EnqueueRow? || mv.EnqueueReconcile? || mv.Poll? || mv.Resume? || mv.EndPass?
    ensures TurnsAreTasks(Moved(c, m, mv))
  {
    if mv.EnqueueRow? || mv.EnqueueReconcile? {
      EnqueueCounts(m, Moved(c, m, mv));
    } else {
      SameWrites(m, m.(pass := Moved(c, m, mv).pass));
    }
  }

  lemma EnqueueCounts(m: Machine, u: Machine)
    requires MachineInv(m) && TurnsAreTasks(m) && EL.Possible(m.line, EL.Enqueue)
    requires u.line == EL.Next(m.line, EL.Enqueue) && u.h == m.h && u.base == m.base
    requires u.tasks.Keys == m.tasks.Keys + {|m.line.promises|} && forall i :: i in m.tasks ==> u.tasks[i] == m.tasks[i]
    ensures TurnsAreTasks(u)
  {
    SameWrites(m, u);
  }

  // ---------------------------------------------------------------- whole runs

  /** Everything kept along a run of the concurrent worker. */
  ghost predicate WorkerInv(c: Config, m: Machine) {
    MachineInv(m) && Inv(c, Abs(m)) && TurnsAreTasks(m)
  }

  lemma BootInv(c: Config)
    ensures WorkerInv(c, BOOT) && Abs(BOOT) == INITIAL
  {
    assert !IsBusy(BOOT.bodies);
    InitialInv(c);
    forall id: nat ensures Written(BOOT, id) == {} {
    }
    assert PassOk(BOOT) && BodiesOk(BOOT);
  }

  lemma MovePreserves(c: Config, m: Machine, mv: Move)
    requires WorkerInv(c, m) && CanMove(m, mv)
    ensures WorkerInv(c, Moved(c, m, mv)) && Follows(c, m, Labels(m, mv), Moved(c, m, mv))
  {
    MoveKeeps(c, m, mv);
    BodiesAreCurrent(c, m);
    MoveCounts(c, m, mv);
    MoveFollows(c, m, mv);
    var labels := Labels(m, mv);
    if labels != [] {
      StepPreserves(c, Abs(m), labels[0]);
    }
  }

  lemma LegalThen(c: Config, s: State, l: Label, rest: seq<Label>)
    requires Enabled(s, l) && Legal(c, Step(c, s, l), rest)
    ensures Legal(c, s, [l] + rest) && Run(c, s, [l] + rest) == Run(c, Step(c, s, l), rest)
  {
    assert ([l] + rest)[0] == l && ([l] + rest)[1..] == rest;
  }

  /** Every run of the concurrent worker, whatever its bodies interleave with, is a run of the one-lane protocol. */
  lemma {:induction false} RunFollows(c: Config, m: Machine, mvs: seq<Move>) returns (labels: seq<Label>)
    requires WorkerInv(c, m) && Runnable(c, m, mvs)
    ensures WorkerInv(c, After(c, m, mvs))
    ensures Legal(c, Abs(m), labels) && Run(c, Abs(m), labels) == Abs(After(c, m, mvs))
    decreases |mvs|
  {
    if mvs == [] {
      labels := [];
    } else {
      var u := Moved(c, m, mvs[0]);
      MovePreserves(c, m, mvs[0]);
      labels := RunFollows(c, u, mvs[1..]);
      if Labels(m, mvs[0]) != [] {
        LegalThen(c, Abs(m), Labels(m, mvs[0])[0], labels);
        labels := [Labels(m, mvs[0])[0]] + labels;
      }
    }
  }
}
