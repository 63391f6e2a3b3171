/**
 * The worker as its event loop runs it: poll and reconciliation enqueue tasks on the promise chain, any ready reaction
 * may run, and every started task body has a program position of its own. Nothing but the chain keeps two bodies from
 * running at once.
 */
module ConcurrentWorker {
  import opened Json
  import opened QueueTables
  import opened Protocol
  import EL = ExclusiveLane

  /** What a task run will call: the processing of one row, or a reconciliation. */
  datatype Task = RowTask(row: Event) | ReconcileTask

  /** A started body: at some point of its work, or over and about to settle its promise. */
  datatype Body = Active(lane: Lane) | Returned | Threw

  /** `pollOnce`: between two rows, or awaiting the task of one. */
  datatype Pass = NoPass | Between(rest: seq<Event>) | Awaiting(run: nat, rest: seq<Event>)

  /** `base` holds the recorded turns from before the worker was last started. */
  datatype Machine = Machine(
    line: EL.LaneState,
    tasks: map<nat, Task>,
    bodies: map<nat, Body>,
    pass: Pass,
    db: Tables,
    comments: seq<Comment>,
    h: History,
    base: multiset<nat>)

  const BOOT := Machine(EL.FRESH, map[], map[], NoPass, EMPTY, [], INITIAL.h, multiset{})

  datatype Move =
    | Outside(l: Label)
    | Poll(now: int)
    | EnqueueRow
    | Resume
    | EndPass
    | EnqueueReconcile
    | React(i: nat)
    | Work(i: nat, l: Label)
    | Settle(i: nat)
    | Restart

  // ---------------------------------------------------------------- the protocol's view

  predicate IsOutside(l: Label) {
    l.Ingress? || l.OperatorReset? || l.PostReview? || l.PostOther?
  }

  /** A step of the running body. */
  predicate IsWork(l: Label) {
    l.TurnReturns? || l.Persist? || l.ReadAttempts? || l.WriteAttempts? || l.UpsertNext? || l.UpsertsDone? || l.LaneFails?
  }

  predicate IsWaiting(m: Machine, i: nat) {
    i < |m.line.promises| && m.line.promises[i].progress == EL.Waiting
  }

  /** The task was rejected, or is about to be. */
  predicate IsDead(m: Machine, i: nat) {
    (i < |m.line.promises| && m.line.promises[i].progress == EL.Rejected) || (i in m.bodies && m.bodies[i].Threw?)
  }

  /** The rows a poll pass has still to start. */
  function PollOf(m: Machine): Option<seq<Event>> {
    match m.pass
    case NoPass => None
    case Between(rest) => Some(rest)
    case Awaiting(run, rest) =>
      if IsDead(m, run) then None
      else if IsWaiting(m, run) && run in m.tasks && m.tasks[run].RowTask? then Some([m.tasks[run].row] + rest)
      else Some(rest)
  }

  /** What the protocol sees when the given program position is the one that runs. */
  function View(m: Machine, lane: Lane): State {
    State(m.db, PollOf(m), lane, m.comments, m.h)
  }

  // ---------------------------------------------------------------- moves

  ghost predicate CanMove(m: Machine, mv: Move) {
    match mv
    case Outside(l) => IsOutside(l) && Enabled(View(m, Idle), l)
    case Poll(_) => m.pass.NoPass?
    case EnqueueRow => m.pass.Between? && m.pass.rest != [] && EL.Possible(m.line, EL.Enqueue)
    case Resume => m.pass.Awaiting? && m.pass.run < |m.line.promises| && m.line.promises[m.pass.run].Settled()
    case EndPass => m.pass == Between([])
    case EnqueueReconcile => EL.Possible(m.line, EL.Enqueue)
    case React(i) => MayReact(m, i)
    case Work(i, l) => i in m.bodies && m.bodies[i].Active? && IsWork(l) && Enabled(View(m, m.bodies[i].lane), l)
    case Settle(i) => MaySettle(m, i)
    case Restart => true
  }

  /** The body ends by throwing: a store call failed, or its evaluator threw. */
  predicate Throwing(c: Config, lane: Lane, l: Label) {
    l.LaneFails? || (l.TurnReturns? && RunsTurn(lane) && Judge(c, lane, l.raw).Throws?)
  }

  function AfterWork(c: Config, lane: Lane, l: Label, next: Lane): Body {
    if !next.Idle? then Active(next) else if Throwing(c, lane, l) then Threw else Returned
  }

  function StartOfRow(m: Machine, row: Event): Lane {
    if row.jobType == Review then Reviewing(row, TrustedRevision(m.db, row.issue)) else Executing(row)
  }

  /** Calling the task function: it runs up to its turn. */
  function StartBody(m: Machine, i: nat): Machine
    requires i in m.tasks
  {
    match m.tasks[i]
    case ReconcileTask => m.(bodies := m.bodies[i := Active(Discovering(Execute))])
    case RowTask(row) =>
      var lane := StartOfRow(m, row);
      m.(bodies := m.bodies[i := Active(lane)],
         h := if lane.Reviewing? then m.h.(starts := m.h.starts + {Start(row.id, row.issue, row.cycleId, lane.rev)}) else m.h)
  }

  function Enqueued(m: Machine, task: Task): Machine
    requires EL.Possible(m.line, EL.Enqueue)
  {
    m.(line := EL.Next(m.line, EL.Enqueue), tasks := m.tasks[|m.line.promises| := task])
  }

  predicate MayReact(m: Machine, i: nat) {
    EL.Possible(m.line, EL.React(i)) && (m.line.promises[i].kind == EL.TaskRun ==> i in m.tasks)
  }

  /** A ready reaction runs; that of a task run calls its task function. */
  function Reacted(m: Machine, i: nat): Machine
    requires MayReact(m, i)
  {
    var u := m.(line := EL.Next(m.line, EL.React(i)));
    if m.line.promises[i].kind == EL.TaskRun then StartBody(u, i) else u
  }

  predicate MaySettle(m: Machine, i: nat) {
    i in m.bodies && !m.bodies[i].Active? && i < |m.line.promises|
  }

  /** The promise of a body that is over follows it. */
  function SettledBody(m: Machine, i: nat): Machine
    requires MaySettle(m, i)
  {
    m.(line := EL.WithProgress(m.line, i, if m.bodies[i].Returned? then EL.Fulfilled else EL.Rejected), bodies := m.bodies - {i})
  }

  /** One step of a body. A body that returns has done its persist step. */
  ghost function Worked(c: Config, m: Machine, i: nat, l: Label): Machine
    requires CanMove(m, Work(i, l))
  {
    var u := Step(c, View(m, m.bodies[i].lane), l);
    var body := AfterWork(c, m.bodies[i].lane, l, u.lane);
    m.(db := u.db, h := u.h, bodies := m.bodies[i := body],
       line := if body.Returned? then m.line.(persisted := m.line.persisted + {i}) else m.line)
  }

  ghost function Moved(c: Config, m: Machine, mv: Move): Machine
    requires CanMove(m, mv)
  {
    match mv
    case Outside(l) =>
      var u := Step(c, View(m, Idle), l);
      m.(db := u.db, comments := u.comments, h := u.h)
    case Poll(now) => m.(pass := Between(Eligible(m.db.events, now)))
    case EnqueueRow => Enqueued(m, RowTask(m.pass.rest[0])).(pass := Awaiting(|m.line.promises|, m.pass.rest[1..]))
    case Resume => m.(pass := if m.line.promises[m.pass.run].progress == EL.Fulfilled then Between(m.pass.rest) else NoPass)
    case EndPass => m.(pass := NoPass)
    case EnqueueReconcile => Enqueued(m, ReconcileTask)
    case React(i) => Reacted(m, i)
    case Work(i, l) => Worked(c, m, i, l)
    case Settle(i) => SettledBody(m, i)
    case Restart => m.(line := EL.FRESH, tasks := map[], bodies := map[], pass := NoPass, base := m.h.turns)
  }

  ghost predicate Runnable(c: Config, m: Machine, mvs: seq<Move>)
    decreases |mvs|
  {
    mvs == [] || (CanMove(m, mvs[0]) && Runnable(c, Moved(c, m, mvs[0]), mvs[1..]))
  }

  ghost function After(c: Config, m: Machine, mvs: seq<Move>): Machine
    requires Runnable(c, m, mvs)
    decreases |mvs|
  {
    if mvs == [] then m else After(c, Moved(c, m, mvs[0]), mvs[1..])
  }
}
