/**
 * The exclusive lane: a promise chain to which every task is appended. The event loop may run any ready reaction, and
 * task bodies may settle at any time; the chain alone serializes them.
 */
module ExclusiveLane {
  /** Promise 0 is `Promise.resolve()`; `run = chain.then(taskFn, taskFn)`; `run.then(noop, noop)` becomes the chain. */
  datatype Kind = Root | TaskRun | Link

  datatype Progress = Waiting | Running | Fulfilled | Rejected

  datatype Promise = Promise(kind: Kind, parent: nat, progress: Progress) {
    predicate Settled() {
      progress == Fulfilled || progress == Rejected
    }
  }

  /** `started` and `persisted` record which task bodies have begun and which have finished their persist step. */
  datatype LaneState = LaneState(promises: seq<Promise>, chain: nat, started: seq<nat>, persisted: set<nat>)

  const FRESH := LaneState([Promise(Root, 0, Fulfilled)], 0, [], {})

  datatype Event =
    | Enqueue
    | React(i: nat)               // the reaction registered on a settled parent runs
    | PersistStep(i: nat)         // a running body evaluates and persists its turn
    | Settle(i: nat, ok: bool)    // a running body returns, or throws at any point

  predicate Possible(s: LaneState, e: Event) {
    match e
    case Enqueue => s.chain < |s.promises|
    case React(i) => i < |s.promises| && s.promises[i].progress == Waiting && s.promises[i].parent < |s.promises| && s.promises[s.promises[i].parent].Settled()
    case PersistStep(i) => i < |s.promises| && s.promises[i].progress == Running
    case Settle(i, ok) => i < |s.promises| && s.promises[i].progress == Running && (ok ==> i in s.persisted)
  }

  function WithProgress(s: LaneState, i: nat, p: Progress): LaneState
    requires i < |s.promises|
  {
    s.(promises := s.promises[i := s.promises[i].(progress := p)])
  }

  function Next(s: LaneState, e: Event): LaneState
    requires Possible(s, e)
  {
    match e
    case Enqueue =>
      var run := |s.promises|;
      s.(promises := s.promises + [Promise(TaskRun, s.chain, Waiting), Promise(Link, run, Waiting)], chain := run + 1)
    case React(i) =>
      // the reaction of a link is a no-op that fulfils it; that of a task run calls the task function
      if s.promises[i].kind == TaskRun then WithProgress(s, i, Running).(started := s.started + [i])
      else WithProgress(s, i, Fulfilled)
    case PersistStep(i) => s.(persisted := s.persisted + {i})
    case Settle(i, ok) => WithProgress(s, i, if ok then Fulfilled else Rejected)
  }

  predicate Feasible(s: LaneState, events: seq<Event>)
    decreases |events|
  {
    events == [] || (Possible(s, events[0]) && Feasible(Next(s, events[0]), events[1..]))
  }

  function Execute(s: LaneState, events: seq<Event>): LaneState
    requires Feasible(s, events)
    decreases |events|
  {
    if events == [] then s else Execute(Next(s, events[0]), events[1..])
  }

  // ---------------------------------------------------------------- the object

  class Lane {
    var promises: seq<Promise>
    var chain: nat
    ghost var started: seq<nat>
    ghost var persisted: set<nat>

    ghost function State(): LaneState
      reads this
    {
      LaneState(promises, chain, started, persisted)
    }

    constructor ()
      ensures State() == FRESH
    {
      promises, chain, started, persisted := [Promise(Root, 0, Fulfilled)], 0, [], {};
    }

    /** Appends a task; the chain is reassigned, the returned promise is the task's own. */
    method RunExclusiveTurn() returns (run: nat)
      requires Possible(State(), Enqueue)
      modifies this
      ensures State() == Next(old(State()), Enqueue)
      ensures run == |old(promises)|
    {
      run := |promises|;
      promises := promises + [Promise(TaskRun, chain, Waiting)];
      var continuation := |promises|;
      promises := promises + [Promise(Link, run, Waiting)];
      chain := continuation;
    }

    /** Runs one ready reaction. */
    method RunReaction(i: nat)
      requires Possible(State(), React(i))
      modifies this
      ensures State() == Next(old(State()), React(i))
    {
      if promises[i].kind == TaskRun {
        promises := promises[i := promises[i].(progress := Running)];
        started := started + [i];
      } else {
        promises := promises[i := promises[i].(progress := Fulfilled)];
      }
    }

    /** A running body evaluates and persists its turn; the lane itself does not see it. */
    method PersistTurn(i: nat)
      requires Possible(State(), PersistStep(i))
      modifies this`persisted
      ensures State() == Next(old(State()), PersistStep(i))
    {
      persisted := persisted + {i};
    }

    /** A running body returns or throws. */
    method SettleBody(i: nat, ok: bool)
      requires Possible(State(), Settle(i, ok))
      modifies this
      ensures State() == Next(old(State()), Settle(i, ok))
    {
      promises := promises[i := promises[i].(progress := if ok then Fulfilled else Rejected)];
    }

    /** Drives the lane through any feasible interleaving. */
    method Replay(events: seq<Event>)
      requires Feasible(State(), events)
      modifies this
      ensures State() == Execute(old(State()), events)
    {
      ghost var end := Execute(State(), events);
      for k := 0 to |events|
        invariant Feasible(State(), events[k..]) && Execute(State(), events[k..]) == end
      {
        assert events[k..][0] == events[k] && events[k..][1..] == events[k + 1..];
        match events[k] {
          case Enqueue => var run := RunExclusiveTurn();
          case React(i) => RunReaction(i);
          case PersistStep(i) => PersistTurn(i);
          case Settle(i, ok) => SettleBody(i, ok);
        }
      }
    }

    /** A shutdown after some events, and what it can rely on if it resumes after some more. */
    method ReplayShutdown(before: seq<Event>, after: seq<Event>) returns (resumes: bool)
      requires State() == FRESH && Feasible(FRESH, before) && Feasible(Execute(FRESH, before), after)
      modifies this
      ensures var s := Execute(FRESH, before);
              && State() == Execute(s, after)
              && s.chain < |promises| && resumes == promises[s.chain].Settled()
              && (resumes ==> forall i :: 0 <= i < |s.promises| && s.promises[i].kind == TaskRun ==>
                    i < |promises| && promises[i].Settled() && (promises[i].progress == Fulfilled ==> i in persisted))
    {
      Replay(before);
      var awaited := Shutdown();
      Replay(after);
      ShutdownWaitsForPersistence(before, after);
      resumes := promises[awaited].Settled();
    }

    /** `await chain`, as read at this moment. */
    method Shutdown() returns (awaited: nat)
      ensures awaited == chain
    {
      awaited := chain;
    }
  }

  // ---------------------------------------------------------------- invariant

  /** The promises form one line, alternating task runs and links; nothing past an unsettled promise has begun; tasks
      have begun in the order they were enqueued; a fulfilled task has persisted. */
  ghost predicate Linear(s: LaneState) {
    && |s.promises| % 2 == 1
    && s.chain == |s.promises| - 1
    && s.promises[0] == Promise(Root, 0, Fulfilled)
    && (forall i :: 1 <= i < |s.promises| ==> LinkedAt(s, i))
    && (forall i, j :: 0 <= i < j < |s.promises| && !s.promises[i].Settled() ==> s.promises[j].progress == Waiting)
    && (forall k :: 0 <= k < |s.started| ==> s.started[k] == 2 * k + 1)
    && 2 * |s.started| < |s.promises|
  }

  ghost predicate LinkedAt(s: LaneState, i: nat)
    requires 1 <= i < |s.promises|
  {
    var p := s.promises[i];
    && p.parent == i - 1
    && p.kind == (if i % 2 == 1 then TaskRun else Link)
    && (p.kind == Link ==> p.progress == Waiting || p.progress == Fulfilled)
    && (p.kind == TaskRun ==> (p.progress != Waiting <==> i < 2 * |s.started|))
    && (p.kind == TaskRun && p.progress == Fulfilled ==> i in s.persisted)
  }

  lemma NextLinear(s: LaneState, e: Event)
    requires Linear(s) && Possible(s, e)
    ensures Linear(Next(s, e))
  {
    var u := Next(s, e);
    match e
    case Enqueue => EnqueueLinear(s);
    case React(i) => ReactLinear(s, i);
    case PersistStep(i) =>
      forall j | 1 <= j < |u.promises| ensures LinkedAt(u, j) {
        assert LinkedAt(s, j);
      }
    case Settle(i, ok) => SettleLinear(s, i, ok);
  }

  lemma EnqueueLinear(s: LaneState)
    requires Linear(s)
    ensures Linear(Next(s, Enqueue))
  {
    var u := Next(s, Enqueue);
    forall j | 1 <= j < |u.promises| ensures LinkedAt(u, j) {
      if j < |s.promises| {
        assert LinkedAt(s, j) && u.promises[j] == s.promises[j];
      }
    }
  }

  lemma ReactLinear(s: LaneState, i: nat)
    requires Linear(s) && Possible(s, React(i))
    ensures Linear(Next(s, React(i)))
  {
    var u := Next(s, React(i));
    assert LinkedAt(s, i);
    AllBeforeSettled(s, i - 1);
    if s.promises[i].kind == TaskRun {
      StartedExactly(s, i);
    }
    forall j | 1 <= j < |u.promises| ensures LinkedAt(u, j) {
      assert LinkedAt(s, j);
    }
  }

  lemma SettleLinear(s: LaneState, i: nat, ok: bool)
    requires Linear(s) && Possible(s, Settle(i, ok))
    ensures Linear(Next(s, Settle(i, ok)))
  {
    var u := Next(s, Settle(i, ok));
    assert i > 0 && LinkedAt(s, i);
    forall j | 1 <= j < |u.promises| ensures LinkedAt(u, j) {
      assert LinkedAt(s, j);
    }
  }

  /** Everything before a promise that has begun is settled. */
  lemma AllBeforeSettled(s: LaneState, i: nat)
    requires Linear(s) && i < |s.promises| && s.promises[i].progress != Waiting
    ensures forall j :: 0 <= j < i ==> s.promises[j].Settled()
  {
  }

  /** A ready task run is the next one in enqueue order. */
  lemma StartedExactly(s: LaneState, i: nat)
    requires Linear(s) && Possible(s, React(i)) && s.promises[i].kind == TaskRun
    ensures i == 2 * |s.started| + 1
  {
    assert LinkedAt(s, i);
    if i > 1 {
      assert LinkedAt(s, i - 2) && s.promises[i - 1].Settled();
      AllBeforeSettled(s, i - 1);
    }
  }

  lemma {:induction false} ExecuteLinear(s: LaneState, events: seq<Event>)
    requires Linear(s) && Feasible(s, events)
    ensures Linear(Execute(s, events))
    decreases |events|
  {
    if events != [] {
      NextLinear(s, events[0]);
      ExecuteLinear(Next(s, events[0]), events[1..]);
    }
  }

  // ---------------------------------------------------------------- theorems

  /** For any interleaving of enqueuers, reactions and throwing bodies: at most one task body runs at a time, and bodies
      start in the order their tasks were enqueued. */
  lemma MutualExclusionAndOrder(events: seq<Event>)
    requires Feasible(FRESH, events)
    ensures var s := Execute(FRESH, events);
            && (forall i, j :: 0 <= i < |s.promises| && 0 <= j < |s.promises| && s.promises[i].progress == Running && s.promises[j].progress == Running ==> i == j)
            && (forall k :: 0 <= k < |s.started| ==> s.started[k] == 2 * k + 1)
  {
    ExecuteLinear(FRESH, events);
    var s := Execute(FRESH, events);
    forall i, j | 0 <= i < j < |s.promises| && s.promises[i].progress == Running ensures s.promises[j].progress != Running {
      assert !s.promises[i].Settled();
    }
  }

  /** How much of the line is still to happen. */
  function Remaining(ps: seq<Promise>): nat {
    if ps == [] then 0
    else Remaining(ps[..|ps| - 1]) + (if ps[|ps| - 1].progress == Waiting then 3 else if ps[|ps| - 1].progress == Running then 2 else 0)
  }

  lemma {:induction false} RemainingUpdate(ps: seq<Promise>, i: nat, p: Promise)
    requires i < |ps|
    ensures Remaining(ps[i := p]) == Remaining(ps) - Remaining([ps[i]]) + Remaining([p])
  {
    var n := |ps| - 1;
    assert [ps[i]][..0] == [] && [p][..0] == [];
    if i < n {
      RemainingUpdate(ps[..n], i, p);
      assert ps[i := p][..n] == ps[..n][i := p];
    } else {
      assert ps[i := p][..n] == ps[..n];
    }
  }

  lemma {:induction false} NothingRemaining(ps: seq<Promise>, i: nat)
    requires i < |ps| && !ps[i].Settled()
    ensures Remaining(ps) > 0
  {
    if i < |ps| - 1 {
      NothingRemaining(ps[..|ps| - 1], i);
    }
  }

  /** The first unsettled promise. */
  lemma {:induction false} FirstUnsettled(s: LaneState, n: nat) returns (i: nat)
    requires Linear(s) && n < |s.promises| && !s.promises[n].Settled()
    ensures i <= n && !s.promises[i].Settled() && forall j :: 0 <= j < i ==> s.promises[j].Settled()
  {
    if forall j :: 0 <= j < n ==> s.promises[j].Settled() {
      i := n;
    } else {
      var j :| 0 <= j < n && !s.promises[j].Settled();
      i := FirstUnsettled(s, j);
    }
  }

  /** Every event but an enqueue and a persist step leaves strictly less to happen. */
  lemma ProgressFalls(s: LaneState, e: Event)
    requires Linear(s) && Possible(s, e) && !e.Enqueue? && !e.PersistStep?
    ensures Remaining(Next(s, e).promises) < Remaining(s.promises)
  {
    RemainingUpdate(s.promises, e.i, Next(s, e).promises[e.i]);
    var before, after := [s.promises[e.i]], [Next(s, e).promises[e.i]];
    assert before[..0] == [] && after[..0] == [];
  }

  /** No deadlock: while anything is unsettled, the first unsettled promise is a running body, which may settle, or its
      reaction is ready, whether its predecessor was fulfilled or rejected. */
  lemma RejectionNeverBlocks(s: LaneState, n: nat) returns (e: Event)
    requires Linear(s) && n < |s.promises| && !s.promises[n].Settled()
    ensures e.React? || (e.Settle? && !e.ok)
    ensures e.i <= n && Possible(s, e)
    ensures e.Settle? ==> s.promises[e.i].progress == Running
    ensures Remaining(Next(s, e).promises) < Remaining(s.promises)
  {
    var i := FirstUnsettled(s, n);
    assert i > 0 && LinkedAt(s, i);
    e := if s.promises[i].progress == Running then Settle(i, false) else React(i);
    ProgressFalls(s, e);
  }

  /** Events that are neither enqueues nor persist steps. */
  function Effective(events: seq<Event>): nat {
    if events == [] then 0 else (if events[0].Enqueue? || events[0].PersistStep? then 0 else 1) + Effective(events[1..])
  }

  /** However the events without new tasks are ordered, they are bounded in number, and when none of them is possible any
      more every task has settled. */
  lemma {:induction false} EveryMaximalRunSettles(s: LaneState, events: seq<Event>)
    requires Linear(s) && Feasible(s, events) && Enqueue !in events
    ensures var u := Execute(s, events);
            && Linear(u)
            && Effective(events) + Remaining(u.promises) <= Remaining(s.promises)
            && ((forall e :: Possible(u, e) ==> e.Enqueue? || e.PersistStep?) ==> forall i :: 0 <= i < |u.promises| ==> u.promises[i].Settled())
    decreases |events|
  {
    if events == [] {
      if i :| 0 <= i < |s.promises| && !s.promises[i].Settled() {
        var e := RejectionNeverBlocks(s, i);
      }
    } else {
      var e, u := events[0], Next(s, events[0]);
      NextLinear(s, e);
      EveryMaximalRunSettles(u, events[1..]);
      if e.PersistStep? {
        assert u.promises == s.promises;
      } else {
        ProgressFalls(s, e);
      }
    }
  }

  /** Hence every enqueued task settles in some continuation, even if every body throws. */
  lemma {:induction false} EveryTaskCanSettle(s: LaneState) returns (events: seq<Event>)
    requires Linear(s)
    ensures Feasible(s, events) && Enqueue !in events
    ensures |Execute(s, events).promises| == |s.promises|
    ensures forall i :: 0 <= i < |s.promises| ==> Execute(s, events).promises[i].Settled()
    decreases Remaining(s.promises)
  {
    if n :| 0 <= n < |s.promises| && !s.promises[n].Settled() {
      var e := RejectionNeverBlocks(s, n);
      NextLinear(s, e);
      var rest := EveryTaskCanSettle(Next(s, e));
      events := [e] + rest;
      assert events[1..] == rest;
    } else {
      events := [];
    }
  }

  /** Shutdown: when the chain read at one moment has settled, in any later state, every task enqueued before that moment
      has settled too, and each that did not throw has finished its evaluate-and-persist step. */
  lemma ShutdownWaitsForPersistence(before: seq<Event>, after: seq<Event>)
    requires Feasible(FRESH, before) && Feasible(Execute(FRESH, before), after)
    ensures var s := Execute(FRESH, before);
            var u := Execute(s, after);
            s.chain < |s.promises| <= |u.promises| && (u.promises[s.chain].Settled() ==>
              forall i :: 0 <= i < |s.promises| && s.promises[i].kind == TaskRun ==>
                && u.promises[i].Settled()
                && (u.promises[i].progress == Fulfilled ==> i in u.persisted))
  {
    var s := Execute(FRESH, before);
    var u := Execute(s, after);
    ExecuteLinear(FRESH, before);
    ExecuteLinear(s, after);
    PromisesGrow(s, after);
    if u.promises[s.chain].Settled() {
      AllBeforeSettled(u, s.chain);
      forall i | 0 <= i < |s.promises| && s.promises[i].kind == TaskRun
        ensures u.promises[i].Settled() && (u.promises[i].progress == Fulfilled ==> i in u.persisted)
      {
        assert LinkedAt(s, i) && LinkedAt(u, i);
      }
    }
  }

  lemma {:induction false} PromisesGrow(s: LaneState, events: seq<Event>)
    requires Feasible(s, events)
    ensures |s.promises| <= |Execute(s, events).promises|
    decreases |events|
  {
    if events != [] {
      PromisesGrow(Next(s, events[0]), events[1..]);
    }
  }

  // ---------------------------------------------------------------- what shutdown does not prevent

  /** A body that runs when shutdown reads the chain may still persist its turn and return while shutdown waits. */
  lemma RunningTasksMayPersist(s: LaneState, i: nat)
    requires Linear(s) && i < |s.promises| && s.promises[i].progress == Running && i !in s.persisted
    ensures var after := [PersistStep(i), Settle(i, true)];
            && Feasible(s, after)
            && (var u := Execute(s, after); i in u.persisted && i < |u.promises| && u.promises[i].progress == Fulfilled)
  {
    var u := Next(s, PersistStep(i));
    var w := Next(u, Settle(i, true));
    assert Feasible(w, []) && Execute(w, []) == w;
    assert [Settle(i, true)][1..] == [];
    assert Feasible(u, [Settle(i, true)]) && Execute(u, [Settle(i, true)]) == w;
    assert [PersistStep(i), Settle(i, true)][1..] == [Settle(i, true)];
  }

  lemma StepThen(s: LaneState, e: Event, rest: seq<Event>)
    requires Possible(s, e) && Feasible(Next(s, e), rest)
    ensures Feasible(s, [e] + rest) && Execute(s, [e] + rest) == Execute(Next(s, e), rest)
  {
    assert ([e] + rest)[1..] == rest;
  }

  /** So may any task that is waiting or running. */
  lemma {:induction false} UnsettledTasksMayPersist(s: LaneState, i: nat) returns (after: seq<Event>)
    requires Linear(s) && i < |s.promises| && s.promises[i].kind == TaskRun && !s.promises[i].Settled()
    ensures Feasible(s, after) && Enqueue !in after && i in Execute(s, after).persisted
    decreases Remaining(s.promises)
  {
    if s.promises[i].progress == Running {
      StepThen(s, PersistStep(i), []);
      after := [PersistStep(i)] + [];
    } else {
      var e := RejectionNeverBlocks(s, i);
      NextLinear(s, e);
      var rest := UnsettledTasksMayPersist(Next(s, e), i);
      StepThen(s, e, rest);
      after := [e] + rest;
    }
  }

  /** Every task of the first `n` promises has settled or persisted. */
  ghost predicate AllDecided(s: LaneState, n: nat) {
    forall i :: 0 <= i < n && i < |s.promises| && s.promises[i].kind == TaskRun ==> s.promises[i].Settled() || i in s.persisted
  }

  /** Among the first `n` promises, `u` has persisted no task that `s` had not. */
  ghost predicate PersistsNothingNew(s: LaneState, u: LaneState, n: nat) {
    forall i :: 0 <= i < n && i in u.persisted ==> i in s.persisted
  }

  lemma {:induction false} DecidedStays(s: LaneState, after: seq<Event>, n: nat)
    requires Linear(s) && Feasible(s, after) && n <= |s.promises| && AllDecided(s, n)
    ensures PersistsNothingNew(s, Execute(s, after), n)
    decreases |after|
  {
    if after != [] {
      var u := Next(s, after[0]);
      NextLinear(s, after[0]);
      if after[0].PersistStep? && after[0].i > 0 {
        assert LinkedAt(s, after[0].i);
      }
      forall i | 0 <= i < n && u.promises[i].kind == TaskRun ensures u.promises[i].Settled() || i in u.persisted {
        assert s.promises[i].kind == TaskRun;
      }
      DecidedStays(u, after[1..], n);
    }
  }

  /** What has not been persisted when shutdown reads the chain stays so while it waits exactly when, at that moment, every
      task enqueued before had already settled or persisted. */
  lemma NothingPersistsAfterShutdown(before: seq<Event>)
    requires Feasible(FRESH, before)
    ensures var s := Execute(FRESH, before);
            (forall after :: Feasible(s, after) ==> PersistsNothingNew(s, Execute(s, after), |s.promises|)) <==> AllDecided(s, |s.promises|)
  {
    var s := Execute(FRESH, before);
    ExecuteLinear(FRESH, before);
    if AllDecided(s, |s.promises|) {
      forall after | Feasible(s, after) ensures PersistsNothingNew(s, Execute(s, after), |s.promises|) {
        DecidedStays(s, after, |s.promises|);
      }
    } else {
      var i :| 0 <= i < |s.promises| && s.promises[i].kind == TaskRun && !s.promises[i].Settled() && i !in s.persisted;
      var after := UnsettledTasksMayPersist(s, i);
      assert Feasible(s, after) && !PersistsNothingNew(s, Execute(s, after), |s.promises|);
    }
  }
}
