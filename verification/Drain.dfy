/**
 * Repeated poll passes drain the queue: with turns that return a verdict, every pass that finds all pending rows due
 * spends an attempt of each, so no row stays pending and none is lost.
 */
module Drain {
  import opened Tokens
  import opened ClaudeInvoker
  import opened QueueTables
  import opened StoreFields
  import opened Protocol
  import opened ProtocolInvariant
  import opened WorkerTasks

  // ---------------------------------------------------------------- the measure

  /** The turns a row can still be given before it leaves the queue. */
  function TurnsLeft(c: Config, e: Event): nat {
    if e.status == Pending && e.attemptCount < c.AttemptLimit() then c.AttemptLimit() - e.attemptCount else 0
  }

  function Potential(c: Config, events: seq<Event>): nat {
    if events == [] then 0 else Potential(c, events[..|events| - 1]) + TurnsLeft(c, events[|events| - 1])
  }

  ghost predicate Drainable(c: Config, t: Tables) {
    && IdsMatch(t.events)
    && forall i :: 0 <= i < |t.events| && t.events[i].status == Pending ==> t.events[i].attemptCount < c.AttemptLimit()
  }

  lemma {:induction false} PotentialOfRewrite(c: Config, events: seq<Event>, id: nat, e: Event)
    requires id < |events|
    ensures Potential(c, events[id := e]) + TurnsLeft(c, events[id]) == Potential(c, events) + TurnsLeft(c, e)
  {
    var n := |events| - 1;
    var front := events[..n];
    if id < n {
      PotentialOfRewrite(c, front, id, e);
      assert events[id := e][..n] == front[id := e];
    } else {
      assert events[id := e][..n] == front;
    }
  }

  // ---------------------------------------------------------------- one task, one pass

  /** What a turn with a verdict does to its row: it is delivered, or an attempt is spent, the last one ending it. */
  ghost predicate Processed(c: Config, was: Event, e: Event) {
    && SameIdentity(was, e)
    && if e.status == Delivered then e.attemptCount == was.attemptCount
       else e.attemptCount == was.attemptCount + 1 && e.status == if e.attemptCount == c.AttemptLimit() then NeedsReview else Pending
  }

  lemma TurnIsJudged(c: Config, t: Tables, row: Event, raw: RawResult)
    requires !NullEnvelope(raw)
    ensures !RowVerdict(c, t, row, raw).Throws?
  {
    if row.jobType == Review {
      var rev := TrustedRevision(t, row.issue);
      ReviewGatesSoundAndComplete(raw, c.ExpectedReview(row.issue), rev, c.maxRevisionCycles, ReviewActionToken(row.cycleId, rev));
    } else {
      CompletionGatesSoundAndComplete(raw, c.ExpectedExecution(row.issue));
    }
  }

  lemma TaskEffect(c: Config, t: Tables, row: Event, raw: RawResult, now: int)
    requires Drainable(c, t) && Current(t, row) && !RowVerdict(c, t, row, raw).Throws?
    ensures var u := AfterTask(c, t, row, raw, now);
            && u.deliveries == t.deliveries && u.cycles.Keys == t.cycles.Keys
            && |u.events| == |t.events| && u.events == t.events[row.id := u.events[row.id]]
            && Processed(c, row, u.events[row.id])
  {
    var v := RowVerdict(c, t, row, raw);
    match v {
      case Accepted(structured) => assert t.events[row.id].IsActive();
      case Rejected(reason) =>
    }
  }

  /** After a pass over `rows`, exactly those rows have been processed and every other one is untouched. */
  ghost predicate PassOutcome(c: Config, t: Tables, u: Tables, rows: seq<Event>) {
    && u.deliveries == t.deliveries && u.cycles.Keys == t.cycles.Keys
    && |u.events| == |t.events|
    && forall i :: 0 <= i < |t.events| ==>
         if t.events[i] in rows then Processed(c, t.events[i], u.events[i]) else u.events[i] == t.events[i]
  }

  /** The measure falls by at least one for every row processed. */
  lemma {:induction false} PassEffect(c: Config, t: Tables, rows: seq<Event>, raw: nat -> RawResult, clock: nat -> int, k: nat)
    requires Drainable(c, t) && QueueOk(t, rows) && forall i :: !NullEnvelope(raw(i))
    ensures var u := AfterRows(c, t, rows, raw, clock, k);
            && PassOutcome(c, t, u, rows)
            && Drainable(c, u)
            && Potential(c, u.events) + |rows| <= Potential(c, t.events)
    decreases |rows|
  {
    if rows != [] {
      var row := rows[0];
      var a := AfterTask(c, t, row, raw(k), clock(k));
      assert Current(t, row);
      TurnIsJudged(c, t, row, raw(k));
      TaskEffect(c, t, row, raw(k), clock(k));
      PotentialOfRewrite(c, t.events, row.id, a.events[row.id]);
      TailStaysQueued(t, a, rows);
      PassEffect(c, a, rows[1..], raw, clock, k + 1);
      var u := AfterRows(c, a, rows[1..], raw, clock, k + 1);
      JoinOutcomes(c, t, a, u, rows);
    }
  }

  /** Processing the first listed row leaves the others as they were listed. */
  lemma TailStaysQueued(t: Tables, a: Tables, rows: seq<Event>)
    requires rows != [] && QueueOk(t, rows) && IdsMatch(t.events)
    requires |a.events| == |t.events| && a.events == t.events[rows[0].id := a.events[rows[0].id]]
    ensures QueueOk(a, rows[1..])
  {
    forall i | 0 <= i < |rows[1..]| ensures Current(a, rows[1..][i]) {
      assert rows[1..][i] == rows[i + 1] && Current(t, rows[i + 1]) && rows[0].id < rows[i + 1].id;
    }
  }

  lemma JoinOutcomes(c: Config, t: Tables, a: Tables, u: Tables, rows: seq<Event>)
    requires rows != [] && QueueOk(t, rows) && IdsMatch(t.events) && Current(t, rows[0])
    requires a.deliveries == t.deliveries && a.cycles.Keys == t.cycles.Keys
    requires |a.events| == |t.events| && a.events == t.events[rows[0].id := a.events[rows[0].id]]
    requires Processed(c, rows[0], a.events[rows[0].id]) && PassOutcome(c, a, u, rows[1..])
    ensures PassOutcome(c, t, u, rows)
  {
    var id := rows[0].id;
    forall i | 0 <= i < |t.events|
      ensures if t.events[i] in rows then Processed(c, t.events[i], u.events[i]) else u.events[i] == t.events[i]
    {
      if i == id {
        HeadNotInTail(rows, a.events[id]);
        assert a.events[i] !in rows[1..];
        assert u.events[i] == a.events[i] && t.events[i] == rows[0];
      } else {
        assert a.events[i] == t.events[i];
        assert t.events[i].id == i && t.events[i] != rows[0];
        assert t.events[i] in rows <==> t.events[i] in rows[1..];
      }
    }
  }

  lemma HeadNotInTail(rows: seq<Event>, e: Event)
    requires rows != [] && Increasing(rows) && e.id == rows[0].id
    ensures e !in rows[1..]
  {
    forall i | 0 <= i < |rows[1..]| ensures rows[1..][i] != e {
      assert rows[1..][i] == rows[i + 1];
    }
  }

  // ---------------------------------------------------------------- many passes

  /** Turn results and clock readings of a series of passes, and the time at which each lists its rows. */
  datatype Schedule = Schedule(now: nat -> int, raw: nat -> nat -> RawResult, clock: nat -> nat -> int)

  /** No turn of the schedule makes its evaluator throw. */
  ghost predicate AllJudged(p: Schedule) {
    forall k, i :: !NullEnvelope(p.raw(k)(i))
  }

  function Pass(c: Config, t: Tables, p: Schedule, k: nat): Tables {
    AfterRows(c, t, Eligible(t.events, p.now(k)), p.raw(k), p.clock(k), 0)
  }

  /** `ts[k]` are the tables after `k` passes with nothing in between. */
  ghost predicate Passes(c: Config, p: Schedule, ts: seq<Tables>) {
    ts != [] && forall k: nat :: k + 1 < |ts| ==> ts[k + 1] == Pass(c, ts[k], p, k)
  }

  /** How many rows the first `n` passes listed. */
  function Work(ts: seq<Tables>, now: nat -> int, n: nat): nat
    requires n <= |ts|
  {
    if n == 0 then 0 else Work(ts, now, n - 1) + |Eligible(ts[n - 1].events, now(n - 1))|
  }

  /** Every pending row is past its backoff. */
  ghost predicate AllDue(t: Tables, now: int) {
    forall i :: 0 <= i < |t.events| && t.events[i].status == Pending ==> t.events[i].nextAttemptAt <= now
  }

  /** A row that was not pending is as it was; no row changes identity. */
  ghost predicate Kept(was: Event, e: Event) {
    SameIdentity(was, e) && (was.status != Pending ==> e == was)
  }

  ghost predicate NoneLost(t: Tables, u: Tables) {
    && u.deliveries == t.deliveries
    && |u.events| == |t.events|
    && forall i :: 0 <= i < |t.events| ==> Kept(t.events[i], u.events[i])
  }

  /** `PassOutcome` for the rows that are due. */
  ghost predicate PassOverDue(c: Config, t: Tables, u: Tables, now: int) {
    && u.deliveries == t.deliveries
    && |u.events| == |t.events|
    && forall i :: 0 <= i < |t.events| ==>
         if IsEligible(t.events[i], now) then Processed(c, t.events[i], u.events[i]) else u.events[i] == t.events[i]
  }

  lemma KeptThroughPass(c: Config, t: Tables, a: Tables, u: Tables, now: int)
    requires NoneLost(t, a) && PassOverDue(c, a, u, now)
    ensures NoneLost(t, u)
  {
    forall i | 0 <= i < |t.events| ensures Kept(t.events[i], u.events[i]) {
      assert Kept(t.events[i], a.events[i]);
    }
  }

  lemma SpentThroughPass(c: Config, a: Tables, u: Tables, now: int, i: nat)
    requires PassOverDue(c, a, u, now) && AllDue(a, now)
    requires i < |u.events| && u.events[i].status == Pending
    ensures IsEligible(a.events[i], now) && Processed(c, a.events[i], u.events[i])
  {
  }

  /** What the evaluators leave of a pass: due rows are processed, the others untouched, and each costs a turn. */
  ghost predicate PassSpec(c: Config, t: Tables, u: Tables, now: int) {
    && PassOverDue(c, t, u, now)
    && (Drainable(c, t) ==> Drainable(c, u))
    && Cheaper(c, t, u, now)
  }

  ghost predicate Cheaper(c: Config, t: Tables, u: Tables, now: int) {
    Potential(c, u.events) + |Eligible(t.events, now)| <= Potential(c, t.events)
  }

  lemma OnePass(c: Config, t: Tables, p: Schedule, k: nat)
    requires Drainable(c, t) && AllJudged(p)
    ensures PassSpec(c, t, Pass(c, t, p, k), p.now(k))
  {
    EligibleRows(t.events, p.now(k));
    EligibleOrdered(t.events, p.now(k));
    PassEffect(c, t, Eligible(t.events, p.now(k)), p.raw(k), p.clock(k), 0);
  }

  ghost predicate Chain(c: Config, ts: seq<Tables>, now: nat -> int) {
    ts != [] && forall k: nat {:trigger now(k)} :: k + 1 < |ts| ==> PassSpec(c, ts[k], ts[k + 1], now(k))
  }

  lemma {:induction false} PassesFormChain(c: Config, p: Schedule, ts: seq<Tables>, n: nat)
    requires AllJudged(p) && Passes(c, p, ts) && n < |ts| && Drainable(c, ts[0])
    ensures Chain(c, ts[..n + 1], p.now) && Drainable(c, ts[n])
  {
    if n > 0 {
      PassesFormChain(c, p, ts, n - 1);
      assert ts[..n][n - 1] == ts[n - 1];
      assert ts[n] == Pass(c, ts[n - 1], p, n - 1);
      OnePass(c, ts[n - 1], p, n - 1);
      ExtendChain(c, ts, p.now, n);
    }
  }

  lemma ExtendChain(c: Config, ts: seq<Tables>, now: nat -> int, n: nat)
    requires 0 < n < |ts| && Chain(c, ts[..n], now) && PassSpec(c, ts[n - 1], ts[n], now(n - 1))
    ensures Chain(c, ts[..n + 1], now)
  {
    forall k: nat | k < n ensures PassSpec(c, ts[k], ts[k + 1], now(k)) {
      if k + 1 < n {
        assert PassSpec(c, ts[..n][k], ts[..n][k + 1], now(k));
      }
    }
  }

  lemma {:induction false} ChainKeeps(c: Config, ts: seq<Tables>, now: nat -> int, n: nat)
    requires Chain(c, ts, now) && n < |ts|
    ensures NoneLost(ts[0], ts[n])
  {
    if n > 0 {
      ChainKeeps(c, ts, now, n - 1);
      KeptThroughPass(c, ts[0], ts[n - 1], ts[n - 1 + 1], now(n - 1));
    }
  }

  lemma {:induction false} ChainWorks(c: Config, ts: seq<Tables>, now: nat -> int, n: nat)
    requires Chain(c, ts, now) && n < |ts|
    ensures Potential(c, ts[n].events) + Work(ts, now, n) <= Potential(c, ts[0].events)
  {
    if n > 0 {
      ChainWorks(c, ts, now, n - 1);
      assert Cheaper(c, ts[n - 1], ts[n - 1 + 1], now(n - 1));
    }
  }

  /** After `n` passes past the backoff times, a row is still pending only if it has spent `n` attempts. */
  lemma {:induction false} ChainSpends(c: Config, ts: seq<Tables>, now: nat -> int, n: nat)
    requires Chain(c, ts, now) && n < |ts|
    requires forall k: nat :: k < n ==> AllDue(ts[k], now(k))
    ensures forall i :: 0 <= i < |ts[n].events| && ts[n].events[i].status == Pending ==> ts[n].events[i].attemptCount >= n
  {
    if n > 0 {
      var a, u := ts[n - 1], ts[n];
      ChainSpends(c, ts, now, n - 1);
      assert PassSpec(c, a, ts[n - 1 + 1], now(n - 1));
      forall i | 0 <= i < |u.events| && u.events[i].status == Pending ensures u.events[i].attemptCount >= n {
        assert i < |a.events|;
        SpentThroughPass(c, a, u, now(n - 1), i);
      }
    }
  }

  /** However the passes are timed, they process no more rows in all than the measure allowed at the start, and lose none. */
  lemma WorkIsBounded(c: Config, p: Schedule, ts: seq<Tables>)
    requires AllJudged(p) && Passes(c, p, ts) && Drainable(c, ts[0])
    ensures var n := |ts| - 1; NoneLost(ts[0], ts[n]) && Work(ts, p.now, n) <= Potential(c, ts[0].events)
  {
    PassesFormChain(c, p, ts, |ts| - 1);
    assert ts[..|ts|] == ts;
    ChainKeeps(c, ts, p.now, |ts| - 1);
    ChainWorks(c, ts, p.now, |ts| - 1);
  }

  /** As many passes past the backoff times as a row has attempts leave every row delivered or needing review. */
  lemma Drains(c: Config, p: Schedule, ts: seq<Tables>)
    requires AllJudged(p) && Passes(c, p, ts) && Drainable(c, ts[0])
    requires |ts| > c.AttemptLimit() && forall k: nat :: k + 1 < |ts| ==> AllDue(ts[k], p.now(k))
    ensures var u := ts[|ts| - 1];
            && NoneLost(ts[0], u)
            && forall i :: 0 <= i < |u.events| ==> u.events[i].status == Delivered || u.events[i].status == NeedsReview
  {
    var n := |ts| - 1;
    PassesFormChain(c, p, ts, n);
    assert ts[..|ts|] == ts;
    ChainKeeps(c, ts, p.now, n);
    ChainSpends(c, ts, p.now, n);
    assert Drainable(c, ts[n]);
  }

  // ---------------------------------------------------------------- due by the clock

  /** Each pass begins a full backoff after the clock readings of the one before. */
  ghost predicate Spaced(c: Config, p: Schedule) {
    forall k: nat, i: nat :: p.clock(k)(i) + c.maxBackoffMs <= p.now(k + 1)
  }

  lemma RetryIsCapped(c: Config, t: Tables, row: Event, raw: RawResult, now: int)
    requires Drainable(c, t) && Current(t, row) && !RowVerdict(c, t, row, raw).Throws?
    ensures var e := AfterTask(c, t, row, raw, now).events;
            row.id < |e| && (e[row.id].status == Pending ==> e[row.id].nextAttemptAt <= now + c.maxBackoffMs)
  {
    var v := RowVerdict(c, t, row, raw);
    match v {
      case Accepted(structured) => assert t.events[row.id].IsActive();
      case Rejected(reason) =>
    }
  }

  /** Those of the rows that are still pending are due. */
  ghost predicate DueAmong(rows: seq<Event>, events: seq<Event>, latest: int) {
    forall row :: row in rows ==> DueAt(row.id, events, latest)
  }

  ghost predicate DueAt(id: nat, events: seq<Event>, latest: int) {
    id < |events| && events[id].status == Pending ==> events[id].nextAttemptAt <= latest
  }

  /** What a pass leaves pending is due a full backoff after its clock readings. */
  lemma {:induction false} RetriesAreDue(c: Config, t: Tables, rows: seq<Event>, raw: nat -> RawResult, clock: nat -> int, k: nat, latest: int)
    requires Drainable(c, t) && QueueOk(t, rows) && forall i :: !NullEnvelope(raw(i))
    requires forall i :: clock(i) + c.maxBackoffMs <= latest
    ensures DueAmong(rows, AfterRows(c, t, rows, raw, clock, k).events, latest)
    decreases |rows|
  {
    if rows != [] {
      var a := AfterTask(c, t, rows[0], raw(k), clock(k));
      HeadIsDue(c, t, rows, raw(k), clock(k), latest);
      RetriesAreDue(c, a, rows[1..], raw, clock, k + 1, latest);
      PassEffect(c, a, rows[1..], raw, clock, k + 1);
      HeadStaysDue(c, a, AfterRows(c, a, rows[1..], raw, clock, k + 1), rows, latest);
    }
  }

  lemma HeadIsDue(c: Config, t: Tables, rows: seq<Event>, raw: RawResult, now: int, latest: int)
    requires Drainable(c, t) && QueueOk(t, rows) && rows != [] && !NullEnvelope(raw) && now + c.maxBackoffMs <= latest
    ensures !RowVerdict(c, t, rows[0], raw).Throws?
    ensures var a := AfterTask(c, t, rows[0], raw, now);
            && Drainable(c, a) && QueueOk(a, rows[1..])
            && rows[0].id < |a.events| && a.events[rows[0].id].id == rows[0].id && DueAt(rows[0].id, a.events, latest)
  {
    assert Current(t, rows[0]);
    TurnIsJudged(c, t, rows[0], raw);
    TaskEffect(c, t, rows[0], raw, now);
    RetryIsCapped(c, t, rows[0], raw, now);
    TailStaysQueued(t, AfterTask(c, t, rows[0], raw, now), rows);
  }

  /** The rest of a pass leaves its first row alone. */
  lemma HeadStaysDue(c: Config, a: Tables, u: Tables, rows: seq<Event>, latest: int)
    requires rows != [] && Increasing(rows) && rows[0].id < |a.events| && a.events[rows[0].id].id == rows[0].id && PassOutcome(c, a, u, rows[1..])
    requires DueAt(rows[0].id, a.events, latest) && DueAmong(rows[1..], u.events, latest)
    ensures DueAmong(rows, u.events, latest)
  {
    HeadNotInTail(rows, a.events[rows[0].id]);
    assert rows == [rows[0]] + rows[1..];
  }

  lemma PassLeavesDue(c: Config, t: Tables, p: Schedule, k: nat)
    requires Drainable(c, t) && AllJudged(p) && Spaced(c, p) && AllDue(t, p.now(k))
    ensures AllDue(Pass(c, t, p, k), p.now(k + 1))
  {
    var rows, u := Eligible(t.events, p.now(k)), Pass(c, t, p, k);
    OnePass(c, t, p, k);
    EligibleRows(t.events, p.now(k));
    EligibleOrdered(t.events, p.now(k));
    forall i ensures p.clock(k)(i) + c.maxBackoffMs <= p.now(k + 1) {
    }
    RetriesAreDue(c, t, rows, p.raw(k), p.clock(k), 0, p.now(k + 1));
    forall i | 0 <= i < |u.events| && u.events[i].status == Pending ensures u.events[i].nextAttemptAt <= p.now(k + 1) {
      SpentThroughPass(c, t, u, p.now(k), i);
      assert t.events[i] in t.events && t.events[i] in rows && t.events[i].id == i;
      assert DueAt(t.events[i].id, u.events, p.now(k + 1));
    }
  }

  lemma {:induction false} SpacedPassesAreDue(c: Config, p: Schedule, ts: seq<Tables>, n: nat)
    requires AllJudged(p) && Passes(c, p, ts) && Drainable(c, ts[0]) && Spaced(c, p) && AllDue(ts[0], p.now(0)) && n < |ts|
    ensures AllDue(ts[n], p.now(n))
  {
    if n > 0 {
      SpacedPassesAreDue(c, p, ts, n - 1);
      PassesFormChain(c, p, ts, n - 1);
      assert ts[n - 1 + 1] == Pass(c, ts[n - 1], p, n - 1);
      PassLeavesDue(c, ts[n - 1], p, n - 1);
    }
  }

  /** Passes a full backoff apart, the first of which finds every pending row due, drain the queue after as many passes as a
      row has attempts. */
  lemma SpacedPassesDrain(c: Config, p: Schedule, ts: seq<Tables>)
    requires AllJudged(p) && Passes(c, p, ts) && Drainable(c, ts[0])
    requires Spaced(c, p) && AllDue(ts[0], p.now(0)) && |ts| > c.AttemptLimit()
    ensures var u := ts[|ts| - 1];
            && NoneLost(ts[0], u)
            && forall i :: 0 <= i < |u.events| ==> u.events[i].status == Delivered || u.events[i].status == NeedsReview
  {
    forall k: nat | k + 1 < |ts| ensures AllDue(ts[k], p.now(k)) {
      SpacedPassesAreDue(c, p, ts, k);
    }
    Drains(c, p, ts);
  }

  // ---------------------------------------------------------------- a row that is never judged

  /** From row `id` on, the tables are as they were. */
  ghost predicate SameFrom(t: Tables, u: Tables, id: nat) {
    |u.events| == |t.events| && forall j :: id <= j < |t.events| ==> u.events[j] == t.events[j]
  }

  lemma OneTaskOnly(c: Config, t: Tables, row: Event, raw: RawResult, now: int, id: nat)
    requires row.id < id
    ensures SameFrom(t, AfterTask(c, t, row, raw, now), id)
  {
  }

  lemma NullThrows(c: Config, t: Tables, row: Event, raw: RawResult)
    requires NullEnvelope(raw)
    ensures RowVerdict(c, t, row, raw).Throws?
  {
    if row.jobType == Review {
      var rev := TrustedRevision(t, row.issue);
      ReviewGatesSoundAndComplete(raw, c.ExpectedReview(row.issue), rev, c.maxRevisionCycles, ReviewActionToken(row.cycleId, rev));
    } else {
      CompletionGatesSoundAndComplete(raw, c.ExpectedExecution(row.issue));
    }
  }

  /** A pass that reaches row `id`, whose turn prints `null`, ends there. */
  lemma {:induction false} PassStopsAt(c: Config, t: Tables, rows: seq<Event>, raw: nat -> RawResult, clock: nat -> int, k: nat, id: nat, i: nat)
    requires Increasing(rows) && i < |rows| && rows[i].id == id && NullEnvelope(raw(k + i))
    ensures SameFrom(t, AfterRows(c, t, rows, raw, clock, k), id)
    decreases |rows|
  {
    if i == 0 {
      NullThrows(c, t, rows[0], raw(k));
    } else if !RowVerdict(c, t, rows[0], raw(k)).Throws? {
      assert rows[0].id < rows[i].id;
      OneTaskOnly(c, t, rows[0], raw(k), clock(k), id);
      assert rows[1..][i - 1] == rows[i];
      PassStopsAt(c, AfterTask(c, t, rows[0], raw(k), clock(k)), rows[1..], raw, clock, k + 1, id, i - 1);
    }
  }

  /** Every turn that row `id` is given prints `null`. */
  ghost predicate NeverJudged(p: Schedule, ts: seq<Tables>, id: nat) {
    forall k, i :: 0 <= k < |ts| && 0 <= i < |Eligible(ts[k].events, p.now(k))| && Eligible(ts[k].events, p.now(k))[i].id == id ==>
      NullEnvelope(p.raw(k)(i))
  }

  /** One pass over a queue in which such a row is due. */
  lemma BlockedPass(c: Config, t: Tables, p: Schedule, k: nat, id: nat)
    requires IdsMatch(t.events) && id < |t.events| && IsEligible(t.events[id], p.now(k))
    requires forall i :: 0 <= i < |Eligible(t.events, p.now(k))| && Eligible(t.events, p.now(k))[i].id == id ==> NullEnvelope(p.raw(k)(i))
    ensures SameFrom(t, Pass(c, t, p, k), id) && IdsMatch(Pass(c, t, p, k).events)
  {
    var rows := Eligible(t.events, p.now(k));
    EligibleRows(t.events, p.now(k));
    EligibleOrdered(t.events, p.now(k));
    assert t.events[id] in t.events;
    var i :| 0 <= i < |rows| && rows[i] == t.events[id];
    PassStopsAt(c, t, rows, p.raw(k), p.clock(k), 0, id, i);
    RowsKeepIds(c, t, rows, p.raw(k), p.clock(k), 0);
  }

  lemma SameFromThen(t: Tables, a: Tables, u: Tables, id: nat)
    requires SameFrom(t, a, id) && SameFrom(a, u, id)
    ensures SameFrom(t, u, id)
  {
  }

  /** Such a row, once due, blocks the queue: however many passes follow, it keeps its attempt count and stays eligible, and
      neither it nor any row after it is ever processed. */
  lemma {:induction false} UnjudgedRowBlocks(c: Config, p: Schedule, ts: seq<Tables>, id: nat, n: nat)
    requires Passes(c, p, ts) && IdsMatch(ts[0].events) && id < |ts[0].events| && NeverJudged(p, ts, id) && n < |ts|
    requires ts[0].events[id].status == Pending && forall k: nat :: k < |ts| ==> ts[0].events[id].nextAttemptAt <= p.now(k)
    ensures SameFrom(ts[0], ts[n], id) && IsEligible(ts[n].events[id], p.now(n))
    ensures IdsMatch(ts[n].events)
  {
    if n > 0 {
      UnjudgedRowBlocks(c, p, ts, id, n - 1);
      BlockedPass(c, ts[n - 1], p, n - 1, id);
      assert ts[n - 1 + 1] == Pass(c, ts[n - 1], p, n - 1);
      SameFromThen(ts[0], ts[n - 1], ts[n], id);
    }
  }

  lemma {:induction false} RowsKeepIds(c: Config, t: Tables, rows: seq<Event>, raw: nat -> RawResult, clock: nat -> int, k: nat)
    requires IdsMatch(t.events)
    ensures IdsMatch(AfterRows(c, t, rows, raw, clock, k).events)
    decreases |rows|
  {
    if rows != [] && !RowVerdict(c, t, rows[0], raw(k)).Throws? {
      TaskKeepsIds(c, t, rows[0], raw(k), clock(k));
      RowsKeepIds(c, AfterTask(c, t, rows[0], raw(k), clock(k)), rows[1..], raw, clock, k + 1);
    }
  }

  lemma TaskKeepsIds(c: Config, t: Tables, row: Event, raw: RawResult, now: int)
    requires IdsMatch(t.events)
    ensures IdsMatch(AfterTask(c, t, row, raw, now).events)
  {
  }

  /** The queue of every reachable state can be drained. */
  lemma ReachableQueuesDrain(c: Config, s: State)
    requires Inv(c, s)
    ensures Drainable(c, s.db)
  {
    forall i | 0 <= i < |s.db.events| && s.db.events[i].status == Pending ensures s.db.events[i].attemptCount < c.AttemptLimit() {
      assert LedgerOk(c, s.h, s.db.events[i]);
    }
  }
}
