/**
 * What the invariant gives for whole runs: the claims the source's comments make about the queue, the review cycle
 * and the worker, for every interleaving of ingress, reconciliation, polling, failures and crashes.
 */
module ProtocolTheorems {
  import opened Json
  import opened Tokens
  import opened QueueTables
  import opened Protocol
  import opened ProtocolInvariant
  import opened TablesPreserved
  import opened ProtocolProof

  // ---------------------------------------------------------------- active rows

  /** At most one active row per issue, none for a finished cycle; every row carries its issue's cycle id; and rows map
      one-to-one into deliveries accepted for their issue. */
  ghost predicate ActiveRowsUnique(t: Tables) {
    && (forall i, j :: 0 <= i < |t.events| && 0 <= j < |t.events| && t.events[i].IsActive() && t.events[j].IsActive() && t.events[i].issue == t.events[j].issue ==> i == j)
    && (forall i :: 0 <= i < |t.events| && IsTerminal(t, t.events[i].issue) ==> t.events[i].status == Delivered)
    && (forall i :: 0 <= i < |t.events| ==> t.events[i].issue in t.cycles && t.events[i].cycleId == t.cycles[t.events[i].issue].cycleId)
    && (forall i :: 0 <= i < |t.events| ==>
          && t.events[i].deliveryId in t.deliveries
          && t.deliveries[t.events[i].deliveryId].outcome == AcceptedDelivery
          && t.deliveries[t.events[i].deliveryId].issue == Some(t.events[i].issue))
    && (forall i, j :: 0 <= i < |t.events| && 0 <= j < |t.events| && t.events[i].deliveryId == t.events[j].deliveryId ==> i == j)
  }

  lemma ActiveRows(t: Tables)
    requires TablesInv(t)
    ensures ActiveRowsUnique(t)
  {
    forall i | 0 <= i < |t.events| ensures RowOk(t, t.events[i]) {
    }
    forall i, j | 0 <= i < |t.events| && 0 <= j < |t.events| && t.events[i].IsActive() && t.events[j].IsActive() && t.events[i].issue == t.events[j].issue
      ensures i == j
    {
      OthersInactive(t, i, j);
    }
  }

  // ---------------------------------------------------------------- snapshots

  /** Whenever the worker holds a row, from the poll that listed it to the write that finishes it, the durable row is
      still exactly that one and pending; a running review's cycle exists and its trusted count and cycle id are still
      the durable ones. The same holds of every row still waiting in the poll pass. */
  ghost predicate SnapshotsExact(s: State) {
    && (s.lane.HoldsRow() ==> Current(s.db, s.lane.row))
    && (s.poll.Some? ==> forall row :: row in s.poll.value ==> Current(s.db, row))
    && (s.lane.Reviewing? || s.lane.FinishingReview? ==>
          && s.lane.row.issue in s.db.cycles
          && s.db.cycles[s.lane.row.issue].status == ActiveCycle
          && s.db.cycles[s.lane.row.issue].revisionCount == s.lane.rev
          && s.db.cycles[s.lane.row.issue].cycleId == s.lane.row.cycleId)
    && (s.lane.WritingFailure? ==> s.db.events[s.lane.row.id].attemptCount == s.lane.seen)
  }

  lemma SnapshotsAreStable(c: Config, s: State)
    requires Inv(c, s)
    ensures SnapshotsExact(s)
  {
    if s.lane.Reviewing? || s.lane.FinishingReview? {
      assert RowOk(s.db, s.db.events[s.lane.row.id]);
    }
  }

  // ---------------------------------------------------------------- exactly-once review decisions

  /** Each revision round finalized before position `j` has pushed the count past its own. */
  lemma {:induction false} RevisionsGrow(fs: seq<Final>, i: nat, j: nat)
    requires i < j <= |fs| && fs[i].outcome == RevisionRequired
    ensures Revisions(fs[..i], fs[i].issue) < Revisions(fs[..j], fs[i].issue)
  {
    assert fs[..j][..j - 1] == fs[..j - 1];
    if i < j - 1 {
      RevisionsGrow(fs, i, j - 1);
    }
  }

  /** A finalized decision lies strictly before any later decision of its issue. */
  lemma FinalBeforeFinal(c: Config, t: Tables, fs: seq<Final>, i: nat, j: nat)
    requires FinalsInv(c, t, fs) && i < j < |fs| && fs[i].issue == fs[j].issue
    ensures fs[i].rev < fs[j].rev
  {
    assert FinalOk(t, fs, i) && FinalOk(t, fs, j);
    RevisionsGrow(fs, i, j);
  }

  lemma FinalBeforeActive(c: Config, t: Tables, fs: seq<Final>, i: nat)
    requires TablesInv(t) && FinalsInv(c, t, fs) && i < |fs| && HasActiveEvent(t, fs[i].issue)
    ensures fs[i].rev < TrustedRevision(t, fs[i].issue)
  {
    assert FinalOk(t, fs, i);
    var k :| 0 <= k < |t.events| && t.events[k].issue == fs[i].issue && t.events[k].IsActive();
    assert RowOk(t, t.events[k]);
    RevisionsGrow(fs, i, |fs|);
    assert fs[..|fs|] == fs;
    assert CountsOk(c, t, fs, fs[i].issue);
  }

  lemma StartedRowsDiffer(c: Config, t: Tables, h: History, a: Start, b: Start)
    requires TablesInv(t) && FinalsInv(c, t, h.finals) && StartsInv(t, h)
    requires a in h.starts && b in h.starts && a.id != b.id && a.issue == b.issue
    ensures a.rev != b.rev
  {
    assert StartOk(t, h.finals, a) && StartOk(t, h.finals, b);
    if t.events[a.id].IsActive() {
      OthersInactive(t, a.id, b.id);
      ActiveVersusDone(c, t, h, a, b);
    } else if t.events[b.id].IsActive() {
      ActiveVersusDone(c, t, h, b, a);
    } else {
      assert HasFinal(h.finals, a.id) && HasFinal(h.finals, b.id);
      var i :| 0 <= i < |h.finals| && h.finals[i].id == a.id;
      var j :| 0 <= j < |h.finals| && h.finals[j].id == b.id;
      assert FinalOk(t, h.finals, i) && FinalOk(t, h.finals, j);
      if i < j {
        FinalBeforeFinal(c, t, h.finals, i, j);
      } else {
        FinalBeforeFinal(c, t, h.finals, j, i);
      }
    }
  }

  lemma ActiveVersusDone(c: Config, t: Tables, h: History, a: Start, b: Start)
    requires TablesInv(t) && FinalsInv(c, t, h.finals) && StartsInv(t, h)
    requires a in h.starts && b in h.starts && a.issue == b.issue
    requires a.id < |t.events| && b.id < |t.events| && t.events[a.id].IsActive() && !t.events[b.id].IsActive()
    ensures b.rev < a.rev
  {
    assert StartOk(t, h.finals, a) && StartOk(t, h.finals, b);
    assert HasFinal(h.finals, b.id);
    var j :| 0 <= j < |h.finals| && h.finals[j].id == b.id;
    assert FinalOk(t, h.finals, j);
    FinalBeforeActive(c, t, h.finals, j);
  }

  lemma SameRowSameDecision(c: Config, t: Tables, h: History, a: Start, b: Start)
    requires TablesInv(t) && FinalsInv(c, t, h.finals) && StartsInv(t, h)
    requires a in h.starts && b in h.starts && a.id == b.id
    ensures a == b
  {
    assert StartOk(t, h.finals, a) && StartOk(t, h.finals, b);
    if !t.events[a.id].IsActive() {
      assert HasFinal(h.finals, a.id);
      var i :| 0 <= i < |h.finals| && h.finals[i].id == a.id;
    }
  }

  lemma SameTokenSameStart(c: Config, t: Tables, h: History, a: Start, b: Start)
    requires TablesInv(t) && FinalsInv(c, t, h.finals) && StartsInv(t, h)
    requires a in h.starts && b in h.starts && a.Token() == b.Token()
    ensures a == b
  {
    TokenInjective(a.cycleId, a.rev, b.cycleId, b.rev);
    assert StartOk(t, h.finals, a) && StartOk(t, h.finals, b);
    assert RowOk(t, t.events[a.id]) && RowOk(t, t.events[b.id]) && CyclesInv(t);
    if a.id != b.id {
      StartedRowsDiffer(c, t, h, a, b);
    } else {
      SameRowSameDecision(c, t, h, a, b);
    }
  }

  /** All turns ever started for one review row compute the same decision; no two review rows share a token; a row is
      finalized at most once, with a decision that was started. */
  ghost predicate ExactlyOnce(h: History) {
    && (forall a, b :: a in h.starts && b in h.starts && a.id == b.id ==> a == b)
    && (forall a, b :: a in h.starts && b in h.starts && a.Token() == b.Token() ==> a == b)
    && (forall i, j :: 0 <= i < j < |h.finals| ==> h.finals[i].id != h.finals[j].id && h.finals[i].Token() != h.finals[j].Token())
    && (forall i :: 0 <= i < |h.finals| ==> StartOf(h.finals[i]) in h.starts)
  }

  lemma ExactlyOnceDecisions(c: Config, t: Tables, h: History)
    requires TablesInv(t) && FinalsInv(c, t, h.finals) && StartsInv(t, h)
    ensures ExactlyOnce(h)
  {
    forall a, b | a in h.starts && b in h.starts && a.id == b.id ensures a == b {
      SameRowSameDecision(c, t, h, a, b);
    }
    forall a, b | a in h.starts && b in h.starts && a.Token() == b.Token() ensures a == b {
      SameTokenSameStart(c, t, h, a, b);
    }
    forall i, j | 0 <= i < j < |h.finals| ensures h.finals[i].Token() != h.finals[j].Token() {
      var a, b := StartOf(h.finals[i]), StartOf(h.finals[j]);
      assert a in h.starts && b in h.starts && a.id != b.id;
      assert a.Token() == h.finals[i].Token() && b.Token() == h.finals[j].Token();
    }
  }

  /** A review decision of issue `x` commits: it is recorded, it finds the cycle active at its own revision count, and
      its outcome is what happens to the cycle. */
  ghost predicate CommitsDecision(s: State, u: State, l: Label, x: string) {
    && l.Persist? && s.lane.FinishingReview? && s.lane.outcome.Some?
    && Deciding(s.lane).issue == x
    && u.h.finals == s.h.finals + [Deciding(s.lane)]
    && x in s.db.cycles && x in u.db.cycles
    && s.db.cycles[x].status == ActiveCycle
    && s.db.cycles[x].revisionCount == Deciding(s.lane).rev
    && u.db.cycles[x] == AfterOutcome(s.db.cycles[x], Deciding(s.lane).outcome, l.now)
  }

  lemma CommitIsExact(c: Config, s: State, now: int, x: string)
    requires Inv(c, s) && s.lane.FinishingReview? && x in s.db.cycles
    ensures CommitsDecision(s, PersistTurn(s, now), Persist(now), s.lane.row.issue)
    ensures x != s.lane.row.issue ==> x in PersistTurn(s, now).db.cycles && PersistTurn(s, now).db.cycles[x] == s.db.cycles[x]
  {
    assert RowOk(s.db, s.db.events[s.lane.row.id]);
  }

  lemma OtherStepsKeepCycles(c: Config, s: State, l: Label, x: string)
    requires Enabled(s, l) && x in s.db.cycles && !(l.Persist? && s.lane.FinishingReview?)
    ensures Step(c, s, l).h.finals == s.h.finals
    ensures x in Step(c, s, l).db.cycles && Step(c, s, l).db.cycles[x] == s.db.cycles[x]
  {
  }

  /** A decision changes its cycle exactly once: recording a finalization and altering an existing cycle are one and the
      same step, and nothing else alters a cycle or removes one. */
  lemma CyclesChangeByFinalization(c: Config, s: State, l: Label, x: string)
    requires Inv(c, s) && Enabled(s, l) && x in s.db.cycles
    ensures var u := Step(c, s, l);
            && x in u.db.cycles
            && (u.db.cycles[x] != s.db.cycles[x] ==> CommitsDecision(s, u, l, x))
            && (u.h.finals != s.h.finals ==> CommitsDecision(s, u, l, s.lane.row.issue))
  {
    if l.Persist? && s.lane.FinishingReview? {
      CommitIsExact(c, s, l.now, x);
    } else {
      OtherStepsKeepCycles(c, s, l, x);
    }
  }

  // ---------------------------------------------------------------- the bounded revision loop

  ghost function TurnsOf(h: History, events: seq<Event>, issue: string): nat {
    if events == [] then 0
    else TurnsOf(h, events[..|events| - 1], issue) + if IsReviewOf(events[|events| - 1], issue) then h.turns[events[|events| - 1].id] else 0
  }

  ghost function ResetsOf(h: History, events: seq<Event>, issue: string): nat {
    if events == [] then 0
    else ResetsOf(h, events[..|events| - 1], issue) + if IsReviewOf(events[|events| - 1], issue) then h.resets[events[|events| - 1].id] else 0
  }

  lemma AddScaled(x: nat, a: nat, y: nat, b: nat, n: nat)
    requires x <= a * n && y <= b * n
    ensures x + y <= (a + b) * n
  {
    assert (a + b) * n == a * n + b * n;
  }

  lemma TurnsOfRow(c: Config, h: History, e: Event)
    requires LedgerOk(c, h, e)
    ensures h.turns[e.id] <= (1 + h.resets[e.id]) * c.AttemptLimit()
  {
    AddScaled(c.AttemptLimit(), 1, h.resets[e.id] * c.AttemptLimit(), h.resets[e.id], c.AttemptLimit());
  }

  /** A row gets at most one attempt allowance of recorded turns, plus one more for each manual reset. */
  lemma {:induction false} TurnsBounded(c: Config, h: History, events: seq<Event>, issue: string)
    requires forall i :: 0 <= i < |events| ==> LedgerOk(c, h, events[i])
    ensures TurnsOf(h, events, issue) <= (ReviewRows(events, issue) + ResetsOf(h, events, issue)) * c.AttemptLimit()
  {
    if events != [] {
      var front, e := events[..|events| - 1], events[|events| - 1];
      TurnsBounded(c, h, front, issue);
      if IsReviewOf(e, issue) {
        TurnsOfRow(c, h, e);
        AddScaled(TurnsOf(h, front, issue), ReviewRows(front, issue) + ResetsOf(h, front, issue), h.turns[e.id], 1 + h.resets[e.id], c.AttemptLimit());
      }
    }
  }

  /** Every row, of an execution or a review, gets at most one allowance of recorded turns for its creation and one for each
      manual reset. */
  ghost predicate RowTurnsBounded(c: Config, t: Tables, h: History) {
    forall id :: 0 <= id < |t.events| ==> h.turns[id] <= (1 + h.resets[id]) * c.AttemptLimit()
  }

  lemma RowTurns(c: Config, t: Tables, h: History)
    requires IdsMatch(t.events) && LedgerInv(c, t, h)
    ensures RowTurnsBounded(c, t, h)
  {
    forall id | 0 <= id < |t.events| ensures h.turns[id] <= (1 + h.resets[id]) * c.AttemptLimit() {
      TurnsOfRow(c, h, t.events[id]);
    }
  }

  /** The trusted count is the number of revision rounds finalized and never exceeds its maximum; an issue gets at most
      one review row more than that, and a bounded number of recorded review turns. */
  ghost predicate RevisionsBounded(c: Config, t: Tables, h: History, issue: string) {
    && TrustedRevision(t, issue) == Revisions(h.finals, issue) <= c.maxRevisionCycles
    && ReviewRows(t.events, issue) <= c.maxRevisionCycles + 1
    && TurnsOf(h, t.events, issue) <= (c.maxRevisionCycles + 1 + ResetsOf(h, t.events, issue)) * c.AttemptLimit()
  }

  lemma RowsBounded(c: Config, t: Tables, fs: seq<Final>, issue: string)
    requires TablesInv(t) && CountsOk(c, t, fs, issue)
    ensures ReviewRows(t.events, issue) <= c.maxRevisionCycles + 1
  {
    if HasActiveReview(t.events, issue) {
      var i :| 0 <= i < |t.events| && IsReviewOf(t.events[i], issue) && t.events[i].IsActive();
      assert RowOk(t, t.events[i]);
    }
  }

  lemma RevisionAccounting(c: Config, t: Tables, h: History, issue: string)
    requires TablesInv(t) && FinalsInv(c, t, h.finals) && LedgerInv(c, t, h)
    ensures RevisionsBounded(c, t, h, issue)
  {
    assert CountsOk(c, t, h.finals, issue);
    RowsBounded(c, t, h.finals, issue);
    TurnsBounded(c, h, t.events, issue);
    var rows, resets := ReviewRows(t.events, issue), ResetsOf(h, t.events, issue);
    MulMonotone(rows + resets, c.maxRevisionCycles + 1 + resets, c.AttemptLimit());
  }

  lemma MulMonotone(a: nat, b: nat, n: nat)
    requires a <= b
    ensures a * n <= b * n
  {
  }

  // ---------------------------------------------------------------- terminal cycles

  lemma TerminalStep(c: Config, s: State, l: Label, x: string)
    requires Inv(c, s) && Enabled(s, l) && IsTerminal(s.db, x)
    ensures var u := Step(c, s, l); IsTerminal(u.db, x) && u.db.cycles[x].status == s.db.cycles[x].status
  {
    CyclesChangeByFinalization(c, s, l, x);
  }

  /** Terminal cycles absorb: once an issue is done or needs a human, it keeps that status to the end of every run, and no
      later state has an active row for it. */
  lemma {:induction false} TerminalAbsorbs(c: Config, s: State, labels: seq<Label>, x: string)
    requires Inv(c, s) && Legal(c, s, labels) && IsTerminal(s.db, x)
    ensures var u := Run(c, s, labels);
            IsTerminal(u.db, x) && u.db.cycles[x].status == s.db.cycles[x].status && !HasActiveEvent(u.db, x)
    decreases |labels|
  {
    if labels == [] {
      forall i | 0 <= i < |s.db.events| ensures !(s.db.events[i].issue == x && s.db.events[i].IsActive()) {
        assert RowOk(s.db, s.db.events[i]);
      }
    } else {
      TerminalStep(c, s, labels[0], x);
      StepPreserves(c, s, labels[0]);
      TerminalAbsorbs(c, Step(c, s, labels[0]), labels[1..], x);
    }
  }

  // ---------------------------------------------------------------- backoff

  lemma {:induction false} Pow2Doubles(n: nat)
    ensures Pow2(n) >= 1 && Pow2(n + 1) == 2 * Pow2(n)
  {
    if n > 0 {
      Pow2Doubles(n - 1);
    }
  }

  /** The closed form of the exponential backoff: no more than the uncapped geometric sum, no more than a cap per retry. */
  lemma {:induction false} BackoffBounded(c: Config, n: nat)
    ensures BackoffSum(c, n) <= c.baseBackoffMs * (Pow2(n) - 1)
    ensures BackoffSum(c, n) <= n * c.maxBackoffMs
  {
    if n > 0 {
      BackoffBounded(c, n - 1);
      Pow2Doubles(n - 1);
      var p := Pow2(n - 1);
      assert Backoff(c, n - 1) <= c.baseBackoffMs * p;
      GeometricStep(c.baseBackoffMs, p, BackoffSum(c, n - 1), Backoff(c, n - 1));
      AddScaled(BackoffSum(c, n - 1), n - 1, Backoff(c, n - 1), 1, c.maxBackoffMs);
    }
  }

  lemma GeometricStep(base: nat, p: nat, sum: nat, next: nat)
    requires p >= 1 && sum <= base * (p - 1) && next <= base * p
    ensures sum + next <= base * (2 * p - 1)
  {
    assert base * (2 * p - 1) == base * (p - 1) + base * p;
  }

  lemma {:induction false} BackoffMonotone(c: Config, m: nat, n: nat)
    requires m <= n
    ensures BackoffSum(c, m) <= BackoffSum(c, n)
  {
    if m < n {
      BackoffMonotone(c, m, n - 1);
    }
  }

  /** A row's total scheduled backoff since its creation or last reset. */
  ghost predicate WaitsBounded(c: Config, t: Tables, h: History) {
    forall id :: 0 <= id < |t.events| ==>
      && Waited(h, id) <= c.baseBackoffMs * (Pow2(c.AttemptLimit() - 1) - 1)
      && Waited(h, id) <= (c.AttemptLimit() - 1) * c.maxBackoffMs
  }

  lemma WaitBound(c: Config, t: Tables, h: History)
    requires IdsMatch(t.events) && LedgerInv(c, t, h)
    ensures WaitsBounded(c, t, h)
  {
    forall id | 0 <= id < |t.events|
      ensures Waited(h, id) <= BackoffSum(c, c.AttemptLimit() - 1)
    {
      assert LedgerOk(c, h, t.events[id]);
      BackoffMonotone(c, Retries(t.events[id]), c.AttemptLimit() - 1);
    }
    BackoffBounded(c, c.AttemptLimit() - 1);
  }

  // ---------------------------------------------------------------- every run

  /** In every state that any run from the empty store can reach, all of the above hold. */
  lemma EveryReachableState(c: Config, labels: seq<Label>)
    requires Legal(c, INITIAL, labels)
    ensures var s := Run(c, INITIAL, labels);
            && ActiveRowsUnique(s.db)
            && SnapshotsExact(s)
            && ExactlyOnce(s.h)
            && (forall issue :: RevisionsBounded(c, s.db, s.h, issue))
            && RowTurnsBounded(c, s.db, s.h)
            && WaitsBounded(c, s.db, s.h)
  {
    InitialInv(c);
    RunPreserves(c, INITIAL, labels);
    InvariantConsequences(c, Run(c, INITIAL, labels));
  }

  lemma InvariantConsequences(c: Config, s: State)
    requires Inv(c, s)
    ensures ActiveRowsUnique(s.db) && SnapshotsExact(s) && ExactlyOnce(s.h) && WaitsBounded(c, s.db, s.h)
    ensures RowTurnsBounded(c, s.db, s.h) && forall issue :: RevisionsBounded(c, s.db, s.h, issue)
  {
    RowTurns(c, s.db, s.h);
    ActiveRows(s.db);
    SnapshotsAreStable(c, s);
    ExactlyOnceDecisions(c, s.db, s.h);
    WaitBound(c, s.db, s.h);
    forall issue ensures RevisionsBounded(c, s.db, s.h, issue) {
      RevisionAccounting(c, s.db, s.h, issue);
    }
  }
}
