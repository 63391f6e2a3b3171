/**
 * The worker's tasks as they run against the store object: one execution or review task, one poll pass, one
 * reconciliation query. Raw turn results, clock readings and fresh ids are inputs.
 */
module Worker {
  import opened Json
  import opened Tokens
  import opened ClaudeInvoker
  import opened QueueTables
  import opened Protocol
  import opened ProtocolInvariant
  import opened ProtocolProof
  import opened WorkerTasks
  import opened StoreFields
  import opened Retries
  import opened TurnContracts
  import opened Listing
  import opened Text
  import DurableStore

  class Worker {
    const c: Config
    const store: DurableStore.Store

    constructor (c: Config, store: DurableStore.Store)
      ensures this.c == c && this.store == store
    {
      this.c, this.store := c, store;
    }

    /** `processExecuteEventInner`. `None` is a thrown error. */
    method ProcessExecuteEvent(row: Event, raw: RawResult, now: int) returns (delivered: Option<bool>)
      requires row.jobType == Execute
      modifies store
      ensures store.Contents() == AfterTask(c, old(store.Contents()), row, raw, now)
      ensures var v := RowVerdict(c, old(store.Contents()), row, raw);
              delivered == if v.Throws? then None else Some(v.Accepted?)
      ensures delivered == None <==> PrintsNull(raw)
      ensures delivered == Some(true) <==> FinishesExecution(raw, c.sessionId, row.issue, c.teamId, c.projectId, c.targetState)
      ensures delivered == None ==> store.Contents() == old(store.Contents())
      ensures delivered == Some(true) ==> OnlyDelivered(old(store.Contents()), store.Contents(), row.id, now)
      ensures delivered == Some(false) ==>
                RetryOf(c, old(store.Contents()), store.Contents(), row, RowVerdict(c, old(store.Contents()), row, raw).reason, now)
    {
      ExecutionTurnIs(c, row, raw);
      match EvaluateCompletionResult(raw, c.ExpectedExecution(row.issue)) {
        case Throws => delivered := None;
        case Accepted(_) =>
          var changed := store.MarkDelivered(row.id, now);
          delivered := Some(true);
        case Rejected(reason) =>
          RetryIs(c, store.Contents(), row, reason, now);
          var recorded := store.RecordAttemptFailure(FailureOf(c, row, reason, now));
          delivered := Some(false);
      }
    }

    /** `processReviewEventInner`: the trusted count is read before the turn and decides the token and the bound. */
    method ProcessReviewEvent(row: Event, raw: RawResult, now: int) returns (delivered: Option<bool>)
      requires row.jobType == Review
      modifies store
      ensures store.Contents() == AfterTask(c, old(store.Contents()), row, raw, now)
      ensures var v := RowVerdict(c, old(store.Contents()), row, raw);
              delivered == if v.Throws? then None else Some(v.Accepted?)
      ensures delivered == None <==> PrintsNull(raw)
      ensures var count := DurableCount(old(store.Contents()), row.issue);
              delivered == Some(true) <==>
              FinishesReview(raw, c.reviewerSessionId, row.issue, c.teamId, c.projectId, "In Review", row.cycleId + "-r" + Decimal(count), count, c.maxRevisionCycles)
      ensures delivered == None ==> store.Contents() == old(store.Contents())
      ensures delivered == Some(true) ==> CommitsReport(old(store.Contents()), store.Contents(), row, raw, now)
      ensures delivered == Some(false) ==>
                RetryOf(c, old(store.Contents()), store.Contents(), row, RowVerdict(c, old(store.Contents()), row, raw).reason, now)
    {
      var cycle := store.GetCycleOf(row.issue);
      var trusted := if cycle.Some? then cycle.value.revisionCount else 0;
      var token := ReviewActionToken(row.cycleId, trusted);
      assert trusted == TrustedRevision(store.Contents(), row.issue);
      ReviewTurnIs(c, row, raw, trusted);
      match EvaluateReviewResult(raw, c.ExpectedReview(row.issue), trusted, c.maxRevisionCycles, token) {
        case Throws => delivered := None;
        case Accepted(structured) =>
          CommitIs(c, store.Contents(), row, raw, trusted, now);
          var ok := store.MarkReviewDelivered(row.id, row.issue, now, CycleOutcome(OutcomeText(structured)), {});
          delivered := Some(true);
        case Rejected(reason) =>
          RetryIs(c, store.Contents(), row, reason, now);
          var recorded := store.RecordAttemptFailure(FailureOf(c, row, reason, now));
          delivered := Some(false);
      }
    }

    /** `processEventInner`: dispatches by job type. */
    method ProcessEvent(row: Event, raw: RawResult, now: int) returns (delivered: Option<bool>)
      modifies store
      ensures store.Contents() == AfterTask(c, old(store.Contents()), row, raw, now)
      ensures delivered.None? <==> RowVerdict(c, old(store.Contents()), row, raw).Throws?
      ensures delivered == Some(true) <==> RowVerdict(c, old(store.Contents()), row, raw).Accepted?
    {
      if row.jobType == Review {
        delivered := ProcessReviewEvent(row, raw, now);
      } else {
        delivered := ProcessExecuteEvent(row, raw, now);
      }
    }

    /** `pollOnce`: lists the eligible rows once, then processes them one by one until one throws. */
    method PollOnce(now: int, raw: nat -> RawResult, clock: nat -> int) returns (completed: bool)
      modifies store
      ensures var t := old(store.Contents());
              var rows := Eligible(t.events, now);
              store.Contents() == AfterRows(c, t, rows, raw, clock, 0) && completed == Completes(c, t, rows, raw, clock, 0)
    {
      var rows := store.ListEligibleEvents(now);
      ghost var result, finishes := AfterRows(c, store.Contents(), rows, raw, clock, 0), Completes(c, store.Contents(), rows, raw, clock, 0);
      assert rows[0..] == rows;
      for k := 0 to |rows|
        invariant result == AfterRows(c, store.Contents(), rows[k..], raw, clock, k)
        invariant finishes == Completes(c, store.Contents(), rows[k..], raw, clock, k)
      {
        NextOfRows(c, store.Contents(), rows, raw, clock, k);
        var delivered := ProcessEvent(rows[k], raw(k), clock(k));
        if delivered.None? {
          return false;
        }
      }
      completed := true;
    }

    /** `reconcileForState`: upserts every issue of an accepted listing. Uninterrupted, it counts exactly the distinct
        listed issues that had neither an active row nor a terminal cycle, and adds exactly that many pending rows. */
    method ReconcileForState(job: JobType, raw: RawResult, clock: nat -> int, uuid: nat -> string, cycleUuid: nat -> string)
      returns (upserted: Option<nat>)
      requires DurableStore.KeysConsistent(store.Contents())
      requires var v := EvaluateReconciliationResult(raw, c.ExpectedReconciliation(job));
               v.Accepted? ==> FreshIds(store.Contents(), PassIds(ListedIssues(c, job, v.structured), clock, uuid))
      modifies store
      ensures upserted == None <==> PrintsNull(raw)
      ensures ListsIssues(raw, c.sessionId, c.teamId, c.projectId, LegState(c, job)) ==>
                PassFields(c, job, Entries(raw), old(store.Contents()), store.Contents())
      ensures !ListsIssues(raw, c.sessionId, c.teamId, c.projectId, LegState(c, job)) ==> store.Contents() == old(store.Contents())
      ensures var v, t, u := EvaluateReconciliationResult(raw, c.ExpectedReconciliation(job)), old(store.Contents()), store.Contents();
              if v.Accepted? then
                upserted.Some? && PassTotals(t, u, ListedIssues(c, job, v.structured), upserted.value)
              else u == t && upserted == (if v.Throws? then None else Some(0))
    {
      var verdict := EvaluateReconciliationResult(raw, c.ExpectedReconciliation(job));
      ReconciliationAcceptedIff(raw, c.ExpectedReconciliation(job));
      ThrowsExactlyOnNull(raw, c.ExpectedReconciliation(job), 0, 0, "");
      if verdict.Throws? {
        return None;
      }
      if verdict.Rejected? {
        return Some(0);
      }
      var listed := ListedIssues(c, job, verdict.structured);
      ListingReads(c, job, raw, verdict.structured);
      var n := UpsertListed(listed, clock, uuid, cycleUuid, job, Entries(raw));
      upserted := Some(n);
    }

    /** The upserting loop of `reconcileForState`, with nothing in between. */
    method UpsertListed(listed: seq<Listed>, clock: nat -> int, uuid: nat -> string, cycleUuid: nat -> string, ghost job: JobType, ghost entries: seq<Json>)
      returns (n: nat)
      requires DurableStore.KeysConsistent(store.Contents()) && FreshIds(store.Contents(), PassIds(listed, clock, uuid))
      requires |entries| == |listed| && forall i :: 0 <= i < |listed| ==> ReadsEntry(c, job, entries[i], listed[i])
      modifies store
      ensures PassTotals(old(store.Contents()), store.Contents(), listed, n)
      ensures PassFields(c, job, entries, old(store.Contents()), store.Contents())
    {
      ghost var t := store.Contents();
      ghost var ids := PassIds(listed, clock, uuid);
      assert ids[0..] == ids;
      n := 0;
      EmptyPass(c, job, t);
      assert entries[..0] == [];
      for i := 0 to |listed|
        invariant Progress(t, store.Contents(), listed, ids, i, n)
        invariant PassFields(c, job, entries[..i], t, store.Contents())
      {
        ghost var was := store.Contents();
        assert ids[i..][0] == ids[i];
        var r := store.UpsertReconciledIssue(listed[i], clock(i), uuid(i), cycleUuid(i), {});
        UpsertEffect(was, ReconcileRequest(listed[i], clock(i), uuid(i)), cycleUuid(i));
        ProgressStep(t, was, store.Contents(), listed, ids, i, n);
        PassFieldsStep(c, job, entries, i, listed[i], t, was, store.Contents(),
                       ReconcileRequest(listed[i], clock(i), uuid(i)), clock(i), uuid(i), cycleUuid(i), r.value);
        if r.value.Queued? {
          n := n + 1;
        }
      }
      assert listed[..|listed|] == listed && entries[..|entries|] == entries;
    }
  }

  /** The revision count of the issue's cycle, 0 without one. */
  function DurableCount(t: Tables, issue: string): nat {
    if issue in t.cycles then t.cycles[issue].revisionCount else 0
  }

  /** The table changes by what the turn reported, word for word. */
  ghost predicate CommitsReport(t: Tables, u: Tables, row: Event, raw: RawResult, now: int) {
    && (Says(raw, "outcome", "pass") || Says(raw, "outcome", "needs_human") || Says(raw, "outcome", "revision_required"))
    && forall text :: Says(raw, "outcome", text) ==> ReviewCommitted(t, u, row.id, row.issue, now, text)
  }

  /** Which turns the worker accepts for a row, and which make it throw. */
  lemma ReviewTurnIs(c: Config, row: Event, raw: RawResult, rev: nat)
    ensures var v := EvaluateReviewResult(raw, c.ExpectedReview(row.issue), rev, c.maxRevisionCycles, ReviewActionToken(row.cycleId, rev));
            && (v.Accepted? <==>
                FinishesReview(raw, c.reviewerSessionId, row.issue, c.teamId, c.projectId, "In Review", row.cycleId + "-r" + Decimal(rev), rev, c.maxRevisionCycles))
            && (v.Throws? <==> PrintsNull(raw))
  {
    ReviewAcceptedIff(raw, c.ExpectedReview(row.issue), rev, c.maxRevisionCycles, ReviewActionToken(row.cycleId, rev));
    ThrowsExactlyOnNull(raw, c.ExpectedReview(row.issue), rev, c.maxRevisionCycles, ReviewActionToken(row.cycleId, rev));
  }

  lemma ExecutionTurnIs(c: Config, row: Event, raw: RawResult)
    ensures var v := EvaluateCompletionResult(raw, c.ExpectedExecution(row.issue));
            && (v.Accepted? <==> FinishesExecution(raw, c.sessionId, row.issue, c.teamId, c.projectId, c.targetState))
            && (v.Throws? <==> PrintsNull(raw))
  {
    ExecutionAcceptedIff(raw, c.ExpectedExecution(row.issue));
    ThrowsExactlyOnNull(raw, c.ExpectedExecution(row.issue), 0, 0, "");
  }

  lemma CommitIs(c: Config, t: Tables, row: Event, raw: RawResult, rev: nat, now: int)
    requires EvaluateReviewResult(raw, c.ExpectedReview(row.issue), rev, c.maxRevisionCycles, ReviewActionToken(row.cycleId, rev)).Accepted?
    ensures var v := EvaluateReviewResult(raw, c.ExpectedReview(row.issue), rev, c.maxRevisionCycles, ReviewActionToken(row.cycleId, rev));
            CommitsReport(t, FinishReview(t, row.id, row.issue, now, CycleOutcome(OutcomeText(v.structured))), row, raw, now)
  {
    var e, token := c.ExpectedReview(row.issue), ReviewActionToken(row.cycleId, rev);
    var s := EvaluateReviewResult(raw, e, rev, c.maxRevisionCycles, token).structured;
    ReviewAcceptedIff(raw, e, rev, c.maxRevisionCycles, token);
    AcceptedOutcome(raw, e, rev, c.maxRevisionCycles, token);
    OutcomeLengths();
    ReportCommitted(t, row, now, OutcomeText(s));
  }

  lemma ReportCommitted(t: Tables, row: Event, now: int, text: string)
    requires text in {"pass", "needs_human", "revision_required"}
    ensures ReviewCommitted(t, FinishReview(t, row.id, row.issue, now, CycleOutcome(text)), row.id, row.issue, now, text)
  {
    OutcomeLengths();
    FinishFields(t, row.id, row.issue, now, CycleOutcome(text).value, text);
  }

  /** The row counts one more attempt and waits for the doubled delay, or needs review; an unknown row changes nothing. */
  ghost predicate RetryOf(c: Config, t: Tables, u: Tables, row: Event, reason: string, now: int) {
    if row.id < |t.events| then
      AttemptFailed(t, u, row.id, now, reason, Delay(c.baseBackoffMs, c.maxBackoffMs, row.attemptCount), c.maxAttempts)
    else u == t
  }

  lemma RetryIs(c: Config, t: Tables, row: Event, reason: string, now: int)
    ensures RetryOf(c, t, RecordFailure(t, FailureOf(c, row, reason, now)), row, reason, now)
  {
    BackoffDoubles(c, row.attemptCount);
    if row.id < |t.events| {
      FailureFields(t, FailureOf(c, row, reason, now));
    }
  }

  /** `n` is the number of distinct listed issues that nothing took care of, and exactly they got a pending row each. */
  ghost predicate PassTotals(t: Tables, u: Tables, listed: seq<Listed>, n: nat) {
    && n == |Unsettled(t, listed)|
    && CountStatus(u.events, Pending) == CountStatus(t.events, Pending) + n
    && Handled(u) == With(Handled(t), Unsettled(t, listed))
  }

  /** The synthetic delivery ids of a pass. */
  ghost function PassIds(listed: seq<Listed>, clock: nat -> int, uuid: nat -> string): (ids: seq<string>)
    ensures |ids| == |listed|
  {
    seq(|listed|, (i: nat) requires i < |listed| => ReconcileId(listed[i].issue, clock(i), uuid(i)))
  }

  /** ... are new and differ from each other, as `randomUUID` makes them. */
  ghost predicate FreshIds(t: Tables, ids: seq<string>) {
    && (forall id :: id in ids ==> id !in t.deliveries)
    && (forall i, j :: 0 <= i < j < |ids| ==> ids[i] != ids[j])
  }

  /** The issues with an active row or a terminal cycle. */
  ghost function Handled(t: Tables): iset<string> {
    iset x | Settled(t, x)
  }

  /** The listed issues that nothing takes care of yet. */
  ghost function Unsettled(t: Tables, listed: seq<Listed>): set<string> {
    set l | l in listed && l.issue !in Handled(t) :: l.issue
  }

  /** Where a pass stands after its first `i` upserts, of which `n` queued a row. */
  ghost predicate Progress(t: Tables, u: Tables, listed: seq<Listed>, ids: seq<string>, i: nat, n: nat)
    requires i <= |listed| == |ids|
  {
    && DurableStore.KeysConsistent(u)
    && FreshIds(u, ids[i..])
    && n == |Unsettled(t, listed[..i])|
    && CountStatus(u.events, Pending) == CountStatus(t.events, Pending) + n
    && Handled(u) == With(Handled(t), Unsettled(t, listed[..i]))
  }

  /** One more upsert: `w` is `u` with this delivery recorded and, if nothing took care of the issue, one row queued. */
  lemma ProgressStep(t: Tables, u: Tables, w: Tables, listed: seq<Listed>, ids: seq<string>, i: nat, n: nat)
    requires i < |listed| == |ids| && Progress(t, u, listed, ids, i, n)
    requires DurableStore.KeysConsistent(w)
    requires w.deliveries.Keys == u.deliveries.Keys + {ids[i..][0]}
    requires CountStatus(w.events, Pending) == CountStatus(u.events, Pending) + (if listed[i].issue in Handled(u) then 0 else 1)
    requires Handled(w) == Handled(u) + iset{listed[i].issue}
    ensures Progress(t, w, listed, ids, i + 1, n + (if listed[i].issue in Handled(u) then 0 else 1))
  {
    UnsettledStep(t, listed, i);
    Growth(Handled(t), Unsettled(t, listed[..i]), Unsettled(t, listed[..i + 1]), listed[i].issue);
    FreshTail(u, w, ids[i..]);
    assert ids[i..][1..] == ids[i + 1..];
  }

  ghost function With(handled: iset<string>, more: set<string>): iset<string> {
    handled + iset x | x in more
  }

  lemma Growth(handled: iset<string>, a: set<string>, b: set<string>, x: string)
    requires b == if x in handled then a else a + {x}
    ensures With(handled, b) == With(handled, a) + iset{x}
    ensures |b| == |a| + if x in With(handled, a) then 0 else 1
  {
    if x in a {
      assert a + {x} == a;
    } else {
      assert |a + {x}| == |a| + 1;
    }
  }

  lemma FreshTail(u: Tables, w: Tables, ids: seq<string>)
    requires ids != [] && FreshIds(u, ids) && w.deliveries.Keys == u.deliveries.Keys + {ids[0]}
    ensures FreshIds(w, ids[1..])
  {
    forall id | id in ids[1..] ensures id !in w.deliveries {
      var k :| 0 <= k < |ids[1..]| && ids[1..][k] == id;
      assert ids[k + 1] == id;
    }
  }

  lemma UnsettledStep(t: Tables, listed: seq<Listed>, i: nat)
    requires i < |listed|
    ensures Unsettled(t, listed[..i + 1]) ==
            if listed[i].issue in Handled(t) then Unsettled(t, listed[..i]) else Unsettled(t, listed[..i]) + {listed[i].issue}
  {
    assert listed[..i + 1] == listed[..i] + [listed[i]];
  }

  /** A fresh upsert queues exactly when the issue is not taken care of, and takes care of it and nothing else. */
  lemma UpsertEffect(t: Tables, req: Request, uuid: string)
    requires req.job.Some? && req.deliveryId !in t.deliveries
    ensures var u, issue := Record(t, req, uuid), req.job.value.issue;
            && (Answer(t, req, uuid).Queued? <==> issue !in Handled(t))
            && CountStatus(u.events, Pending) == CountStatus(t.events, Pending) + (if issue in Handled(t) then 0 else 1)
            && Handled(u) == Handled(t) + iset{issue}
            && u.deliveries.Keys == t.deliveries.Keys + {req.deliveryId}
  {
    var u, issue := Record(t, req, uuid), req.job.value.issue;
    RecordSettles(t, req, uuid);
    RecordHarmless(t, req, uuid);
    if Answer(t, req, uuid).Queued? {
      assert u.events[..|t.events|] == t.events;
      forall x | x != issue && Settled(u, x) ensures Settled(t, x) {
        if i :| 0 <= i < |u.events| && u.events[i].issue == x && u.events[i].IsActive() {
          assert t.events[i] == u.events[i];
        }
      }
    }
  }
}
