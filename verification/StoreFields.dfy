/**
 * What the store's operations do to the tables, row by row and field by field. Nothing here goes through the functions
 * that compute the new tables.
 */
module StoreFields {
  import opened Json
  import opened Text
  import opened Tokens
  import opened QueueTables

  // ---------------------------------------------------------------- recording a delivery

  ghost predicate HasRow(t: Tables, issue: string, status: Status) {
    exists i :: 0 <= i < |t.events| && t.events[i].issue == issue && t.events[i].status == status
  }

  /** The issue has a pending row or one that needs review. */
  ghost predicate IsTaken(t: Tables, issue: string) {
    HasRow(t, issue, Pending) || HasRow(t, issue, NeedsReview)
  }

  /** The issue's cycle is done or needs a human. */
  ghost predicate IsOver(t: Tables, issue: string) {
    issue in t.cycles && t.cycles[issue].status in {DoneCycle, NeedsHumanCycle}
  }

  /** The row a job is queued as: never tried, due at once, and for the leg that was asked for. */
  ghost predicate IsNewRow(e: Event, id: nat, req: Request, cycleId: string)
    requires req.job.Some?
  {
    && e.id == id && e.deliveryId == req.deliveryId
    && e.issue == req.job.value.issue && e.payload == req.job.value.payload && e.jobType == req.job.value.jobType
    && e.cycleId == cycleId
    && e.status == Pending && e.attemptCount == 0 && e.nextAttemptAt == 0
    && e.createdAt == req.now && e.deliveredAt == None
    && e.lastOutcome == None && e.lastErrorClass == None && e.lastAttemptAt == None
  }

  /** `u` is `t` with one more receipt. */
  ghost predicate ReceiptAdded(t: Tables, u: Tables, id: string, receivedAt: int, outcome: DeliveryOutcome, reason: string, issue: Option<string>) {
    && id !in t.deliveries && u.deliveries.Keys == t.deliveries.Keys + {id}
    && (forall x :: x in t.deliveries ==> u.deliveries[x] == t.deliveries[x])
    && u.deliveries[id].receivedAt == receivedAt && u.deliveries[id].outcome == outcome
    && u.deliveries[id].reason == reason && u.deliveries[id].issue == issue
  }

  /** The cycle of a queued row: the issue's own if it has one, else a new one that starts at count 0. */
  ghost predicate CycleOpened(t: Tables, u: Tables, issue: string, cycleId: string, uuid: string, now: int) {
    if issue in t.cycles then u.cycles == t.cycles && cycleId == t.cycles[issue].cycleId
    else
      && cycleId == uuid && u.cycles.Keys == t.cycles.Keys + {issue}
      && (forall x :: x in t.cycles ==> u.cycles[x] == t.cycles[x])
      && u.cycles[issue].cycleId == uuid && u.cycles[issue].revisionCount == 0
      && u.cycles[issue].status == ActiveCycle && u.cycles[issue].updatedAt == now
  }

  /** When each answer is given. */
  ghost predicate AnswersAs(t: Tables, req: Request, answer: Recorded) {
    var isNew := req.deliveryId !in t.deliveries;
    && (answer.Duplicate? <==> !isNew)
    && (answer.NotQueued? <==> isNew && req.job.None?)
    && (answer.SkippedExhausted? <==> isNew && req.job.Some? && IsOver(t, req.job.value.issue))
    && (answer.SkippedActive? <==> isNew && req.job.Some? && !IsOver(t, req.job.value.issue) && IsTaken(t, req.job.value.issue))
    && (answer.Queued? <==> isNew && req.job.Some? && !IsOver(t, req.job.value.issue) && !IsTaken(t, req.job.value.issue))
  }

  /** What `recordDelivery` answers and does, in all its cases. */
  ghost predicate RecordsAs(t: Tables, u: Tables, req: Request, uuid: string, answer: Recorded) {
    && AnswersAs(t, req, answer)
    && match answer
       case Duplicate(outcome) => u == t && outcome == t.deliveries[req.deliveryId].outcome
       case NotQueued =>
         u.events == t.events && u.cycles == t.cycles && ReceiptAdded(t, u, req.deliveryId, req.now, IgnoredDelivery, req.reason, req.issue)
       case Queued(id, cycleId) =>
         && id == |t.events| && |u.events| == |t.events| + 1 && (forall i :: 0 <= i < |t.events| ==> u.events[i] == t.events[i])
         && IsNewRow(u.events[id], id, req, cycleId)
         && CycleOpened(t, u, req.job.value.issue, cycleId, uuid, req.now)
         && ReceiptAdded(t, u, req.deliveryId, req.now, AcceptedDelivery, req.reason, Some(req.job.value.issue))
       case _ =>
         && u.events == t.events && u.cycles == t.cycles
         && ReceiptAdded(t, u, req.deliveryId, req.now, AcceptedDelivery, req.reason, Some(req.job.value.issue))
  }

  lemma TakenFields(t: Tables, issue: string)
    ensures HasActiveEvent(t, issue) <==> IsTaken(t, issue)
  {
    if i :| 0 <= i < |t.events| && t.events[i].issue == issue && t.events[i].status == Pending {
      assert t.events[i].IsActive();
    }
    if i :| 0 <= i < |t.events| && t.events[i].issue == issue && t.events[i].status == NeedsReview {
      assert t.events[i].IsActive();
    }
    if i :| 0 <= i < |t.events| && t.events[i].issue == issue && t.events[i].IsActive() {
      assert HasRow(t, issue, t.events[i].status);
    }
  }

  lemma OverFields(t: Tables, issue: string)
    ensures IsTerminal(t, issue) <==> IsOver(t, issue)
  {
  }

  lemma AnswerFields(t: Tables, req: Request, uuid: string)
    ensures AnswersAs(t, req, Answer(t, req, uuid))
  {
    if req.job.Some? {
      TakenFields(t, req.job.value.issue);
      OverFields(t, req.job.value.issue);
    }
  }

  lemma RecordFields(t: Tables, req: Request, uuid: string)
    ensures RecordsAs(t, Record(t, req, uuid), req, uuid, Answer(t, req, uuid))
  {
    AnswerFields(t, req, uuid);
  }

  /** The request a listed issue is recorded by: a synthetic delivery for the leg and the scope of the listing. */
  ghost predicate IsReconcileRequest(l: Listed, now: int, uuid: string, req: Request) {
    && req.deliveryId == "reconcile:" + l.issue + ":" + IntText(now) + ":" + uuid
    && req.now == now && req.reason == "reconciled" && req.job.Some?
    && req.job.value.issue == l.issue && req.job.value.jobType == l.jobType
    && var e := req.job.value.payload;
       && e.event == (match l.jobType case Review => "issue_entered_review" case Execute => "issue_entered_todo")
       && e.issueIdentifier == Str(l.issue) && e.issueId == Str(l.issueId)
       && e.projectId == l.projectId && e.teamId == l.teamId && e.targetState == l.targetState
       && e.jobType == Some(l.jobType) && e.url == l.url
  }

  lemma ReconcileFields(l: Listed, now: int, uuid: string)
    ensures IsReconcileRequest(l, now, uuid, ReconcileRequest(l, now, uuid))
  {
  }

  // ---------------------------------------------------------------- finishing a row

  /** Row `id` is delivered if it was pending or needed review; every other row is as it was. */
  ghost predicate RowDelivered(t: Tables, u: Tables, id: nat, now: int) {
    && |u.events| == |t.events|
    && forall i :: 0 <= i < |t.events| ==>
         if i == id && t.events[i].status in {Pending, NeedsReview}
         then u.events[i] == t.events[i].(status := Delivered, deliveredAt := Some(now))
         else u.events[i] == t.events[i]
  }

  /** `markDelivered`. */
  ghost predicate OnlyDelivered(t: Tables, u: Tables, id: nat, now: int) {
    RowDelivered(t, u, id, now) && u.deliveries == t.deliveries && u.cycles == t.cycles
  }

  lemma DeliveredFields(t: Tables, id: nat, now: int)
    ensures OnlyDelivered(t, SetDelivered(t, id, now), id, now)
  {
  }

  /** The cycle of `issue` becomes `status` at `count`; nothing else about it changes but its time. */
  ghost predicate CycleBecomes(t: Tables, u: Tables, issue: string, count: nat, status: CycleStatus, now: int)
    requires issue in t.cycles
  {
    && issue in u.cycles && u.cycles[issue].cycleId == t.cycles[issue].cycleId
    && u.cycles[issue].revisionCount == count && u.cycles[issue].status == status && u.cycles[issue].updatedAt == now
  }

  /** `markReviewDelivered`, by the text of the outcome it is given. */
  ghost predicate ReviewCommitted(t: Tables, u: Tables, id: nat, issue: string, now: int, text: string) {
    && RowDelivered(t, u, id, now) && u.deliveries == t.deliveries
    && u.cycles.Keys == t.cycles.Keys
    && (forall x :: x in t.cycles && x != issue ==> u.cycles[x] == t.cycles[x])
    && (issue in t.cycles ==>
          var c := t.cycles[issue];
          && (text == "pass" ==> CycleBecomes(t, u, issue, c.revisionCount, DoneCycle, now))
          && (text == "needs_human" ==> CycleBecomes(t, u, issue, c.revisionCount, NeedsHumanCycle, now))
          && (text == "revision_required" ==> CycleBecomes(t, u, issue, c.revisionCount + 1, c.status, now)))
  }

  /** The texts of the three outcomes. */
  ghost predicate IsTextOf(text: string, o: ReviewOutcome) {
    match o
    case Pass => text == "pass"
    case RevisionRequired => text == "revision_required"
    case NeedsHuman => text == "needs_human"
  }

  lemma TextsDiffer(text: string, o: ReviewOutcome, p: ReviewOutcome)
    requires IsTextOf(text, o) && IsTextOf(text, p)
    ensures o == p
  {
    assert |"pass"| == 4 && |"revision_required"| == 17 && |"needs_human"| == 11;
  }

  lemma FinishFields(t: Tables, id: nat, issue: string, now: int, o: ReviewOutcome, text: string)
    requires IsTextOf(text, o)
    ensures ReviewCommitted(t, FinishReview(t, id, issue, now, Some(o)), id, issue, now, text)
  {
    assert |"pass"| == 4 && |"revision_required"| == 17 && |"needs_human"| == 11;
  }

  // ---------------------------------------------------------------- failed attempts

  /** Row `id` counts one more attempt and waits for `delay`, or needs review at the limit; nothing else changes. */
  ghost predicate AttemptFailed(t: Tables, u: Tables, id: nat, now: int, reason: string, delay: int, maxAttempts: int) {
    && u.deliveries == t.deliveries && u.cycles == t.cycles && |u.events| == |t.events|
    && forall i :: 0 <= i < |t.events| ==>
         if i == id then
           && SameIdentity(t.events[i], u.events[i]) && u.events[i].deliveredAt == t.events[i].deliveredAt
           && u.events[i].attemptCount == t.events[i].attemptCount + 1
           && u.events[i].lastAttemptAt == Some(now) && u.events[i].lastOutcome == Some(reason) && u.events[i].lastErrorClass == Some(reason)
           && (if t.events[i].attemptCount + 1 >= maxAttempts then u.events[i].status == NeedsReview && u.events[i].nextAttemptAt == 0
               else u.events[i].status == Pending && u.events[i].nextAttemptAt == now + delay)
         else u.events[i] == t.events[i]
  }

  /** The fields of a row that no operation changes. */
  ghost predicate SameIdentity(was: Event, e: Event) {
    && e.id == was.id && e.deliveryId == was.deliveryId && e.issue == was.issue && e.payload == was.payload
    && e.createdAt == was.createdAt && e.jobType == was.jobType && e.cycleId == was.cycleId
  }

  lemma FailureFields(t: Tables, f: Failure)
    requires f.eventId < |t.events|
    ensures AttemptFailed(t, WriteFailure(t, f, t.events[f.eventId].attemptCount), f.eventId, f.now, f.outcome, f.backoffMs, f.maxAttempts)
  {
  }

  /** `resetToPending`. */
  ghost predicate RowReset(t: Tables, u: Tables, id: nat) {
    && u.deliveries == t.deliveries && u.cycles == t.cycles && |u.events| == |t.events|
    && forall i :: 0 <= i < |t.events| ==>
         u.events[i] == if i == id then t.events[i].(status := Pending, nextAttemptAt := 0, attemptCount := 0) else t.events[i]
  }

  lemma ResetFields(t: Tables, id: nat)
    ensures RowReset(t, Reset(t, id), id)
  {
  }

  // ---------------------------------------------------------------- queries

  /** The rows listed at `now` are the pending ones that are due; when ids are positions, each once and by increasing id. */
  ghost predicate ListsDue(events: seq<Event>, now: int, rows: seq<Event>) {
    && (forall e :: e in rows <==> e in events && e.status == Pending && e.nextAttemptAt <= now)
    && ((forall i :: 0 <= i < |events| ==> events[i].id == i) ==> forall i, j :: 0 <= i < j < |rows| ==> rows[i].id < rows[j].id)
  }

  lemma ListFields(events: seq<Event>, now: int)
    ensures ListsDue(events, now, Eligible(events, now))
  {
    EligibleRows(events, now);
    if IdsMatch(events) {
      EligibleOrdered(events, now);
    }
  }

  ghost function PendingIds(events: seq<Event>): set<nat> {
    set i: nat | i < |events| && events[i].status == Pending
  }

  lemma {:induction false} CountFields(events: seq<Event>)
    ensures CountStatus(events, Pending) == |PendingIds(events)|
  {
    if events != [] {
      var n: nat := |events| - 1;
      var front := events[..n];
      CountFields(front);
      assert PendingIds(events) == PendingIds(front) + (if events[n].status == Pending then {n} else {});
    }
  }
}
