/**
 * The three durable tables as values, and what each store operation does to them. `DurableStore` is the object that
 * updates them in place; the protocol reasons about these functions.
 */
module QueueTables {
  import opened Json
  import opened Text
  import opened Tokens

  datatype JobType = Execute | Review

  /** The routing identifiers that cross into the queue. v1A events carry no job type. */
  datatype NormalizedEvent = NormalizedEvent(
    event: string,
    issueIdentifier: Json,
    issueId: Json,
    projectId: string,
    teamId: string,
    targetState: string,
    jobType: Option<JobType>,
    url: Option<string>)

  // ---------------------------------------------------------------- rows

  datatype DeliveryOutcome = AcceptedDelivery | IgnoredDelivery

  datatype Delivery = Delivery(receivedAt: int, outcome: DeliveryOutcome, reason: string, issue: Option<string>)

  datatype Status = Pending | Delivered | NeedsReview

  /** An `events` row. Row ids are handed out consecutively, so row `id` sits at index `id` of the table. */
  datatype Event = Event(
    id: nat,
    deliveryId: string,
    issue: string,
    payload: NormalizedEvent,
    status: Status,
    createdAt: int,
    deliveredAt: Option<int>,
    attemptCount: nat,
    nextAttemptAt: int,
    lastOutcome: Option<string>,
    lastErrorClass: Option<string>,
    lastAttemptAt: Option<int>,
    jobType: JobType,
    cycleId: string)
  {
    predicate IsActive() {
      status == Pending || status == NeedsReview
    }
  }

  datatype CycleStatus = ActiveCycle | DoneCycle | NeedsHumanCycle

  datatype Cycle = Cycle(cycleId: string, revisionCount: nat, status: CycleStatus, updatedAt: int)

  datatype Tables = Tables(deliveries: map<string, Delivery>, events: seq<Event>, cycles: map<string, Cycle>)

  const EMPTY := Tables(map[], [], map[])

  // ---------------------------------------------------------------- queries

  predicate HasActiveEvent(t: Tables, issue: string) {
    exists i :: 0 <= i < |t.events| && t.events[i].issue == issue && t.events[i].IsActive()
  }

  predicate IsTerminal(t: Tables, issue: string) {
    issue in t.cycles && t.cycles[issue].status != ActiveCycle
  }

  predicate IsEligible(e: Event, now: int) {
    e.status == Pending && e.nextAttemptAt <= now
  }

  /** `listEligibleEvents`: pending rows past their backoff, in id order. */
  function Eligible(events: seq<Event>, now: int): seq<Event> {
    if events == [] then []
    else Eligible(events[..|events| - 1], now) + if IsEligible(events[|events| - 1], now) then [events[|events| - 1]] else []
  }

  function CountStatus(events: seq<Event>, s: Status): nat {
    if events == [] then 0
    else CountStatus(events[..|events| - 1], s) + if events[|events| - 1].status == s then 1 else 0
  }

  // ---------------------------------------------------------------- recording deliveries

  /** A job a relevant delivery asks for. */
  datatype Job = Job(issue: string, payload: NormalizedEvent, jobType: JobType)

  /** The argument of `recordDelivery`; a delivery is relevant when it carries a job. */
  datatype Request = Request(deliveryId: string, now: int, reason: string, issue: Option<string>, job: Option<Job>)

  datatype Recorded =
    | Duplicate(outcome: DeliveryOutcome)
    | NotQueued
    | Queued(eventId: nat, cycleId: string)
    | SkippedActive
    | SkippedExhausted

  function Receipt(req: Request): Delivery {
    Delivery(
      req.now,
      if req.job.Some? then AcceptedDelivery else IgnoredDelivery,
      req.reason,
      if req.job.Some? then Some(req.job.value.issue) else req.issue)
  }

  function NewRow(id: nat, req: Request, cycleId: string): Event
    requires req.job.Some?
  {
    var job := req.job.value;
    Event(id, req.deliveryId, job.issue, job.payload, Pending, req.now, None, 0, 0, None, None, None, job.jobType, cycleId)
  }

  /** What `recordDelivery` answers; `uuid` is the `randomUUID()` it may draw for a new cycle. */
  function Answer(t: Tables, req: Request, uuid: string): Recorded {
    if req.deliveryId in t.deliveries then Duplicate(t.deliveries[req.deliveryId].outcome)
    else match req.job
      case None => NotQueued
      case Some(job) =>
        if IsTerminal(t, job.issue) then SkippedExhausted
        else if HasActiveEvent(t, job.issue) then SkippedActive
        else Queued(|t.events|, if job.issue in t.cycles then t.cycles[job.issue].cycleId else uuid)
  }

  /** The tables after `recordDelivery`. */
  function Record(t: Tables, req: Request, uuid: string): Tables {
    match Answer(t, req, uuid)
    case Duplicate(_) => t
    case Queued(_, cycleId) =>
      var issue := req.job.value.issue;
      Tables(
        t.deliveries[req.deliveryId := Receipt(req)],
        t.events + [NewRow(|t.events|, req, cycleId)],
        if issue in t.cycles then t.cycles else t.cycles[issue := Cycle(cycleId, 0, ActiveCycle, req.now)])
    case _ => t.(deliveries := t.deliveries[req.deliveryId := Receipt(req)])
  }

  // ---------------------------------------------------------------- reconciliation

  /** An issue listed by a reconciliation turn, in the scope the turn was asked about. */
  datatype Listed = Listed(issue: string, issueId: string, projectId: string, teamId: string, targetState: string, jobType: JobType, url: Option<string>)

  function ReconcileId(issue: string, now: int, uuid: string): string {
    "reconcile:" + issue + ":" + IntText(now) + ":" + uuid
  }

  function ReconcileRequest(l: Listed, now: int, uuid: string): Request {
    var payload := NormalizedEvent(
      if l.jobType == Review then "issue_entered_review" else "issue_entered_todo",
      Str(l.issue), Str(l.issueId), l.projectId, l.teamId, l.targetState, Some(l.jobType), l.url);
    Request(ReconcileId(l.issue, now, uuid), now, "reconciled", Some(l.issue), Some(Job(l.issue, payload, l.jobType)))
  }

  // ---------------------------------------------------------------- finishing rows

  function SetDelivered(t: Tables, id: nat, now: int): Tables {
    if id < |t.events| && t.events[id].IsActive() then
      t.(events := t.events[id := t.events[id].(status := Delivered, deliveredAt := Some(now))])
    else t
  }

  function AfterOutcome(c: Cycle, o: ReviewOutcome, now: int): Cycle {
    match o
    case RevisionRequired => c.(revisionCount := c.revisionCount + 1, updatedAt := now)
    case Pass => c.(status := DoneCycle, updatedAt := now)
    case NeedsHuman => c.(status := NeedsHumanCycle, updatedAt := now)
  }

  /** The cycle update of one issue, a no-op when it has no cycle. */
  function SetCycle(t: Tables, issue: string, o: ReviewOutcome, now: int): Tables {
    if issue in t.cycles then t.(cycles := t.cycles[issue := AfterOutcome(t.cycles[issue], o, now)]) else t
  }

  /** `markReviewDelivered`: the cycle is updated whether or not the row changed. */
  function FinishReview(t: Tables, id: nat, issue: string, now: int, o: Option<ReviewOutcome>): Tables {
    var delivered := SetDelivered(t, id, now);
    match o
    case None => delivered
    case Some(outcome) => SetCycle(delivered, issue, outcome, now)
  }

  // ---------------------------------------------------------------- failed attempts

  /** The argument of `recordAttemptFailure`. */
  datatype Failure = Failure(eventId: nat, now: int, outcome: string, backoffMs: int, maxAttempts: int)

  /** The `UPDATE` of `recordAttemptFailure`, given the attempt count its `SELECT` returned. */
  function WriteFailure(t: Tables, f: Failure, seen: nat): Tables {
    if f.eventId < |t.events| then
      t.(events := t.events[f.eventId := t.events[f.eventId].(
        attemptCount := seen + 1,
        nextAttemptAt := if seen + 1 >= f.maxAttempts then 0 else f.now + f.backoffMs,
        lastOutcome := Some(f.outcome),
        lastErrorClass := Some(f.outcome),
        lastAttemptAt := Some(f.now),
        status := if seen + 1 >= f.maxAttempts then NeedsReview else Pending)])
    else t
  }

  function Reset(t: Tables, id: nat): Tables {
    if id < |t.events| then
      t.(events := t.events[id := t.events[id].(status := Pending, nextAttemptAt := 0, attemptCount := 0)])
    else t
  }

  // ---------------------------------------------------------------- facts about the queries

  /** The eligible list holds exactly the eligible rows. */
  lemma {:induction false} EligibleRows(events: seq<Event>, now: int)
    ensures forall e :: e in Eligible(events, now) <==> e in events && IsEligible(e, now)
  {
    if events != [] {
      var front := events[..|events| - 1];
      EligibleRows(front, now);
      assert events == front + [events[|events| - 1]];
    }
  }

  ghost predicate IdsMatch(events: seq<Event>) {
    forall i :: 0 <= i < |events| ==> events[i].id == i
  }

  ghost predicate Increasing(rows: seq<Event>) {
    forall i, j :: 0 <= i < j < |rows| ==> rows[i].id < rows[j].id
  }

  /** ... each once, in id order. */
  lemma {:induction false} EligibleOrdered(events: seq<Event>, now: int)
    requires IdsMatch(events)
    ensures Increasing(Eligible(events, now))
    ensures forall e :: e in Eligible(events, now) ==> e.id < |events| && events[e.id] == e && e.status == Pending
  {
    if events != [] {
      var front := events[..|events| - 1];
      EligibleOrdered(front, now);
      forall e | e in Eligible(events, now) ensures e.id < |events| && events[e.id] == e && e.status == Pending {
        if e in Eligible(front, now) {
          assert front[e.id] == e;
        }
      }
      var rows := Eligible(events, now);
      forall i, j | 0 <= i < j < |rows| ensures rows[i].id < rows[j].id {
        if j < |Eligible(front, now)| {
          assert rows[i] == Eligible(front, now)[i] && rows[j] == Eligible(front, now)[j];
        } else {
          assert rows[i] == Eligible(front, now)[i] && rows[i] in Eligible(front, now);
        }
      }
    }
  }
}
