/**
 * Ingress and worker as one transition system over the shared tables, the worker's volatile state and the Linear
 * comments. A label carries everything the code does not determine: requests, clocks, fresh ids, raw turn results.
 * `History` records what happened; no step reads it.
 */
module Protocol {
  import opened Json
  import opened Tokens
  import CS = CompletionSchema
  import opened ClaudeInvoker
  import opened QueueTables

  datatype Config = Config(
    sessionId: string,
    reviewerSessionId: string,
    teamId: string,
    projectId: string,
    targetState: string,
    maxRevisionCycles: nat,
    maxAttempts: int,
    baseBackoffMs: nat,
    maxBackoffMs: nat)
  {
    /** How many recorded turns a row gets before it needs review: the first failure always counts. */
    function AttemptLimit(): (n: nat)
      ensures n >= 1 && n >= maxAttempts
    {
      if maxAttempts > 1 then maxAttempts else 1
    }

    function ExpectedExecution(issue: string): Expected {
      Expected(sessionId, issue, teamId, projectId, targetState)
    }

    function ExpectedReview(issue: string): Expected {
      Expected(reviewerSessionId, issue, teamId, projectId, REVIEW_STATE)
    }

    function ExpectedReconciliation(job: JobType): Expected {
      Expected(sessionId, "", teamId, projectId, if job == Review then REVIEW_STATE else targetState)
    }
  }

  const REVIEW_STATE := "In Review"

  function Pow2(n: nat): nat {
    if n == 0 then 1 else 2 * Pow2(n - 1)
  }

  function Backoff(c: Config, attemptCount: nat): nat {
    var delay := c.baseBackoffMs * Pow2(attemptCount);
    if delay < c.maxBackoffMs then delay else c.maxBackoffMs
  }

  /** The one task the exclusive lane is running, at the granularity at which other processes can interleave. */
  datatype Lane =
    | Idle
    | Executing(row: Event)
    | Reviewing(row: Event, rev: nat)
    | FinishingExecution(row: Event)
    | FinishingReview(row: Event, rev: nat, outcome: Option<ReviewOutcome>)
    | Failing(row: Event, reason: string)
    | WritingFailure(row: Event, reason: string, seen: nat)
    | Discovering(job: JobType)
    | Upserting(job: JobType, done: seq<Listed>, rest: seq<Listed>)
  {
    predicate HoldsRow() {
      !Idle? && !Discovering? && !Upserting?
    }
  }

  datatype Comment = Comment(issue: string, text: string)

  /** A review turn was started for this row with this decision. */
  datatype Start = Start(id: nat, issue: string, cycleId: string, rev: nat) {
    function Token(): string {
      ReviewActionToken(cycleId, rev)
    }
  }

  /** A review row was finalized with this decision and outcome. */
  datatype Final = Final(id: nat, issue: string, cycleId: string, rev: nat, outcome: ReviewOutcome) {
    function Token(): string {
      ReviewActionToken(cycleId, rev)
    }
  }

  datatype History = History(
    starts: set<Start>,
    finals: seq<Final>,
    turns: multiset<nat>,       // recorded turns per row: failures and deliveries
    resets: multiset<nat>,      // manual resets per row
    waited: map<nat, nat>)      // backoff scheduled per row since its creation or last reset

  datatype State = State(db: Tables, poll: Option<seq<Event>>, lane: Lane, comments: seq<Comment>, h: History)

  const INITIAL := State(EMPTY, None, Idle, [], History({}, [], multiset{}, multiset{}, map[]))

  datatype Label =
    | Ingress(req: Request, uuid: string)
    | PollStart(now: int)
    | NextRow
    | PollEnd
    | TurnReturns(raw: RawResult)
    | Persist(now: int)
    | ReadAttempts
    | WriteAttempts(now: int)
    | ReconcileStart
    | UpsertNext(now: int, uuid: string, cycleUuid: string)
    | UpsertsDone
    | LaneFails  // a store call of the running task throws
    | Crash
    | OperatorReset(id: nat)
    | PostReview(start: Start, text: string)
    | PostOther(issue: string, text: string)

  // ---------------------------------------------------------------- when a step can happen

  ghost predicate FreshCycleId(t: Tables, uuid: string) {
    IsUuid(uuid) && forall x :: x in t.cycles ==> t.cycles[x].cycleId != uuid
  }

  ghost predicate Enabled(s: State, l: Label) {
    match l
    case Ingress(_, uuid) => FreshCycleId(s.db, uuid)
    case PollStart(_) => s.poll.None?
    case NextRow => s.lane.Idle? && s.poll.Some? && s.poll.value != []
    case PollEnd => !s.lane.HoldsRow() && s.poll == Some([])
    case TurnReturns(_) => RunsTurn(s.lane)
    case Persist(_) => s.lane.FinishingExecution? || s.lane.FinishingReview?
    case ReadAttempts => s.lane.Failing?
    case WriteAttempts(_) => s.lane.WritingFailure?
    case ReconcileStart => s.lane.Idle?
    case UpsertNext(now, uuid, cycleUuid) =>
      && s.lane.Upserting? && s.lane.rest != []
      && ReconcileId(s.lane.rest[0].issue, now, uuid) !in s.db.deliveries
      && FreshCycleId(s.db, cycleUuid)
    case UpsertsDone => s.lane.Upserting? && s.lane.rest == []
    case LaneFails => !s.lane.Idle?
    case Crash => true
    case OperatorReset(id) => id < |s.db.events| && s.db.events[id].status == NeedsReview
    case PostReview(start, _) => start in s.h.starts
    case PostOther(_, _) => true
  }

  // ---------------------------------------------------------------- what a step does

  /** `getCycle` at the start of a review turn, with the source's fallback for a missing cycle. */
  function TrustedRevision(t: Tables, issue: string): nat {
    if issue in t.cycles then t.cycles[issue].revisionCount else 0
  }

  function StartRow(s: State): State
    requires s.poll.Some? && s.poll.value != []
  {
    var row := s.poll.value[0];
    var polled := s.(poll := Some(s.poll.value[1..]));
    if row.jobType == Review then
      var rev := TrustedRevision(s.db, row.issue);
      polled.(lane := Reviewing(row, rev), h := s.h.(starts := s.h.starts + {Start(row.id, row.issue, row.cycleId, rev)}))
    else polled.(lane := Executing(row))
  }

  function AfterReconciliation(job: JobType): Lane {
    if job == Execute then Discovering(Review) else Idle
  }

  /** The issues of an accepted reconciliation output, in the worker's own scope. */
  function ListedIssues(c: Config, job: JobType, structured: Json): seq<Listed> {
    var items := CS.Items(CS.Read(structured, CS.EligibleIssues));
    seq(|items|, i requires 0 <= i < |items| => ListedIssue(c, job, items[i]))
  }

  function ListedIssue(c: Config, job: JobType, item: Json): Listed {
    Listed(
      StringField(item, CS.IssueIdentifier), StringField(item, CS.IssueId), c.projectId, c.teamId,
      if job == Review then REVIEW_STATE else c.targetState, job,
      if IsString(CS.Read(item, CS.Url)) then Some(CS.Read(item, CS.Url).v.s) else None)
  }

  function StringField(item: Json, f: CS.Field): string {
    if IsString(CS.Read(item, f)) then CS.Read(item, f).v.s else ""
  }

  predicate RunsTurn(lane: Lane) {
    lane.Executing? || lane.Reviewing? || lane.Discovering?
  }

  /** The verdict of the running task's evaluator on a raw result. */
  function Judge(c: Config, lane: Lane, raw: RawResult): Verdict
    requires RunsTurn(lane)
  {
    match lane
    case Executing(row) => EvaluateCompletionResult(raw, c.ExpectedExecution(row.issue))
    case Reviewing(row, rev) =>
      EvaluateReviewResult(raw, c.ExpectedReview(row.issue), rev, c.maxRevisionCycles, ReviewActionToken(row.cycleId, rev))
    case Discovering(job) => EvaluateReconciliationResult(raw, c.ExpectedReconciliation(job))
  }

  /** What the running task does next; a throwing evaluator rejects it, which also ends the poll pass it belongs to. */
  function AfterVerdict(c: Config, s: State, v: Verdict): State
    requires RunsTurn(s.lane)
  {
    match v
    case Throws => s.(lane := Idle, poll := if s.lane.HoldsRow() then None else s.poll)
    case Accepted(structured) =>
      (match s.lane
       case Executing(row) => s.(lane := FinishingExecution(row))
       case Reviewing(row, rev) => s.(lane := FinishingReview(row, rev, CycleOutcome(OutcomeText(structured))))
       case Discovering(job) => s.(lane := Upserting(job, [], ListedIssues(c, job, structured))))
    case Rejected(reason) =>
      if s.lane.Discovering? then s.(lane := AfterReconciliation(s.lane.job))
      else s.(lane := Failing(s.lane.row, reason))
  }

  function PersistTurn(s: State, now: int): State
    requires s.lane.FinishingExecution? || s.lane.FinishingReview?
  {
    var row := s.lane.row;
    var h := s.h.(turns := s.h.turns + multiset{row.id});
    match s.lane
    case FinishingExecution(_) => s.(db := SetDelivered(s.db, row.id, now), lane := Idle, h := h)
    case FinishingReview(_, rev, outcome) =>
      var finals := if outcome.Some? then h.finals + [Final(row.id, row.issue, row.cycleId, rev, outcome.value)] else h.finals;
      s.(db := FinishReview(s.db, row.id, row.issue, now, outcome), lane := Idle, h := h.(finals := finals))
  }

  function FailureOf(c: Config, row: Event, reason: string, now: int): Failure {
    Failure(row.id, now, reason, Backoff(c, row.attemptCount), c.maxAttempts)
  }

  function Waited(h: History, id: nat): nat {
    if id in h.waited then h.waited[id] else 0
  }

  function WriteAttempt(c: Config, s: State, now: int): State
    requires s.lane.WritingFailure?
  {
    var row := s.lane.row;
    var retries := s.lane.seen + 1 < c.maxAttempts;
    var waited := Waited(s.h, row.id) + if retries then Backoff(c, row.attemptCount) else 0;
    s.(db := WriteFailure(s.db, FailureOf(c, row, s.lane.reason, now), s.lane.seen),
       lane := Idle,
       h := s.h.(turns := s.h.turns + multiset{row.id}, waited := s.h.waited[row.id := waited]))
  }

  function Upsert(s: State, now: int, uuid: string, cycleUuid: string): State
    requires s.lane.Upserting? && s.lane.rest != []
  {
    var l := s.lane.rest[0];
    s.(db := Record(s.db, ReconcileRequest(l, now, uuid), cycleUuid),
       lane := Upserting(s.lane.job, s.lane.done + [l], s.lane.rest[1..]))
  }

  ghost function Step(c: Config, s: State, l: Label): State
    requires Enabled(s, l)
  {
    match l
    case Ingress(req, uuid) => s.(db := Record(s.db, req, uuid))
    case PollStart(now) => s.(poll := Some(Eligible(s.db.events, now)))
    case NextRow => StartRow(s)
    case PollEnd => s.(poll := None)
    case TurnReturns(raw) => AfterVerdict(c, s, Judge(c, s.lane, raw))
    case Persist(now) => PersistTurn(s, now)
    case ReadAttempts =>
      if s.lane.row.id < |s.db.events|
      then s.(lane := WritingFailure(s.lane.row, s.lane.reason, s.db.events[s.lane.row.id].attemptCount))
      else s.(lane := Idle)
    case WriteAttempts(now) => WriteAttempt(c, s, now)
    case ReconcileStart => s.(lane := Discovering(Execute))
    case UpsertNext(now, uuid, cycleUuid) => Upsert(s, now, uuid, cycleUuid)
    case UpsertsDone => s.(lane := AfterReconciliation(s.lane.job))
    case LaneFails => s.(lane := Idle, poll := if s.lane.HoldsRow() then None else s.poll)
    case Crash => s.(poll := None, lane := Idle)
    case OperatorReset(id) =>
      s.(db := Reset(s.db, id), h := s.h.(resets := s.h.resets + multiset{id}, waited := s.h.waited[id := 0]))
    case PostReview(start, text) => s.(comments := s.comments + [Comment(start.issue, text)])
    case PostOther(issue, text) => s.(comments := s.comments + [Comment(issue, text)])
  }

  // ---------------------------------------------------------------- runs

  ghost predicate Legal(c: Config, s: State, labels: seq<Label>)
    decreases |labels|
  {
    labels == [] || (Enabled(s, labels[0]) && Legal(c, Step(c, s, labels[0]), labels[1..]))
  }

  ghost function Run(c: Config, s: State, labels: seq<Label>): State
    requires Legal(c, s, labels)
    decreases |labels|
  {
    if labels == [] then s else Run(c, Step(c, s, labels[0]), labels[1..])
  }
}
