/**
 * A whole reconciliation, with whatever other processes do in between: two turns, one for each leg, and nothing that either
 * lists is left behind.
 */
module ReconciliationRuns {
  import opened Json
  import opened ClaudeInvoker
  import opened QueueTables
  import opened Protocol
  import opened ProtocolInvariant
  import opened ProtocolProof
  import opened TurnContracts
  import opened Listing

  /** A reconciliation from its present state to its end, with no crash and no store error. */
  ghost predicate Reconciles(c: Config, s: State, labels: seq<Label>): (ok: bool)
    ensures ok ==> Legal(c, s, labels)
    decreases |labels|
  {
    if labels == [] then s.lane.Idle?
    else
      && InReconciliation(s.lane) && Enabled(s, labels[0]) && !BreaksOff(labels[0])
      && Reconciles(c, Step(c, s, labels[0]), labels[1..])
  }

  predicate InReconciliation(lane: Lane) {
    lane.Discovering? || lane.Upserting?
  }

  predicate BreaksOff(l: Label) {
    l.Crash? || l.LaneFails?
  }

  /** What its turns returned, in order. */
  ghost function Results(labels: seq<Label>): seq<RawResult> {
    if labels == [] then []
    else if labels[0].TurnReturns? then [labels[0].raw] + Results(labels[1..])
    else Results(labels[1..])
  }

  // ---------------------------------------------------------------- what is taken care of stays so

  lemma StepIsHarmless(c: Config, s: State, l: Label)
    requires Enabled(s, l) && InReconciliation(s.lane)
    ensures Harmless(s.db, Step(c, s, l).db)
  {
    match l {
      case Ingress(req, uuid) => RecordHarmless(s.db, req, uuid);
      case UpsertNext(now, uuid, cycleUuid) => RecordHarmless(s.db, ReconcileRequest(s.lane.rest[0], now, uuid), cycleUuid);
      case OperatorReset(id) => ResetHarmless(s.db, id);
      case _ =>
    }
  }

  lemma {:induction false} SettledUntilEnd(c: Config, s: State, labels: seq<Label>, x: string)
    requires Reconciles(c, s, labels) && Settled(s.db, x)
    ensures Settled(Run(c, s, labels).db, x)
    decreases |labels|
  {
    if labels != [] {
      StepIsHarmless(c, s, labels[0]);
      SettledUntilEnd(c, Step(c, s, labels[0]), labels[1..], x);
    }
  }

  // ---------------------------------------------------------------- both legs

  /** An accepted listing of this leg has left nothing behind. */
  ghost predicate LegSettled(c: Config, job: JobType, raw: RawResult, u: Tables) {
    ListsIssues(raw, c.sessionId, c.teamId, c.projectId, LegState(c, job)) ==> forall e :: e in Entries(raw) ==> EntrySettled(u, e)
  }

  ghost predicate AllTaken(u: Tables, all: seq<Listed>) {
    forall l :: l in all ==> Settled(u, l.issue)
  }

  /** What is still to come at each point of a reconciliation: its turns and the tables at its end. */
  ghost predicate Ahead(c: Config, lane: Lane, results: seq<RawResult>, u: Tables) {
    match lane
    case Discovering(Execute) =>
      && results != [] && LegSettled(c, Execute, results[0], u)
      && (if PrintsNull(results[0]) then |results| == 1 else |results| == 2 && LegSettled(c, Review, results[1], u))
    case Upserting(Execute, done, rest) => AllTaken(u, done + rest) && |results| == 1 && LegSettled(c, Review, results[0], u)
    case Discovering(Review) => |results| == 1 && LegSettled(c, Review, results[0], u)
    case Upserting(Review, done, rest) => AllTaken(u, done + rest) && results == []
    case _ => results == []
  }

  /** What the verdict on a listing says. */
  ghost predicate JudgesListing(c: Config, job: JobType, raw: RawResult, v: Verdict) {
    && (v.Accepted? <==> ListsIssues(raw, c.sessionId, c.teamId, c.projectId, LegState(c, job)))
    && (v.Accepted? ==> ListingIs(raw, v.structured))
    && (v.Throws? <==> PrintsNull(raw))
  }

  lemma ListingIsJudged(c: Config, job: JobType, raw: RawResult)
    ensures JudgesListing(c, job, raw, EvaluateReconciliationResult(raw, c.ExpectedReconciliation(job)))
  {
    ThrowsExactlyOnNull(raw, c.ExpectedReconciliation(job), 0, 0, "");
    ReconciliationAcceptedIff(raw, c.ExpectedReconciliation(job));
  }

  lemma ListingTaken(c: Config, job: JobType, raw: RawResult, structured: Json, u: Tables)
    requires ListingIs(raw, structured) && AllTaken(u, [] + ListedIssues(c, job, structured))
    ensures LegSettled(c, job, raw, u)
  {
    var all := ListedIssues(c, job, structured);
    assert [] + all == all;
    ListingReads(c, job, raw, structured);
    AllSettled(u, all, Entries(raw), c, job);
  }

  lemma NothingListed(c: Config, job: JobType, raw: RawResult, u: Tables)
    requires !ListsIssues(raw, c.sessionId, c.teamId, c.projectId, LegState(c, job))
    ensures LegSettled(c, job, raw, u)
  {
  }

  /** Where a leg leads once its turn has been judged. */
  ghost predicate Leads(c: Config, job: JobType, raw: RawResult, next: Lane) {
    match next
    case Idle => PrintsNull(raw) || job == Review
    case Discovering(other) => job == Execute && other == Review && !PrintsNull(raw)
    case Upserting(same, done, rest) => same == job && !PrintsNull(raw)
    case _ => false
  }

  lemma VerdictLeads(c: Config, s: State, raw: RawResult, v: Verdict)
    requires s.lane.Discovering? && JudgesListing(c, s.lane.job, raw, v)
    ensures Leads(c, s.lane.job, raw, AfterVerdict(c, s, v).lane)
  {
  }

  lemma LegAhead(c: Config, job: JobType, raw: RawResult, next: Lane, rest: seq<RawResult>, u: Tables)
    requires LegSettled(c, job, raw, u) && Leads(c, job, raw, next) && Ahead(c, next, rest, u)
    ensures Ahead(c, Discovering(job), [raw] + rest, u)
  {
    var results := [raw] + rest;
    assert results[0] == raw;
    if rest != [] {
      assert results[1] == rest[0];
    }
  }

  /** The turn of a leg: throwing ends the reconciliation, a rejected listing ends the leg. */
  lemma VerdictAhead(c: Config, s: State, raw: RawResult, v: Verdict, rest: seq<RawResult>, u: Tables)
    requires s.lane.Discovering? && JudgesListing(c, s.lane.job, raw, v) && Ahead(c, AfterVerdict(c, s, v).lane, rest, u)
    ensures Ahead(c, s.lane, [raw] + rest, u)
  {
    if v.Accepted? {
      ListingTaken(c, s.lane.job, raw, v.structured, u);
    } else {
      NothingListed(c, s.lane.job, raw, u);
    }
    VerdictLeads(c, s, raw, v);
    LegAhead(c, s.lane.job, raw, AfterVerdict(c, s, v).lane, rest, u);
  }

  lemma TurnAhead(c: Config, s: State, raw: RawResult, rest: seq<RawResult>, u: Tables)
    requires s.lane.Discovering? && Ahead(c, AfterVerdict(c, s, Judge(c, s.lane, raw)).lane, rest, u)
    ensures Ahead(c, s.lane, [raw] + rest, u)
  {
    ListingIsJudged(c, s.lane.job, raw);
    VerdictAhead(c, s, raw, Judge(c, s.lane, raw), rest, u);
  }

  /** The end of a leg: all it has upserted stays taken care of. */
  lemma LegEnds(c: Config, s: State, labels: seq<Label>)
    requires Inv(c, s) && Reconciles(c, s, labels) && s.lane.Upserting? && s.lane.rest == []
    ensures AllTaken(Run(c, s, labels).db, s.lane.done + s.lane.rest)
  {
    assert s.lane.done + s.lane.rest == s.lane.done;
    forall l | l in s.lane.done ensures Settled(Run(c, s, labels).db, l.issue) {
      SettledUntilEnd(c, s, labels, l.issue);
    }
  }

  /** Every other step leaves the leg where it is, or moves one issue from what is left to what is done. */
  lemma LegGoesOn(c: Config, s: State, l: Label)
    requires InReconciliation(s.lane) && Enabled(s, l) && !BreaksOff(l) && !l.TurnReturns? && !l.UpsertsDone?
    ensures SameLeg(s.lane, Step(c, s, l).lane)
  {
    if l.UpsertNext? {
      assert s.lane.done + [s.lane.rest[0]] + s.lane.rest[1..] == s.lane.done + s.lane.rest;
    }
  }

  ghost predicate SameLeg(a: Lane, b: Lane) {
    || a == b
    || (a.Upserting? && b.Upserting? && a.job == b.job && a.done + a.rest == b.done + b.rest)
  }

  lemma SameAhead(c: Config, a: Lane, b: Lane, results: seq<RawResult>, u: Tables)
    requires SameLeg(a, b) && Ahead(c, b, results, u)
    ensures Ahead(c, a, results, u)
  {
  }

  lemma {:induction false} EndIsAhead(c: Config, s: State, labels: seq<Label>)
    requires Inv(c, s) && Reconciles(c, s, labels)
    ensures Ahead(c, s.lane, Results(labels), Run(c, s, labels).db)
    decreases |labels|
  {
    if labels != [] {
      StepPreserves(c, s, labels[0]);
      EndIsAhead(c, Step(c, s, labels[0]), labels[1..]);
      NextIsAhead(c, s, labels, Run(c, s, labels).db);
    }
  }

  lemma NextIsAhead(c: Config, s: State, labels: seq<Label>, u: Tables)
    requires Inv(c, s) && labels != [] && Reconciles(c, s, labels) && u == Run(c, s, labels).db
    requires Ahead(c, Step(c, s, labels[0]).lane, Results(labels[1..]), u)
    ensures Ahead(c, s.lane, Results(labels), u)
  {
    var l := labels[0];
    if l.TurnReturns? {
      TurnAhead(c, s, l.raw, Results(labels[1..]), u);
    } else if l.UpsertsDone? {
      LegEnds(c, s, labels);
    } else {
      LegGoesOn(c, s, l);
      SameAhead(c, s.lane, Step(c, s, l).lane, Results(labels[1..]), u);
    }
  }

  /** A reconciliation from its start to its end, interleaved with anything: its first turn is judged as a listing of the
      pickup state, its second, unless the first printed null, as a listing of In Review. Every entry of an accepted listing
      has an active row or a terminal cycle at the end. */
  lemma BothLegsRun(c: Config, s: State, labels: seq<Label>)
    requires Inv(c, s) && s.lane.Idle? && Reconciles(c, Step(c, s, ReconcileStart), labels)
    ensures var results, u := Results(labels), Run(c, Step(c, s, ReconcileStart), labels).db;
            && |results| >= 1 && |results| == (if PrintsNull(results[0]) then 1 else 2)
            && (ListsIssues(results[0], c.sessionId, c.teamId, c.projectId, c.targetState) ==>
                  forall e :: e in Entries(results[0]) ==> EntrySettled(u, e))
            && (|results| == 2 && ListsIssues(results[1], c.sessionId, c.teamId, c.projectId, "In Review") ==>
                  forall e :: e in Entries(results[1]) ==> EntrySettled(u, e))
  {
    StepPreserves(c, s, ReconcileStart);
    EndIsAhead(c, Step(c, s, ReconcileStart), labels);
  }
}
