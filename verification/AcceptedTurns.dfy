/**
 * The evaluators do accept something: for every issue with an identifier there is a raw result that finishes its execution
 * row, and one that finishes its review row. For the others there is none.
 */
module AcceptedTurns {
  import opened Json
  import opened CompletionSchema
  import opened ClaudeInvoker

  /** What a turn reports. */
  datatype Answer = Answer(issue: string, outcome: string, status: string, team: string, project: string, state: string, token: string)

  function ValueOf(f: Field, a: Answer): Json {
    match f
    case ProtocolVersion => Num(PROTOCOL_VERSION)
    case IssueIdentifier => Str(a.issue)
    case Outcome => Str(a.outcome)
    case CanonicalStatus => Str(a.status)
    case ResultPosted => Bool(true)
    case VerifiedTeamId => Str(a.team)
    case VerifiedProjectId => Str(a.project)
    case VerifiedPickupState => Str(a.state)
    case ReviewActionToken => Str(a.token)
    case _ => Str("-")
  }

  function Names(fields: seq<Field>): seq<string> {
    seq(|fields|, i requires 0 <= i < |fields| => Name(fields[i]))
  }

  /** The structured output with these fields. */
  function Report(fields: seq<Field>, a: Answer): Json {
    Obj(map key | key in Names(fields) :: ValueOf(FieldOf(fields, key), a))
  }

  function FieldOf(fields: seq<Field>, key: string): Field {
    if fields == [] then Summary else if Name(fields[0]) == key then fields[0] else FieldOf(fields[1..], key)
  }

  /** The field names differ in their length or their first letter. */
  lemma NamesDiffer(f: Field, g: Field)
    requires Name(f) == Name(g)
    ensures f == g
  {
    var n := Name(f);
    assert n != "" && |n| == |Name(g)| && n[0] == Name(g)[0];
  }

  lemma {:induction false} FieldOfName(fields: seq<Field>, f: Field)
    requires f in fields
    ensures FieldOf(fields, Name(f)) == f && Name(f) in Names(fields)
  {
    var i :| 0 <= i < |fields| && fields[i] == f;
    assert Names(fields)[i] == Name(f);
    if Name(fields[0]) == Name(f) {
      NamesDiffer(fields[0], f);
    } else {
      assert fields[1..][i - 1] == f;
      FieldOfName(fields[1..], f);
    }
  }

  lemma ReportReads(fields: seq<Field>, a: Answer, f: Field)
    requires f in fields
    ensures Read(Report(fields, a), f) == Def(ValueOf(f, a))
  {
    FieldOfName(fields, f);
  }

  /** A report on a contract's fields passes its checks. */
  lemma ReportPasses(s: Schema, checks: seq<Field>, keys: seq<string>, outcomes: seq<string>, a: Answer)
    requires Agree(s, checks, keys, outcomes, None) && EligibleIssues !in checks
    requires a.issue != "" && a.status != "" && a.token != "" && a.outcome in outcomes
    ensures RecordOk(Report(checks, a), checks, keys, outcomes)
  {
    var v := Report(checks, a);
    forall f | f in checks ensures Checked(v, f, outcomes) {
      ReportReads(checks, a, f);
    }
    forall key | key in ObjectKeys(v) ensures key in keys {
      var i :| 0 <= i < |checks| && Names(checks)[i] == key;
      assert AgreeAt(s, checks, keys, outcomes, None, i);
    }
  }

  function CleanExit(sessionId: string, output: Json): RawResult {
    TurnResult(Some(0), None, false, false, Parsed(Obj(map["session_id" := Str(sessionId), "structured_output" := output])), false)
  }

  lemma CleanExitOpens(sessionId: string, output: Json)
    requires output != Null
    ensures OpeningGates(CleanExit(sessionId, output), sessionId) == Output(output)
  {
    assert |"session_id"| != |"structured_output"|;
  }

  // ---------------------------------------------------------------- execution

  /** The turn found the issue not eligible. */
  function NotEligible(e: Expected): Json {
    Report(COMPLETION_CHECKS, NotEligibleAnswer(e))
  }

  function NotEligibleAnswer(e: Expected): Answer {
    Answer(e.issueIdentifier, "not_eligible", "-", "", "", "", "-")
  }

  lemma NotEligibleReads(fields: seq<Field>, e: Expected)
    requires Outcome in fields && IssueIdentifier in fields
    ensures var s := Report(fields, NotEligibleAnswer(e));
            Is(Read(s, IssueIdentifier), e.issueIdentifier) && OutcomeText(s) == "not_eligible"
  {
    ReportReads(fields, NotEligibleAnswer(e), IssueIdentifier);
    ReportReads(fields, NotEligibleAnswer(e), Outcome);
  }

  function FinishingTurn(e: Expected): RawResult {
    CleanExit(e.sessionId, NotEligible(e))
  }

  lemma NotEligiblePasses(e: Expected)
    requires e.issueIdentifier != ""
    ensures CompletionContract(NotEligible(e))
  {
    CompletionListsAgree();
    NotEligibleIsListed();
    ReportPasses(COMPLETION_SCHEMA, COMPLETION_CHECKS, COMPLETION_KEYS, COMPLETION_OUTCOMES, NotEligibleAnswer(e));
    CompletionChecks(NotEligible(e));
  }

  lemma NotEligibleIsListed()
    ensures "not_eligible" in COMPLETION_OUTCOMES && EligibleIssues !in COMPLETION_CHECKS
    ensures Outcome in COMPLETION_CHECKS && IssueIdentifier in COMPLETION_CHECKS
  {
    assert COMPLETION_OUTCOMES[3] == "not_eligible" && COMPLETION_CHECKS[2] == Outcome && COMPLETION_CHECKS[1] == IssueIdentifier;
  }

  lemma NotEligibleFinishes(s: Json, e: Expected)
    requires Is(Read(s, IssueIdentifier), e.issueIdentifier) && OutcomeText(s) == "not_eligible"
    ensures CompletionOutcomeGates(s, e).Accepted?
  {
    assert TERMINAL_OUTCOMES[2] == "not_eligible";
    assert |"not_eligible"| == 12 && |"blocked"| == 7 && |"failed"| == 6 && |"completed"| == 9 && |"completed_no_commit"| == 19;
  }

  lemma ExecutionAccepts(r: RawResult, e: Expected, s: Json)
    requires OpeningGates(r, e.sessionId) == Output(s) && CompletionContract(s)
    ensures EvaluateCompletionResult(r, e) == CompletionOutcomeGates(s, e)
  {
  }

  /** A turn can finish an execution row exactly when its issue has an identifier. */
  lemma SomeExecutionIsAccepted(e: Expected)
    ensures (exists r :: EvaluateCompletionResult(r, e).Accepted?) <==> e.issueIdentifier != ""
    ensures e.issueIdentifier != "" ==> EvaluateCompletionResult(FinishingTurn(e), e).Accepted?
  {
    if e.issueIdentifier != "" {
      var s := NotEligible(e);
      NotEligiblePasses(e);
      NotEligibleIsListed();
      NotEligibleReads(COMPLETION_CHECKS, e);
      NotEligibleFinishes(s, e);
      CleanExitOpens(e.sessionId, s);
      ExecutionAccepts(FinishingTurn(e), e, s);
    } else {
      forall r ensures !EvaluateCompletionResult(r, e).Accepted? {
        NamelessExecution(r, e);
      }
    }
  }

  lemma NamelessExecution(r: RawResult, e: Expected)
    requires e.issueIdentifier == ""
    ensures !EvaluateCompletionResult(r, e).Accepted?
  {
    if OpeningGates(r, e.sessionId).Output? && CompletionContract(OpeningGates(r, e.sessionId).structured) {
      var s := OpeningGates(r, e.sessionId).structured;
      ExecutionAccepts(r, e, s);
      assert IssueIdentifier in [IssueIdentifier, CanonicalStatus];
      assert Demands(s, [IssueIdentifier, CanonicalStatus]);
    }
  }

  // ---------------------------------------------------------------- review

  /** The turn asks for a human. */
  function NeedsHumanReport(e: Expected, token: string): Json {
    Report(REVIEW_CHECKS, HumanAnswer(e, token))
  }

  function HumanAnswer(e: Expected, token: string): Answer {
    Answer(e.issueIdentifier, "needs_human", "Done", e.teamId, e.projectId, e.targetState, token)
  }

  function ReviewingTurn(e: Expected, token: string): RawResult {
    CleanExit(e.sessionId, NeedsHumanReport(e, token))
  }

  lemma NeedsHumanIsListed()
    ensures "needs_human" in REVIEW_OUTCOMES && EligibleIssues !in REVIEW_CHECKS
    ensures IssueIdentifier in REVIEW_CHECKS && Outcome in REVIEW_CHECKS && CanonicalStatus in REVIEW_CHECKS && ResultPosted in REVIEW_CHECKS
    ensures VerifiedTeamId in REVIEW_CHECKS && VerifiedProjectId in REVIEW_CHECKS && VerifiedPickupState in REVIEW_CHECKS && ReviewActionToken in REVIEW_CHECKS
  {
    var c := REVIEW_CHECKS;
    assert REVIEW_OUTCOMES[2] == "needs_human";
    assert c[1] == IssueIdentifier && c[2] == Outcome && c[3] == CanonicalStatus && c[4] == ResultPosted;
    assert c[5] == VerifiedTeamId && c[6] == VerifiedProjectId && c[7] == VerifiedPickupState && c[8] == ReviewActionToken;
  }

  lemma NeedsHumanPasses(e: Expected, token: string)
    requires e.issueIdentifier != "" && token != ""
    ensures ReviewContract(NeedsHumanReport(e, token))
  {
    ReviewListsAgree();
    NeedsHumanIsListed();
    ReportPasses(REVIEW_SCHEMA, REVIEW_CHECKS, REVIEW_KEYS, REVIEW_OUTCOMES, HumanAnswer(e, token));
    ReviewChecks(NeedsHumanReport(e, token));
  }

  lemma NeedsHumanFinishes(s: Json, e: Expected, rev: nat, max: nat, token: string)
    requires Is(Read(s, IssueIdentifier), e.issueIdentifier) && OutcomeText(s) == "needs_human" && Is(Read(s, CanonicalStatus), "Done")
    requires Read(s, ResultPosted) == Def(Bool(true)) && Is(Read(s, VerifiedTeamId), e.teamId)
    requires Is(Read(s, VerifiedProjectId), e.projectId) && Is(Read(s, VerifiedPickupState), e.targetState) && Is(Read(s, ReviewActionToken), token)
    ensures ReviewOutcomeGates(s, e, rev, max, token).Accepted?
  {
    assert REVIEW_TERMINAL_OUTCOMES[2] == "needs_human";
    assert |"needs_human"| == 11 && |"blocked"| == 7 && |"failed"| == 6 && |"revision_required"| == 17;
  }

  lemma ReviewAccepts(r: RawResult, e: Expected, rev: nat, max: nat, token: string, s: Json)
    requires OpeningGates(r, e.sessionId) == Output(s) && ReviewContract(s)
    ensures EvaluateReviewResult(r, e, rev, max, token) == ReviewOutcomeGates(s, e, rev, max, token)
  {
  }

  /** A turn can finish a review row exactly when its issue has an identifier. */
  lemma SomeReviewIsAccepted(e: Expected, rev: nat, max: nat, token: string)
    requires token != ""
    ensures (exists r :: EvaluateReviewResult(r, e, rev, max, token).Accepted?) <==> e.issueIdentifier != ""
    ensures e.issueIdentifier != "" ==> EvaluateReviewResult(ReviewingTurn(e, token), e, rev, max, token).Accepted?
  {
    if e.issueIdentifier != "" {
      var s := NeedsHumanReport(e, token);
      NeedsHumanPasses(e, token);
      NeedsHumanIsListed();
      HumanAnswerDecides(REVIEW_CHECKS, e, token);
      HumanAnswerVerifies(REVIEW_CHECKS, e, token);
      HumanAnswerEchoes(REVIEW_CHECKS, e, token);
      NeedsHumanFinishes(s, e, rev, max, token);
      CleanExitOpens(e.sessionId, s);
      ReviewAccepts(ReviewingTurn(e, token), e, rev, max, token, s);
    } else {
      forall r ensures !EvaluateReviewResult(r, e, rev, max, token).Accepted? {
        NamelessReview(r, e, rev, max, token);
      }
    }
  }

  lemma ReportIs(fields: seq<Field>, a: Answer, f: Field, text: string)
    requires f in fields && ValueOf(f, a) == Str(text)
    ensures Is(Read(Report(fields, a), f), text)
  {
    ReportReads(fields, a, f);
  }

  lemma ReportsOutcome(fields: seq<Field>, a: Answer)
    requires Outcome in fields
    ensures OutcomeText(Report(fields, a)) == a.outcome
  {
    ReportReads(fields, a, Outcome);
  }

  lemma HumanAnswerDecides(fields: seq<Field>, e: Expected, token: string)
    requires IssueIdentifier in fields && Outcome in fields && CanonicalStatus in fields && ResultPosted in fields
    ensures var s := Report(fields, HumanAnswer(e, token));
            && Is(Read(s, IssueIdentifier), e.issueIdentifier) && OutcomeText(s) == "needs_human" && Is(Read(s, CanonicalStatus), "Done")
            && Read(s, ResultPosted) == Def(Bool(true))
  {
    var a := HumanAnswer(e, token);
    ReportIs(fields, a, IssueIdentifier, e.issueIdentifier);
    ReportsOutcome(fields, a);
    ReportIs(fields, a, CanonicalStatus, "Done");
    ReportReads(fields, a, ResultPosted);
  }

  lemma HumanAnswerVerifies(fields: seq<Field>, e: Expected, token: string)
    requires VerifiedTeamId in fields && VerifiedProjectId in fields
    ensures var s := Report(fields, HumanAnswer(e, token)); Is(Read(s, VerifiedTeamId), e.teamId) && Is(Read(s, VerifiedProjectId), e.projectId)
  {
    var a := HumanAnswer(e, token);
    ReportIs(fields, a, VerifiedTeamId, e.teamId);
    ReportIs(fields, a, VerifiedProjectId, e.projectId);
  }

  lemma HumanAnswerEchoes(fields: seq<Field>, e: Expected, token: string)
    requires VerifiedPickupState in fields && ReviewActionToken in fields
    ensures var s := Report(fields, HumanAnswer(e, token)); Is(Read(s, VerifiedPickupState), e.targetState) && Is(Read(s, ReviewActionToken), token)
  {
    var a := HumanAnswer(e, token);
    ReportIs(fields, a, VerifiedPickupState, e.targetState);
    ReportIs(fields, a, ReviewActionToken, token);
  }

  lemma NamelessReview(r: RawResult, e: Expected, rev: nat, max: nat, token: string)
    requires e.issueIdentifier == ""
    ensures !EvaluateReviewResult(r, e, rev, max, token).Accepted?
  {
    if OpeningGates(r, e.sessionId).Output? && ReviewContract(OpeningGates(r, e.sessionId).structured) {
      var s := OpeningGates(r, e.sessionId).structured;
      ReviewAccepts(r, e, rev, max, token, s);
      assert IssueIdentifier in [IssueIdentifier, CanonicalStatus, ReviewActionToken];
      assert Demands(s, [IssueIdentifier, CanonicalStatus, ReviewActionToken]);
    }
  }
}
