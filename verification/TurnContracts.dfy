/**
 * What the worker accepts from a turn, read off the raw result by the names the turn prints: which session it must come
 * from, and which texts it must report.
 */
module TurnContracts {
  import opened Json
  import opened CompletionSchema
  import opened ClaudeInvoker

  // ---------------------------------------------------------------- reading a raw result

  function Envelope(r: RawResult): JsValue {
    if r.stdout.Parsed? then Def(r.stdout.value) else Undefined
  }

  /** `structured_output` of what the turn printed. */
  function Printed(r: RawResult): JsValue {
    Member(Envelope(r), "structured_output")
  }

  /** A member of it. */
  function Reported(r: RawResult, name: string): JsValue {
    Member(Printed(r), name)
  }

  predicate Says(r: RawResult, name: string, text: string) {
    Reported(r, name) == Def(Str(text))
  }

  /** The process ended by itself with code 0, in time, and printed an envelope of this session. */
  predicate CleanlyFrom(r: RawResult, sessionId: string) {
    && !r.spawnError && !r.timedOut && (r.signal == None || r.signal == Some("")) && r.code == Some(0)
    && Member(Envelope(r), "session_id") == Def(Str(sessionId))
  }

  /** The one result on which the worker throws: the process ended by itself with code 0 and printed `null`. */
  predicate PrintsNull(r: RawResult) {
    !r.spawnError && !r.timedOut && (r.signal == None || r.signal == Some("")) && r.code == Some(0) && r.stdout == Parsed(Null)
  }

  /** It printed an output of protocol version 1 that has this schema. */
  predicate Prints(r: RawResult, s: Schema) {
    Printed(r).Def? && Satisfies(Printed(r).v, s) && Reported(r, "protocolVersion") == Def(Num(1.0))
  }

  predicate Verified(r: RawResult, team: string, project: string, state: string) {
    Says(r, "verifiedTeamId", team) && Says(r, "verifiedProjectId", project) && Says(r, "verifiedPickupState", state)
  }

  predicate NonEmpty(v: JsValue) {
    v != Def(Str(""))
  }

  // ---------------------------------------------------------------- the three contracts

  /** A review turn for this issue, session and decision that may be finalized. */
  predicate FinishesReview(r: RawResult, sessionId: string, issue: string, team: string, project: string, state: string, token: string, rev: nat, max: nat) {
    && CleanlyFrom(r, sessionId) && Prints(r, REVIEW_SCHEMA)
    && issue != "" && Says(r, "issueIdentifier", issue)
    && Reported(r, "resultPosted") == Def(Bool(true))
    && Verified(r, team, project, state)
    && token != "" && Says(r, "reviewActionToken", token)
    && Decides(r, rev, max)
  }

  /** The outcome, and where the turn must have moved the issue; a revision only below the maximum. */
  predicate Decides(r: RawResult, rev: nat, max: nat) {
    || (Says(r, "outcome", "pass") && Says(r, "canonicalStatus", "Done"))
    || (Says(r, "outcome", "needs_human") && Says(r, "canonicalStatus", "Done"))
    || (Says(r, "outcome", "revision_required") && Says(r, "canonicalStatus", "Todo") && rev < max)
  }

  /** An execution turn for this issue and session that ends its row. */
  predicate FinishesExecution(r: RawResult, sessionId: string, issue: string, team: string, project: string, state: string) {
    && CleanlyFrom(r, sessionId) && Prints(r, COMPLETION_SCHEMA)
    && issue != "" && Says(r, "issueIdentifier", issue) && NonEmpty(Reported(r, "canonicalStatus"))
    && Ends(r, team, project, state)
  }

  predicate Ends(r: RawResult, team: string, project: string, state: string) {
    || Says(r, "outcome", "not_eligible")
    || (Says(r, "outcome", "completed") && Finished(r, team, project, state) && Reported(r, "commitSha") != Def(Null) && NonEmpty(Reported(r, "commitSha")))
    || (Says(r, "outcome", "completed_no_commit") && Finished(r, team, project, state) && Reported(r, "commitSha") == Def(Null))
  }

  predicate Finished(r: RawResult, team: string, project: string, state: string) {
    && Says(r, "canonicalStatus", "In Review") && Reported(r, "resultPosted") == Def(Bool(true)) && Verified(r, team, project, state)
  }

  /** The entries of `eligibleIssues`. */
  function Entries(r: RawResult): seq<Json> {
    if Reported(r, "eligibleIssues").Def? && Reported(r, "eligibleIssues").v.Arr? then Reported(r, "eligibleIssues").v.items else []
  }

  /** A reconciliation turn of this session and scope, all of whose entries name their issue. */
  predicate ListsIssues(r: RawResult, sessionId: string, team: string, project: string, state: string) {
    && CleanlyFrom(r, sessionId) && Prints(r, RECONCILIATION_SCHEMA)
    && Says(r, "teamId", team) && Says(r, "projectId", project) && Says(r, "targetState", state)
    && team != "" && project != "" && state != ""
    && forall e :: e in Entries(r) ==> NonEmpty(Member(Def(e), "issueIdentifier")) && NonEmpty(Member(Def(e), "issueId"))
  }

  // ---------------------------------------------------------------- the gates, by names

  lemma OutcomeLengths()
    ensures |"pass"| == 4 && |"revision_required"| == 17 && |"needs_human"| == 11 && |"blocked"| == 7 && |"failed"| == 6
    ensures |"completed"| == 9 && |"completed_no_commit"| == 19 && |"not_eligible"| == 12
  {
  }

  lemma ReviewOutcomeIs(text: string)
    ensures text !in REVIEW_RETRYABLE_OUTCOMES && text in REVIEW_TERMINAL_OUTCOMES <==> text == "pass" || text == "needs_human" || text == "revision_required"
  {
    OutcomeLengths();
    assert REVIEW_TERMINAL_OUTCOMES[0] == "pass" && REVIEW_TERMINAL_OUTCOMES[1] == "revision_required" && REVIEW_TERMINAL_OUTCOMES[2] == "needs_human";
  }

  lemma ExecutionOutcomeIs(text: string)
    ensures text !in RETRYABLE_OUTCOMES && text in TERMINAL_OUTCOMES <==> text == "completed" || text == "completed_no_commit" || text == "not_eligible"
  {
    OutcomeLengths();
    assert TERMINAL_OUTCOMES[0] == "completed" && TERMINAL_OUTCOMES[1] == "completed_no_commit" && TERMINAL_OUTCOMES[2] == "not_eligible";
  }

  /** An outcome that is no text reads as none of the known ones. */
  lemma OutcomeIsText(s: Json, text: string)
    requires text != ""
    ensures OutcomeText(s) == text <==> Member(Def(s), "outcome") == Def(Str(text))
  {
  }

  lemma ScopeIs(s: Json, e: Expected, r: RawResult)
    requires Printed(r) == Def(s)
    ensures ScopeFailure(s, e).None? <==> Verified(r, e.teamId, e.projectId, e.targetState)
  {
  }

  lemma DecisionIs(s: Json, rev: nat, max: nat, token: string, r: RawResult)
    requires Printed(r) == Def(s) && OutcomeText(s) in {"pass", "needs_human", "revision_required"}
    ensures DecisionGates(s, rev, max, token).Accepted? <==> Says(r, "reviewActionToken", token) && Decides(r, rev, max)
  {
    OutcomeLengths();
    OutcomeIsText(s, OutcomeText(s));
  }

  lemma DecisionOutcome(s: Json, rev: nat, max: nat, r: RawResult)
    requires Printed(r) == Def(s) && Decides(r, rev, max)
    ensures OutcomeText(s) in {"pass", "needs_human", "revision_required"}
  {
    OutcomeIsText(s, "pass");
    OutcomeIsText(s, "needs_human");
    OutcomeIsText(s, "revision_required");
  }

  lemma ReviewGatesAre(s: Json, e: Expected, rev: nat, max: nat, token: string, r: RawResult)
    requires Printed(r) == Def(s)
    ensures ReviewOutcomeGates(s, e, rev, max, token).Accepted? <==>
            && Says(r, "issueIdentifier", e.issueIdentifier) && Reported(r, "resultPosted") == Def(Bool(true))
            && Verified(r, e.teamId, e.projectId, e.targetState) && Says(r, "reviewActionToken", token) && Decides(r, rev, max)
  {
    ReviewOutcomeIs(OutcomeText(s));
    ScopeIs(s, e, r);
    if OutcomeText(s) in {"pass", "needs_human", "revision_required"} {
      DecisionIs(s, rev, max, token, r);
    }
    if Decides(r, rev, max) {
      DecisionOutcome(s, rev, max, r);
    }
  }

  lemma EndsOutcome(s: Json, team: string, project: string, state: string, r: RawResult)
    requires Printed(r) == Def(s) && Ends(r, team, project, state)
    ensures OutcomeText(s) in {"completed", "completed_no_commit", "not_eligible"}
  {
    OutcomeIsText(s, "completed");
    OutcomeIsText(s, "completed_no_commit");
    OutcomeIsText(s, "not_eligible");
  }

  /** The schema allows a commit SHA to be a text or null only. */
  lemma FinishedIs(s: Json, e: Expected, r: RawResult)
    requires Printed(r) == Def(s) && OutcomeText(s) in {"completed", "completed_no_commit"} && IsStringOrNull(Reported(r, "commitSha"))
    ensures FinishedGates(s, e).Accepted? <==> Ends(r, e.teamId, e.projectId, e.targetState)
  {
    OutcomeLengths();
    OutcomeIsText(s, OutcomeText(s));
    ScopeIs(s, e, r);
  }

  lemma ExecutionGatesAre(s: Json, e: Expected, r: RawResult)
    requires Printed(r) == Def(s) && IsStringOrNull(Reported(r, "commitSha"))
    ensures CompletionOutcomeGates(s, e).Accepted? <==>
            Says(r, "issueIdentifier", e.issueIdentifier) && Ends(r, e.teamId, e.projectId, e.targetState)
  {
    var text := OutcomeText(s);
    OutcomeLengths();
    ExecutionOutcomeIs(text);
    if text in {"completed", "completed_no_commit"} {
      FinishedIs(s, e, r);
    }
    if text == "not_eligible" {
      OutcomeIsText(s, "not_eligible");
    }
    if Ends(r, e.teamId, e.projectId, e.targetState) {
      EndsOutcome(s, e.teamId, e.projectId, e.targetState, r);
    }
  }

  // ---------------------------------------------------------------- the demands

  lemma DemandsTwo(s: Json, f: Field, g: Field)
    ensures Demands(s, [f, g]) <==> Read(s, ProtocolVersion) == Def(Num(PROTOCOL_VERSION)) && !Is(Read(s, f), "") && !Is(Read(s, g), "")
  {
    var demanded := [f, g];
    assert demanded[0] == f && demanded[1] == g;
  }

  lemma DemandsThree(s: Json, f: Field, g: Field, h: Field)
    ensures Demands(s, [f, g, h]) <==>
            Read(s, ProtocolVersion) == Def(Num(PROTOCOL_VERSION)) && !Is(Read(s, f), "") && !Is(Read(s, g), "") && !Is(Read(s, h), "")
  {
    var demanded := [f, g, h];
    assert demanded[0] == f && demanded[1] == g && demanded[2] == h;
  }

  /** The demands, read by names. */
  lemma TwoDemands(r: RawResult, s: Json, f: Field, g: Field, a: string, b: string)
    requires Printed(r) == Def(s) && a == Name(f) && b == Name(g)
    ensures Demands(s, [f, g]) <==> Reported(r, "protocolVersion") == Def(Num(1.0)) && NonEmpty(Reported(r, a)) && NonEmpty(Reported(r, b))
  {
    DemandsTwo(s, f, g);
  }

  lemma ThreeDemands(r: RawResult, s: Json, f: Field, g: Field, h: Field, a: string, b: string, c: string)
    requires Printed(r) == Def(s) && a == Name(f) && b == Name(g) && c == Name(h)
    ensures Demands(s, [f, g, h]) <==>
            && Reported(r, "protocolVersion") == Def(Num(1.0))
            && NonEmpty(Reported(r, a)) && NonEmpty(Reported(r, b)) && NonEmpty(Reported(r, c))
  {
    DemandsThree(s, f, g, h);
  }

  lemma ReviewDemandsAre(r: RawResult, s: Json)
    requires Printed(r) == Def(s)
    ensures ReviewContract(s) <==> Prints(r, REVIEW_SCHEMA) && NonEmpty(Reported(r, "issueIdentifier")) &&
                                   NonEmpty(Reported(r, "canonicalStatus")) && NonEmpty(Reported(r, "reviewActionToken"))
  {
    ThreeDemands(r, s, IssueIdentifier, CanonicalStatus, ReviewActionToken, "issueIdentifier", "canonicalStatus", "reviewActionToken");
  }

  lemma CompletionDemandsAre(r: RawResult, s: Json)
    requires Printed(r) == Def(s)
    ensures CompletionContract(s) <==> Prints(r, COMPLETION_SCHEMA) && NonEmpty(Reported(r, "issueIdentifier")) && NonEmpty(Reported(r, "canonicalStatus"))
  {
    TwoDemands(r, s, IssueIdentifier, CanonicalStatus, "issueIdentifier", "canonicalStatus");
  }

  lemma EntriesAre(r: RawResult, s: Json)
    requires Printed(r) == Def(s)
    ensures Items(Read(s, EligibleIssues)) == Entries(r)
    ensures EntryDemandsMet(s) <==> forall e :: e in Entries(r) ==> NonEmpty(Member(Def(e), "issueIdentifier")) && NonEmpty(Member(Def(e), "issueId"))
  {
  }

  lemma ReconciliationDemandsAre(r: RawResult, s: Json)
    requires Printed(r) == Def(s)
    ensures ReconciliationContract(s) <==>
            && Prints(r, RECONCILIATION_SCHEMA) && NonEmpty(Reported(r, "teamId")) && NonEmpty(Reported(r, "projectId")) && NonEmpty(Reported(r, "targetState"))
            && EntryDemandsMet(s)
  {
    ThreeDemands(r, s, TeamId, ProjectId, TargetState, "teamId", "projectId", "targetState");
  }

  // ---------------------------------------------------------------- acceptance

  /** Where the opening gates lead. */
  lemma OpeningLeads(r: RawResult, sessionId: string)
    ensures match OpeningGates(r, sessionId)
            case Stop(v) => !v.Accepted? && !(CleanlyFrom(r, sessionId) && Printed(r).Def? && Printed(r) != Def(Null))
            case Output(s) => CleanlyFrom(r, sessionId) && Printed(r) == Def(s) && s != Null
  {
  }

  lemma ReviewStops(r: RawResult, e: Expected, rev: nat, max: nat, token: string)
    requires OpeningGates(r, e.sessionId).Stop?
    ensures EvaluateReviewResult(r, e, rev, max, token) == OpeningGates(r, e.sessionId).verdict
  {
  }

  lemma ReviewGoesOn(r: RawResult, e: Expected, rev: nat, max: nat, token: string, s: Json)
    requires OpeningGates(r, e.sessionId) == Output(s)
    ensures EvaluateReviewResult(r, e, rev, max, token) ==
            if ReviewContract(s) then ReviewOutcomeGates(s, e, rev, max, token) else Rejected("schema_invalid")
  {
  }

  lemma SchemasExcludeNull()
    ensures !Satisfies(Null, REVIEW_SCHEMA) && !Satisfies(Null, COMPLETION_SCHEMA) && !Satisfies(Null, RECONCILIATION_SCHEMA)
  {
    assert forall t :: t in {TObject} ==> !HasType(Null, t);
  }

  /** A review turn is accepted exactly when it finishes the review. */
  lemma ReviewAcceptedIff(r: RawResult, e: Expected, rev: nat, max: nat, token: string)
    ensures EvaluateReviewResult(r, e, rev, max, token).Accepted? <==>
            FinishesReview(r, e.sessionId, e.issueIdentifier, e.teamId, e.projectId, e.targetState, token, rev, max)
  {
    OpeningLeads(r, e.sessionId);
    match OpeningGates(r, e.sessionId) {
      case Stop(_) =>
        ReviewStops(r, e, rev, max, token);
        SchemasExcludeNull();
      case Output(s) =>
        ReviewGoesOn(r, e, rev, max, token, s);
        ReviewDemandsAre(r, s);
        ReviewGatesAre(s, e, rev, max, token, r);
    }
  }

  lemma ExecutionStops(r: RawResult, e: Expected)
    requires OpeningGates(r, e.sessionId).Stop?
    ensures EvaluateCompletionResult(r, e) == OpeningGates(r, e.sessionId).verdict
  {
  }

  lemma ExecutionGoesOn(r: RawResult, e: Expected, s: Json)
    requires OpeningGates(r, e.sessionId) == Output(s)
    ensures EvaluateCompletionResult(r, e) == if CompletionContract(s) then CompletionOutcomeGates(s, e) else Rejected("schema_invalid")
  {
  }

  lemma CommitShaIsTextOrNull(s: Json)
    requires CompletionContract(s)
    ensures IsStringOrNull(Read(s, CommitSha))
  {
    CompletionChecks(s);
    CommitShaIsListed();
    CommitShaIsChecked(s, COMPLETION_CHECKS, COMPLETION_KEYS, COMPLETION_OUTCOMES);
  }

  lemma CommitShaIsListed()
    ensures CommitSha in COMPLETION_CHECKS
  {
    assert COMPLETION_CHECKS[5] == CommitSha;
  }

  lemma CommitShaIsChecked(s: Json, checks: seq<Field>, keys: seq<string>, outcomes: seq<string>)
    requires RecordOk(s, checks, keys, outcomes) && CommitSha in checks
    ensures IsStringOrNull(Read(s, CommitSha))
  {
    assert Checked(s, CommitSha, outcomes);
  }

  lemma ValidExecutionGates(s: Json, e: Expected, r: RawResult)
    requires Printed(r) == Def(s)
    ensures CompletionContract(s) ==>
              (CompletionOutcomeGates(s, e).Accepted? <==> Says(r, "issueIdentifier", e.issueIdentifier) && Ends(r, e.teamId, e.projectId, e.targetState))
  {
    if CompletionContract(s) {
      CommitShaIsTextOrNull(s);
      CommitShaRead(s, r);
      ExecutionGatesAre(s, e, r);
    }
  }

  lemma CommitShaRead(s: Json, r: RawResult)
    requires Printed(r) == Def(s)
    ensures Read(s, CommitSha) == Reported(r, "commitSha")
  {
  }

  /** An execution turn is accepted exactly when it ends the row. */
  lemma ExecutionAcceptedIff(r: RawResult, e: Expected)
    ensures EvaluateCompletionResult(r, e).Accepted? <==>
            FinishesExecution(r, e.sessionId, e.issueIdentifier, e.teamId, e.projectId, e.targetState)
  {
    OpeningLeads(r, e.sessionId);
    match OpeningGates(r, e.sessionId) {
      case Stop(_) =>
        ExecutionStops(r, e);
        SchemasExcludeNull();
      case Output(s) =>
        ExecutionGoesOn(r, e, s);
        CompletionDemandsAre(r, s);
        ValidExecutionGates(s, e, r);
    }
  }

  lemma ReconciliationStops(r: RawResult, e: Expected)
    requires OpeningGates(r, e.sessionId).Stop?
    ensures EvaluateReconciliationResult(r, e) == OpeningGates(r, e.sessionId).verdict
  {
  }

  lemma ReconciliationGoesOn(r: RawResult, e: Expected, s: Json)
    requires OpeningGates(r, e.sessionId) == Output(s)
    ensures EvaluateReconciliationResult(r, e).Accepted? <==>
            ReconciliationContract(s) && Is(Read(s, TeamId), e.teamId) && Is(Read(s, ProjectId), e.projectId) && Is(Read(s, TargetState), e.targetState)
    ensures EvaluateReconciliationResult(r, e).Accepted? ==> EvaluateReconciliationResult(r, e) == Accepted(s)
  {
  }

  lemma ReconciliationScopeIs(s: Json, e: Expected, r: RawResult)
    requires Printed(r) == Def(s)
    ensures Is(Read(s, TeamId), e.teamId) && Is(Read(s, ProjectId), e.projectId) && Is(Read(s, TargetState), e.targetState) <==>
            Says(r, "teamId", e.teamId) && Says(r, "projectId", e.projectId) && Says(r, "targetState", e.targetState)
  {
  }

  /** This is the valid output the turn printed. */
  ghost predicate ListingIs(r: RawResult, s: Json) {
    Printed(r) == Def(s) && ReconciliationContract(s)
  }

  /** A reconciliation turn is accepted exactly when it lists issues of this scope. */
  lemma ReconciliationAcceptedIff(r: RawResult, e: Expected)
    ensures EvaluateReconciliationResult(r, e).Accepted? <==> ListsIssues(r, e.sessionId, e.teamId, e.projectId, e.targetState)
    ensures EvaluateReconciliationResult(r, e).Accepted? ==> ListingIs(r, EvaluateReconciliationResult(r, e).structured)
  {
    OpeningLeads(r, e.sessionId);
    match OpeningGates(r, e.sessionId) {
      case Stop(_) =>
        ReconciliationStops(r, e);
        SchemasExcludeNull();
      case Output(s) =>
        ReconciliationGoesOn(r, e, s);
        ReconciliationDemandsAre(r, s);
        EntriesAre(r, s);
        ReconciliationScopeIs(s, e, r);
    }
  }

  lemma AcceptedIsPrinted(r: RawResult, e: Expected, rev: nat, max: nat, token: string)
    requires EvaluateReviewResult(r, e, rev, max, token).Accepted?
    ensures OpeningGates(r, e.sessionId) == Output(EvaluateReviewResult(r, e, rev, max, token).structured)
    ensures OutcomeText(EvaluateReviewResult(r, e, rev, max, token).structured) != ""
  {
    assert OpeningGates(r, e.sessionId).Output?;
    var s := OpeningGates(r, e.sessionId).structured;
    AcceptedReviewOutput(s, e, rev, max, token);
    OutcomeLengths();
  }

  /** What an accepted review turn reports as its outcome. */
  lemma AcceptedOutcome(r: RawResult, e: Expected, rev: nat, max: nat, token: string)
    requires EvaluateReviewResult(r, e, rev, max, token).Accepted?
    ensures Printed(r) == Def(EvaluateReviewResult(r, e, rev, max, token).structured)
    ensures Says(r, "outcome", OutcomeText(EvaluateReviewResult(r, e, rev, max, token).structured))
  {
    AcceptedIsPrinted(r, e, rev, max, token);
    OpeningLeads(r, e.sessionId);
    var s := EvaluateReviewResult(r, e, rev, max, token).structured;
    OutcomeIsText(s, OutcomeText(s));
  }

  lemma ThrowsExactlyOnNull(r: RawResult, e: Expected, rev: nat, max: nat, token: string)
    ensures EvaluateReviewResult(r, e, rev, max, token) == Throws <==> PrintsNull(r)
    ensures EvaluateCompletionResult(r, e) == Throws <==> PrintsNull(r)
    ensures EvaluateReconciliationResult(r, e) == Throws <==> PrintsNull(r)
  {
    ReviewGatesSoundAndComplete(r, e, rev, max, token);
    CompletionGatesSoundAndComplete(r, e);
    ReconciliationGatesSoundAndComplete(r, e);
  }
}
