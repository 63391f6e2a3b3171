/**
 * The fail-closed gates that decide what a Claude turn's result is worth.
 */
module ClaudeInvoker {
  import opened Json
  import opened CompletionSchema
  import opened Tokens

  /** What a turn resolves with. `Out` is the captured stdout: text when captured, an `Envelope` once parsed. */
  datatype TurnResult<+Out> = TurnResult(
    code: Option<int>,
    signal: Option<string>,
    timedOut: bool,
    aborted: bool,
    stdout: Out,
    spawnError: bool)

  /** `JSON.parse(stdout)`, which may throw. */
  datatype Envelope = Unparseable | Parsed(value: Json)

  type RawResult = TurnResult<Envelope>

  function ParseStdout(r: TurnResult<string>, parse: string -> Envelope): RawResult {
    TurnResult(r.code, r.signal, r.timedOut, r.aborted, parse(r.stdout), r.spawnError)
  }

  /** What the evaluator is told to expect, all of it from the worker's own configuration and store. */
  datatype Expected = Expected(sessionId: string, issueIdentifier: string, teamId: string, projectId: string, targetState: string)

  datatype Verdict =
    | Accepted(structured: Json)
    | Rejected(reason: string)
    | Throws  // reading `session_id` of a `null` envelope

  predicate Signalled(r: RawResult) {
    r.signal.Some? && r.signal.value != ""
  }

  function Structured(r: RawResult): JsValue {
    if r.stdout.Parsed? then Member(Def(r.stdout.value), "structured_output") else Undefined
  }

  predicate SessionMatches(r: RawResult, sessionId: string) {
    r.stdout.Parsed? && Is(Member(Def(r.stdout.value), "session_id"), sessionId)
  }

  /** `outcome` of a validated output. */
  function OutcomeText(structured: Json): string {
    if IsString(Read(structured, Outcome)) then Read(structured, Outcome).v.s else ""
  }

  const TERMINAL_OUTCOMES := ["completed", "completed_no_commit", "not_eligible"]
  const RETRYABLE_OUTCOMES := ["blocked", "failed"]
  const REVIEW_TERMINAL_OUTCOMES := ["pass", "revision_required", "needs_human"]
  const REVIEW_RETRYABLE_OUTCOMES := ["blocked", "failed"]

  /** The opening gates every evaluator repeats: a clean exit, a parsed envelope of this session, some output. */
  datatype Opening = Stop(verdict: Verdict) | Output(structured: Json)

  function OpeningGates(r: RawResult, sessionId: string): Opening {
    if r.spawnError then Stop(Rejected("spawn_error"))
    else if r.timedOut then Stop(Rejected("timeout"))
    else if Signalled(r) then Stop(Rejected("signal"))
    else if r.code != Some(0) then Stop(Rejected("nonzero_exit"))
    else if r.stdout.Unparseable? then Stop(Rejected("unparseable_envelope"))
    else if r.stdout.value.Null? then Stop(Throws)
    else if !SessionMatches(r, sessionId) then Stop(Rejected("session_mismatch"))
    else if Structured(r) == Undefined || Structured(r) == Def(Null) then Stop(Rejected("missing_structured_output"))
    else Output(Structured(r).v)
  }

  function EvaluateCompletionResult(r: RawResult, e: Expected): Verdict {
    match OpeningGates(r, e.sessionId)
    case Stop(v) => v
    case Output(s) => if !CompletionContract(s) then Rejected("schema_invalid") else CompletionOutcomeGates(s, e)
  }

  function CompletionOutcomeGates(s: Json, e: Expected): Verdict {
    if !Is(Read(s, IssueIdentifier), e.issueIdentifier) then Rejected("issue_mismatch")
    else if OutcomeText(s) in RETRYABLE_OUTCOMES then Rejected(OutcomeText(s))
    else if OutcomeText(s) !in TERMINAL_OUTCOMES then Rejected("unexpected_outcome")
    else if OutcomeText(s) == "completed" || OutcomeText(s) == "completed_no_commit" then FinishedGates(s, e)
    else Accepted(s)
  }

  /** The gates that only a `completed` or `completed_no_commit` outcome has to pass. */
  function FinishedGates(s: Json, e: Expected): Verdict {
    if !Is(Read(s, CanonicalStatus), "In Review") then Rejected("unexpected_canonical_status")
    else if Read(s, ResultPosted) != Def(Bool(true)) then Rejected("result_not_posted")
    else if OutcomeText(s) == "completed" && !Truthy(Read(s, CommitSha)) then Rejected("missing_commit_sha")
    else if OutcomeText(s) != "completed" && Read(s, CommitSha) != Def(Null) then
      Rejected("unexpected_commit_sha_for_no_commit_completion")
    else match ScopeFailure(s, e)
      case Some(reason) => Rejected(reason)
      case None => Accepted(s)
  }

  /** The scope the turn says it verified must be the configured one. */
  function ScopeFailure(s: Json, e: Expected): Option<string> {
    if !Is(Read(s, VerifiedTeamId), e.teamId) then Some("wrong_verified_team")
    else if !Is(Read(s, VerifiedProjectId), e.projectId) then Some("wrong_verified_project")
    else if !Is(Read(s, VerifiedPickupState), e.targetState) then Some("wrong_verified_pickup_state")
    else None
  }

  function EvaluateReconciliationResult(r: RawResult, e: Expected): Verdict {
    match OpeningGates(r, e.sessionId)
    case Stop(v) => v
    case Output(s) =>
      if !ReconciliationContract(s) then Rejected("schema_invalid")
      else if !(&& Is(Read(s, TeamId), e.teamId)
                && Is(Read(s, ProjectId), e.projectId)
                && Is(Read(s, TargetState), e.targetState)) then Rejected("scope_mismatch")
      else Accepted(s)
  }

  function EvaluateReviewResult(r: RawResult, e: Expected, trustedRevisionCount: nat, maxRevisionCycles: nat, token: string): Verdict {
    match OpeningGates(r, e.sessionId)
    case Stop(v) => v
    case Output(s) =>
      if !ReviewContract(s) then Rejected("schema_invalid")
      else ReviewOutcomeGates(s, e, trustedRevisionCount, maxRevisionCycles, token)
  }

  function ReviewOutcomeGates(s: Json, e: Expected, trustedRevisionCount: nat, maxRevisionCycles: nat, token: string): Verdict {
    if !Is(Read(s, IssueIdentifier), e.issueIdentifier) then Rejected("issue_mismatch")
    else if OutcomeText(s) in REVIEW_RETRYABLE_OUTCOMES then Rejected(OutcomeText(s))
    else if OutcomeText(s) !in REVIEW_TERMINAL_OUTCOMES then Rejected("unexpected_outcome")
    else if Read(s, ResultPosted) != Def(Bool(true)) then Rejected("result_not_posted")
    else match ScopeFailure(s, e)
      case Some(reason) => Rejected(reason)
      case None => DecisionGates(s, trustedRevisionCount, maxRevisionCycles, token)
  }

  /** The gates that tie a review output to this decision and to the revision bound. */
  function DecisionGates(s: Json, trustedRevisionCount: nat, maxRevisionCycles: nat, token: string): Verdict {
    if !Is(Read(s, ReviewActionToken), token) then Rejected("review_action_token_mismatch")
    else if OutcomeText(s) == "revision_required" then
      if !Is(Read(s, CanonicalStatus), "Todo") then Rejected("unexpected_canonical_status")
      else if trustedRevisionCount >= maxRevisionCycles then Rejected("revision_limit_exceeded_must_be_needs_human")
      else Accepted(s)
    else if !Is(Read(s, CanonicalStatus), "Done") then Rejected("unexpected_canonical_status")
    else Accepted(s)
  }

  // ---------------------------------------------------------------- the gates, declaratively

  /** A named requirement and whether it holds. */
  datatype Gate = Gate(holds: bool, reason: string)

  ghost predicate AllHold(gates: seq<Gate>) {
    forall i :: 0 <= i < |gates| ==> gates[i].holds
  }

  /** `reason` names the first requirement that fails. */
  ghost predicate FirstFailure(gates: seq<Gate>, reason: string) {
    exists k :: 0 <= k < |gates| && FailsFirst(gates, k) && gates[k].reason == reason
  }

  ghost predicate FailsFirst(gates: seq<Gate>, k: nat)
    requires k < |gates|
  {
    !gates[k].holds && forall j :: 0 <= j < k ==> gates[j].holds
  }

  /** The requirements on the process and its envelope, shared by all evaluators. */
  function TurnGates(r: RawResult, e: Expected): seq<Gate> {
    [ Gate(!r.spawnError, "spawn_error"),
      Gate(!r.timedOut, "timeout"),
      Gate(!Signalled(r), "signal"),
      Gate(r.code == Some(0), "nonzero_exit"),
      Gate(r.stdout.Parsed?, "unparseable_envelope"),
      Gate(SessionMatches(r, e.sessionId), "session_mismatch"),
      Gate(Structured(r) != Undefined && Structured(r) != Def(Null), "missing_structured_output") ]
  }

  /** The requirements on a schema-valid review output, in the order they are reported. */
  function ReviewGates(s: Json, e: Expected, trustedRevisionCount: nat, maxRevisionCycles: nat, token: string): seq<Gate> {
    IdentityGates(s, e, REVIEW_TERMINAL_OUTCOMES)
    + [Gate(Read(s, ResultPosted) == Def(Bool(true)), "result_not_posted")]
    + ScopeGates(s, e)
    + DecisionGateList(s, OutcomeText(s) == "revision_required", trustedRevisionCount, maxRevisionCycles, token)
  }

  function IdentityGates(s: Json, e: Expected, terminal: seq<string>): seq<Gate> {
    [ Gate(Is(Read(s, IssueIdentifier), e.issueIdentifier), "issue_mismatch"),
      Gate(OutcomeText(s) in terminal, OutcomeText(s)) ]
  }

  function ScopeGates(s: Json, e: Expected): seq<Gate> {
    [ Gate(Is(Read(s, VerifiedTeamId), e.teamId), "wrong_verified_team"),
      Gate(Is(Read(s, VerifiedProjectId), e.projectId), "wrong_verified_project"),
      Gate(Is(Read(s, VerifiedPickupState), e.targetState), "wrong_verified_pickup_state") ]
  }

  function DecisionGateList(s: Json, revise: bool, trustedRevisionCount: nat, maxRevisionCycles: nat, token: string): seq<Gate> {
    [ Gate(Is(Read(s, ReviewActionToken), token), "review_action_token_mismatch"),
      Gate(Is(Read(s, CanonicalStatus), if revise then "Todo" else "Done"), "unexpected_canonical_status"),
      Gate(revise ==> trustedRevisionCount < maxRevisionCycles, "revision_limit_exceeded_must_be_needs_human") ]
  }

  /** The requirements on a schema-valid completion output, in the order they are reported. */
  function CompletionGates(s: Json, e: Expected): seq<Gate> {
    IdentityGates(s, e, TERMINAL_OUTCOMES)
    + if OutcomeText(s) == "completed" || OutcomeText(s) == "completed_no_commit"
      then ResultGates(s, OutcomeText(s) == "completed") + ScopeGates(s, e)
      else []
  }

  function ResultGates(s: Json, commits: bool): seq<Gate> {
    [ Gate(Is(Read(s, CanonicalStatus), "In Review"), "unexpected_canonical_status"),
      Gate(Read(s, ResultPosted) == Def(Bool(true)), "result_not_posted"),
      Gate(commits ==> Truthy(Read(s, CommitSha)), "missing_commit_sha"),
      Gate(!commits ==> Read(s, CommitSha) == Def(Null), "unexpected_commit_sha_for_no_commit_completion") ]
  }

  function ReconciliationGates(s: Json, e: Expected): seq<Gate> {
    [ Gate(Is(Read(s, TeamId), e.teamId) && Is(Read(s, ProjectId), e.projectId) && Is(Read(s, TargetState), e.targetState), "scope_mismatch") ]
  }

  /** All requirements of a turn: on the process, then the schema, then the requirements on a valid output. */
  function AllGates(r: RawResult, e: Expected, valid: Json -> bool, outputGates: Json -> seq<Gate>): seq<Gate> {
    TurnGates(r, e) + if Structured(r).Def? then SchemaGate(valid(Structured(r).v)) + outputGates(Structured(r).v) else []
  }

  function SchemaGate(valid: bool): seq<Gate> {
    [Gate(valid, "schema_invalid")]
  }

  /** A verdict agrees with a list of requirements: accepted exactly when all hold, else the first failing one is named. */
  ghost predicate Judges(v: Verdict, gates: seq<Gate>) {
    match v
    case Accepted(_) => AllHold(gates)
    case Rejected(reason) => FirstFailure(gates, reason) && !AllHold(gates)
    case Throws => false
  }

  /** The one raw result on which an evaluator throws instead of judging: a clean exit that printed `null`. */
  predicate NullEnvelope(r: RawResult) {
    !r.spawnError && !r.timedOut && !Signalled(r) && r.code == Some(0) && r.stdout == Parsed(Null)
  }

  lemma RejectedAt(gates: seq<Gate>, k: nat)
    requires k < |gates| && FailsFirst(gates, k)
    ensures Judges(Rejected(gates[k].reason), gates)
  {
  }

  /** The opening gates judge the process requirements; only a `null` envelope escapes them. */
  lemma OpeningJudged(r: RawResult, e: Expected)
    ensures OpeningGates(r, e.sessionId) == Stop(Throws) <==> NullEnvelope(r)
    ensures match OpeningGates(r, e.sessionId)
            case Stop(v) => v == Throws || Judges(v, TurnGates(r, e))
            case Output(s) => AllHold(TurnGates(r, e)) && Structured(r) == Def(s)
  {
    var g := TurnGates(r, e);
    if r.spawnError { RejectedAt(g, 0); }
    else if r.timedOut { RejectedAt(g, 1); }
    else if Signalled(r) { RejectedAt(g, 2); }
    else if r.code != Some(0) { RejectedAt(g, 3); }
    else if r.stdout.Unparseable? { RejectedAt(g, 4); }
    else if r.stdout.value.Null? {}
    else if !SessionMatches(r, e.sessionId) { RejectedAt(g, 5); }
    else if Structured(r) == Undefined || Structured(r) == Def(Null) { RejectedAt(g, 6); }
  }

  /** Judging a prefix that fails, or a suffix after a prefix that holds, judges the whole list. */
  lemma JudgesConcatenation(v: Verdict, front: seq<Gate>, back: seq<Gate>)
    requires (v.Rejected? && Judges(v, front)) || (AllHold(front) && Judges(v, back))
    ensures Judges(v, front + back)
  {
    var gates := front + back;
    if v.Rejected? && Judges(v, front) {
      var k :| 0 <= k < |front| && FailsFirst(front, k) && front[k].reason == v.reason;
      assert forall j :: 0 <= j <= k ==> gates[j] == front[j];
      assert FailsFirst(gates, k);
    } else if v.Rejected? {
      var k :| 0 <= k < |back| && FailsFirst(back, k) && back[k].reason == v.reason;
      assert gates[|front| + k] == back[k];
      forall j | 0 <= j < |front| + k ensures gates[j].holds {
        assert gates[j] == if j < |front| then front[j] else back[j - |front|];
      }
      assert FailsFirst(gates, |front| + k);
    }
  }

  /** A valid output reports one of the five outcomes, each either terminal or retryable: `unexpected_outcome` is dead. */
  lemma ReviewOutcomes(s: Json)
    ensures ReviewContract(s) ==> OutcomeText(s) in REVIEW_OUTCOMES
    ensures OutcomeText(s) in REVIEW_OUTCOMES ==>
              (OutcomeText(s) in REVIEW_TERMINAL_OUTCOMES <==> OutcomeText(s) !in REVIEW_RETRYABLE_OUTCOMES)
  {
    if ReviewContract(s) {
      ReviewReportsOutcome(s);
    }
    TerminalOrRetryable(OutcomeText(s));
  }

  lemma TerminalOrRetryable(outcome: string)
    ensures outcome in REVIEW_OUTCOMES ==> (outcome in REVIEW_TERMINAL_OUTCOMES <==> outcome !in REVIEW_RETRYABLE_OUTCOMES)
    ensures outcome in COMPLETION_OUTCOMES ==> (outcome in TERMINAL_OUTCOMES <==> outcome !in RETRYABLE_OUTCOMES)
  {
    assert |"pass"| == 4 && |"blocked"| == 7 && |"failed"| == 6 && |"revision_required"| == 17 && |"needs_human"| == 11;
    assert |"completed"| == 9 && |"completed_no_commit"| == 19 && |"not_eligible"| == 12;
  }

  lemma ScopeJudged(s: Json, e: Expected)
    ensures match ScopeFailure(s, e)
            case Some(reason) => Judges(Rejected(reason), ScopeGates(s, e))
            case None => AllHold(ScopeGates(s, e))
  {
    var g := ScopeGates(s, e);
    if !g[0].holds { RejectedAt(g, 0); }
    else if !g[1].holds { RejectedAt(g, 1); }
    else if !g[2].holds { RejectedAt(g, 2); }
  }

  lemma DecisionJudged(s: Json, rev: nat, max: nat, token: string)
    ensures Judges(DecisionGates(s, rev, max, token), DecisionGateList(s, OutcomeText(s) == "revision_required", rev, max, token))
  {
    var g := DecisionGateList(s, OutcomeText(s) == "revision_required", rev, max, token);
    if !g[0].holds { RejectedAt(g, 0); }
    else if !g[1].holds { RejectedAt(g, 1); }
    else if !g[2].holds { RejectedAt(g, 2); }
  }

  lemma ReviewOutputJudged(s: Json, e: Expected, rev: nat, max: nat, token: string)
    requires OutcomeText(s) in REVIEW_TERMINAL_OUTCOMES <==> OutcomeText(s) !in REVIEW_RETRYABLE_OUTCOMES
    ensures Judges(ReviewOutcomeGates(s, e, rev, max, token), ReviewGates(s, e, rev, max, token))
  {
    var v := ReviewOutcomeGates(s, e, rev, max, token);
    var identity := IdentityGates(s, e, REVIEW_TERMINAL_OUTCOMES);
    var posted := [Gate(Read(s, ResultPosted) == Def(Bool(true)), "result_not_posted")];
    var scope, decision := ScopeGates(s, e), DecisionGateList(s, OutcomeText(s) == "revision_required", rev, max, token);
    if !identity[0].holds { RejectedAt(identity, 0); JudgesConcatenation(v, identity, posted); }
    else if !identity[1].holds { RejectedAt(identity, 1); JudgesConcatenation(v, identity, posted); }
    else if !posted[0].holds { RejectedAt(posted, 0); JudgesConcatenation(v, identity, posted); }
    else {
      assert v == match ScopeFailure(s, e) case Some(reason) => Rejected(reason) case None => DecisionGates(s, rev, max, token);
      ScopeJudged(s, e);
      DecisionJudged(s, rev, max, token);
      HoldConcatenation(identity, posted);
      JudgesConcatenation(v, scope, decision);
    }
    JudgesConcatenation(v, identity + posted, scope + decision);
    assert ReviewGates(s, e, rev, max, token) == identity + posted + (scope + decision);
  }

  lemma HoldConcatenation(front: seq<Gate>, back: seq<Gate>)
    requires AllHold(front) && AllHold(back)
    ensures AllHold(front + back)
  {
  }

  lemma ResultJudged(s: Json, e: Expected)
    ensures Judges(FinishedGates(s, e), ResultGates(s, OutcomeText(s) == "completed") + ScopeGates(s, e))
  {
    var g, scope := ResultGates(s, OutcomeText(s) == "completed"), ScopeGates(s, e);
    if !g[0].holds { RejectedAt(g, 0); }
    else if !g[1].holds { RejectedAt(g, 1); }
    else if !g[2].holds { RejectedAt(g, 2); }
    else if !g[3].holds { RejectedAt(g, 3); }
    else { ScopeJudged(s, e); }
    JudgesConcatenation(FinishedGates(s, e), g, scope);
  }

  lemma CompletionOutputJudged(s: Json, e: Expected)
    requires OutcomeText(s) in TERMINAL_OUTCOMES <==> OutcomeText(s) !in RETRYABLE_OUTCOMES
    ensures Judges(CompletionOutcomeGates(s, e), CompletionGates(s, e))
  {
    var identity := IdentityGates(s, e, TERMINAL_OUTCOMES);
    var finished := OutcomeText(s) == "completed" || OutcomeText(s) == "completed_no_commit";
    var rest := if finished then ResultGates(s, OutcomeText(s) == "completed") + ScopeGates(s, e) else [];
    if !identity[0].holds { RejectedAt(identity, 0); }
    else if !identity[1].holds { RejectedAt(identity, 1); }
    else if finished { ResultJudged(s, e); }
    JudgesConcatenation(CompletionOutcomeGates(s, e), identity, rest);
  }

  /** The opening gates, the schema gate and a judged output make a judged turn. */
  lemma TurnJudged(v: Verdict, r: RawResult, e: Expected, valid: bool, back: seq<Gate>)
    requires match OpeningGates(r, e.sessionId)
             case Stop(w) => v == w && v != Throws
             case Output(_) => if valid then Judges(v, back) else v == Rejected("schema_invalid")
    ensures Judges(v, TurnGates(r, e) + if Structured(r).Def? then SchemaGate(valid) + back else [])
  {
    OpeningJudged(r, e);
    if OpeningGates(r, e.sessionId).Output? {
      if !valid {
        RejectedAt(SchemaGate(valid), 0);
      }
      JudgesConcatenation(v, SchemaGate(valid), back);
    }
    JudgesConcatenation(v, TurnGates(r, e), if Structured(r).Def? then SchemaGate(valid) + back else []);
  }

  /** A review turn is accepted exactly when every requirement holds; otherwise the first failing one is reported. */
  lemma ReviewGatesSoundAndComplete(r: RawResult, e: Expected, rev: nat, max: nat, token: string)
    ensures EvaluateReviewResult(r, e, rev, max, token) == Throws <==> NullEnvelope(r)
    ensures !NullEnvelope(r) ==>
              Judges(EvaluateReviewResult(r, e, rev, max, token), AllGates(r, e, s => ReviewContract(s), s => ReviewGates(s, e, rev, max, token)))
  {
    OpeningJudged(r, e);
    if OpeningGates(r, e.sessionId).Output? {
      var s := Structured(r).v;
      ReviewOutcomes(s);
      if ReviewContract(s) {
        ReviewOutputJudged(s, e, rev, max, token);
      }
    }
    if !NullEnvelope(r) {
      var s := if Structured(r).Def? then Structured(r).v else Null;
      TurnJudged(EvaluateReviewResult(r, e, rev, max, token), r, e, ReviewContract(s), ReviewGates(s, e, rev, max, token));
    }
  }

  /** The same for an execution turn. */
  lemma CompletionGatesSoundAndComplete(r: RawResult, e: Expected)
    ensures EvaluateCompletionResult(r, e) == Throws <==> NullEnvelope(r)
    ensures !NullEnvelope(r) ==>
              Judges(EvaluateCompletionResult(r, e), AllGates(r, e, s => CompletionContract(s), s => CompletionGates(s, e)))
  {
    OpeningJudged(r, e);
    if OpeningGates(r, e.sessionId).Output? {
      var s := Structured(r).v;
      CompletionOutcomes(s);
      if CompletionContract(s) {
        CompletionOutputJudged(s, e);
      }
    }
    if !NullEnvelope(r) {
      var s := if Structured(r).Def? then Structured(r).v else Null;
      TurnJudged(EvaluateCompletionResult(r, e), r, e, CompletionContract(s), CompletionGates(s, e));
    }
  }

  lemma CompletionOutcomes(s: Json)
    ensures CompletionContract(s) ==> (OutcomeText(s) in TERMINAL_OUTCOMES <==> OutcomeText(s) !in RETRYABLE_OUTCOMES)
  {
    if CompletionContract(s) {
      CompletionReportsOutcome(s);
    }
    TerminalOrRetryable(OutcomeText(s));
  }

  /** The same for a reconciliation turn. */
  lemma ReconciliationGatesSoundAndComplete(r: RawResult, e: Expected)
    ensures EvaluateReconciliationResult(r, e) == Throws <==> NullEnvelope(r)
    ensures !NullEnvelope(r) ==>
              Judges(EvaluateReconciliationResult(r, e), AllGates(r, e, s => ReconciliationContract(s), s => ReconciliationGates(s, e)))
  {
    OpeningJudged(r, e);
    var v := EvaluateReconciliationResult(r, e);
    if !NullEnvelope(r) {
      var s := if Structured(r).Def? then Structured(r).v else Null;
      var back := ReconciliationGates(s, e);
      if !back[0].holds {
        RejectedAt(back, 0);
      }
      TurnJudged(v, r, e, ReconciliationContract(s), back);
    }
  }

  // ---------------------------------------------------------------- what the protocol uses of the gates

  /** The cycle bookkeeping a reported outcome stands for, if any. */
  function CycleOutcome(text: string): Option<ReviewOutcome> {
    if text == "revision_required" then Some(RevisionRequired)
    else if text == "pass" then Some(Pass)
    else if text == "needs_human" then Some(NeedsHuman)
    else None
  }

  lemma AcceptedReviewOutput(s: Json, e: Expected, rev: nat, max: nat, token: string)
    requires ReviewOutcomeGates(s, e, rev, max, token).Accepted?
    ensures CycleOutcome(OutcomeText(s)).Some? && Is(Read(s, ReviewActionToken), token)
    ensures CycleOutcome(OutcomeText(s)) == Some(RevisionRequired) ==> rev < max
    ensures ReviewOutcomeGates(s, e, rev, max, token) == Accepted(s)
  {
  }

  /** An accepted review carries a cycle outcome, this decision's token, and never exceeds the revision bound. */
  lemma AcceptedReview(r: RawResult, e: Expected, rev: nat, max: nat, token: string)
    requires EvaluateReviewResult(r, e, rev, max, token).Accepted?
    ensures var s := EvaluateReviewResult(r, e, rev, max, token).structured;
            && CycleOutcome(OutcomeText(s)).Some?
            && Is(Read(s, ReviewActionToken), token)
            && (CycleOutcome(OutcomeText(s)) == Some(RevisionRequired) ==> rev < max)
  {
    assert OpeningGates(r, e.sessionId).Output?;
    AcceptedReviewOutput(OpeningGates(r, e.sessionId).structured, e, rev, max, token);
  }

  /** A turn that timed out is never accepted, whatever else it printed and however its process ended. */
  lemma TimedOutIsNeverAccepted(r: RawResult, e: Expected, rev: nat, max: nat, token: string)
    requires r.timedOut
    ensures EvaluateCompletionResult(r, e).Rejected?
    ensures EvaluateReconciliationResult(r, e).Rejected?
    ensures EvaluateReviewResult(r, e, rev, max, token).Rejected?
  {
  }
}
