/**
 * Agreement with Linear. Review turns, including orphaned ones that outlive a crashed worker, act on Linear by posting
 * comments. If every turn follows the recovery rule it is given, there is at most one action per token, and the
 * outcome committed for a decision is the outcome its action records.
 */
module Agreement {
  import opened Json
  import opened Text
  import opened Tokens
  import opened ClaudeInvoker
  import opened QueueTables
  import opened TurnContracts
  import opened Protocol
  import opened ProtocolInvariant
  import opened ProtocolProof
  import opened ProtocolTheorems

  /** The comment carries this token's marker. */
  predicate Marks(comment: Comment, token: string) {
    Marker(token) <= comment.text
  }

  /** Some comment on the issue records this outcome under this token. */
  ghost predicate IsRecorded(comments: seq<Comment>, issue: string, token: string, o: ReviewOutcome) {
    exists i :: 0 <= i < |comments| && comments[i].issue == issue && Records(comments[i].text, token, o)
  }

  ghost predicate RecordsSome(text: string, token: string) {
    exists o :: Records(text, token, o)
  }

  /** The recovery rule. A turn posts only a comment that records an outcome under its own token, and only when no comment
      of the issue carries that token yet; it reports only an outcome such a comment records. Nobody else's comments
      open like a review marker. */
  ghost predicate Obeys(c: Config, s: State, l: Label)
    requires Enabled(s, l)
  {
    match l
    case PostReview(st, text) =>
      RecordsSome(text, st.Token()) && forall i :: 0 <= i < |s.comments| && s.comments[i].issue == st.issue ==> !Marks(s.comments[i], st.Token())
    case PostOther(_, text) => !(MARKER_OPENING <= text)
    case TurnReturns(raw) => s.lane.Reviewing? && Judge(c, s.lane, raw).Accepted? ==> ReportsPosted(s, raw)
    case _ => true
  }

  /** How a comment of this decision opens. */
  function Head(cycleId: string, rev: nat): string {
    "[OPUS REVIEW #" + cycleId + "-r" + Decimal(rev) + "]"
  }

  /** Some comment on the issue opens like this. */
  ghost predicate IsPosted(comments: seq<Comment>, issue: string, opening: string) {
    exists i :: 0 <= i < |comments| && comments[i].issue == issue && opening <= comments[i].text
  }

  /** The outcome the turn reports, in the words it prints, is the one a comment of its decision is labelled with. */
  ghost predicate ReportsPosted(s: State, raw: RawResult)
    requires s.lane.Reviewing?
  {
    var head := Head(s.lane.row.cycleId, s.lane.rev);
    && (Says(raw, "outcome", "pass") ==> IsPosted(s.comments, s.lane.row.issue, head + " PASS"))
    && (Says(raw, "outcome", "needs_human") ==> IsPosted(s.comments, s.lane.row.issue, head + " NEEDS HUMAN"))
    && (Says(raw, "outcome", "revision_required") ==> IsPosted(s.comments, s.lane.row.issue, head + " REVISION REQUIRED"))
  }

  lemma PostedIsRecorded(comments: seq<Comment>, issue: string, cycleId: string, rev: nat)
    ensures IsPosted(comments, issue, Head(cycleId, rev) + " PASS") <==> IsRecorded(comments, issue, ReviewActionToken(cycleId, rev), Pass)
    ensures IsPosted(comments, issue, Head(cycleId, rev) + " NEEDS HUMAN") <==> IsRecorded(comments, issue, ReviewActionToken(cycleId, rev), NeedsHuman)
    ensures IsPosted(comments, issue, Head(cycleId, rev) + " REVISION REQUIRED") <==> IsRecorded(comments, issue, ReviewActionToken(cycleId, rev), RevisionRequired)
  {
    forall i | 0 <= i < |comments|
      ensures Records(comments[i].text, ReviewActionToken(cycleId, rev), Pass) <==> Head(cycleId, rev) + " PASS" <= comments[i].text
      ensures Records(comments[i].text, ReviewActionToken(cycleId, rev), NeedsHuman) <==> Head(cycleId, rev) + " NEEDS HUMAN" <= comments[i].text
      ensures Records(comments[i].text, ReviewActionToken(cycleId, rev), RevisionRequired) <==> Head(cycleId, rev) + " REVISION REQUIRED" <= comments[i].text
    {
      RecordsLiterally(comments[i].text, cycleId, rev);
    }
  }

  /** A turn that reports what is posted reports what is recorded. */
  lemma PostedReport(c: Config, s: State, raw: RawResult)
    requires s.lane.Reviewing? && (Judge(c, s.lane, raw).Accepted? ==> ReportsPosted(s, raw))
    ensures ReportsRecorded(s, Judge(c, s.lane, raw))
  {
    var v := Judge(c, s.lane, raw);
    if v.Accepted? {
      AcceptedOutcome(raw, c.ExpectedReview(s.lane.row.issue), s.lane.rev, c.maxRevisionCycles, ReviewActionToken(s.lane.row.cycleId, s.lane.rev));
      PostedIsRecorded(s.comments, s.lane.row.issue, s.lane.row.cycleId, s.lane.rev);
      ReportedTexts(OutcomeText(v.structured));
    }
  }

  /** The outcome a text stands for. */
  lemma ReportedTexts(text: string)
    ensures CycleOutcome(text) == Some(Pass) <==> text == "pass"
    ensures CycleOutcome(text) == Some(NeedsHuman) <==> text == "needs_human"
    ensures CycleOutcome(text) == Some(RevisionRequired) <==> text == "revision_required"
  {
    OutcomeLengths();
  }

  ghost predicate ReportsRecorded(s: State, v: Verdict)
    requires s.lane.Reviewing?
  {
    v.Accepted? && CycleOutcome(OutcomeText(v.structured)).Some? ==>
      IsRecorded(s.comments, s.lane.row.issue, ReviewActionToken(s.lane.row.cycleId, s.lane.rev), CycleOutcome(OutcomeText(v.structured)).value)
  }

  ghost predicate Obedient(c: Config, s: State, labels: seq<Label>)
    requires Legal(c, s, labels)
    decreases |labels|
  {
    labels != [] ==> Obeys(c, s, labels[0]) && Obedient(c, Step(c, s, labels[0]), labels[1..])
  }

  // ---------------------------------------------------------------- the invariant

  /** Every comment that opens like a review marker is the action of a started decision, on that decision's issue. */
  ghost predicate ActionsStarted(comments: seq<Comment>, starts: set<Start>) {
    forall i :: 0 <= i < |comments| && MARKER_OPENING <= comments[i].text ==> StartedBy(comments[i], starts)
  }

  ghost predicate StartedBy(comment: Comment, starts: set<Start>) {
    exists st :: st in starts && st.issue == comment.issue && RecordsSome(comment.text, st.Token())
  }

  ghost predicate OneActionEach(comments: seq<Comment>, starts: set<Start>) {
    forall st, i, j :: st in starts && 0 <= i < j < |comments| && Marks(comments[i], st.Token()) ==> !Marks(comments[j], st.Token())
  }

  ghost predicate FinalsRecorded(comments: seq<Comment>, finals: seq<Final>) {
    forall k :: 0 <= k < |finals| ==> IsRecorded(comments, finals[k].issue, finals[k].Token(), finals[k].outcome)
  }

  ghost predicate LaneRecorded(comments: seq<Comment>, lane: Lane) {
    lane.FinishingReview? && lane.outcome.Some? ==>
      IsRecorded(comments, lane.row.issue, ReviewActionToken(lane.row.cycleId, lane.rev), lane.outcome.value)
  }

  ghost predicate AgreeInv(s: State) {
    && ActionsStarted(s.comments, s.h.starts)
    && OneActionEach(s.comments, s.h.starts)
    && FinalsRecorded(s.comments, s.h.finals)
    && LaneRecorded(s.comments, s.lane)
  }

  /** What agreement promises: one action per decision ever started, and committed outcomes are the recorded ones. */
  ghost predicate Agrees(s: State) {
    && OneActionEach(s.comments, s.h.starts)
    && (forall k :: 0 <= k < |s.h.finals| ==> CommittedAsPosted(s, s.h.finals[k]))
  }

  /** The decision's action exists on its issue, and every comment with its token records the committed outcome. */
  ghost predicate CommittedAsPosted(s: State, f: Final) {
    && IsRecorded(s.comments, f.issue, f.Token(), f.outcome)
    && forall i :: 0 <= i < |s.comments| && Marks(s.comments[i], f.Token()) ==> s.comments[i].issue == f.issue && Records(s.comments[i].text, f.Token(), f.outcome)
  }

  // ---------------------------------------------------------------- preservation

  /** Markers of started decisions are told apart: cycle ids are uuids, so they contain no bracket. */
  lemma StartedMarkers(c: Config, s: State, a: Start, b: Start, text: string)
    requires Inv(c, s) && a in s.h.starts && b in s.h.starts
    requires Marker(a.Token()) <= text && Marker(b.Token()) <= text
    ensures a == b
  {
    StartedId(c, s, a);
    StartedId(c, s, b);
    MarkersPrefixFree(a.cycleId, a.rev, b.cycleId, b.rev, text);
    SameTokenSameStart(c, s.db, s.h, a, b);
  }

  lemma StartedId(c: Config, s: State, a: Start)
    requires Inv(c, s) && a in s.h.starts
    ensures IsUuid(a.cycleId) && ']' !in a.cycleId
  {
    assert StartOk(s.db, s.h.finals, a) && RowOk(s.db, s.db.events[a.id]);
    assert CyclesInv(s.db);
  }

  lemma MarkOpens(comment: Comment, token: string)
    requires Marks(comment, token)
    ensures MARKER_OPENING <= comment.text
  {
    assert MARKER_OPENING <= Marker(token);
  }

  lemma RecordingMarks(text: string, token: string)
    requires RecordsSome(text, token)
    ensures Marker(token) <= text
  {
  }

  lemma RecordedGrows(comments: seq<Comment>, added: Comment, issue: string, token: string, o: ReviewOutcome)
    requires IsRecorded(comments, issue, token, o)
    ensures IsRecorded(comments + [added], issue, token, o)
  {
    var i :| 0 <= i < |comments| && comments[i].issue == issue && Records(comments[i].text, token, o);
    assert (comments + [added])[i] == comments[i];
  }

  /** A comment may be added when it is nobody's action, or the first action of a started decision. */
  lemma CommentAdded(c: Config, s: State, added: Comment)
    requires Inv(c, s) && AgreeInv(s)
    requires MARKER_OPENING <= added.text ==> StartedBy(added, s.h.starts)
    requires forall st, i :: st in s.h.starts && 0 <= i < |s.comments| && Marks(s.comments[i], st.Token()) ==> !Marks(added, st.Token())
    ensures AgreeInv(s.(comments := s.comments + [added]))
  {
    var u := s.comments + [added];
    forall k | 0 <= k < |s.h.finals| ensures IsRecorded(u, s.h.finals[k].issue, s.h.finals[k].Token(), s.h.finals[k].outcome) {
      RecordedGrows(s.comments, added, s.h.finals[k].issue, s.h.finals[k].Token(), s.h.finals[k].outcome);
    }
    if s.lane.FinishingReview? && s.lane.outcome.Some? {
      RecordedGrows(s.comments, added, s.lane.row.issue, ReviewActionToken(s.lane.row.cycleId, s.lane.rev), s.lane.outcome.value);
    }
    forall i | 0 <= i < |u| && MARKER_OPENING <= u[i].text ensures StartedBy(u[i], s.h.starts) {
      if i < |s.comments| {
        assert u[i] == s.comments[i];
      }
    }
  }

  lemma PostReviewAgrees(c: Config, s: State, st: Start, text: string)
    requires Inv(c, s) && AgreeInv(s) && st in s.h.starts && RecordsSome(text, st.Token())
    requires forall i :: 0 <= i < |s.comments| && s.comments[i].issue == st.issue ==> !Marks(s.comments[i], st.Token())
    ensures AgreeInv(s.(comments := s.comments + [Comment(st.issue, text)]))
  {
    var added := Comment(st.issue, text);
    RecordingMarks(text, st.Token());
    forall other, i | other in s.h.starts && 0 <= i < |s.comments| && Marks(s.comments[i], other.Token())
      ensures !Marks(added, other.Token())
    {
      ActionIssue(c, s, other, i);
      if Marks(added, other.Token()) {
        StartedMarkers(c, s, st, other, text);
      }
    }
    CommentAdded(c, s, added);
  }

  /** A comment with a started decision's marker sits on that decision's issue. */
  lemma ActionIssue(c: Config, s: State, st: Start, i: nat)
    requires Inv(c, s) && ActionsStarted(s.comments, s.h.starts)
    requires st in s.h.starts && i < |s.comments| && Marks(s.comments[i], st.Token())
    ensures s.comments[i].issue == st.issue && RecordsSome(s.comments[i].text, st.Token())
  {
    MarkOpens(s.comments[i], st.Token());
    assert StartedBy(s.comments[i], s.h.starts);
    var prior :| prior in s.h.starts && prior.issue == s.comments[i].issue && RecordsSome(s.comments[i].text, prior.Token());
    RecordingMarks(s.comments[i].text, prior.Token());
    StartedMarkers(c, s, st, prior, s.comments[i].text);
  }

  lemma PostOtherAgrees(c: Config, s: State, issue: string, text: string)
    requires Inv(c, s) && AgreeInv(s) && !(MARKER_OPENING <= text)
    ensures AgreeInv(s.(comments := s.comments + [Comment(issue, text)]))
  {
    var added := Comment(issue, text);
    forall st | st in s.h.starts ensures !Marks(added, st.Token()) {
      if Marks(added, st.Token()) {
        MarkOpens(added, st.Token());
      }
    }
    CommentAdded(c, s, added);
  }

  /** A newly started decision has the actions of an earlier start of the same decision, if any, and no others. */
  lemma NextRowAgrees(c: Config, s: State)
    requires Inv(c, s) && AgreeInv(s) && s.lane.Idle? && s.poll.Some? && s.poll.value != []
    ensures AgreeInv(StartRow(s))
  {
    var u := StartRow(s);
    NextRowStep(c, s);
    forall i | 0 <= i < |s.comments| && MARKER_OPENING <= s.comments[i].text ensures StartedBy(s.comments[i], u.h.starts) {
      var prior :| prior in s.h.starts && prior.issue == s.comments[i].issue && RecordsSome(s.comments[i].text, prior.Token());
      assert prior in u.h.starts;
    }
    forall st, i, j | st in u.h.starts && 0 <= i < j < |s.comments| && Marks(s.comments[i], st.Token()) ensures !Marks(s.comments[j], st.Token()) {
      MarkOpens(s.comments[i], st.Token());
      var prior :| prior in s.h.starts && prior.issue == s.comments[i].issue && RecordsSome(s.comments[i].text, prior.Token());
      RecordingMarks(s.comments[i].text, prior.Token());
      StartedMarkers(c, u, st, prior, s.comments[i].text);
    }
  }

  lemma PersistAgrees(c: Config, s: State, now: int)
    requires Inv(c, s) && AgreeInv(s) && (s.lane.FinishingExecution? || s.lane.FinishingReview?)
    ensures AgreeInv(PersistTurn(s, now))
  {
  }

  lemma VerdictAgrees(c: Config, s: State, v: Verdict)
    requires AgreeInv(s) && RunsTurn(s.lane) && (s.lane.Reviewing? ==> ReportsRecorded(s, v))
    ensures AgreeInv(AfterVerdict(c, s, v))
  {
  }

  lemma ReturnAgrees(c: Config, s: State, raw: RawResult)
    requires AgreeInv(s) && RunsTurn(s.lane) && (s.lane.Reviewing? && Judge(c, s.lane, raw).Accepted? ==> ReportsPosted(s, raw))
    ensures AgreeInv(AfterVerdict(c, s, Judge(c, s.lane, raw)))
  {
    if s.lane.Reviewing? {
      PostedReport(c, s, raw);
    }
    VerdictAgrees(c, s, Judge(c, s.lane, raw));
  }

  lemma OtherStepsAgree(c: Config, s: State, l: Label)
    requires AgreeInv(s) && Enabled(s, l)
    requires !l.PostReview? && !l.PostOther? && !l.NextRow? && !l.Persist? && !l.TurnReturns?
    ensures AgreeInv(Step(c, s, l))
  {
  }

  lemma StepAgrees(c: Config, s: State, l: Label)
    requires Inv(c, s) && AgreeInv(s) && Enabled(s, l) && Obeys(c, s, l)
    ensures AgreeInv(Step(c, s, l))
  {
    match l
    case PostReview(st, text) => PostReviewAgrees(c, s, st, text);
    case PostOther(issue, text) => PostOtherAgrees(c, s, issue, text);
    case NextRow => NextRowAgrees(c, s);
    case Persist(now) => PersistAgrees(c, s, now);
    case TurnReturns(raw) => ReturnAgrees(c, s, raw);
    case _ => OtherStepsAgree(c, s, l);
  }

  lemma InvariantAgrees(c: Config, s: State)
    requires Inv(c, s) && AgreeInv(s)
    ensures Agrees(s)
  {
    forall k | 0 <= k < |s.h.finals| ensures CommittedAsPosted(s, s.h.finals[k]) {
      var f := s.h.finals[k];
      var p :| 0 <= p < |s.comments| && s.comments[p].issue == f.issue && Records(s.comments[p].text, f.Token(), f.outcome);
      assert StartOf(f) in s.h.starts && StartOf(f).Token() == f.Token();
      RecordingMarks(s.comments[p].text, f.Token());
      forall i | 0 <= i < |s.comments| && Marks(s.comments[i], f.Token()) ensures i == p {
        assert Marks(s.comments[p], f.Token());
      }
    }
  }

  /** Across any crashes, retries and orphaned turns: if every turn obeys the recovery rule, at most one review action
      exists per token, and any committed cycle outcome equals that action's outcome. */
  lemma AgreementWithLinear(c: Config, labels: seq<Label>)
    requires Legal(c, INITIAL, labels) && Obedient(c, INITIAL, labels)
    ensures Agrees(Run(c, INITIAL, labels))
  {
    InitialInv(c);
    RunAgreeInv(c, INITIAL, labels);
    InvariantAgrees(c, Run(c, INITIAL, labels));
  }

  // ---------------------------------------------------------------- what the tables say is what was posted

  /** Revision rounds are finalized one count after another. */
  lemma {:induction false} RoundAt(fs: seq<Final>, issue: string, k: nat) returns (i: nat)
    requires k < Revisions(fs, issue)
    ensures i < |fs| && fs[i].issue == issue && fs[i].outcome == RevisionRequired && Revisions(fs[..i], issue) == k
  {
    var n := |fs| - 1;
    if k < Revisions(fs[..n], issue) {
      i := RoundAt(fs[..n], issue, k);
      assert fs[..n][..i] == fs[..i];
    } else {
      i := n;
    }
  }

  /** More finalizations than revision rounds: one of them ended the cycle. */
  lemma {:induction false} EndingFinal(fs: seq<Final>, issue: string) returns (i: nat)
    requires FinalCount(fs, issue) > Revisions(fs, issue)
    ensures i < |fs| && fs[i].issue == issue && fs[i].outcome != RevisionRequired
  {
    var n := |fs| - 1;
    if fs[n].issue == issue && fs[n].outcome != RevisionRequired {
      i := n;
    } else {
      i := EndingFinal(fs[..n], issue);
    }
  }

  lemma {:induction false} RevisionsFrom(fs: seq<Final>, i: nat)
    requires i < |fs| && IsLast(fs, i) && fs[i].outcome != RevisionRequired
    ensures Revisions(fs, fs[i].issue) == Revisions(fs[..i], fs[i].issue)
    decreases |fs|
  {
    var n := |fs| - 1;
    if i < n {
      assert fs[..n][..i] == fs[..i] && fs[n].issue != fs[i].issue;
      assert IsLast(fs[..n], i);
      RevisionsFrom(fs[..n], i);
    } else {
      assert fs[..n] == fs[..i];
    }
  }

  /** An issue's cycle, told by the comments on the issue. */
  ghost predicate CyclePosted(s: State, issue: string) {
    issue in s.db.cycles ==>
      var c := s.db.cycles[issue];
      && (forall k: nat :: k < c.revisionCount ==> IsPosted(s.comments, issue, Head(c.cycleId, k) + " REVISION REQUIRED"))
      && (c.status == DoneCycle ==> IsPosted(s.comments, issue, Head(c.cycleId, c.revisionCount) + " PASS"))
      && (c.status == NeedsHumanCycle ==> IsPosted(s.comments, issue, Head(c.cycleId, c.revisionCount) + " NEEDS HUMAN"))
  }

  lemma RoundPosted(c: Config, s: State, issue: string, k: nat)
    requires Inv(c, s) && FinalsRecorded(s.comments, s.h.finals) && issue in s.db.cycles && k < s.db.cycles[issue].revisionCount
    ensures IsPosted(s.comments, issue, Head(s.db.cycles[issue].cycleId, k) + " REVISION REQUIRED")
  {
    assert CountsOk(c, s.db, s.h.finals, issue);
    var i := RoundAt(s.h.finals, issue, k);
    assert FinalOk(s.db, s.h.finals, i);
    assert IsRecorded(s.comments, s.h.finals[i].issue, s.h.finals[i].Token(), s.h.finals[i].outcome);
    PostedIsRecorded(s.comments, issue, s.db.cycles[issue].cycleId, k);
  }

  lemma EndPosted(c: Config, s: State, issue: string)
    requires Inv(c, s) && FinalsRecorded(s.comments, s.h.finals) && issue in s.db.cycles && s.db.cycles[issue].status != ActiveCycle
    ensures var cycle := s.db.cycles[issue];
            && (cycle.status == DoneCycle ==> IsPosted(s.comments, issue, Head(cycle.cycleId, cycle.revisionCount) + " PASS"))
            && (cycle.status == NeedsHumanCycle ==> IsPosted(s.comments, issue, Head(cycle.cycleId, cycle.revisionCount) + " NEEDS HUMAN"))
  {
    var fs := s.h.finals;
    assert CountsOk(c, s.db, fs, issue);
    var i := EndingFinal(fs, issue);
    assert FinalOk(s.db, fs, i);
    RevisionsFrom(fs, i);
    assert IsRecorded(s.comments, fs[i].issue, fs[i].Token(), fs[i].outcome);
    PostedIsRecorded(s.comments, issue, s.db.cycles[issue].cycleId, s.db.cycles[issue].revisionCount);
  }

  lemma {:induction false} RunAgreeInv(c: Config, s: State, labels: seq<Label>)
    requires Inv(c, s) && AgreeInv(s) && Legal(c, s, labels) && Obedient(c, s, labels)
    ensures Inv(c, Run(c, s, labels)) && AgreeInv(Run(c, s, labels))
    decreases |labels|
  {
    if labels != [] {
      StepAgrees(c, s, labels[0]);
      StepPreserves(c, s, labels[0]);
      RunAgreeInv(c, Step(c, s, labels[0]), labels[1..]);
    }
  }

  /** In every state an obedient run reaches, each revision round counted, each cycle done and each cycle handed to a human
      has a comment on its issue that says so in these words. */
  lemma TablesSayWhatWasPosted(c: Config, labels: seq<Label>)
    requires Legal(c, INITIAL, labels) && Obedient(c, INITIAL, labels)
    ensures forall issue :: CyclePosted(Run(c, INITIAL, labels), issue)
  {
    InitialInv(c);
    RunAgreeInv(c, INITIAL, labels);
    CyclesPosted(c, Run(c, INITIAL, labels));
  }

  lemma CyclesPosted(c: Config, s: State)
    requires Inv(c, s) && FinalsRecorded(s.comments, s.h.finals)
    ensures forall issue :: CyclePosted(s, issue)
  {
    forall issue ensures CyclePosted(s, issue) {
      if issue in s.db.cycles {
        var cycle := s.db.cycles[issue];
        forall k: nat | k < cycle.revisionCount ensures IsPosted(s.comments, issue, Head(cycle.cycleId, k) + " REVISION REQUIRED") {
          RoundPosted(c, s, issue, k);
        }
        if cycle.status != ActiveCycle {
          EndPosted(c, s, issue);
        }
      }
    }
  }
}
