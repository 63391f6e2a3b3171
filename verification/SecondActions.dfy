/**
 * Which decisions can still get a second action, over every continuation: crashes, polls and new turns of the same
 * decision included.
 */
module SecondActions {
  import opened Json
  import opened Tokens
  import opened ClaudeInvoker
  import opened QueueTables
  import opened Protocol
  import opened ProtocolInvariant
  import opened ProtocolProof
  import opened Agreement
  import opened ReviewTurns
  import WorkerTasks

  // ---------------------------------------------------------------- a decision acted on

  /** Once a decision has an action, only the turns between look and post can add to it: all others find the marker. */
  lemma ActSettled(c: Config, x: World, a: Act, st: Start)
    requires WorldInv(c, x) && st in x.s.h.starts && CanAct(c, x, a) && Actions(x.s.comments, st.Token()) >= 1
    ensures var u := Acted(c, x, a);
            && st in u.s.h.starts && Actions(u.s.comments, st.Token()) >= 1
            && Actions(u.s.comments, st.Token()) + TurnsIn(u.turns, st, Armed) == Actions(x.s.comments, st.Token()) + TurnsIn(x.turns, st, Armed)
  {
    match a
    case Work(l) => WorkSettled(c, x, l, st);
    case Look(t) => LookSettled(c, x, t, st);
    case Post(t, text) => PostReach(c, x, t, text, st);
  }

  lemma WorkSettled(c: Config, x: World, l: Label, st: Start)
    requires WorldInv(c, x) && st in x.s.h.starts && CanAct(c, x, Work(l))
    ensures var u := Acted(c, x, Work(l));
            && st in u.s.h.starts && Actions(u.s.comments, st.Token()) == Actions(x.s.comments, st.Token())
            && TurnsIn(u.turns, st, Armed) == TurnsIn(x.turns, st, Armed)
  {
    StepPosts(c, x.s, l);
    WorkPostsNoAction(c, x, l, st);
    WorkTurnsAre(c, x, l);
    var turns := Acted(c, x, Work(l)).turns;
    if |turns| > |x.turns| {
      TurnsInAppend(x.turns, turns[|x.turns|], st, Armed);
    }
  }

  lemma LookSettled(c: Config, x: World, t: nat, st: Start)
    requires WorldInv(c, x) && st in x.s.h.starts && t < |x.turns| && x.turns[t].phase.Fresh?
    requires Actions(x.s.comments, st.Token()) >= 1
    ensures TurnsIn(Looked(x, t).turns, st, Armed) == TurnsIn(x.turns, st, Armed)
  {
    TurnsInUpdate(x.turns, t, Looked(x, t).turns[t], st, Armed);
    UnmarkedMeansNone(c, x, st);
  }

  lemma {:induction false} RunSettled(c: Config, x: World, acts: seq<Act>, st: Start)
    requires WorldInv(c, x) && st in x.s.h.starts && CanRun(c, x, acts) && Actions(x.s.comments, st.Token()) >= 1
    ensures Actions(After(c, x, acts).s.comments, st.Token()) <= Actions(x.s.comments, st.Token()) + TurnsIn(x.turns, st, Armed)
    decreases |acts|
  {
    if acts != [] {
      ActSettled(c, x, acts[0], st);
      ActKeeps(c, x, acts[0]);
      RunSettled(c, Acted(c, x, acts[0]), acts[1..], st);
    }
  }

  // ---------------------------------------------------------------- a finalized decision has an action

  ghost predicate Reported(x: World) {
    FinalsRecorded(x.s.comments, x.s.h.finals) && LaneRecorded(x.s.comments, x.s.lane)
  }

  lemma StepFinals(c: Config, s: State, l: Label)
    requires Enabled(s, l) && Obeys(c, s, l)
    ensures var u := Step(c, s, l);
            && u.h.finals == s.h.finals + (if l.Persist? && s.lane.FinishingReview? && s.lane.outcome.Some? then [Deciding(s.lane)] else [])
            && (u.lane.FinishingReview? && u.lane.outcome.Some? && u.lane != s.lane ==>
                  IsRecorded(s.comments, u.lane.row.issue, ReviewActionToken(u.lane.row.cycleId, u.lane.rev), u.lane.outcome.value))
  {
    if l.TurnReturns? && s.lane.Reviewing? {
      PostedReport(c, s, l.raw);
    }
  }

  lemma RecordedStays(comments: seq<Comment>, more: seq<Comment>, issue: string, token: string, o: ReviewOutcome)
    requires IsRecorded(comments, issue, token, o)
    ensures IsRecorded(comments + more, issue, token, o)
  {
    var i :| 0 <= i < |comments| && comments[i].issue == issue && Records(comments[i].text, token, o);
    assert (comments + more)[i] == comments[i];
  }

  lemma StepReports(c: Config, s: State, l: Label)
    requires Enabled(s, l) && Obeys(c, s, l) && FinalsRecorded(s.comments, s.h.finals) && LaneRecorded(s.comments, s.lane)
    ensures var u := Step(c, s, l); FinalsRecorded(u.comments, u.h.finals) && LaneRecorded(u.comments, u.lane)
  {
    var u := Step(c, s, l);
    StepFinals(c, s, l);
    StepPosts(c, s, l);
    forall k | 0 <= k < |u.h.finals| ensures IsRecorded(u.comments, u.h.finals[k].issue, u.h.finals[k].Token(), u.h.finals[k].outcome) {
      var f := u.h.finals[k];
      assert IsRecorded(s.comments, f.issue, f.Token(), f.outcome);
      RecordedStays(s.comments, Posted(l), f.issue, f.Token(), f.outcome);
    }
    if u.lane.FinishingReview? && u.lane.outcome.Some? {
      RecordedStays(s.comments, Posted(l), u.lane.row.issue, ReviewActionToken(u.lane.row.cycleId, u.lane.rev), u.lane.outcome.value);
    }
  }

  lemma {:induction false} RunReports(c: Config, x: World, acts: seq<Act>)
    requires WorldInv(c, x) && Reported(x) && CanRun(c, x, acts)
    ensures WorldInv(c, After(c, x, acts)) && Reported(After(c, x, acts))
    decreases |acts|
  {
    if acts != [] {
      ActKeeps(c, x, acts[0]);
      ActReports(c, x, acts[0]);
      RunReports(c, Acted(c, x, acts[0]), acts[1..]);
    }
  }

  lemma ActReports(c: Config, x: World, a: Act)
    requires Reported(x) && CanAct(c, x, a)
    ensures Reported(Acted(c, x, a))
  {
    match a
    case Work(l) => StepReports(c, x.s, l);
    case Look(t) =>
    case Post(t, text) => PostReports(x, t, text);
  }

  lemma PostReports(x: World, t: nat, text: string)
    requires Reported(x) && t < |x.turns|
    ensures Reported(PostedBy(x, t, text))
  {
    var more := [Comment(x.turns[t].start.issue, text)];
    forall k | 0 <= k < |x.s.h.finals|
      ensures IsRecorded(x.s.comments + more, x.s.h.finals[k].issue, x.s.h.finals[k].Token(), x.s.h.finals[k].outcome)
    {
      var f := x.s.h.finals[k];
      RecordedStays(x.s.comments, more, f.issue, f.Token(), f.outcome);
    }
    if x.s.lane.FinishingReview? && x.s.lane.outcome.Some? {
      RecordedStays(x.s.comments, more, x.s.lane.row.issue, ReviewActionToken(x.s.lane.row.cycleId, x.s.lane.rev), x.s.lane.outcome.value);
    }
  }

  /** A decision without an action has not been finalized: its row is still active. */
  lemma UnactedIsActive(c: Config, x: World, st: Start)
    requires WorldInv(c, x) && Reported(x) && st in x.s.h.starts && Actions(x.s.comments, st.Token()) == 0
    ensures st.id < |x.s.db.events| && x.s.db.events[st.id].IsActive()
  {
    assert StartOk(x.s.db, x.s.h.finals, st);
    if !x.s.db.events[st.id].IsActive() {
      assert HasFinal(x.s.h.finals, st.id);
      var k :| 0 <= k < |x.s.h.finals| && x.s.h.finals[k].id == st.id;
      FinalizedHasAction(c, x, st, k);
    }
  }

  lemma FinalizedHasAction(c: Config, x: World, st: Start, k: nat)
    requires WorldInv(c, x) && Reported(x) && st in x.s.h.starts && k < |x.s.h.finals| && x.s.h.finals[k].id == st.id
    ensures Actions(x.s.comments, st.Token()) > 0
  {
    var f := x.s.h.finals[k];
    assert StartOk(x.s.db, x.s.h.finals, st) && FinalOk(x.s.db, x.s.h.finals, k);
    assert StartOf(f) in x.s.h.starts && StartOk(x.s.db, x.s.h.finals, StartOf(f));
    assert f.Token() == st.Token();
    var p :| 0 <= p < |x.s.comments| && x.s.comments[p].issue == f.issue && Records(x.s.comments[p].text, f.Token(), f.outcome);
    RecordingMarks(x.s.comments[p].text, f.Token());
    NoActions(x.s.comments, st.Token());
  }

  // ---------------------------------------------------------------- the worker may start it again

  /** Steps of the worker alone that make no turn report anything. */
  predicate Silent(l: Label) {
    !l.PostReview? && !l.PostOther? && (l.TurnReturns? ==> l.raw.timedOut)
  }

  function Works(labels: seq<Label>): (acts: seq<Act>)
    ensures |acts| == |labels|
  {
    if labels == [] then [] else [Work(labels[0])] + Works(labels[1..])
  }

  lemma SilentObeys(c: Config, s: State, l: Label)
    requires Enabled(s, l) && Silent(l)
    ensures Obeys(c, s, l)
  {
    if l.TurnReturns? && s.lane.Reviewing? {
      TimedOutIsNeverAccepted(l.raw, c.ExpectedReview(s.lane.row.issue), s.lane.rev, c.maxRevisionCycles, ReviewActionToken(s.lane.row.cycleId, s.lane.rev));
    }
  }

  /** A run of the protocol that is silent is a run of the world; turns are only added, comments not at all. */
  lemma {:induction false} SilentRun(c: Config, x: World, labels: seq<Label>)
    requires Legal(c, x.s, labels) && forall l :: l in labels ==> Silent(l)
    ensures CanRun(c, x, Works(labels))
    ensures var u := After(c, x, Works(labels)); u.s == Run(c, x.s, labels) && x.turns <= u.turns && u.s.comments == x.s.comments
    decreases |labels|
  {
    if labels != [] {
      var l := labels[0];
      assert l in labels;
      SilentObeys(c, x.s, l);
      StepPosts(c, x.s, l);
      assert x.s.comments + Posted(l) == x.s.comments;
      forall k | k in labels[1..] ensures Silent(k) {
        assert k in labels;
      }
      SilentRun(c, Acted(c, x, Work(l)), labels[1..]);
      RunThen(c, x, Work(l), Works(labels[1..]));
    }
  }

  const TIMED_OUT: RawResult := TurnResult(None, None, true, false, Unparseable, false)

  lemma LegalThen(c: Config, s: State, l: Label, rest: seq<Label>)
    requires Enabled(s, l) && Legal(c, Step(c, s, l), rest)
    ensures Legal(c, s, [l] + rest) && Run(c, s, [l] + rest) == Run(c, Step(c, s, l), rest)
  {
    assert ([l] + rest)[0] == l && ([l] + rest)[1..] == rest;
  }

  /** A row ahead in the queue is passed by a turn that times out. */
  lemma SkipRow(c: Config, s: State) returns (labels: seq<Label>)
    requires Inv(c, s) && s.lane.Idle? && s.poll.Some? && s.poll.value != []
    ensures Legal(c, s, labels) && forall l :: l in labels ==> Silent(l)
    ensures var u := Run(c, s, labels); Inv(c, u) && u.lane.Idle? && u.poll == Some(s.poll.value[1..])
  {
    var row := s.poll.value[0];
    assert Current(s.db, row);
    TimeoutIsRejected(c, s.db, row);
    WorkerTasks.ProtocolRunsTask(c, s, TIMED_OUT, 0);
    labels := WorkerTasks.TaskLabels(WorkerTasks.RowVerdict(c, s.db, row, TIMED_OUT), TIMED_OUT, 0);
    RunPreserves(c, s, labels);
  }

  lemma TimeoutIsRejected(c: Config, t: Tables, row: Event)
    ensures WorkerTasks.RowVerdict(c, t, row, TIMED_OUT).Rejected?
  {
    TimedOutIsNeverAccepted(TIMED_OUT, if row.jobType == Review then c.ExpectedReview(row.issue) else c.ExpectedExecution(row.issue),
                            TrustedRevision(t, row.issue), c.maxRevisionCycles, ReviewActionToken(row.cycleId, TrustedRevision(t, row.issue)));
  }

  /** The worker is idle and about to start this row. */
  ghost predicate Ready(c: Config, s: State, row: Event) {
    Inv(c, s) && s.lane.Idle? && s.poll.Some? && s.poll.value != [] && s.poll.value[0] == row
  }

  /** These silent labels lead from `s` to `u`. */
  ghost predicate Leads(c: Config, s: State, labels: seq<Label>, u: State) {
    Legal(c, s, labels) && Run(c, s, labels) == u && forall l :: l in labels ==> Silent(l)
  }

  lemma LeadsNowhere(c: Config, s: State)
    ensures Leads(c, s, [], s)
  {
  }

  lemma LeadsThen(c: Config, s: State, first: seq<Label>, u: State, rest: seq<Label>, w: State)
    requires Leads(c, s, first, u) && Leads(c, u, rest, w)
    ensures Leads(c, s, first + rest, w)
  {
    WorkerTasks.RunsCompose(c, s, first, rest);
  }

  lemma {:induction false} SkipTo(c: Config, s: State, k: nat) returns (labels: seq<Label>, u: State)
    requires Inv(c, s) && s.lane.Idle? && s.poll.Some? && k < |s.poll.value|
    ensures Leads(c, s, labels, u) && Ready(c, u, s.poll.value[k])
    decreases k
  {
    if k == 0 {
      LeadsNowhere(c, s);
      labels, u := [], s;
    } else {
      var first := SkipRow(c, s);
      var v := Run(c, s, first);
      assert v.poll.value[k - 1] == s.poll.value[k];
      labels, u := SkipTo(c, v, k - 1);
      LeadsThen(c, s, first, v, labels, u);
      labels := first + labels;
    }
  }

  /** What a restart, an operator's reset if need be, and a late poll lead to. */
  function Polled(s: State, id: nat, now: int): State
    requires id < |s.db.events|
  {
    var t := if s.db.events[id].status == NeedsReview then Reset(s.db, id) else s.db;
    var h := if s.db.events[id].status == NeedsReview then s.h.(resets := s.h.resets + multiset{id}, waited := s.h.waited[id := 0]) else s.h;
    State(t, Some(Eligible(t.events, now)), Idle, s.comments, h)
  }

  lemma PollAgain(c: Config, s: State, id: nat, now: int) returns (labels: seq<Label>)
    requires id < |s.db.events| && s.db.events[id].IsActive()
    ensures Legal(c, s, labels) && Run(c, s, labels) == Polled(s, id, now) && forall l :: l in labels ==> Silent(l)
  {
    var a := s.(poll := None, lane := Idle);
    var b := a.(db := Polled(s, id, now).db, h := Polled(s, id, now).h);
    PollIs(c, b, now);
    labels := [PollStart(now)];
    if s.db.events[id].status == NeedsReview {
      ResetIs(c, a, id);
      LegalThen(c, a, OperatorReset(id), labels);
      labels := [OperatorReset(id)] + labels;
    }
    CrashIs(c, s);
    LegalThen(c, s, Crash, labels);
    labels := [Crash] + labels;
  }

  lemma CrashIs(c: Config, s: State)
    ensures Enabled(s, Crash) && Step(c, s, Crash) == s.(poll := None, lane := Idle)
  {
  }

  lemma ResetIs(c: Config, s: State, id: nat)
    requires id < |s.db.events| && s.db.events[id].status == NeedsReview
    ensures Enabled(s, OperatorReset(id))
    ensures Step(c, s, OperatorReset(id)) ==
            s.(db := Reset(s.db, id), h := s.h.(resets := s.h.resets + multiset{id}, waited := s.h.waited[id := 0]))
  {
  }

  lemma PollIs(c: Config, s: State, now: int)
    requires s.poll.None?
    ensures Legal(c, s, [PollStart(now)]) && Run(c, s, [PollStart(now)]) == s.(poll := Some(Eligible(s.db.events, now)))
  {
    var u := s.(poll := Some(Eligible(s.db.events, now)));
    assert Enabled(s, PollStart(now)) && Step(c, s, PollStart(now)) == u;
    assert Legal(c, u, []) && Run(c, u, []) == u;
    LegalThen(c, s, PollStart(now), []);
    assert [PollStart(now)] + [] == [PollStart(now)];
  }

  lemma RowIsPolled(s: State, id: nat, now: int) returns (k: nat)
    requires IdsMatch(s.db.events) && id < |s.db.events| && s.db.events[id].IsActive()
    requires now >= 0 && now >= s.db.events[id].nextAttemptAt
    ensures var q := Polled(s, id, now).poll.value; k < |q| && q[k].id == id
  {
    var t := Polled(s, id, now).db;
    EligibleRows(t.events, now);
    assert t.events[id] in t.events && IsEligible(t.events[id], now);
    var q := Eligible(t.events, now);
    k :| 0 <= k < |q| && q[k] == t.events[id];
  }

  /** However busy the worker, it can be brought to the point of starting an active row. */
  lemma ReachRow(c: Config, s: State, id: nat) returns (labels: seq<Label>)
    requires Inv(c, s) && id < |s.db.events| && s.db.events[id].IsActive()
    ensures Legal(c, s, labels) && forall l :: l in labels ==> Silent(l)
    ensures var u := Run(c, s, labels); Inv(c, u) && u.lane.Idle? && u.poll.Some? && u.poll.value != [] && u.poll.value[0].id == id
  {
    var now := if s.db.events[id].nextAttemptAt < 0 then 0 else s.db.events[id].nextAttemptAt;
    var first := PollAgain(c, s, id, now);
    RunPreserves(c, s, first);
    var k := RowIsPolled(s, id, now);
    var rest, u := SkipTo(c, Polled(s, id, now), k);
    LeadsThen(c, s, first, Polled(s, id, now), rest, u);
    labels := first + rest;
  }

  lemma {:induction false} TurnsInPrefix(turns: seq<Turn>, more: seq<Turn>, st: Start, phase: Phase)
    requires turns <= more
    ensures TurnsIn(turns, st, phase) <= TurnsIn(more, st, phase)
    decreases |more|
  {
    if |turns| < |more| {
      TurnsInPrefix(turns, more[..|more| - 1], st, phase);
    } else {
      assert turns == more;
    }
  }

  /** What starting the row of a decision that is still open does: one more turn of the same decision. */
  lemma RowStartsTurn(c: Config, x: World, st: Start)
    requires WorldInv(c, x) && st in x.s.h.starts && x.s.lane.Idle? && x.s.poll.Some? && x.s.poll.value != [] && x.s.poll.value[0].id == st.id
    ensures CanAct(c, x, Work(NextRow))
    ensures var u := Acted(c, x, Work(NextRow));
            u.turns == x.turns + [Turn(st, Fresh)] && u.s.comments == x.s.comments && st in u.s.h.starts
  {
    var row := x.s.poll.value[0];
    assert Current(x.s.db, row) && StartOk(x.s.db, x.s.h.finals, st);
    NextRowIs(c, x.s, row);
  }

  lemma NextRowIs(c: Config, s: State, row: Event)
    requires s.lane.Idle? && s.poll.Some? && s.poll.value != [] && s.poll.value[0] == row && row.jobType == Review
    ensures Enabled(s, NextRow) && Obeys(c, s, NextRow)
    ensures var u := Step(c, s, NextRow);
            && u.lane == Reviewing(row, TrustedRevision(s.db, row.issue)) && u.comments == s.comments && s.h.starts <= u.h.starts
  {
  }

  lemma {:induction false} RunsJoin(c: Config, x: World, first: seq<Act>, rest: seq<Act>)
    requires CanRun(c, x, first) && CanRun(c, After(c, x, first), rest)
    ensures CanRun(c, x, first + rest) && After(c, x, first + rest) == After(c, After(c, x, first), rest)
    decreases |first|
  {
    if first == [] {
      assert first + rest == rest;
    } else {
      TailOfJoin(first, rest);
      RunsJoin(c, Acted(c, x, first[0]), first[1..], rest);
      RunFrom(c, x, first + rest, first[1..] + rest);
    }
  }

  lemma TailOfJoin(first: seq<Act>, rest: seq<Act>)
    requires first != []
    ensures first + rest != [] && (first + rest)[0] == first[0] && (first + rest)[1..] == first[1..] + rest
  {
  }

  lemma RunFrom(c: Config, x: World, acts: seq<Act>, tail: seq<Act>)
    requires acts != [] && tail == acts[1..] && CanAct(c, x, acts[0]) && CanRun(c, Acted(c, x, acts[0]), tail)
    ensures CanRun(c, x, acts) && After(c, x, acts) == After(c, Acted(c, x, acts[0]), tail)
  {
  }

  /** A decision whose row is active can be given one more turn that has yet to look, without a comment being posted. */
  lemma StartAgain(c: Config, x: World, st: Start) returns (acts: seq<Act>)
    requires WorldInv(c, x) && Reported(x) && st in x.s.h.starts && Actions(x.s.comments, st.Token()) == 0
    ensures CanRun(c, x, acts)
    ensures var u := After(c, x, acts);
            && WorldInv(c, u) && Reported(u) && st in u.s.h.starts && u.s.comments == x.s.comments
            && TurnsIn(u.turns, st, Fresh) >= TurnsIn(x.turns, st, Fresh) + 1
  {
    UnactedIsActive(c, x, st);
    var labels := ReachRow(c, x.s, st.id);
    SilentRun(c, x, labels);
    var m := After(c, x, Works(labels));
    RunReports(c, x, Works(labels));
    StartsStay(c, x, Works(labels));
    RowStartsTurn(c, m, st);
    TurnsInPrefix(x.turns, m.turns, st, Fresh);
    TurnsInAppend(m.turns, Turn(st, Fresh), st, Fresh);
    RunThen(c, m, Work(NextRow), []);
    RunsJoin(c, x, Works(labels), [Work(NextRow)] + []);
    acts := Works(labels) + ([Work(NextRow)] + []);
    RunReports(c, x, acts);
  }

  lemma {:induction false} StartsStay(c: Config, x: World, acts: seq<Act>)
    requires CanRun(c, x, acts)
    ensures x.s.h.starts <= After(c, x, acts).s.h.starts
    decreases |acts|
  {
    if acts != [] {
      if acts[0].Work? {
        StepPosts(c, x.s, acts[0].l);
      }
      StartsStay(c, Acted(c, x, acts[0]), acts[1..]);
    }
  }

  /** Crash and retry twice: two turns that both look before either posts. */
  lemma TwoMoreTurns(c: Config, x: World, st: Start) returns (acts: seq<Act>)
    requires WorldInv(c, x) && Reported(x) && st in x.s.h.starts && Actions(x.s.comments, st.Token()) == 0
    ensures CanRun(c, x, acts) && Actions(After(c, x, acts).s.comments, st.Token()) >= 2
  {
    var first := StartAgain(c, x, st);
    var y := After(c, x, first);
    var second := StartAgain(c, y, st);
    var z := After(c, y, second);
    var race := Attained(c, z, st);
    RunsJoin(c, y, second, race);
    RunsJoin(c, x, first, second + race);
    acts := first + (second + race);
  }

  /** In every state any run reaches: a started decision can still get a second action in some continuation, crashes and new
      turns of the same decision included, unless it has exactly one and none of its turns is between look and post. */
  lemma SecondActionExactlyWhen(c: Config, before: seq<Act>, st: Start)
    requires CanRun(c, BOOT, before) && st in After(c, BOOT, before).s.h.starts
    ensures var x := After(c, BOOT, before);
            (exists acts :: CanRun(c, x, acts) && Actions(After(c, x, acts).s.comments, st.Token()) >= 2) <==>
            !(Actions(x.s.comments, st.Token()) == 1 && TurnsIn(x.turns, st, Armed) == 0)
  {
    var x := After(c, BOOT, before);
    BootKeeps(c);
    RunReports(c, BOOT, before);
    if Actions(x.s.comments, st.Token()) == 1 && TurnsIn(x.turns, st, Armed) == 0 {
      forall acts | CanRun(c, x, acts) ensures Actions(After(c, x, acts).s.comments, st.Token()) < 2 {
        RunSettled(c, x, acts, st);
      }
    } else if Actions(x.s.comments, st.Token()) == 0 {
      var acts := TwoMoreTurns(c, x, st);
    } else {
      var acts := Attained(c, x, st);
    }
  }

  // ---------------------------------------------------------------- a run that posts twice

  /** One review row is queued and started, the worker crashes and starts it again; both turns look, then both post. */
  function DoublePost(req: Request, uuid: string, text: string): seq<Act> {
    [Work(Ingress(req, uuid)), Work(PollStart(0)), Work(NextRow), Work(Crash), Work(PollStart(0)), Work(NextRow)] +
    [Look(0), Look(1), Post(0, text), Post(1, text)]
  }

  /** The world after the row has been queued and these turns of its decision have been started. */
  function Queueing(req: Request, uuid: string, poll: Option<seq<Event>>, lane: Lane, turns: seq<Turn>, current: Option<nat>): World
    requires req.job.Some?
  {
    var starts := set t | t in turns :: t.start;
    World(State(Record(EMPTY, req, uuid), poll, lane, [], INITIAL.h.(starts := starts)), turns, current)
  }

  lemma QueuedRow(req: Request, uuid: string)
    requires req.job.Some? && req.job.value.jobType == Review
    ensures var t := Record(EMPTY, req, uuid); t.events == [NewRow(0, req, uuid)] && Eligible(t.events, 0) == t.events
    ensures TrustedRevision(Record(EMPTY, req, uuid), req.job.value.issue) == 0
  {
    var t := Record(EMPTY, req, uuid);
    assert !HasActiveEvent(EMPTY, req.job.value.issue);
    assert t.events[..0] == [] && Eligible([], 0) == [];
  }

  lemma QueueIt(c: Config, req: Request, uuid: string)
    requires req.job.Some? && req.job.value.jobType == Review && IsUuid(uuid)
    ensures CanAct(c, BOOT, Work(Ingress(req, uuid)))
    ensures Acted(c, BOOT, Work(Ingress(req, uuid))) == Queueing(req, uuid, None, Idle, [], None)
  {
  }

  lemma PollIt(c: Config, req: Request, uuid: string, turns: seq<Turn>)
    requires req.job.Some? && req.job.value.jobType == Review
    ensures var x := Queueing(req, uuid, None, Idle, turns, None);
            CanAct(c, x, Work(PollStart(0))) && Acted(c, x, Work(PollStart(0))) == Queueing(req, uuid, Some([NewRow(0, req, uuid)]), Idle, turns, None)
  {
    QueuedRow(req, uuid);
  }

  lemma StartIt(c: Config, req: Request, uuid: string, turns: seq<Turn>)
    requires req.job.Some? && req.job.value.jobType == Review
    ensures var row := NewRow(0, req, uuid);
            var x := Queueing(req, uuid, Some([row]), Idle, turns, None);
            CanAct(c, x, Work(NextRow)) && Acted(c, x, Work(NextRow)) ==
              Queueing(req, uuid, Some([]), Reviewing(row, 0), turns + [Turn(Start(0, row.issue, uuid, 0), Fresh)], Some(|turns|))
  {
    QueuedRow(req, uuid);
    var row := NewRow(0, req, uuid);
    assert [row][1..] == [];
    var added := Turn(Start(0, row.issue, uuid, 0), Fresh);
    assert (set t | t in turns + [added] :: t.start) == (set t | t in turns :: t.start) + {added.start};
  }

  lemma CrashIt(c: Config, req: Request, uuid: string, turns: seq<Turn>, current: Option<nat>)
    requires req.job.Some? && req.job.value.jobType == Review
    ensures var x := Queueing(req, uuid, Some([]), Reviewing(NewRow(0, req, uuid), 0), turns, current);
            CanAct(c, x, Work(Crash)) && Acted(c, x, Work(Crash)) == Queueing(req, uuid, None, Idle, turns, None)
  {
  }

  /** Two turns that both look before either posts both post. */
  lemma BothPost(c: Config, x: World, st: Start, text: string)
    requires x.turns == [Turn(st, Fresh), Turn(st, Fresh)] && x.s.comments == [] && st in x.s.h.starts && RecordsSome(text, st.Token())
    ensures var acts := [Look(0), Look(1), Post(0, text), Post(1, text)];
            CanRun(c, x, acts) && After(c, x, acts).s.comments == [Comment(st.issue, text), Comment(st.issue, text)]
            && After(c, x, acts).s.h == x.s.h
  {
    var a, b := Looked(x, 0), Looked(Looked(x, 0), 1);
    assert a.turns == [Turn(st, Armed), Turn(st, Fresh)] && b.turns == [Turn(st, Armed), Turn(st, Armed)];
    BothArmedPost(c, b, st, text);
    var posts := [Post(0, text), Post(1, text)];
    RunThen(c, a, Look(1), posts);
    RunThen(c, x, Look(0), [Look(1)] + posts);
    assert [Look(0)] + ([Look(1)] + posts) == [Look(0), Look(1), Post(0, text), Post(1, text)];
  }

  lemma BothArmedPost(c: Config, b: World, st: Start, text: string)
    requires b.turns == [Turn(st, Armed), Turn(st, Armed)] && b.s.comments == [] && st in b.s.h.starts && RecordsSome(text, st.Token())
    ensures var acts := [Post(0, text), Post(1, text)];
            CanRun(c, b, acts) && After(c, b, acts).s.comments == [Comment(st.issue, text), Comment(st.issue, text)]
            && After(c, b, acts).s.h == b.s.h
  {
    var d, e := PostedBy(b, 0, text), PostedBy(PostedBy(b, 0, text), 1, text);
    assert d.turns == [Turn(st, Done), Turn(st, Armed)];
    assert CanRun(c, e, []) && After(c, e, []) == e;
    RunThen(c, d, Post(1, text), []);
    RunThen(c, b, Post(0, text), [Post(1, text)] + []);
    assert [Post(0, text)] + ([Post(1, text)] + []) == [Post(0, text), Post(1, text)];
  }

  lemma PollAndStart(c: Config, req: Request, uuid: string, turns: seq<Turn>)
    requires req.job.Some? && req.job.value.jobType == Review
    ensures var row := NewRow(0, req, uuid);
            var x, acts := Queueing(req, uuid, None, Idle, turns, None), [Work(PollStart(0)), Work(NextRow)];
            && CanRun(c, x, acts)
            && After(c, x, acts) == Queueing(req, uuid, Some([]), Reviewing(row, 0), turns + [Turn(Start(0, row.issue, uuid, 0), Fresh)], Some(|turns|))
  {
    var row := NewRow(0, req, uuid);
    var w := Queueing(req, uuid, Some([]), Reviewing(row, 0), turns + [Turn(Start(0, row.issue, uuid, 0), Fresh)], Some(|turns|));
    PollIt(c, req, uuid, turns);
    StartIt(c, req, uuid, turns);
    assert CanRun(c, w, []) && After(c, w, []) == w;
    RunThen(c, Queueing(req, uuid, Some([row]), Idle, turns, None), Work(NextRow), []);
    RunThen(c, Queueing(req, uuid, None, Idle, turns, None), Work(PollStart(0)), [Work(NextRow)] + []);
    assert [Work(PollStart(0))] + ([Work(NextRow)] + []) == [Work(PollStart(0)), Work(NextRow)];
  }

  lemma StartTwice(c: Config, req: Request, uuid: string)
    requires req.job.Some? && req.job.value.jobType == Review && IsUuid(uuid)
    ensures var acts := [Work(Ingress(req, uuid)), Work(PollStart(0)), Work(NextRow), Work(Crash), Work(PollStart(0)), Work(NextRow)];
            var st := Start(0, req.job.value.issue, uuid, 0);
            && CanRun(c, BOOT, acts)
            && After(c, BOOT, acts) == Queueing(req, uuid, Some([]), Reviewing(NewRow(0, req, uuid), 0), [Turn(st, Fresh), Turn(st, Fresh)], Some(1))
  {
    var row, turn := NewRow(0, req, uuid), Turn(Start(0, req.job.value.issue, uuid, 0), Fresh);
    var start := [Work(PollStart(0)), Work(NextRow)];
    assert [] + [turn] == [turn] && [turn] + [turn] == [turn, turn];
    PollAndStart(c, req, uuid, [turn]);
    CrashIt(c, req, uuid, [turn], Some(0));
    RunThen(c, Queueing(req, uuid, Some([]), Reviewing(row, 0), [turn], Some(0)), Work(Crash), start);
    PollAndStart(c, req, uuid, []);
    RunsJoin(c, Queueing(req, uuid, None, Idle, [], None), start, [Work(Crash)] + start);
    QueueIt(c, req, uuid);
    RunThen(c, BOOT, Work(Ingress(req, uuid)), start + ([Work(Crash)] + start));
    assert [Work(Ingress(req, uuid))] + (start + ([Work(Crash)] + start)) ==
           [Work(Ingress(req, uuid)), Work(PollStart(0)), Work(NextRow), Work(Crash), Work(PollStart(0)), Work(NextRow)];
  }

  /** Every review row can be posted for twice: this run follows the recovery rule, and does not agree with Linear. */
  lemma DoublePostDisagrees(c: Config, req: Request, uuid: string, text: string)
    requires req.job.Some? && req.job.value.jobType == Review && IsUuid(uuid)
    requires RecordsSome(text, Start(0, req.job.value.issue, uuid, 0).Token())
    ensures CanRun(c, BOOT, DoublePost(req, uuid, text)) && !Agrees(After(c, BOOT, DoublePost(req, uuid, text)).s)
  {
    var st := Start(0, req.job.value.issue, uuid, 0);
    StartTwice(c, req, uuid);
    var first := [Work(Ingress(req, uuid)), Work(PollStart(0)), Work(NextRow), Work(Crash), Work(PollStart(0)), Work(NextRow)];
    var w := Queueing(req, uuid, Some([]), Reviewing(NewRow(0, req, uuid), 0), [Turn(st, Fresh), Turn(st, Fresh)], Some(1));
    assert Turn(st, Fresh) in w.turns;
    BothPost(c, w, st, text);
    RunsJoin(c, BOOT, first, [Look(0), Look(1), Post(0, text), Post(1, text)]);
    TwoMarksDisagree(After(c, BOOT, DoublePost(req, uuid, text)).s, st, text);
  }

  lemma TwoMarksDisagree(s: State, st: Start, text: string)
    requires s.comments == [Comment(st.issue, text), Comment(st.issue, text)] && st in s.h.starts && RecordsSome(text, st.Token())
    ensures !Agrees(s)
  {
    RecordingMarks(text, st.Token());
    assert Marks(s.comments[0], st.Token()) && Marks(s.comments[1], st.Token());
  }
}
