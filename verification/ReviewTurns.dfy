/**
 * Review turns with an identity of their own. A turn looks once for its marker and posts at most once, as separate steps,
 * and may outlive the task that started it. How many actions one decision can get, and which schedules keep it to one.
 */
module ReviewTurns {
  import opened Json
  import opened Tokens
  import opened Protocol
  import opened ProtocolInvariant
  import opened ProtocolProof
  import opened Agreement

  /** A turn that has not looked, has found its marker, has found none and may post, or has posted. */
  datatype Phase = Fresh | Found | Armed | Done

  datatype Turn = Turn(start: Start, phase: Phase)

  /** `turns` in the order in which the worker started them; `current` is the one whose task is still reviewing. */
  datatype World = World(s: State, turns: seq<Turn>, current: Option<nat>)

  const BOOT := World(INITIAL, [], None)

  datatype Act = Work(l: Label) | Look(t: nat) | Post(t: nat, text: string)

  /** The decision's token is not on its issue. */
  ghost predicate Unmarked(s: State, st: Start) {
    forall i :: 0 <= i < |s.comments| && s.comments[i].issue == st.issue ==> !Marks(s.comments[i], st.Token())
  }

  /** The recovery rule, act by act: a turn posts only what records an outcome under its token, and only if it looked and
      found no marker; the worker's turns report only recorded outcomes; nobody else's comments open like a marker. */
  ghost predicate CanAct(c: Config, x: World, a: Act) {
    match a
    case Work(l) => Enabled(x.s, l) && !l.PostReview? && Obeys(c, x.s, l)
    case Look(t) => t < |x.turns| && x.turns[t].phase.Fresh?
    case Post(t, text) =>
      && t < |x.turns| && x.turns[t].phase.Armed? && RecordsSome(text, x.turns[t].start.Token())
      && Enabled(x.s, PostReview(x.turns[t].start, text))
  }

  function InPhase(x: World, t: nat, phase: Phase): World
    requires t < |x.turns|
  {
    x.(turns := x.turns[t := x.turns[t].(phase := phase)])
  }

  function DecisionOf(lane: Lane): Start
    requires lane.Reviewing?
  {
    Start(lane.row.id, lane.row.issue, lane.row.cycleId, lane.rev)
  }

  ghost function Looked(x: World, t: nat): World
    requires t < |x.turns|
  {
    InPhase(x, t, if Unmarked(x.s, x.turns[t].start) then Armed else Found)
  }

  function PostedBy(x: World, t: nat, text: string): World
    requires t < |x.turns|
  {
    InPhase(x, t, Done).(s := x.s.(comments := x.s.comments + [Comment(x.turns[t].start.issue, text)]))
  }

  ghost function Acted(c: Config, x: World, a: Act): World
    requires CanAct(c, x, a)
  {
    match a
    case Work(l) =>
      var u := Step(c, x.s, l);
      if l.NextRow? && u.lane.Reviewing? then World(u, x.turns + [Turn(DecisionOf(u.lane), Fresh)], Some(|x.turns|))
      else World(u, x.turns, if u.lane.Reviewing? then x.current else None)
    case Look(t) => Looked(x, t)
    case Post(t, text) => PostedBy(x, t, text)
  }

  ghost predicate CanRun(c: Config, x: World, acts: seq<Act>)
    decreases |acts|
  {
    acts == [] || (CanAct(c, x, acts[0]) && CanRun(c, Acted(c, x, acts[0]), acts[1..]))
  }

  ghost function After(c: Config, x: World, acts: seq<Act>): World
    requires CanRun(c, x, acts)
    decreases |acts|
  {
    if acts == [] then x else After(c, Acted(c, x, acts[0]), acts[1..])
  }

  lemma RunThen(c: Config, x: World, a: Act, rest: seq<Act>)
    requires CanAct(c, x, a) && CanRun(c, Acted(c, x, a), rest)
    ensures CanRun(c, x, [a] + rest) && After(c, x, [a] + rest) == After(c, Acted(c, x, a), rest)
  {
    assert ([a] + rest)[0] == a && ([a] + rest)[1..] == rest;
  }

  // ---------------------------------------------------------------- what every run keeps

  function Posted(l: Label): seq<Comment> {
    match l
    case PostReview(st, text) => [Comment(st.issue, text)]
    case PostOther(issue, text) => [Comment(issue, text)]
    case _ => []
  }

  lemma StepPosts(c: Config, s: State, l: Label)
    requires Enabled(s, l)
    ensures Step(c, s, l).comments == s.comments + Posted(l)
    ensures s.h.starts <= Step(c, s, l).h.starts
    ensures l.NextRow? && Step(c, s, l).lane.Reviewing? ==> DecisionOf(Step(c, s, l).lane) in Step(c, s, l).h.starts
  {
  }

  /** Markers on the issues belong to started decisions, and so do the turns. */
  ghost predicate WorldInv(c: Config, x: World) {
    && Inv(c, x.s)
    && ActionsStarted(x.s.comments, x.s.h.starts)
    && forall t :: 0 <= t < |x.turns| ==> x.turns[t].start in x.s.h.starts
  }

  lemma StartedGrows(comments: seq<Comment>, starts: set<Start>, added: seq<Comment>, more: set<Start>)
    requires ActionsStarted(comments, starts) && starts <= more
    requires forall i :: 0 <= i < |added| && MARKER_OPENING <= added[i].text ==> StartedBy(added[i], more)
    ensures ActionsStarted(comments + added, more)
  {
    var u := comments + added;
    forall i | 0 <= i < |u| && MARKER_OPENING <= u[i].text ensures StartedBy(u[i], more) {
      if i < |comments| {
        assert u[i] == comments[i];
        var st :| st in starts && st.issue == u[i].issue && RecordsSome(u[i].text, st.Token());
        assert st in more;
      } else {
        assert u[i] == added[i - |comments|];
      }
    }
  }

  lemma WorkKeeps(c: Config, x: World, l: Label)
    requires WorldInv(c, x) && CanAct(c, x, Work(l))
    ensures WorldInv(c, Acted(c, x, Work(l)))
  {
    StepPreserves(c, x.s, l);
    StepPosts(c, x.s, l);
    StartedGrows(x.s.comments, x.s.h.starts, Posted(l), Step(c, x.s, l).h.starts);
  }

  /** A post is the protocol's step. */
  lemma PostIsStep(c: Config, x: World, t: nat, text: string)
    requires CanAct(c, x, Post(t, text))
    ensures PostedBy(x, t, text).s == Step(c, x.s, PostReview(x.turns[t].start, text))
  {
  }

  lemma PostKeeps(c: Config, x: World, t: nat, text: string)
    requires WorldInv(c, x) && CanAct(c, x, Post(t, text))
    ensures WorldInv(c, PostedBy(x, t, text))
  {
    var l := PostReview(x.turns[t].start, text);
    StepPreserves(c, x.s, l);
    PostIsStep(c, x, t, text);
    var added := Comment(x.turns[t].start.issue, text);
    assert StartedBy(added, x.s.h.starts);
    StartedGrows(x.s.comments, x.s.h.starts, [added], x.s.h.starts);
  }

  lemma ActKeeps(c: Config, x: World, a: Act)
    requires WorldInv(c, x) && CanAct(c, x, a)
    ensures WorldInv(c, Acted(c, x, a))
  {
    match a
    case Work(l) => WorkKeeps(c, x, l);
    case Post(t, text) => PostKeeps(c, x, t, text);
    case Look(t) =>
  }

  // ---------------------------------------------------------------- counting

  ghost function Actions(comments: seq<Comment>, token: string): nat {
    if comments == [] then 0 else Actions(comments[..|comments| - 1], token) + if Marks(comments[|comments| - 1], token) then 1 else 0
  }

  ghost function TurnsIn(turns: seq<Turn>, st: Start, phase: Phase): nat {
    if turns == [] then 0
    else TurnsIn(turns[..|turns| - 1], st, phase) + if turns[|turns| - 1] == Turn(st, phase) then 1 else 0
  }

  /** The actions a decision has, one more for each of its turns that has found no marker, and, as long as it has none at
      all, one more for each of its turns that has yet to look. */
  ghost function Reach(x: World, st: Start): nat {
    var n := Actions(x.s.comments, st.Token());
    n + TurnsIn(x.turns, st, Armed) + if n == 0 then TurnsIn(x.turns, st, Fresh) else 0
  }

  lemma {:induction false} TurnsInUpdate(turns: seq<Turn>, t: nat, to: Turn, st: Start, phase: Phase)
    requires t < |turns|
    ensures TurnsIn(turns[t := to], st, phase) + (if turns[t] == Turn(st, phase) then 1 else 0) ==
            TurnsIn(turns, st, phase) + if to == Turn(st, phase) then 1 else 0
  {
    var n := |turns| - 1;
    if t < n {
      TurnsInUpdate(turns[..n], t, to, st, phase);
      assert turns[t := to][..n] == turns[..n][t := to];
    } else {
      assert turns[t := to][..n] == turns[..n];
    }
  }

  lemma {:induction false} TurnsInWitness(turns: seq<Turn>, st: Start, phase: Phase) returns (t: nat)
    requires TurnsIn(turns, st, phase) > 0
    ensures t < |turns| && turns[t] == Turn(st, phase)
  {
    var n := |turns| - 1;
    if turns[n] == Turn(st, phase) {
      t := n;
    } else {
      t := TurnsInWitness(turns[..n], st, phase);
    }
  }

  lemma {:induction false} NoActions(comments: seq<Comment>, token: string)
    ensures Actions(comments, token) == 0 <==> forall i :: 0 <= i < |comments| ==> !Marks(comments[i], token)
  {
    if comments != [] {
      var n := |comments| - 1;
      NoActions(comments[..n], token);
      assert comments == comments[..n] + [comments[n]];
    }
  }

  lemma ActionsAppend(comments: seq<Comment>, added: Comment, token: string)
    ensures Actions(comments + [added], token) == Actions(comments, token) + if Marks(added, token) then 1 else 0
  {
    assert (comments + [added])[..|comments|] == comments;
  }

  /** What a turn sees on its issue is what there is. */
  lemma UnmarkedMeansNone(c: Config, x: World, st: Start)
    requires WorldInv(c, x) && st in x.s.h.starts
    ensures Unmarked(x.s, st) <==> Actions(x.s.comments, st.Token()) == 0
  {
    NoActions(x.s.comments, st.Token());
    forall i | 0 <= i < |x.s.comments| && Marks(x.s.comments[i], st.Token()) ensures x.s.comments[i].issue == st.issue {
      ActionIssue(c, x.s, st, i);
    }
  }

  // ---------------------------------------------------------------- at most so many actions

  /** The act starts another turn of this decision. */
  ghost predicate Restarts(c: Config, x: World, a: Act, st: Start)
    requires CanAct(c, x, a)
  {
    var u := Acted(c, x, a);
    |u.turns| > |x.turns| && u.turns[|x.turns|].start == st
  }

  ghost predicate NoRestarts(c: Config, x: World, acts: seq<Act>, st: Start)
    requires CanRun(c, x, acts)
    decreases |acts|
  {
    acts != [] ==> !Restarts(c, x, acts[0], st) && NoRestarts(c, Acted(c, x, acts[0]), acts[1..], st)
  }

  lemma WorkPostsNoAction(c: Config, x: World, l: Label, st: Start)
    requires WorldInv(c, x) && st in x.s.h.starts && CanAct(c, x, Work(l))
    ensures Actions(Step(c, x.s, l).comments, st.Token()) == Actions(x.s.comments, st.Token())
  {
    StepPosts(c, x.s, l);
    if l.PostOther? {
      var added := Comment(l.issue, l.text);
      ActionsAppend(x.s.comments, added, st.Token());
      if Marks(added, st.Token()) {
        MarkOpens(added, st.Token());
      }
    } else {
      assert x.s.comments + Posted(l) == x.s.comments;
    }
  }

  /** The worker's steps leave the turns alone, or start one. */
  lemma WorkTurnsAre(c: Config, x: World, l: Label)
    requires CanAct(c, x, Work(l))
    ensures var u := Acted(c, x, Work(l));
            && u.s == Step(c, x.s, l)
            && (u.turns == x.turns || (|u.turns| == |x.turns| + 1 && u.turns == x.turns + [u.turns[|x.turns|]] && u.turns[|x.turns|].phase.Fresh?))
            && (u.current == x.current || u.current.None? || (u.current == Some(|x.turns|) && u.turns != x.turns))
  {
  }

  lemma TurnsInAppend(turns: seq<Turn>, added: Turn, st: Start, phase: Phase)
    ensures TurnsIn(turns + [added], st, phase) == TurnsIn(turns, st, phase) + if added == Turn(st, phase) then 1 else 0
  {
    assert (turns + [added])[..|turns|] == turns;
  }

  lemma WorkReach(c: Config, x: World, l: Label, st: Start)
    requires WorldInv(c, x) && st in x.s.h.starts && CanAct(c, x, Work(l)) && !Restarts(c, x, Work(l), st)
    ensures Reach(Acted(c, x, Work(l)), st) == Reach(x, st)
  {
    WorkPostsNoAction(c, x, l, st);
    WorkTurnsAre(c, x, l);
    var u := Acted(c, x, Work(l));
    if |u.turns| > |x.turns| {
      TurnsInAppend(x.turns, u.turns[|x.turns|], st, Fresh);
      TurnsInAppend(x.turns, u.turns[|x.turns|], st, Armed);
    }
  }

  /** A look changes nothing: a turn that finds a marker was not counted any more, one that finds none still is. */
  lemma LookReach(c: Config, x: World, t: nat, st: Start)
    requires WorldInv(c, x) && st in x.s.h.starts && t < |x.turns| && x.turns[t].phase.Fresh?
    ensures Reach(Looked(x, t), st) == Reach(x, st)
  {
    var to := Looked(x, t).turns[t];
    TurnsInUpdate(x.turns, t, to, st, Fresh);
    TurnsInUpdate(x.turns, t, to, st, Armed);
    UnmarkedMeansNone(c, x, st);
  }

  lemma PostReach(c: Config, x: World, t: nat, text: string, st: Start)
    requires WorldInv(c, x) && st in x.s.h.starts && t < |x.turns| && x.turns[t].phase.Armed? && RecordsSome(text, x.turns[t].start.Token())
    ensures var u, mine := PostedBy(x, t, text), if x.turns[t].start == st then 1 else 0;
            && Actions(u.s.comments, st.Token()) == Actions(x.s.comments, st.Token()) + mine
            && TurnsIn(u.turns, st, Armed) + mine == TurnsIn(x.turns, st, Armed)
            && TurnsIn(u.turns, st, Fresh) == TurnsIn(x.turns, st, Fresh)
  {
    var start, to := x.turns[t].start, Turn(x.turns[t].start, Done);
    TurnsInUpdate(x.turns, t, to, st, Fresh);
    TurnsInUpdate(x.turns, t, to, st, Armed);
    var added := Comment(start.issue, text);
    ActionsAppend(x.s.comments, added, st.Token());
    RecordingMarks(text, start.Token());
    if Marks(added, st.Token()) {
      StartedMarkers(c, x.s, start, st, text);
    }
  }

  lemma ActReach(c: Config, x: World, a: Act, st: Start)
    requires WorldInv(c, x) && st in x.s.h.starts && CanAct(c, x, a) && !Restarts(c, x, a, st)
    ensures Reach(Acted(c, x, a), st) <= Reach(x, st) && st in Acted(c, x, a).s.h.starts
  {
    match a
    case Work(l) => StepPosts(c, x.s, l); WorkReach(c, x, l, st);
    case Look(t) => LookReach(c, x, t, st);
    case Post(t, text) => PostFalls(c, x, t, text, st);
  }

  lemma PostFalls(c: Config, x: World, t: nat, text: string, st: Start)
    requires WorldInv(c, x) && st in x.s.h.starts && t < |x.turns| && x.turns[t].phase.Armed? && RecordsSome(text, x.turns[t].start.Token())
    ensures Reach(PostedBy(x, t, text), st) <= Reach(x, st)
  {
    PostReach(c, x, t, text, st);
  }

  lemma {:induction false} RunReach(c: Config, x: World, acts: seq<Act>, st: Start)
    requires WorldInv(c, x) && st in x.s.h.starts && CanRun(c, x, acts) && NoRestarts(c, x, acts, st)
    ensures Actions(After(c, x, acts).s.comments, st.Token()) <= Reach(x, st)
    decreases |acts|
  {
    if acts != [] {
      ActReach(c, x, acts[0], st);
      ActKeeps(c, x, acts[0]);
      RunReach(c, Acted(c, x, acts[0]), acts[1..], st);
    }
  }

  // ---------------------------------------------------------------- and they can be had

  function SomeText(st: Start): (text: string)
    ensures Records(text, st.Token(), Pass)
  {
    Marker(st.Token()) + Tokens.Label(Pass)
  }

  ghost function Undone(x: World, st: Start): nat {
    2 * TurnsIn(x.turns, st, Fresh) + TurnsIn(x.turns, st, Armed)
  }

  lemma LookIsProgress(c: Config, x: World, t: nat, st: Start)
    requires WorldInv(c, x) && st in x.s.h.starts && t < |x.turns| && x.turns[t] == Turn(st, Fresh)
    ensures Undone(Looked(x, t), st) < Undone(x, st)
  {
    var to := Looked(x, t).turns[t];
    TurnsInUpdate(x.turns, t, to, st, Fresh);
    TurnsInUpdate(x.turns, t, to, st, Armed);
  }

  lemma PostIsProgress(c: Config, x: World, t: nat, st: Start)
    requires WorldInv(c, x) && st in x.s.h.starts && t < |x.turns| && x.turns[t] == Turn(st, Armed)
    requires Actions(x.s.comments, st.Token()) == 0 ==> TurnsIn(x.turns, st, Fresh) == 0
    ensures var u := PostedBy(x, t, SomeText(st)); Reach(u, st) == Reach(x, st) && Undone(u, st) < Undone(x, st)
  {
    PostReach(c, x, t, SomeText(st), st);
  }

  /** The next act towards all the actions within reach, if there are more: all turns look before the first one posts. */
  function NextAct(st: Start, t: nat, looks: bool): Act {
    if looks then Look(t) else Post(t, SomeText(st))
  }

  lemma NextActIs(c: Config, x: World, st: Start, t: nat, looks: bool)
    requires st in x.s.h.starts && t < |x.turns| && x.turns[t] == Turn(st, if looks then Fresh else Armed)
    ensures CanAct(c, x, NextAct(st, t, looks))
    ensures Acted(c, x, NextAct(st, t, looks)) == if looks then Looked(x, t) else PostedBy(x, t, SomeText(st))
    ensures !Restarts(c, x, NextAct(st, t, looks), st)
  {
  }

  lemma NextRun(c: Config, x: World, a: Act, rest: seq<Act>, st: Start)
    requires CanAct(c, x, a) && !Restarts(c, x, a, st) && CanRun(c, Acted(c, x, a), rest) && NoRestarts(c, Acted(c, x, a), rest, st)
    ensures CanRun(c, x, [a] + rest) && NoRestarts(c, x, [a] + rest, st) && After(c, x, [a] + rest) == After(c, Acted(c, x, a), rest)
  {
    assert ([a] + rest)[0] == a && ([a] + rest)[1..] == rest;
  }

  lemma {:induction false} Attained(c: Config, x: World, st: Start) returns (acts: seq<Act>)
    requires WorldInv(c, x) && st in x.s.h.starts
    ensures CanRun(c, x, acts) && NoRestarts(c, x, acts, st)
    ensures Actions(After(c, x, acts).s.comments, st.Token()) == Reach(x, st)
    decreases Undone(x, st)
  {
    if Actions(x.s.comments, st.Token()) == Reach(x, st) {
      acts := [];
    } else {
      var looks := Actions(x.s.comments, st.Token()) == 0 && TurnsIn(x.turns, st, Fresh) > 0;
      var t := TurnsInWitness(x.turns, st, if looks then Fresh else Armed);
      if looks {
        LookReach(c, x, t, st);
        LookIsProgress(c, x, t, st);
      } else {
        PostIsProgress(c, x, t, st);
      }
      var a := NextAct(st, t, looks);
      NextActIs(c, x, st, t, looks);
      ActKeeps(c, x, a);
      var rest := Attained(c, Acted(c, x, a), st);
      NextRun(c, x, a, rest, st);
      acts := [a] + rest;
    }
  }

  lemma {:induction false} RunKeeps(c: Config, x: World, acts: seq<Act>)
    requires WorldInv(c, x) && CanRun(c, x, acts)
    ensures WorldInv(c, After(c, x, acts))
    decreases |acts|
  {
    if acts != [] {
      ActKeeps(c, x, acts[0]);
      RunKeeps(c, Acted(c, x, acts[0]), acts[1..]);
    }
  }

  lemma BootKeeps(c: Config)
    ensures WorldInv(c, BOOT)
  {
    InitialInv(c);
  }

  /** In every state any run reaches: however the turns already started go on, and whatever else happens, a decision that is
      not started anew ends with at most `Reach` actions; and some continuation gets it that many. */
  lemma MostActions(c: Config, before: seq<Act>, st: Start)
    requires CanRun(c, BOOT, before) && st in After(c, BOOT, before).s.h.starts
    ensures var x := After(c, BOOT, before);
            && (forall acts :: CanRun(c, x, acts) && NoRestarts(c, x, acts, st) ==> Actions(After(c, x, acts).s.comments, st.Token()) <= Reach(x, st))
            && (exists acts :: CanRun(c, x, acts) && NoRestarts(c, x, acts, st) && Actions(After(c, x, acts).s.comments, st.Token()) == Reach(x, st))
  {
    var x := After(c, BOOT, before);
    BootKeeps(c);
    RunKeeps(c, BOOT, before);
    forall acts | CanRun(c, x, acts) && NoRestarts(c, x, acts, st) ensures Actions(After(c, x, acts).s.comments, st.Token()) <= Reach(x, st) {
      RunReach(c, x, acts, st);
    }
    var acts := Attained(c, x, st);
  }

  // ---------------------------------------------------------------- schedules that agree

  /** When turns may look and post: never while another turn of the same decision is between its look and its post; or
      never outside the stay of their own task. */
  datatype Schedule = OneWindow | WithinTask

  ghost predicate Allows(d: Schedule, x: World, a: Act) {
    match d
    case OneWindow => a.Look? ==> forall t :: 0 <= t < |x.turns| && x.turns[t].phase.Armed? && a.t < |x.turns| ==> x.turns[t].start != x.turns[a.t].start
    case WithinTask => a.Look? || a.Post? ==> x.current == Some(a.t)
  }

  ghost predicate Keeps(d: Schedule, c: Config, x: World, acts: seq<Act>)
    requires CanRun(c, x, acts)
    decreases |acts|
  {
    acts != [] ==> Allows(d, x, acts[0]) && Keeps(d, c, Acted(c, x, acts[0]), acts[1..])
  }

  /** What a turn that may post has seen is still so. */
  ghost predicate LooksHold(d: Schedule, x: World) {
    match d
    case OneWindow =>
      && (forall t :: 0 <= t < |x.turns| && x.turns[t].phase.Armed? ==> Unmarked(x.s, x.turns[t].start))
      && (forall t, r :: 0 <= t < r < |x.turns| && x.turns[t].phase.Armed? && x.turns[r].phase.Armed? ==> x.turns[t].start != x.turns[r].start)
    case WithinTask =>
      x.current.Some? && x.current.value < |x.turns| && x.turns[x.current.value].phase.Armed? ==> Unmarked(x.s, x.turns[x.current.value].start)
  }

  lemma WorkStaysUnmarked(c: Config, x: World, l: Label, st: Start)
    requires WorldInv(c, x) && st in x.s.h.starts && CanAct(c, x, Work(l)) && Unmarked(x.s, st)
    ensures Unmarked(Step(c, x.s, l), st)
  {
    StepPosts(c, x.s, l);
    if l.PostOther? {
      var added := Comment(l.issue, l.text);
      if Marks(added, st.Token()) {
        MarkOpens(added, st.Token());
      }
    }
  }

  lemma PostStaysUnmarked(c: Config, x: World, t: nat, text: string, st: Start)
    requires WorldInv(c, x) && st in x.s.h.starts && CanAct(c, x, Post(t, text)) && Unmarked(x.s, st) && x.turns[t].start != st
    ensures Unmarked(PostedBy(x, t, text).s, st)
  {
    var start, added := x.turns[t].start, Comment(x.turns[t].start.issue, text);
    RecordingMarks(text, start.Token());
    if Marks(added, st.Token()) {
      StartedMarkers(c, x.s, start, st, text);
    }
  }

  lemma WorkHolds(d: Schedule, c: Config, x: World, l: Label)
    requires WorldInv(c, x) && LooksHold(d, x) && CanAct(c, x, Work(l))
    ensures LooksHold(d, Acted(c, x, Work(l)))
  {
    forall t | 0 <= t < |x.turns| && Unmarked(x.s, x.turns[t].start) ensures Unmarked(Step(c, x.s, l), x.turns[t].start) {
      WorkStaysUnmarked(c, x, l, x.turns[t].start);
    }
    WorkTurnsAre(c, x, l);
    SameLooks(d, x, Acted(c, x, Work(l)));
  }

  /** Looks go on holding when no marker of a turn appears and turns are only started. */
  lemma SameLooks(d: Schedule, x: World, u: World)
    requires LooksHold(d, x)
    requires u.turns == x.turns || (|u.turns| == |x.turns| + 1 && u.turns == x.turns + [u.turns[|x.turns|]] && u.turns[|x.turns|].phase.Fresh?)
    requires u.current == x.current || u.current.None? || u.current == Some(|x.turns|)
    requires u.current == Some(|x.turns|) ==> u.turns != x.turns || x.current == u.current
    requires forall t :: 0 <= t < |x.turns| && Unmarked(x.s, x.turns[t].start) ==> Unmarked(u.s, x.turns[t].start)
    ensures LooksHold(d, u)
  {
    assert forall t :: 0 <= t < |x.turns| ==> u.turns[t] == x.turns[t];
  }

  lemma PostHolds(d: Schedule, c: Config, x: World, t: nat, text: string)
    requires WorldInv(c, x) && LooksHold(d, x) && CanAct(c, x, Post(t, text)) && Allows(d, x, Post(t, text))
    ensures LooksHold(d, PostedBy(x, t, text))
  {
    forall r | 0 <= r < |x.turns| && Unmarked(x.s, x.turns[r].start) && x.turns[r].start != x.turns[t].start
      ensures Unmarked(PostedBy(x, t, text).s, x.turns[r].start)
    {
      PostStaysUnmarked(c, x, t, text, x.turns[r].start);
    }
  }

  lemma LookHolds(d: Schedule, x: World, t: nat)
    requires LooksHold(d, x) && t < |x.turns| && x.turns[t].phase.Fresh? && Allows(d, x, Look(t))
    ensures LooksHold(d, Looked(x, t))
  {
  }

  /** A post whose look still holds obeys the rule as if looking and posting were one step. */
  lemma ScheduledPostAgrees(d: Schedule, c: Config, x: World, t: nat, text: string)
    requires WorldInv(c, x) && AgreeInv(x.s) && LooksHold(d, x) && CanAct(c, x, Post(t, text)) && Allows(d, x, Post(t, text))
    ensures AgreeInv(PostedBy(x, t, text).s)
  {
    PostReviewAgrees(c, x.s, x.turns[t].start, text);
  }

  lemma {:induction false} ScheduledRun(d: Schedule, c: Config, x: World, acts: seq<Act>)
    requires WorldInv(c, x) && AgreeInv(x.s) && LooksHold(d, x) && CanRun(c, x, acts) && Keeps(d, c, x, acts)
    ensures Agrees(After(c, x, acts).s)
    decreases |acts|
  {
    if acts == [] {
      InvariantAgrees(c, x.s);
    } else {
      ActKeeps(c, x, acts[0]);
      match acts[0] {
        case Work(l) => StepAgrees(c, x.s, l); WorkHolds(d, c, x, l);
        case Look(t) => LookHolds(d, x, t);
        case Post(t, text) => ScheduledPostAgrees(d, c, x, t, text); PostHolds(d, c, x, t, text);
      }
      ScheduledRun(d, c, Acted(c, x, acts[0]), acts[1..]);
    }
  }

  /** Agreement with Linear, with looking and posting as separate steps: it holds of every run, across any crashes and
      retries, in which no two turns of one decision are between look and post at once, and of every run in which no turn
      looks or posts after its task has ended. */
  lemma ScheduledRunsAgree(d: Schedule, c: Config, acts: seq<Act>)
    requires CanRun(c, BOOT, acts) && Keeps(d, c, BOOT, acts)
    ensures Agrees(After(c, BOOT, acts).s)
  {
    BootKeeps(c);
    ScheduledRun(d, c, BOOT, acts);
  }

  // ---------------------------------------------------------------- one action means one action

  lemma {:induction false} AtMostOneAction(comments: seq<Comment>, token: string)
    ensures Actions(comments, token) <= 1 <==>
            forall i, j :: 0 <= i < j < |comments| && Marks(comments[i], token) ==> !Marks(comments[j], token)
  {
    if comments != [] {
      var n := |comments| - 1;
      var front := comments[..n];
      AtMostOneAction(front, token);
      NoActions(front, token);
      assert forall i :: 0 <= i < n ==> comments[i] == front[i];
    }
  }
}
