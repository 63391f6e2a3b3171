/**
 * What one uninterrupted worker task, and one uninterrupted poll pass, do to the tables; and that the protocol's
 * separate steps amount to the same when nothing interleaves.
 */
module WorkerTasks {
  import opened Json
  import opened ClaudeInvoker
  import opened QueueTables
  import opened Protocol

  /** `recordAttemptFailure` with its read and its write taken together. */
  function RecordFailure(t: Tables, f: Failure): Tables {
    if f.eventId < |t.events| then WriteFailure(t, f, t.events[f.eventId].attemptCount) else t
  }

  /** The verdict a row's turn gets. */
  function RowVerdict(c: Config, t: Tables, row: Event, raw: RawResult): Verdict {
    if row.jobType == Review then Judge(c, Reviewing(row, TrustedRevision(t, row.issue)), raw) else Judge(c, Executing(row), raw)
  }

  /** `processEventInner`: the turn, its evaluation and what is persisted of it. */
  function AfterTask(c: Config, t: Tables, row: Event, raw: RawResult, now: int): Tables {
    match RowVerdict(c, t, row, raw)
    case Throws => t
    case Rejected(reason) => RecordFailure(t, FailureOf(c, row, reason, now))
    case Accepted(structured) =>
      if row.jobType == Review then FinishReview(t, row.id, row.issue, now, CycleOutcome(OutcomeText(structured)))
      else SetDelivered(t, row.id, now)
  }

  /** A poll pass over the rows it listed; the first throwing task ends it. */
  function AfterRows(c: Config, t: Tables, rows: seq<Event>, raw: nat -> RawResult, clock: nat -> int, k: nat): Tables
    decreases |rows|
  {
    if rows == [] || RowVerdict(c, t, rows[0], raw(k)).Throws? then t
    else AfterRows(c, AfterTask(c, t, rows[0], raw(k), clock(k)), rows[1..], raw, clock, k + 1)
  }

  /** No task of the pass throws. */
  predicate Completes(c: Config, t: Tables, rows: seq<Event>, raw: nat -> RawResult, clock: nat -> int, k: nat)
    decreases |rows|
  {
    rows == [] ||
    (!RowVerdict(c, t, rows[0], raw(k)).Throws? && Completes(c, AfterTask(c, t, rows[0], raw(k), clock(k)), rows[1..], raw, clock, k + 1))
  }

  /** The remaining rows of a pass, from row `k` on. */
  lemma NextOfRows(c: Config, t: Tables, rows: seq<Event>, raw: nat -> RawResult, clock: nat -> int, k: nat)
    requires k < |rows|
    ensures AfterRows(c, t, rows[k..], raw, clock, k) ==
            if RowVerdict(c, t, rows[k], raw(k)).Throws? then t
            else AfterRows(c, AfterTask(c, t, rows[k], raw(k), clock(k)), rows[k + 1..], raw, clock, k + 1)
    ensures Completes(c, t, rows[k..], raw, clock, k) <==>
            !RowVerdict(c, t, rows[k], raw(k)).Throws? && Completes(c, AfterTask(c, t, rows[k], raw(k), clock(k)), rows[k + 1..], raw, clock, k + 1)
  {
    assert rows[k..][0] == rows[k] && rows[k..][1..] == rows[k + 1..];
  }

  /** The labels of one task that nothing interleaves with. */
  function TaskLabels(v: Verdict, raw: RawResult, now: int): seq<Label> {
    match v
    case Throws => [NextRow, TurnReturns(raw)]
    case Accepted(_) => [NextRow, TurnReturns(raw), Persist(now)]
    case Rejected(_) => [NextRow, TurnReturns(raw), ReadAttempts, WriteAttempts(now)]
  }

  lemma RunOne(c: Config, s: State, l: Label, rest: seq<Label>)
    requires Enabled(s, l) && Legal(c, Step(c, s, l), rest)
    ensures Legal(c, s, [l] + rest) && Run(c, s, [l] + rest) == Run(c, Step(c, s, l), rest)
  {
    assert ([l] + rest)[0] == l && ([l] + rest)[1..] == rest;
  }

  lemma RunTwo(c: Config, s: State, k: Label, l: Label)
    requires Enabled(s, k) && Enabled(Step(c, s, k), l)
    ensures Legal(c, s, [k, l]) && Run(c, s, [k, l]) == Step(c, Step(c, s, k), l)
  {
    var a := Step(c, s, k);
    var b := Step(c, a, l);
    assert Legal(c, b, []) && Run(c, b, []) == b;
    RunOne(c, a, l, []);
    RunOne(c, s, k, [l]);
    assert [k] + [l] == [k, l] && [l] + [] == [l];
  }

  /** The tail of a task, once its verdict is known. */
  lemma TaskTail(c: Config, s: State, v: Verdict, now: int)
    requires (s.lane.Executing? || s.lane.Reviewing?) && s.lane.row.id < |s.db.events|
    requires s.lane.row.jobType == (if s.lane.Reviewing? then Review else Execute)
    ensures var u := AfterVerdict(c, s, v);
            match v
            case Throws => u == s.(lane := Idle, poll := None)
            case Accepted(structured) =>
              && Enabled(u, Persist(now))
              && PersistTurn(u, now).lane == Idle && PersistTurn(u, now).poll == s.poll
              && PersistTurn(u, now).db ==
                 (if s.lane.Reviewing? then FinishReview(s.db, s.lane.row.id, s.lane.row.issue, now, CycleOutcome(OutcomeText(structured)))
                  else SetDelivered(s.db, s.lane.row.id, now))
            case Rejected(reason) =>
              && u.lane == Failing(s.lane.row, reason) && u.db == s.db
              && (var w := u.(lane := WritingFailure(s.lane.row, reason, s.db.events[s.lane.row.id].attemptCount));
                  WriteAttempt(c, w, now).lane == Idle && WriteAttempt(c, w, now).poll == s.poll && WriteAttempt(c, w, now).db == RecordFailure(s.db, FailureOf(c, s.lane.row, reason, now)))
  {
  }

  /** An uninterrupted task of the protocol does to the tables exactly what `AfterTask` says. */
  lemma ProtocolRunsTask(c: Config, s: State, raw: RawResult, now: int)
    requires s.lane.Idle? && s.poll.Some? && s.poll.value != [] && s.poll.value[0].id < |s.db.events|
    ensures var row := s.poll.value[0];
            var labels := TaskLabels(RowVerdict(c, s.db, row, raw), raw, now);
            && Legal(c, s, labels)
            && (var u := Run(c, s, labels);
                && u.db == AfterTask(c, s.db, row, raw, now) && u.lane == Idle
                && u.poll == if RowVerdict(c, s.db, row, raw).Throws? then None else Some(s.poll.value[1..]))
  {
    var row := s.poll.value[0];
    var v := RowVerdict(c, s.db, row, raw);
    var a := StartRow(s);
    assert Judge(c, a.lane, raw) == v;
    var b := AfterVerdict(c, a, v);
    TaskTail(c, a, v, now);
    match v {
      case Throws =>
        RunTwo(c, s, NextRow, TurnReturns(raw));
      case Accepted(_) =>
        RunTwo(c, a, TurnReturns(raw), Persist(now));
        RunOne(c, s, NextRow, [TurnReturns(raw), Persist(now)]);
        assert TaskLabels(v, raw, now) == [NextRow] + [TurnReturns(raw), Persist(now)];
      case Rejected(reason) =>
        FailedTask(c, a, raw, reason, now);
        RunOne(c, s, NextRow, [TurnReturns(raw), ReadAttempts, WriteAttempts(now)]);
        assert TaskLabels(v, raw, now) == [NextRow] + [TurnReturns(raw), ReadAttempts, WriteAttempts(now)];
    }
  }

  lemma FailedTask(c: Config, a: State, raw: RawResult, reason: string, now: int)
    requires (a.lane.Executing? || a.lane.Reviewing?) && a.lane.row.id < |a.db.events|
    requires Judge(c, a.lane, raw) == Rejected(reason)
    ensures var row := a.lane.row;
            var w := a.(lane := WritingFailure(row, reason, a.db.events[row.id].attemptCount));
            && Legal(c, a, [TurnReturns(raw), ReadAttempts, WriteAttempts(now)])
            && Run(c, a, [TurnReturns(raw), ReadAttempts, WriteAttempts(now)]) == WriteAttempt(c, w, now)
  {
    var b := AfterVerdict(c, a, Rejected(reason));
    RunTwo(c, b, ReadAttempts, WriteAttempts(now));
    RunOne(c, a, TurnReturns(raw), [ReadAttempts, WriteAttempts(now)]);
    assert [TurnReturns(raw)] + [ReadAttempts, WriteAttempts(now)] == [TurnReturns(raw), ReadAttempts, WriteAttempts(now)];
  }

  // ---------------------------------------------------------------- a whole pass

  /** The labels of a poll pass that nothing interleaves with. */
  function PassLabels(c: Config, t: Tables, rows: seq<Event>, raw: nat -> RawResult, clock: nat -> int, k: nat): seq<Label>
    decreases |rows|
  {
    if rows == [] then []
    else
      var v := RowVerdict(c, t, rows[0], raw(k));
      TaskLabels(v, raw(k), clock(k)) +
      if v.Throws? then [] else PassLabels(c, AfterTask(c, t, rows[0], raw(k), clock(k)), rows[1..], raw, clock, k + 1)
  }

  lemma {:induction false} RunsCompose(c: Config, s: State, first: seq<Label>, then_: seq<Label>)
    requires Legal(c, s, first) && Legal(c, Run(c, s, first), then_)
    ensures Legal(c, s, first + then_) && Run(c, s, first + then_) == Run(c, Run(c, s, first), then_)
    decreases |first|
  {
    if first == [] {
      assert first + then_ == then_;
    } else {
      RunsCompose(c, Step(c, s, first[0]), first[1..], then_);
      assert (first + then_)[1..] == first[1..] + then_;
    }
  }

  /** An uninterrupted poll pass is a run of the protocol. */
  lemma {:induction false} ProtocolRunsPass(c: Config, s: State, rows: seq<Event>, raw: nat -> RawResult, clock: nat -> int, k: nat)
    requires s.lane.Idle? && s.poll == Some(rows)
    requires forall i :: 0 <= i < |rows| ==> rows[i].id < |s.db.events|
    ensures var labels := PassLabels(c, s.db, rows, raw, clock, k);
            Legal(c, s, labels) && Run(c, s, labels).db == AfterRows(c, s.db, rows, raw, clock, k)
    decreases |rows|
  {
    if rows != [] {
      var v := RowVerdict(c, s.db, rows[0], raw(k));
      var task := TaskLabels(v, raw(k), clock(k));
      ProtocolRunsTask(c, s, raw(k), clock(k));
      var u := Run(c, s, task);
      if v.Throws? {
        assert task + [] == task;
      } else {
        TaskKeepsRows(c, s.db, rows[0], raw(k), clock(k));
        ProtocolRunsPass(c, u, rows[1..], raw, clock, k + 1);
        RunsCompose(c, s, task, PassLabels(c, u.db, rows[1..], raw, clock, k + 1));
      }
    }
  }

  lemma TaskKeepsRows(c: Config, t: Tables, row: Event, raw: RawResult, now: int)
    ensures |AfterTask(c, t, row, raw, now).events| == |t.events|
  {
  }
}
