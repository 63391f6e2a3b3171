/**
 * Every step of the protocol preserves its invariant, hence so does every run.
 */
module ProtocolProof {
  import opened Json
  import opened Tokens
  import opened ClaudeInvoker
  import opened QueueTables
  import opened Protocol
  import opened ProtocolInvariant
  import opened TablesPreserved

  // ---------------------------------------------------------------- attempts and backoff

  lemma RecordLedger(c: Config, t: Tables, h: History, req: Request, uuid: string)
    requires IdsMatch(t.events) && LedgerInv(c, t, h)
    ensures LedgerInv(c, Record(t, req, uuid), h)
  {
    var u := Record(t, req, uuid);
    forall i | 0 <= i < |u.events| ensures LedgerOk(c, h, u.events[i]) {
      if i < |t.events| {
        assert u.events[i] == t.events[i];
      } else {
        assert u.events[i].id == |t.events|;
      }
    }
  }

  /** Other rows keep their ledger when the history entries of one row change. */
  lemma RewriteLedger(c: Config, t: Tables, h: History, id: nat, e: Event, k: History)
    requires IdsMatch(t.events) && LedgerInv(c, t, h)
    requires id < |t.events| && e.id == id && LedgerOk(c, k, e)
    requires forall j: nat :: j != id ==> k.turns[j] == h.turns[j] && k.resets[j] == h.resets[j]
    requires forall j: nat :: j != id ==> (j in k.waited <==> j in h.waited) && Waited(k, j) == Waited(h, j)
    ensures LedgerInv(c, WithRow(t, id, e), k)
  {
    var u := WithRow(t, id, e);
    forall i | 0 <= i < |u.events| ensures LedgerOk(c, k, u.events[i]) {
      if i != id {
        assert u.events[i] == t.events[i] && LedgerOk(c, h, t.events[i]);
      }
    }
  }

  lemma DeliverLedger(c: Config, t: Tables, h: History, id: nat, now: int)
    requires IdsMatch(t.events) && LedgerInv(c, t, h)
    requires id < |t.events| && t.events[id].status == Pending
    ensures LedgerInv(c, SetDelivered(t, id, now), h.(turns := h.turns + multiset{id}))
  {
    var e := t.events[id].(status := Delivered, deliveredAt := Some(now));
    assert LedgerOk(c, h, t.events[id]);
    RewriteLedger(c, t, h, id, e, h.(turns := h.turns + multiset{id}));
  }

  lemma FailLedger(c: Config, t: Tables, h: History, row: Event, reason: string, now: int)
    requires IdsMatch(t.events) && LedgerInv(c, t, h) && Current(t, row)
    ensures var waited := Waited(h, row.id) + if row.attemptCount + 1 < c.maxAttempts then Backoff(c, row.attemptCount) else 0;
            LedgerInv(c, WriteFailure(t, FailureOf(c, row, reason, now), row.attemptCount),
                      h.(turns := h.turns + multiset{row.id}, waited := h.waited[row.id := waited]))
  {
    var u := WriteFailure(t, FailureOf(c, row, reason, now), row.attemptCount);
    var waited := Waited(h, row.id) + if row.attemptCount + 1 < c.maxAttempts then Backoff(c, row.attemptCount) else 0;
    var k := h.(turns := h.turns + multiset{row.id}, waited := h.waited[row.id := waited]);
    assert LedgerOk(c, h, t.events[row.id]);
    RewriteLedger(c, t, h, row.id, u.events[row.id], k);
    assert u == WithRow(t, row.id, u.events[row.id]);
  }

  lemma ResetLedger(c: Config, t: Tables, h: History, id: nat)
    requires IdsMatch(t.events) && LedgerInv(c, t, h)
    requires id < |t.events| && t.events[id].status == NeedsReview
    ensures LedgerInv(c, Reset(t, id), h.(resets := h.resets + multiset{id}, waited := h.waited[id := 0]))
  {
    var e := Reset(t, id).events[id];
    var k := h.(resets := h.resets + multiset{id}, waited := h.waited[id := 0]);
    assert LedgerOk(c, h, t.events[id]);
    assert k.resets[id] == h.resets[id] + 1;
    var n := c.AttemptLimit();
    assert (h.resets[id] + 1) * n == h.resets[id] * n + n;
    RewriteLedger(c, t, h, id, e, k);
    assert Reset(t, id) == WithRow(t, id, e);
  }

  // ---------------------------------------------------------------- snapshots

  /** Interference that only adds rows and never touches a pending one or its cycle. */
  ghost predicate Harmless(t: Tables, u: Tables) {
    && (forall row :: Current(t, row) ==> Current(u, row))
    && (forall x :: x in t.cycles ==> x in u.cycles && u.cycles[x] == t.cycles[x])
    && (forall x :: Settled(t, x) ==> Settled(u, x))
  }

  /** Whatever ingress records, every snapshot of a pending row and every trusted cycle value stays exact. */
  lemma RecordHarmless(t: Tables, req: Request, uuid: string)
    ensures Harmless(t, Record(t, req, uuid))
  {
    var u := Record(t, req, uuid);
    forall x | HasActiveEvent(t, x) ensures HasActiveEvent(u, x) {
      var i :| 0 <= i < |t.events| && t.events[i].issue == x && t.events[i].IsActive();
      assert u.events[i] == t.events[i];
    }
  }

  lemma ResetHarmless(t: Tables, id: nat)
    requires id < |t.events| && t.events[id].status == NeedsReview
    ensures Harmless(t, Reset(t, id))
  {
    var u := Reset(t, id);
    forall x | HasActiveEvent(t, x) ensures HasActiveEvent(u, x) {
      var i :| 0 <= i < |t.events| && t.events[i].issue == x && t.events[i].IsActive();
      assert u.events[i].issue == x && u.events[i].IsActive();
    }
  }

  lemma HarmlessVolatile(c: Config, s: State, u: Tables, k: History)
    requires VolatileInv(c, s) && Harmless(s.db, u) && k.starts == s.h.starts
    ensures VolatileInv(c, s.(db := u, h := k))
  {
    if s.lane.Upserting? {
      forall i | 0 <= i < |s.lane.done| ensures Settled(u, s.lane.done[i].issue) {
        assert Settled(s.db, s.lane.done[i].issue);
      }
    }
  }

  /** Once a row has been persisted, the rest of the poll queue is still current. */
  lemma QueueSurvives(t: Tables, u: Tables, q: seq<Event>, id: nat)
    requires QueueOk(t, q) && forall i :: 0 <= i < |q| ==> id < q[i].id
    requires |u.events| == |t.events| && forall i :: 0 <= i < |t.events| && i != id ==> u.events[i] == t.events[i]
    ensures QueueOk(u, q)
  {
    forall i | 0 <= i < |q| ensures Current(u, q[i]) {
      assert Current(t, q[i]);
    }
  }

  // ---------------------------------------------------------------- the steps

  lemma InitialInv(c: Config)
    ensures Inv(c, INITIAL)
  {
    forall issue ensures CountsOk(c, EMPTY, [], issue) {
    }
  }

  lemma IngressStep(c: Config, s: State, req: Request, uuid: string)
    requires Inv(c, s) && FreshCycleId(s.db, uuid)
    ensures Inv(c, s.(db := Record(s.db, req, uuid)))
  {
    RecordTables(s.db, req, uuid);
    RecordFinals(c, s.db, s.h.finals, req, uuid);
    RecordStarts(s.db, s.h, req, uuid);
    RecordLedger(c, s.db, s.h, req, uuid);
    RecordHarmless(s.db, req, uuid);
    HarmlessVolatile(c, s, Record(s.db, req, uuid), s.h);
  }

  lemma ResetStep(c: Config, s: State, id: nat)
    requires Inv(c, s) && id < |s.db.events| && s.db.events[id].status == NeedsReview
    ensures Inv(c, s.(db := Reset(s.db, id), h := s.h.(resets := s.h.resets + multiset{id}, waited := s.h.waited[id := 0])))
  {
    var e := Reset(s.db, id).events[id];
    assert Reset(s.db, id) == WithRow(s.db, id, e);
    RewriteTables(s.db, id, e);
    RewriteFinals(c, s.db, s.h.finals, id, e);
    RewriteStarts(s.db, s.h, id, e);
    ResetLedger(c, s.db, s.h, id);
    ResetHarmless(s.db, id);
    var k := s.h.(resets := s.h.resets + multiset{id}, waited := s.h.waited[id := 0]);
    HarmlessVolatile(c, s, Reset(s.db, id), k);
    SameStarts(Reset(s.db, id), s.h, k);
  }

  lemma SameStarts(t: Tables, h: History, k: History)
    requires StartsInv(t, h) && k.starts == h.starts && k.finals == h.finals
    ensures StartsInv(t, k)
  {
  }

  lemma PollStep(c: Config, s: State, now: int)
    requires Inv(c, s) && s.poll.None?
    ensures Inv(c, s.(poll := Some(Eligible(s.db.events, now))))
  {
    EligibleOrdered(s.db.events, now);
    var q := Eligible(s.db.events, now);
    forall i | 0 <= i < |q| ensures Current(s.db, q[i]) {
      assert q[i] in q;
    }
  }

  lemma NextRowStep(c: Config, s: State)
    requires Inv(c, s) && s.lane.Idle? && s.poll.Some? && s.poll.value != []
    ensures Inv(c, StartRow(s))
  {
    var q := s.poll.value;
    var row := q[0];
    var u := StartRow(s);
    assert Current(s.db, row) && RowOk(s.db, s.db.events[row.id]);
    forall i | 0 <= i < |q[1..]| ensures Current(s.db, q[1..][i]) && row.id < q[1..][i].id {
      assert q[1..][i] == q[i + 1];
    }
    assert Increasing(q[1..]);
    if row.jobType == Review {
      var st := Start(row.id, row.issue, row.cycleId, u.lane.rev);
      NewStart(c, s.db, s.h, st);
    }
  }

  lemma NewStart(c: Config, t: Tables, h: History, st: Start)
    requires FinalsInv(c, t, h.finals) && StartsInv(t, h)
    requires st.id < |t.events| && t.events[st.id].status == Pending && IsReviewOf(t.events[st.id], st.issue)
    requires st.cycleId == t.events[st.id].cycleId && st.rev == TrustedRevision(t, st.issue)
    ensures StartsInv(t, h.(starts := h.starts + {st}))
  {
    forall i | 0 <= i < |h.finals| ensures h.finals[i].id != st.id {
      assert FinalOk(t, h.finals, i);
    }
  }

  /** What an accepted verdict of a review turn guarantees, whatever the turn returned. */
  ghost predicate WithinBound(c: Config, lane: Lane, v: Verdict) {
    lane.Reviewing? && v.Accepted? ==>
      var o := CycleOutcome(OutcomeText(v.structured));
      o.Some? && (o == Some(RevisionRequired) ==> lane.rev < c.maxRevisionCycles)
  }

  lemma JudgeWithinBound(c: Config, lane: Lane, raw: RawResult)
    requires RunsTurn(lane)
    ensures WithinBound(c, lane, Judge(c, lane, raw))
  {
    if lane.Reviewing? && Judge(c, lane, raw).Accepted? {
      AcceptedReview(raw, c.ExpectedReview(lane.row.issue), lane.rev, c.maxRevisionCycles, ReviewActionToken(lane.row.cycleId, lane.rev));
    }
  }

  lemma VerdictStep(c: Config, s: State, v: Verdict)
    requires Inv(c, s) && RunsTurn(s.lane) && WithinBound(c, s.lane, v)
    ensures Inv(c, AfterVerdict(c, s, v))
  {
    var u := AfterVerdict(c, s, v);
    if u.lane.HoldsRow() || u.lane.Upserting? {
      QuietStep(c, s, u);
    } else {
      ReleaseStep(c, s, u);
    }
  }

  lemma DeliverStep(c: Config, s: State, now: int)
    requires Inv(c, s) && s.lane.FinishingExecution?
    ensures Inv(c, PersistTurn(s, now))
  {
    var row := s.lane.row;
    var u := SetDelivered(s.db, row.id, now);
    var k := s.h.(turns := s.h.turns + multiset{row.id});
    var e := u.events[row.id];
    assert u == WithRow(s.db, row.id, e);
    RewriteTables(s.db, row.id, e);
    RewriteFinals(c, s.db, s.h.finals, row.id, e);
    RewriteStarts(s.db, s.h, row.id, e);
    SameStarts(u, s.h, k);
    DeliverLedger(c, s.db, s.h, row.id, now);
    QueueSurvives(s.db, u, s.poll.value, row.id);
  }

  /** The decision a review task is about to commit. */
  function Deciding(lane: Lane): Final
    requires lane.FinishingReview? && lane.outcome.Some?
  {
    Final(lane.row.id, lane.row.issue, lane.row.cycleId, lane.rev, lane.outcome.value)
  }

  lemma FinishStep(c: Config, s: State, now: int)
    requires Inv(c, s) && s.lane.FinishingReview?
    ensures Inv(c, PersistTurn(s, now))
  {
    var row, f := s.lane.row, Deciding(s.lane);
    var u := FinishReview(s.db, row.id, row.issue, now, s.lane.outcome);
    assert CanFinish(c, s.db, f);
    FinishTables(c, s.db, f, now);
    FinishFinals(c, s.db, s.h.finals, f, now);
    forall i | 0 <= i < |s.h.finals| ensures s.h.finals[i].id != f.id {
      assert FinalOk(s.db, s.h.finals, i);
    }
    FinishStarts(c, s.db, s.h, f, now);
    var k := s.h.(turns := s.h.turns + multiset{row.id}, finals := s.h.finals + [f]);
    SameStarts(u, s.h.(finals := s.h.finals + [f]), k);
    DeliverLedger(c, s.db, s.h, row.id, now);
    FinishLedger(c, s, now);
    QueueSurvives(s.db, u, s.poll.value, row.id);
  }

  lemma FinishLedger(c: Config, s: State, now: int)
    requires s.lane.FinishingReview? && s.lane.outcome.Some?
    requires LedgerInv(c, SetDelivered(s.db, s.lane.row.id, now), s.h.(turns := s.h.turns + multiset{s.lane.row.id}))
    ensures LedgerInv(c, PersistTurn(s, now).db, PersistTurn(s, now).h)
  {
    var u, h := PersistTurn(s, now).db, PersistTurn(s, now).h;
    forall i | 0 <= i < |u.events| ensures LedgerOk(c, h, u.events[i]) {
      assert LedgerOk(c, s.h.(turns := s.h.turns + multiset{s.lane.row.id}), u.events[i]);
    }
  }

  lemma WriteStep(c: Config, s: State, now: int)
    requires Inv(c, s) && s.lane.WritingFailure?
    ensures Inv(c, WriteAttempt(c, s, now))
  {
    var row := s.lane.row;
    var v := WriteAttempt(c, s, now);
    var e := v.db.events[row.id];
    assert v.db == WithRow(s.db, row.id, e);
    RewriteTables(s.db, row.id, e);
    RewriteFinals(c, s.db, s.h.finals, row.id, e);
    RewriteStarts(s.db, s.h, row.id, e);
    SameStarts(v.db, s.h, v.h);
    FailLedger(c, s.db, s.h, row, s.lane.reason, now);
    QueueSurvives(s.db, v.db, s.poll.value, row.id);
  }

  lemma UpsertStep(c: Config, s: State, now: int, uuid: string, cycleUuid: string)
    requires Inv(c, s) && s.lane.Upserting? && s.lane.rest != []
    requires ReconcileId(s.lane.rest[0].issue, now, uuid) !in s.db.deliveries && FreshCycleId(s.db, cycleUuid)
    ensures Inv(c, Upsert(s, now, uuid, cycleUuid))
  {
    var l := s.lane.rest[0];
    var req := ReconcileRequest(l, now, uuid);
    IngressStep(c, s, req, cycleUuid);
    RecordSettles(s.db, req, cycleUuid);
    var v := Upsert(s, now, uuid, cycleUuid);
    forall i | 0 <= i < |v.lane.done| ensures Settled(v.db, v.lane.done[i].issue) {
      if i < |s.lane.done| {
        assert LaneOk(c, v.db, s.h.starts, s.lane);
        assert v.lane.done[i] == s.lane.done[i];
      }
    }
  }

  /** A freshly recorded relevant delivery leaves its issue with an active row or a terminal cycle. */
  lemma RecordSettles(t: Tables, req: Request, uuid: string)
    requires req.job.Some? && req.deliveryId !in t.deliveries
    ensures Settled(Record(t, req, uuid), req.job.value.issue)
  {
    var u := Record(t, req, uuid);
    var issue := req.job.value.issue;
    if HasActiveEvent(t, issue) && !IsTerminal(t, issue) {
      var i :| 0 <= i < |t.events| && t.events[i].issue == issue && t.events[i].IsActive();
      assert u.events[i] == t.events[i];
    } else if !IsTerminal(t, issue) {
      assert u.events[|t.events|].issue == issue && u.events[|t.events|].IsActive();
    }
  }

  /** The steps that touch neither the tables nor their history: what remains is the worker's volatile state. */
  lemma QuietStep(c: Config, s: State, u: State)
    requires Inv(c, s) && u.db == s.db && u.h == s.h && VolatileInv(c, u)
    ensures Inv(c, u)
  {
  }

  /** A task or a pass that ends, or a reconciliation that begins or goes on, holds no row and leaves the queue as it is. */
  lemma ReleaseStep(c: Config, s: State, u: State)
    requires Inv(c, s) && u.db == s.db && u.h == s.h && !u.lane.HoldsRow() && (u.lane.Upserting? ==> u.lane == s.lane)
    requires u.poll.None? || u.poll == s.poll
    ensures Inv(c, u)
  {
    QuietStep(c, s, u);
  }

  lemma ReadStep(c: Config, s: State)
    requires Inv(c, s) && s.lane.Failing?
    ensures Inv(c, Step(c, s, ReadAttempts))
  {
    QuietStep(c, s, Step(c, s, ReadAttempts));
  }

  lemma PostStep(c: Config, s: State, l: Label)
    requires Inv(c, s) && Enabled(s, l) && (l.PostReview? || l.PostOther?)
    ensures Inv(c, Step(c, s, l))
  {
    QuietStep(c, s, Step(c, s, l));
  }

  lemma EndStep(c: Config, s: State, l: Label)
    requires Inv(c, s) && Enabled(s, l) && (l.PollEnd? || l.ReconcileStart? || l.UpsertsDone? || l.LaneFails? || l.Crash?)
    ensures Inv(c, Step(c, s, l))
  {
    ReleaseStep(c, s, Step(c, s, l));
  }

  lemma StepPreserves(c: Config, s: State, l: Label)
    requires Inv(c, s) && Enabled(s, l)
    ensures Inv(c, Step(c, s, l))
  {
    match l
    case Ingress(req, uuid) => IngressStep(c, s, req, uuid);
    case PollStart(now) => PollStep(c, s, now);
    case NextRow => NextRowStep(c, s);
    case TurnReturns(raw) =>
      JudgeWithinBound(c, s.lane, raw);
      VerdictStep(c, s, Judge(c, s.lane, raw));
    case Persist(now) =>
      if s.lane.FinishingExecution? {
        DeliverStep(c, s, now);
      } else {
        FinishStep(c, s, now);
      }
    case WriteAttempts(now) => WriteStep(c, s, now);
    case UpsertNext(now, uuid, cycleUuid) => UpsertStep(c, s, now, uuid, cycleUuid);
    case OperatorReset(id) => ResetStep(c, s, id);
    case ReadAttempts => ReadStep(c, s);
    case PostReview(_, _) => PostStep(c, s, l);
    case PostOther(_, _) => PostStep(c, s, l);
    case _ => EndStep(c, s, l);
  }

  lemma {:induction false} RunPreserves(c: Config, s: State, labels: seq<Label>)
    requires Inv(c, s) && Legal(c, s, labels)
    ensures Inv(c, Run(c, s, labels))
    decreases |labels|
  {
    if labels != [] {
      StepPreserves(c, s, labels[0]);
      RunPreserves(c, Step(c, s, labels[0]), labels[1..]);
    }
  }
}
