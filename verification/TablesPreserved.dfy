/**
 * Every kind of table change keeps the table, finalization and start parts of the protocol invariant.
 */
module TablesPreserved {
  import opened Json
  import opened Tokens
  import opened QueueTables
  import opened Protocol
  import opened ProtocolInvariant

  // ---------------------------------------------------------------- one row rewritten

  /** `e` may replace `t.events[id]`: same identity, and not brought back to life. */
  ghost predicate Rewrites(t: Tables, id: nat, e: Event) {
    && id < |t.events|
    && (var was := t.events[id];
        && e.id == was.id && e.deliveryId == was.deliveryId && e.issue == was.issue
        && e.jobType == was.jobType && e.cycleId == was.cycleId
        && (e.IsActive() ==> was.IsActive()))
  }

  function WithRow(t: Tables, id: nat, e: Event): Tables
    requires id < |t.events|
  {
    t.(events := t.events[id := e])
  }

  lemma RewriteTables(t: Tables, id: nat, e: Event)
    requires TablesInv(t) && Rewrites(t, id, e)
    ensures TablesInv(WithRow(t, id, e))
  {
    var u := WithRow(t, id, e);
    forall i | 0 <= i < |u.events| ensures RowOk(u, u.events[i]) {
      assert RowOk(t, t.events[i]);
    }
    assert CyclesInv(t);
    forall i, j | 0 <= i < j < |u.events| && u.events[i].issue == u.events[j].issue
      ensures !(u.events[i].IsActive() && u.events[j].IsActive())
    {
      assert t.events[i].issue == t.events[j].issue;
    }
  }

  /** While a row is active, no other row of its issue is. */
  lemma OthersInactive(t: Tables, id: nat, i: nat)
    requires TablesInv(t) && id < |t.events| && i < |t.events| && t.events[id].IsActive()
    ensures i != id && t.events[i].issue == t.events[id].issue ==> !t.events[i].IsActive()
  {
    if i != id && t.events[i].issue == t.events[id].issue {
      var a, b := if i < id then i else id, if i < id then id else i;
      assert 0 <= a < b < |t.events| && t.events[a].issue == t.events[b].issue;
    }
  }

  lemma {:induction false} ReviewRowsOfRewrite(events: seq<Event>, id: nat, e: Event, issue: string)
    requires id < |events| && e.issue == events[id].issue && e.jobType == events[id].jobType
    ensures ReviewRows(events[id := e], issue) == ReviewRows(events, issue)
  {
    var n := |events| - 1;
    var front := events[..n];
    if id < n {
      ReviewRowsOfRewrite(front, id, e, issue);
      assert events[id := e][..n] == front[id := e];
    } else {
      assert events[id := e][..n] == front;
    }
  }

  lemma ActiveReviewOfRewrite(events: seq<Event>, id: nat, e: Event, issue: string)
    requires id < |events| && e.issue == events[id].issue && e.jobType == events[id].jobType
    requires e.jobType == Review ==> e.IsActive() == events[id].IsActive()
    ensures HasActiveReview(events[id := e], issue) <==> HasActiveReview(events, issue)
  {
    var u := events[id := e];
    if HasActiveReview(events, issue) {
      var i :| 0 <= i < |events| && IsReviewOf(events[i], issue) && events[i].IsActive();
      assert IsReviewOf(u[i], issue) && u[i].IsActive();
    }
    if HasActiveReview(u, issue) {
      var i :| 0 <= i < |u| && IsReviewOf(u[i], issue) && u[i].IsActive();
      assert IsReviewOf(events[i], issue) && events[i].IsActive();
    }
  }

  /** Rewriting a live row keeps the finalizations, unless it ends a review row. */
  lemma RewriteFinals(c: Config, t: Tables, fs: seq<Final>, id: nat, e: Event)
    requires TablesInv(t) && FinalsInv(c, t, fs) && Rewrites(t, id, e)
    requires t.events[id].IsActive() && (e.jobType == Review ==> e.IsActive())
    ensures FinalsInv(c, WithRow(t, id, e), fs)
  {
    var u := WithRow(t, id, e);
    forall i | 0 <= i < |fs| ensures FinalOk(u, fs, i) {
      assert FinalOk(t, fs, i);
    }
    forall issue ensures CountsOk(c, u, fs, issue) {
      assert CountsOk(c, t, fs, issue);
      ReviewRowsOfRewrite(t.events, id, e, issue);
      ActiveReviewOfRewrite(t.events, id, e, issue);
    }
  }

  lemma RewriteStarts(t: Tables, h: History, id: nat, e: Event)
    requires StartsInv(t, h) && Rewrites(t, id, e)
    ensures StartsInv(WithRow(t, id, e), h)
  {
    var u := WithRow(t, id, e);
    forall st | st in h.starts ensures StartOk(u, h.finals, st) {
      assert StartOk(t, h.finals, st);
    }
  }

  // ---------------------------------------------------------------- a delivery recorded

  lemma RecordTables(t: Tables, req: Request, uuid: string)
    requires TablesInv(t) && FreshCycleId(t, uuid)
    ensures TablesInv(Record(t, req, uuid))
  {
    var u := Record(t, req, uuid);
    assert CyclesInv(t);
    forall i | 0 <= i < |t.events| ensures RowOk(u, t.events[i]) {
      assert RowOk(t, t.events[i]);
    }
    if Answer(t, req, uuid).Queued? {
      var row := u.events[|t.events|];
      assert RowOk(u, row);
      forall i | 0 <= i < |t.events| ensures t.events[i].deliveryId != row.deliveryId && !(t.events[i].issue == row.issue && t.events[i].IsActive()) {
        assert RowOk(t, t.events[i]);
      }
      assert CyclesInv(u);
    }
  }

  lemma RecordFinals(c: Config, t: Tables, fs: seq<Final>, req: Request, uuid: string)
    requires TablesInv(t) && FinalsInv(c, t, fs)
    ensures FinalsInv(c, Record(t, req, uuid), fs)
  {
    var u := Record(t, req, uuid);
    forall i | 0 <= i < |fs| ensures FinalOk(u, fs, i) {
      assert FinalOk(t, fs, i);
    }
    forall issue ensures CountsOk(c, u, fs, issue) {
      RecordCounts(c, t, fs, req, uuid, issue);
    }
    forall id | 0 <= id < |u.events| && u.events[id].status == Delivered && u.events[id].jobType == Review ensures HasFinal(fs, id) {
      assert id < |t.events| && u.events[id] == t.events[id];
    }
  }

  /** A recorded delivery adds at most one row, for an issue without an active one and with an open or new cycle. */
  lemma RecordCounts(c: Config, t: Tables, fs: seq<Final>, req: Request, uuid: string, issue: string)
    requires CountsOk(c, t, fs, issue)
    ensures CountsOk(c, Record(t, req, uuid), fs, issue)
  {
    if Answer(t, req, uuid).Queued? {
      var row := Record(t, req, uuid).events[|t.events|];
      AppendedRow(t.events, row, issue);
    }
  }

  /** A new active row is a new review row when it is a review of the issue. */
  lemma AppendedRow(events: seq<Event>, e: Event, issue: string)
    requires e.IsActive()
    ensures ReviewRows(events + [e], issue) == ReviewRows(events, issue) + if IsReviewOf(e, issue) then 1 else 0
    ensures HasActiveReview(events + [e], issue) <==> HasActiveReview(events, issue) || IsReviewOf(e, issue)
  {
    var u := events + [e];
    assert u[..|events|] == events;
    if HasActiveReview(events, issue) {
      var i :| 0 <= i < |events| && IsReviewOf(events[i], issue) && events[i].IsActive();
      assert u[i] == events[i];
    }
    if IsReviewOf(e, issue) {
      assert u[|events|] == e;
    }
  }

  lemma RecordStarts(t: Tables, h: History, req: Request, uuid: string)
    requires TablesInv(t) && StartsInv(t, h)
    ensures StartsInv(Record(t, req, uuid), h)
  {
    var u := Record(t, req, uuid);
    forall st | st in h.starts ensures StartOk(u, h.finals, st) {
      assert StartOk(t, h.finals, st) && RowOk(t, t.events[st.id]);
    }
  }

  // ---------------------------------------------------------------- a review finalized

  /** What must hold when `markReviewDelivered` commits: the row is the issue's live review row, its decision current. */
  ghost predicate CanFinish(c: Config, t: Tables, f: Final) {
    && f.id < |t.events|
    && t.events[f.id].status == Pending
    && IsReviewOf(t.events[f.id], f.issue)
    && f.issue in t.cycles
    && f.cycleId == t.events[f.id].cycleId
    && f.rev == t.cycles[f.issue].revisionCount
    && (f.outcome == RevisionRequired ==> f.rev < c.maxRevisionCycles)
  }

  lemma FinishTables(c: Config, t: Tables, f: Final, now: int)
    requires TablesInv(t) && CanFinish(c, t, f)
    ensures TablesInv(FinishReview(t, f.id, f.issue, now, Some(f.outcome)))
  {
    var e := t.events[f.id].(status := Delivered, deliveredAt := Some(now));
    var d := WithRow(t, f.id, e);
    assert RowOk(t, t.events[f.id]);
    RewriteTables(t, f.id, e);
    var u := SetCycle(d, f.issue, f.outcome, now);
    assert CyclesInv(d) && CyclesInv(u);
    forall i | 0 <= i < |u.events| ensures RowOk(u, u.events[i]) {
      assert RowOk(d, d.events[i]);
      OthersInactive(t, f.id, i);
    }
  }

  lemma AppendedFinal(fs: seq<Final>, f: Final, issue: string)
    ensures Revisions(fs + [f], issue) == Revisions(fs, issue) + if f.issue == issue && f.outcome == RevisionRequired then 1 else 0
    ensures FinalCount(fs + [f], issue) == FinalCount(fs, issue) + if f.issue == issue then 1 else 0
  {
    assert (fs + [f])[..|fs|] == fs;
  }

  /** Finalizing the live review row of an issue leaves it without an active row. */
  lemma NoActiveReviewLeft(t: Tables, f: Final, e: Event, issue: string)
    requires TablesInv(t) && f.id < |t.events| && t.events[f.id].IsActive() && IsReviewOf(t.events[f.id], f.issue)
    requires e == t.events[f.id].(status := Delivered, deliveredAt := e.deliveredAt)
    ensures HasActiveReview(t.events, f.issue) && !HasActiveReview(t.events[f.id := e], f.issue)
    ensures issue != f.issue ==> (HasActiveReview(t.events[f.id := e], issue) <==> HasActiveReview(t.events, issue))
  {
    var u := t.events[f.id := e];
    assert IsReviewOf(t.events[f.id], f.issue) && t.events[f.id].IsActive();
    forall i | 0 <= i < |u| ensures !(IsReviewOf(u[i], f.issue) && u[i].IsActive()) {
      OthersInactive(t, f.id, i);
    }
    if issue != f.issue && HasActiveReview(t.events, issue) {
      var i :| 0 <= i < |t.events| && IsReviewOf(t.events[i], issue) && t.events[i].IsActive();
      assert u[i] == t.events[i];
    }
    if issue != f.issue && HasActiveReview(u, issue) {
      var i :| 0 <= i < |u| && IsReviewOf(u[i], issue) && u[i].IsActive();
      assert u[i] == t.events[i];
    }
  }

  lemma FinishCounts(c: Config, t: Tables, fs: seq<Final>, f: Final, now: int, issue: string)
    requires TablesInv(t) && FinalsInv(c, t, fs) && CanFinish(c, t, f)
    ensures CountsOk(c, FinishReview(t, f.id, f.issue, now, Some(f.outcome)), fs + [f], issue)
  {
    var e := t.events[f.id].(status := Delivered, deliveredAt := Some(now));
    assert CountsOk(c, t, fs, issue);
    assert RowOk(t, t.events[f.id]);
    AppendedFinal(fs, f, issue);
    ReviewRowsOfRewrite(t.events, f.id, e, issue);
    NoActiveReviewLeft(t, f, e, issue);
  }

  /** Earlier finalizations of an issue whose cycle is still active all asked for a revision. */
  lemma EarlierFinals(c: Config, t: Tables, fs: seq<Final>, f: Final, now: int, i: nat)
    requires TablesInv(t) && FinalsInv(c, t, fs) && CanFinish(c, t, f)
    requires i < |fs|
    ensures FinalOk(FinishReview(t, f.id, f.issue, now, Some(f.outcome)), fs + [f], i)
  {
    assert FinalOk(t, fs, i);
    assert RowOk(t, t.events[f.id]);
    var gs := fs + [f];
    assert gs[i] == fs[i] && gs[..i] == fs[..i];
    if fs[i].outcome != RevisionRequired {
      assert IsLast(fs, i) && fs[i].issue != f.issue;
      assert IsLast(gs, i);
    }
  }

  lemma FinishFinals(c: Config, t: Tables, fs: seq<Final>, f: Final, now: int)
    requires TablesInv(t) && FinalsInv(c, t, fs) && CanFinish(c, t, f)
    ensures FinalsInv(c, FinishReview(t, f.id, f.issue, now, Some(f.outcome)), fs + [f])
  {
    var u := FinishReview(t, f.id, f.issue, now, Some(f.outcome));
    var gs := fs + [f];
    assert RowOk(t, t.events[f.id]);
    forall i | 0 <= i < |gs| ensures FinalOk(u, gs, i) {
      if i < |fs| {
        EarlierFinals(c, t, fs, f, now, i);
      } else {
        assert gs[..i] == fs;
        assert CountsOk(c, t, fs, f.issue);
      }
    }
    forall i | 0 <= i < |fs| ensures fs[i].id != f.id {
      assert FinalOk(t, fs, i);
    }
    forall id | 0 <= id < |u.events| && u.events[id].status == Delivered && u.events[id].jobType == Review ensures HasFinal(gs, id) {
      if id == f.id {
        assert gs[|fs|].id == id;
      } else {
        assert HasFinal(fs, id);
        var i :| 0 <= i < |fs| && fs[i].id == id;
        assert gs[i].id == id;
      }
    }
    forall issue ensures CountsOk(c, u, gs, issue) {
      FinishCounts(c, t, fs, f, now, issue);
    }
  }

  /** A started decision stays right: the finalized one is its row's own, the others' rows are not active. */
  lemma FinishStartOk(c: Config, t: Tables, fs: seq<Final>, f: Final, now: int, st: Start)
    requires TablesInv(t) && CanFinish(c, t, f) && StartOk(t, fs, st)
    requires forall i :: 0 <= i < |fs| ==> fs[i].id != f.id
    ensures StartOk(FinishReview(t, f.id, f.issue, now, Some(f.outcome)), fs + [f], st)
  {
    if st.id == f.id {
      assert st.rev == f.rev;
    } else if st.issue == f.issue {
      OthersInactive(t, f.id, st.id);
    }
    assert forall i :: 0 <= i < |fs| ==> (fs + [f])[i] == fs[i];
  }

  lemma FinishStarts(c: Config, t: Tables, h: History, f: Final, now: int)
    requires TablesInv(t) && StartsInv(t, h) && CanFinish(c, t, f) && StartOf(f) in h.starts
    requires forall i :: 0 <= i < |h.finals| ==> h.finals[i].id != f.id
    ensures StartsInv(FinishReview(t, f.id, f.issue, now, Some(f.outcome)), h.(finals := h.finals + [f]))
  {
    forall st | st in h.starts ensures StartOk(FinishReview(t, f.id, f.issue, now, Some(f.outcome)), h.finals + [f], st) {
      FinishStartOk(c, t, h.finals, f, now, st);
    }
  }
}
