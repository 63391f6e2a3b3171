/**
 * Three statements of the store do not check the row they act on. On their own they can break what the protocol keeps;
 * this is exactly when they do not.
 */
module UnguardedStatements {
  import opened Json
  import opened Tokens
  import opened QueueTables
  import opened TablesPreserved
  import opened ProtocolTheorems

  /** A row may be made active: it is already, or its issue has no active row and no terminal cycle. */
  predicate MayActivate(t: Tables, id: nat)
    requires id < |t.events|
  {
    t.events[id].IsActive() || (!HasActiveEvent(t, t.events[id].issue) && !IsTerminal(t, t.events[id].issue))
  }

  lemma Activation(t: Tables, id: nat, e: Event)
    requires ActiveRowsUnique(t) && id < |t.events| && e.IsActive()
    requires e.deliveryId == t.events[id].deliveryId && e.issue == t.events[id].issue && e.cycleId == t.events[id].cycleId
    ensures ActiveRowsUnique(WithRow(t, id, e)) <==> MayActivate(t, id)
  {
    var u := WithRow(t, id, e);
    if MayActivate(t, id) {
      forall i, j | 0 <= i < |u.events| && 0 <= j < |u.events| && u.events[i].IsActive() && u.events[j].IsActive() && u.events[i].issue == u.events[j].issue
        ensures i == j
      {
        assert i != id ==> t.events[i] == u.events[i];
        assert j != id ==> t.events[j] == u.events[j];
      }
    } else if HasActiveEvent(t, e.issue) {
      var i :| 0 <= i < |t.events| && t.events[i].issue == e.issue && t.events[i].IsActive();
      assert u.events[i] == t.events[i] && i != id && u.events[id] == e;
    } else {
      assert IsTerminal(u, u.events[id].issue);
    }
  }

  /** `resetToPending` keeps the queue sound exactly when there is no such row or the row may be made active. */
  lemma ResetIsSafe(t: Tables, id: nat)
    requires ActiveRowsUnique(t)
    ensures ActiveRowsUnique(Reset(t, id)) <==> id >= |t.events| || MayActivate(t, id)
  {
    if id < |t.events| {
      Activation(t, id, Reset(t, id).events[id]);
      assert Reset(t, id) == WithRow(t, id, Reset(t, id).events[id]);
    }
  }

  /** The same holds of the `UPDATE` of `recordAttemptFailure`, whatever attempt count it was handed. */
  lemma FailureWriteIsSafe(t: Tables, f: Failure, seen: nat)
    requires ActiveRowsUnique(t)
    ensures ActiveRowsUnique(WriteFailure(t, f, seen)) <==> f.eventId >= |t.events| || MayActivate(t, f.eventId)
  {
    if f.eventId < |t.events| {
      Activation(t, f.eventId, WriteFailure(t, f, seen).events[f.eventId]);
      assert WriteFailure(t, f, seen) == WithRow(t, f.eventId, WriteFailure(t, f, seen).events[f.eventId]);
    }
  }

  lemma DeliveringIsSafe(t: Tables, id: nat, now: int)
    requires ActiveRowsUnique(t)
    ensures ActiveRowsUnique(SetDelivered(t, id, now))
  {
    var u := SetDelivered(t, id, now);
    forall i | 0 <= i < |u.events| ensures u.events[i].IsActive() ==> u.events[i] == t.events[i] {
    }
  }

  lemma EndingIsSafe(t: Tables, issue: string, o: ReviewOutcome, now: int)
    requires ActiveRowsUnique(t)
    ensures ActiveRowsUnique(SetCycle(t, issue, o, now)) <==> o == RevisionRequired || issue !in t.cycles || !HasActiveEvent(t, issue)
  {
    var u := SetCycle(t, issue, o, now);
    if issue in t.cycles && HasActiveEvent(t, issue) {
      var i :| 0 <= i < |t.events| && t.events[i].issue == issue && t.events[i].IsActive();
      assert u.events[i].IsActive();
    }
  }

  /** `markReviewDelivered` ends the cycle it is given whatever became of the row: that is sound exactly when it does not
      end a cycle, or the row it marks is the only active one of that issue, if there is any. */
  lemma FinishIsSafe(t: Tables, id: nat, issue: string, now: int, o: Option<ReviewOutcome>)
    requires ActiveRowsUnique(t)
    ensures ActiveRowsUnique(FinishReview(t, id, issue, now, o)) <==>
            || o.None? || o == Some(RevisionRequired) || issue !in t.cycles
            || forall i :: 0 <= i < |t.events| && t.events[i].issue == issue && t.events[i].IsActive() ==> i == id
  {
    var d := SetDelivered(t, id, now);
    DeliveringIsSafe(t, id, now);
    if o.Some? {
      EndingIsSafe(d, issue, o.value, now);
    }
    if i :| 0 <= i < |t.events| && i != id && t.events[i].issue == issue && t.events[i].IsActive() {
      assert d.events[i] == t.events[i];
    }
  }

  /** A queue of two episodes of one issue, the first delivered and the second pending. */
  function TwoEpisodes(first: Event, second: Event, c: Cycle): Tables {
    Tables(
      map[first.deliveryId := Delivery(0, AcceptedDelivery, "", Some(first.issue)), second.deliveryId := Delivery(0, AcceptedDelivery, "", Some(first.issue))],
      [first, second],
      map[first.issue := c])
  }

  lemma TwoEpisodesAreSound(first: Event, second: Event, c: Cycle)
    requires first.deliveryId != second.deliveryId && first.issue == second.issue
    requires first.status == Delivered && second.status == Pending
    requires c.status == ActiveCycle && first.cycleId == c.cycleId == second.cycleId
    ensures ActiveRowsUnique(TwoEpisodes(first, second, c))
  {
  }

  /** Unguarded, resetting or failing the delivered row of an earlier episode gives its issue two active rows, and
      ending the cycle through it leaves a finished cycle with a pending row. */
  lemma StaleRowsBreakTheQueue(first: Event, second: Event, c: Cycle, f: Failure, now: int)
    requires first.deliveryId != second.deliveryId && first.issue == second.issue
    requires first.status == Delivered && second.status == Pending
    requires c.status == ActiveCycle && first.cycleId == c.cycleId == second.cycleId && f.eventId == 0
    ensures var t := TwoEpisodes(first, second, c);
            && ActiveRowsUnique(t)
            && !ActiveRowsUnique(Reset(t, 0))
            && !ActiveRowsUnique(WriteFailure(t, f, first.attemptCount))
            && !ActiveRowsUnique(FinishReview(t, 0, first.issue, now, Some(Pass)))
  {
    var t := TwoEpisodes(first, second, c);
    TwoEpisodesAreSound(first, second, c);
    assert t.events[1].issue == first.issue && t.events[1].IsActive();
    ResetIsSafe(t, 0);
    FailureWriteIsSafe(t, f, first.attemptCount);
    FinishIsSafe(t, 0, first.issue, now, Some(Pass));
  }
}
