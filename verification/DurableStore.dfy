/**
 * The durable store: prepared statements over three tables, and the operations built from them. Any statement may be
 * refused by the database; what a refused statement leaves behind is undone by the surrounding transaction.
 */
module DurableStore {
  import opened Json
  import opened Tokens
  import opened QueueTables
  import opened StoreFields

  /** The statements of a transaction that can be refused (lock timeout, I/O error, constraint). */
  datatype Statement =
    | Begin | Commit
    | GetDelivery | InsertDelivery | GetCycle | HasActive | InsertCycle | InsertEvent
    | MarkRow | UpdateCycle

  /** Row ids are positions, and every queued row has a recorded delivery: what keeps the unique keys satisfiable. */
  ghost predicate KeysConsistent(t: Tables) {
    && IdsMatch(t.events)
    && forall i :: 0 <= i < |t.events| ==> t.events[i].deliveryId in t.deliveries
  }

  class Store {
    var deliveries: map<string, Delivery>
    var events: seq<Event>
    var cycles: map<string, Cycle>

    ghost function Contents(): Tables
      reads this
    {
      Tables(deliveries, events, cycles)
    }

    constructor ()
      ensures Contents() == EMPTY
    {
      deliveries, events, cycles := map[], [], map[];
    }

    // -------------------------------------------------------------- statements

    /** Inserts a delivery; refused when its id is already there. */
    method RunInsertDelivery(id: string, row: Delivery, faults: set<Statement>) returns (ok: bool)
      modifies this`deliveries
      ensures ok <==> InsertDelivery !in faults && id !in old(deliveries)
      ensures deliveries == if ok then old(deliveries)[id := row] else old(deliveries)
    {
      ok := InsertDelivery !in faults && id !in deliveries;
      if ok {
        deliveries := deliveries[id := row];
      }
    }

    /** Inserts the issue's cycle; refused when it has one. */
    method RunInsertCycle(issue: string, row: Cycle, faults: set<Statement>) returns (ok: bool)
      modifies this`cycles
      ensures ok <==> InsertCycle !in faults && issue !in old(cycles)
      ensures cycles == if ok then old(cycles)[issue := row] else old(cycles)
    {
      ok := InsertCycle !in faults && issue !in cycles;
      if ok {
        cycles := cycles[issue := row];
      }
    }

    /** Appends a row; refused when another row has the same delivery id. */
    method RunInsertEvent(row: Event, faults: set<Statement>) returns (ok: bool)
      modifies this`events
      ensures ok <==> InsertEvent !in faults && forall i :: 0 <= i < |old(events)| ==> old(events)[i].deliveryId != row.deliveryId
      ensures events == if ok then old(events) + [row] else old(events)
    {
      var unique := true;
      for i := 0 to |events|
        invariant events == old(events)
        invariant unique <==> forall j :: 0 <= j < i ==> events[j].deliveryId != row.deliveryId
      {
        if events[i].deliveryId == row.deliveryId {
          unique := false;
        }
      }
      ok := InsertEvent !in faults && unique;
      if ok {
        events := events + [row];
      }
    }

    /** Looks for a row of the issue that is pending or needs review; any one will do. */
    method SelectActive(issue: string) returns (found: bool)
      ensures found <==> HasActiveEvent(Contents(), issue)
      ensures found <==> IsTaken(Contents(), issue)
    {
      TakenFields(Contents(), issue);
      for i := 0 to |events|
        invariant forall j :: 0 <= j < i ==> !(events[j].issue == issue && events[j].IsActive())
      {
        if events[i].issue == issue && events[i].IsActive() {
          return true;
        }
      }
      found := false;
    }

    // -------------------------------------------------------------- transactions

    /** Undoes the open transaction. */
    method Rollback(saved: Tables)
      modifies this
      ensures Contents() == saved
    {
      deliveries, events, cycles := saved.deliveries, saved.events, saved.cycles;
    }

    /** Records a delivery and, for a relevant one, its queue row, in one transaction. `None` is a thrown error. */
    method RecordDelivery(req: Request, uuid: string, faults: set<Statement>) returns (r: Option<Recorded>)
      modifies this
      ensures match r
              case None => Contents() == old(Contents())
              case Some(answer) =>
                && answer == Answer(old(Contents()), req, uuid) && Contents() == Record(old(Contents()), req, uuid)
                && RecordsAs(old(Contents()), Contents(), req, uuid, answer)
      ensures KeysConsistent(old(Contents())) && faults == {} ==> r.Some?
      ensures old(KeysConsistent(Contents())) ==> KeysConsistent(Contents())
    {
      if Begin in faults {
        return None;
      }
      var saved := Tables(deliveries, events, cycles);
      RecordFields(saved, req, uuid);
      r := RecordInTransaction(req, uuid, faults);
      if r.None? || Commit in faults {
        Rollback(saved);
        r := None;
      }
    }

    /** The body of the transaction: on a refused statement it stops where it is, leaving a half-written state. */
    method RecordInTransaction(req: Request, uuid: string, faults: set<Statement>) returns (r: Option<Recorded>)
      modifies this
      ensures r.Some? ==> r.value == Answer(old(Contents()), req, uuid) && Contents() == Record(old(Contents()), req, uuid)
      ensures r.Some? ==> RecordsAs(old(Contents()), Contents(), req, uuid, r.value)
      ensures KeysConsistent(old(Contents())) && faults == {} ==> r.Some?
    {
      RecordFields(Contents(), req, uuid);
      if GetDelivery in faults {
        return None;
      }
      if req.deliveryId in deliveries {
        return Some(Duplicate(deliveries[req.deliveryId].outcome));
      }
      var ok := RunInsertDelivery(req.deliveryId, Receipt(req), faults);
      if !ok {
        return None;
      }
      if req.job.None? {
        return Some(NotQueued);
      }
      if GetCycle in faults {
        return None;
      }
      var issue := req.job.value.issue;
      if issue in cycles && cycles[issue].status != ActiveCycle {
        return Some(SkippedExhausted);
      }
      if HasActive in faults {
        return None;
      }
      var active := SelectActive(issue);
      assert active <==> HasActiveEvent(old(Contents()), issue);
      if active {
        return Some(SkippedActive);
      }
      var cycleId := if issue in cycles then cycles[issue].cycleId else uuid;
      if issue !in cycles {
        ok := RunInsertCycle(issue, Cycle(cycleId, 0, ActiveCycle, req.now), faults);
        if !ok {
          return None;
        }
      }
      ok := RunInsertEvent(NewRow(|events|, req, cycleId), faults);
      if !ok {
        return None;
      }
      r := Some(Queued(|events| - 1, cycleId));
    }

    /** Discovery-only upsert: a fresh synthetic delivery id, then `recordDelivery`. */
    method UpsertReconciledIssue(l: Listed, now: int, uuid: string, cycleUuid: string, faults: set<Statement>) returns (r: Option<Recorded>)
      modifies this
      ensures var req := ReconcileRequest(l, now, uuid);
              match r
              case None => Contents() == old(Contents())
              case Some(answer) =>
                && answer == Answer(old(Contents()), req, cycleUuid) && Contents() == Record(old(Contents()), req, cycleUuid)
                && IsReconcileRequest(l, now, uuid, req) && RecordsAs(old(Contents()), Contents(), req, cycleUuid, answer)
      ensures KeysConsistent(old(Contents())) && faults == {} ==> r.Some?
      ensures old(KeysConsistent(Contents())) ==> KeysConsistent(Contents())
    {
      ReconcileFields(l, now, uuid);
      r := RecordDelivery(ReconcileRequest(l, now, uuid), cycleUuid, faults);
    }

    /** Marks a review row delivered and applies its cycle outcome, in one transaction. */
    method MarkReviewDelivered(id: nat, issue: string, now: int, o: Option<ReviewOutcome>, faults: set<Statement>) returns (ok: bool)
      modifies this
      ensures Contents() == if ok then FinishReview(old(Contents()), id, issue, now, o) else old(Contents())
      ensures ok && o.None? ==> OnlyDelivered(old(Contents()), Contents(), id, now)
      ensures ok && o == Some(Pass) ==> ReviewCommitted(old(Contents()), Contents(), id, issue, now, "pass")
      ensures ok && o == Some(NeedsHuman) ==> ReviewCommitted(old(Contents()), Contents(), id, issue, now, "needs_human")
      ensures ok && o == Some(RevisionRequired) ==> ReviewCommitted(old(Contents()), Contents(), id, issue, now, "revision_required")
      ensures faults == {} ==> ok
    {
      if Begin in faults {
        return false;
      }
      var saved := Tables(deliveries, events, cycles);
      ok := MarkRow !in faults;
      if ok {
        var changed := MarkDelivered(id, now);
        ok := o.None? || UpdateCycle !in faults;
        if ok && o.Some? && issue in cycles {
          cycles := cycles[issue := AfterOutcome(cycles[issue], o.value, now)];
        }
      }
      if !ok || Commit in faults {
        Rollback(saved);
        ok := false;
      }
      DeliveredFields(saved, id, now);
      if o.Some? {
        FinishFields(saved, id, issue, now, o.value, match o.value case Pass => "pass" case NeedsHuman => "needs_human" case RevisionRequired => "revision_required");
      }
    }

    // -------------------------------------------------------------- single statements

    method MarkDelivered(id: nat, now: int) returns (changed: bool)
      modifies this`events
      ensures Contents() == SetDelivered(old(Contents()), id, now) && OnlyDelivered(old(Contents()), Contents(), id, now)
      ensures changed <==> id < |old(events)| && old(events)[id].status in {Pending, NeedsReview}
    {
      DeliveredFields(Contents(), id, now);
      changed := id < |events| && events[id].IsActive();
      if changed {
        events := events[id := events[id].(status := Delivered, deliveredAt := Some(now))];
      }
    }

    /** Reads the attempt count, then writes the outcome of the attempt, outside any transaction. */
    method RecordAttemptFailure(f: Failure) returns (r: Option<(nat, Status, int)>)
      modifies this`events
      ensures r.None? <==> f.eventId >= |old(events)|
      ensures r.None? ==> Contents() == old(Contents())
      ensures r.Some? ==> Contents() == WriteFailure(old(Contents()), f, old(events)[f.eventId].attemptCount)
      ensures r.Some? ==> AttemptFailed(old(Contents()), Contents(), f.eventId, f.now, f.outcome, f.backoffMs, f.maxAttempts)
      ensures r.Some? ==> var row := events[f.eventId]; r.value == (row.attemptCount, row.status, row.nextAttemptAt)
    {
      if f.eventId >= |events| {
        return None;
      }
      FailureFields(Contents(), f);
      var attemptCount := events[f.eventId].attemptCount + 1;
      var needsReview := attemptCount >= f.maxAttempts;
      var status := if needsReview then NeedsReview else Pending;
      var nextAttemptAt := if needsReview then 0 else f.now + f.backoffMs;
      events := events[f.eventId := events[f.eventId].(
        attemptCount := attemptCount, nextAttemptAt := nextAttemptAt, lastOutcome := Some(f.outcome),
        lastErrorClass := Some(f.outcome), lastAttemptAt := Some(f.now), status := status)];
      r := Some((attemptCount, status, nextAttemptAt));
    }

    method ResetToPending(id: nat) returns (changed: bool)
      modifies this`events
      ensures Contents() == Reset(old(Contents()), id) && RowReset(old(Contents()), Contents(), id)
      ensures changed <==> id < |old(events)|
    {
      ResetFields(Contents(), id);
      changed := id < |events|;
      if changed {
        events := events[id := events[id].(status := Pending, nextAttemptAt := 0, attemptCount := 0)];
      }
    }

    method GetCycleOf(issue: string) returns (c: Option<Cycle>)
      ensures c == if issue in cycles then Some(cycles[issue]) else None
    {
      c := if issue in cycles then Some(cycles[issue]) else None;
    }

    /** The pending rows whose next attempt is due, by increasing id. */
    method ListEligibleEvents(now: int) returns (rows: seq<Event>)
      ensures rows == Eligible(events, now) && ListsDue(events, now, rows)
    {
      rows := [];
      for i := 0 to |events|
        invariant rows == Eligible(events[..i], now)
      {
        if IsEligible(events[i], now) {
          rows := rows + [events[i]];
        }
        assert events[..i + 1][..i] == events[..i];
      }
      assert events[..|events|] == events;
      ListFields(events, now);
    }

    method CountPending() returns (n: nat)
      ensures n == CountStatus(events, Pending) == |PendingIds(events)|
    {
      n := 0;
      for i := 0 to |events|
        invariant n == CountStatus(events[..i], Pending)
      {
        if events[i].status == Pending {
          n := n + 1;
        }
        assert events[..i + 1][..i] == events[..i];
      }
      assert events[..|events|] == events;
      CountFields(events);
    }
  }
}
