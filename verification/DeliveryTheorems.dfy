/**
 * Whole-run facts about deliveries and reconciliation: repeats are stutters, receipts are write-once, a completed
 * reconciliation pass leaves nothing listed behind, and the unguarded two-statement failure record is harmless.
 */
module DeliveryTheorems {
  import opened QueueTables
  import opened Protocol
  import opened ProtocolInvariant
  import opened ProtocolProof
  import opened StoreFields

  // ---------------------------------------------------------------- repeated deliveries

  ghost predicate IsRepeat(s: State, l: Label) {
    l.Ingress? && l.req.deliveryId in s.db.deliveries
  }

  /** The run with every call for an already recorded delivery id deleted. */
  ghost function WithoutRepeats(c: Config, s: State, labels: seq<Label>): seq<Label>
    requires Legal(c, s, labels)
    decreases |labels|
  {
    if labels == [] then []
    else
      var rest := WithoutRepeats(c, Step(c, s, labels[0]), labels[1..]);
      if IsRepeat(s, labels[0]) then rest else [labels[0]] + rest
  }

  /** Deleting the repeats of any run leaves a run with the same final state. */
  lemma {:induction false} RepeatsAreStutters(c: Config, s: State, labels: seq<Label>)
    requires Legal(c, s, labels)
    ensures Legal(c, s, WithoutRepeats(c, s, labels))
    ensures Run(c, s, WithoutRepeats(c, s, labels)) == Run(c, s, labels)
    decreases |labels|
  {
    if labels != [] {
      var u := Step(c, s, labels[0]);
      var rest := WithoutRepeats(c, u, labels[1..]);
      RepeatsAreStutters(c, u, labels[1..]);
      if IsRepeat(s, labels[0]) {
        assert u == s;
      } else {
        KeepFirst(c, s, labels[0], rest);
      }
    }
  }

  lemma KeepFirst(c: Config, s: State, l: Label, rest: seq<Label>)
    requires Enabled(s, l) && Legal(c, Step(c, s, l), rest)
    ensures Legal(c, s, [l] + rest) && Run(c, s, [l] + rest) == Run(c, Step(c, s, l), rest)
  {
    assert ([l] + rest)[0] == l && ([l] + rest)[1..] == rest;
  }

  lemma ReceiptsKept(c: Config, s: State, l: Label, id: string)
    requires Enabled(s, l) && id in s.db.deliveries
    ensures id in Step(c, s, l).db.deliveries && Step(c, s, l).db.deliveries[id] == s.db.deliveries[id]
  {
  }

  lemma {:induction false} ReceiptsWriteOnce(c: Config, s: State, labels: seq<Label>, id: string)
    requires Legal(c, s, labels) && id in s.db.deliveries
    ensures id in Run(c, s, labels).db.deliveries && Run(c, s, labels).db.deliveries[id] == s.db.deliveries[id]
    decreases |labels|
  {
    if labels != [] {
      ReceiptsKept(c, s, labels[0], id);
      ReceiptsWriteOnce(c, Step(c, s, labels[0]), labels[1..], id);
    }
  }

  /** Whatever happens in between, a repeat is answered with the outcome of the first call, even if its content differs. */
  lemma RepeatsAnswerAsFirst(c: Config, s: State, first: Request, uuid: string, labels: seq<Label>, again: Request, uuid': string)
    requires first.deliveryId !in s.db.deliveries && again.deliveryId == first.deliveryId
    requires Legal(c, s.(db := Record(s.db, first, uuid)), labels)
    ensures Answer(Run(c, s.(db := Record(s.db, first, uuid)), labels).db, again, uuid') == Duplicate(Receipt(first).outcome)
    ensures Receipt(first).outcome == match first.job case Some(_) => AcceptedDelivery case None => IgnoredDelivery
  {
    ReceiptsWriteOnce(c, s.(db := Record(s.db, first, uuid)), labels, first.deliveryId);
  }

  // ---------------------------------------------------------------- reconciliation

  /** The reconciliation loop is still working on list `all`. */
  ghost predicate WorkingOn(lane: Lane, all: seq<Listed>) {
    lane.Upserting? && lane.done + lane.rest == all
  }

  lemma LoopStep(c: Config, s: State, l: Label, all: seq<Listed>)
    requires Enabled(s, l) && WorkingOn(s.lane, all)
    requires !l.Crash? && !l.LaneFails? && !l.UpsertsDone?
    ensures WorkingOn(Step(c, s, l).lane, all)
  {
    if l.UpsertNext? {
      assert s.lane.done + [s.lane.rest[0]] + s.lane.rest[1..] == s.lane.done + s.lane.rest;
    }
  }

  /** After a pass over any list, repeats allowed and ingress interleaved at will, every listed issue has an active row or
      a terminal cycle. */
  lemma {:induction false} ReconciliationCompletes(c: Config, s: State, labels: seq<Label>, all: seq<Listed>)
    requires Inv(c, s) && Legal(c, s, labels) && WorkingOn(s.lane, all)
    requires forall i :: 0 <= i < |labels| ==> !labels[i].Crash? && !labels[i].LaneFails? && !labels[i].UpsertsDone?
    ensures var u := Run(c, s, labels);
            && WorkingOn(u.lane, all)
            && (u.lane.rest == [] ==> forall l :: l in all ==> Settled(u.db, l.issue))
    decreases |labels|
  {
    if labels == [] {
      if s.lane.rest == [] {
        assert s.lane.done == all;
      }
    } else {
      LoopStep(c, s, labels[0], all);
      StepPreserves(c, s, labels[0]);
      forall i | 0 <= i < |labels[1..]| ensures !labels[1..][i].Crash? && !labels[1..][i].LaneFails? && !labels[1..][i].UpsertsDone? {
        assert labels[1..][i] == labels[i + 1];
      }
      ReconciliationCompletes(c, Step(c, s, labels[0]), labels[1..], all);
    }
  }

  // ---------------------------------------------------------------- failed attempts

  /** Although its `SELECT` and `UPDATE` are separate statements with arbitrary steps of other processes in between, a
      recorded failure is the atomic one: it counts one more than the durable row and schedules that row's backoff. */
  lemma SplitFailureIsAtomic(c: Config, s: State, now: int)
    requires Inv(c, s) && s.lane.WritingFailure?
    ensures var row, f := s.lane.row, FailureOf(c, s.db.events[s.lane.row.id], s.lane.reason, now);
            && WriteAttempt(c, s, now).db == WriteFailure(s.db, f, s.db.events[row.id].attemptCount)
            && f.backoffMs == Backoff(c, s.db.events[row.id].attemptCount)
            && s.db.events[row.id].status == Pending
  {
    assert Current(s.db, s.lane.row);
  }

  // ---------------------------------------------------------------- rows stay what was asked for

  /** No row of `t` has changed its identity in `u`. */
  ghost predicate RowsKept(t: Tables, u: Tables) {
    |t.events| <= |u.events| && forall i :: 0 <= i < |t.events| ==> SameIdentity(t.events[i], u.events[i])
  }

  lemma RecordKeepsRows(t: Tables, req: Request, uuid: string)
    ensures RowsKept(t, Record(t, req, uuid))
  {
  }

  lemma PersistKeepsRows(s: State, now: int)
    requires s.lane.FinishingExecution? || s.lane.FinishingReview?
    ensures RowsKept(s.db, PersistTurn(s, now).db)
  {
  }

  lemma WriteKeepsRows(c: Config, s: State, now: int)
    requires s.lane.WritingFailure?
    ensures RowsKept(s.db, WriteAttempt(c, s, now).db)
  {
  }

  lemma OtherStepsKeepRows(c: Config, s: State, l: Label)
    requires Enabled(s, l) && !l.Ingress? && !l.UpsertNext? && !l.Persist? && !l.WriteAttempts?
    ensures RowsKept(s.db, Step(c, s, l).db)
  {
  }

  lemma StepKeepsRows(c: Config, s: State, l: Label)
    requires Enabled(s, l)
    ensures RowsKept(s.db, Step(c, s, l).db)
  {
    match l
    case Ingress(req, uuid) => RecordKeepsRows(s.db, req, uuid);
    case UpsertNext(now, uuid, cycleUuid) => RecordKeepsRows(s.db, ReconcileRequest(s.lane.rest[0], now, uuid), cycleUuid);
    case Persist(now) => PersistKeepsRows(s, now);
    case WriteAttempts(now) => WriteKeepsRows(c, s, now);
    case _ => OtherStepsKeepRows(c, s, l);
  }

  lemma {:induction false} RunKeepsIdentity(c: Config, s: State, labels: seq<Label>, i: nat)
    requires Legal(c, s, labels) && i < |s.db.events|
    ensures i < |Run(c, s, labels).db.events| && SameIdentity(s.db.events[i], Run(c, s, labels).db.events[i])
    decreases |labels|
  {
    if labels != [] {
      StepKeepsRows(c, s, labels[0]);
      RunKeepsIdentity(c, Step(c, s, labels[0]), labels[1..], i);
    }
  }

  /** The row is processed as its job type says: reviews in a review turn, executions in an execution turn. */
  ghost predicate RunsAs(s: State, id: nat, job: JobType) {
    s.lane.HoldsRow() && s.lane.row.id == id ==>
      && (s.lane.Reviewing? || s.lane.FinishingReview? ==> job == Review)
      && (s.lane.Executing? || s.lane.FinishingExecution? ==> job == Execute)
  }

  /** A delivery that queues a row: in every later state of every run that row still has the delivery, the issue, the
      payload and the job type of its request, and only that leg ever runs it. */
  lemma QueuedRowsKeepTheirRequest(c: Config, s: State, req: Request, uuid: string, labels: seq<Label>)
    requires Inv(c, s) && FreshCycleId(s.db, uuid) && Legal(c, s.(db := Record(s.db, req, uuid)), labels)
    requires req.job.Some? && req.deliveryId !in s.db.deliveries && !IsOver(s.db, req.job.value.issue) && !IsTaken(s.db, req.job.value.issue)
    ensures var u, id := Run(c, s.(db := Record(s.db, req, uuid)), labels), |s.db.events|;
            && id < |u.db.events|
            && u.db.events[id].deliveryId == req.deliveryId && u.db.events[id].issue == req.job.value.issue
            && u.db.events[id].payload == req.job.value.payload && u.db.events[id].jobType == req.job.value.jobType
            && RunsAs(u, id, req.job.value.jobType)
  {
    var a, id := s.(db := Record(s.db, req, uuid)), |s.db.events|;
    RecordFields(s.db, req, uuid);
    IngressStep(c, s, req, uuid);
    RunKeepsIdentity(c, a, labels, id);
    RunPreserves(c, a, labels);
    HeldRowsRun(c, Run(c, a, labels), id);
  }

  lemma HeldRowsRun(c: Config, s: State, id: nat)
    requires Inv(c, s) && id < |s.db.events|
    ensures RunsAs(s, id, s.db.events[id].jobType)
  {
  }
}
