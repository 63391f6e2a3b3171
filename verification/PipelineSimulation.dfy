/**
 * v1A against v1B: both pipelines are fed the same webhooks at the same times, while the v1B worker takes any steps
 * of its own in between.
 */
module PipelineSimulation {
  import opened Json
  import opened QueueTables
  import opened Protocol
  import opened Webhook
  import DS = DedupStore

  /** A webhook sent to both, where v1B's database may refuse a statement; a restart of v1A, which empties its dedup set; a
      step of v1B's worker. */
  datatype JointLabel = Hook(w: Call, now: int, uuid: string, refused: bool) | RestartA | Inner(l: Label)

  /** v1A's dedup log, the clock, v1B's whole state, the delivery ids that reconciliation made up, those of webhooks that
      v1B failed to record, and those that v1A forgot by restarting. */
  datatype Joint = Joint(log: seq<DS.Recording>, clock: int, s: State, reconciled: set<string>, failed: set<string>, forgotten: set<string>)

  datatype Setup = Setup(dedup: DS.Settings, hooks: WebhookConfig, worker: Config, numeral: Json -> string)

  /** The issue identifier, where it is stored at all, can be. */
  predicate Recordable(p: Setup, w: Call, now: int) {
    var r := ClassifyWebhook(w, p.hooks, now);
    !r.Unverified? ==> RequestOf(r, now, p.numeral).Some?
  }

  function AnswerB(p: Setup, t: Tables, w: Call, now: int, uuid: string, refused: bool): (ResponseB, Tables) {
    if refused && !ClassifyWebhook(w, p.hooks, now).Unverified? then (FailedB, t)
    else ReceiveB(t, w, p.hooks, now, uuid, p.numeral)
  }

  ghost predicate CanStep(p: Setup, j: Joint, l: JointLabel) {
    match l
    case Hook(_, now, uuid, _) => j.clock <= now && FreshCycleId(j.s.db, uuid)
    case RestartA => true
    case Inner(inner) => !inner.Ingress? && Enabled(j.s, inner)
  }

  function IdsOf(log: seq<DS.Recording>): set<string> {
    set r | r in log :: r.id
  }

  ghost function JointStep(p: Setup, j: Joint, l: JointLabel): Joint
    requires CanStep(p, j, l)
  {
    match l
    case Hook(w, now, uuid, refused) =>
      var (b, db) := AnswerB(p, j.s.db, w, now, uuid, refused);
      j.(log := ReceiveA(p.dedup, j.log, w, p.hooks, now).1, clock := now, s := j.s.(db := db),
         failed := if b.FailedB? then j.failed + {ClassifyWebhook(w, p.hooks, now).deliveryId} else j.failed)
    case RestartA => j.(log := [], forgotten := j.forgotten + IdsOf(j.log))
    case Inner(inner) =>
      var u := Step(p.worker, j.s, inner);
      j.(s := u, reconciled := j.reconciled + (u.db.deliveries.Keys - j.s.db.deliveries.Keys))
  }

  ghost predicate JointLegal(p: Setup, j: Joint, ls: seq<JointLabel>)
    decreases |ls|
  {
    ls == [] || (CanStep(p, j, ls[0]) && JointLegal(p, JointStep(p, j, ls[0]), ls[1..]))
  }

  ghost function JointRun(p: Setup, j: Joint, ls: seq<JointLabel>): Joint
    requires JointLegal(p, j, ls)
    decreases |ls|
  {
    if ls == [] then j else JointRun(p, JointStep(p, j, ls[0]), ls[1..])
  }

  const START := Joint([], 0, INITIAL, {}, {}, {})

  predicate InLog(log: seq<DS.Recording>, id: string) {
    exists i :: 0 <= i < |log| && log[i].id == id
  }

  /** Outside what reconciliation made up, what v1B failed to record and what v1A forgot, v1B has a receipt for exactly the
      ids v1A has recorded as fresh. */
  ghost predicate SameIds(j: Joint) {
    && (forall i :: 0 <= i < |j.log| ==> j.log[i].id in j.s.db.deliveries || j.log[i].id in j.failed)
    && (forall id :: id in j.s.db.deliveries ==> id in j.reconciled || id in j.forgotten || InLog(j.log, id))
  }

  // ---------------------------------------------------------------- one webhook

  /** Both pipelines stop an unverified webhook; both look at the same id of a verified one. */
  lemma SameFront(d: DS.Settings, log: seq<DS.Recording>, w: Call, c: WebhookConfig, now: int)
    ensures var r := ClassifyWebhook(w, c, now);
            var (a, next) := ReceiveA(d, log, w, c, now);
            if r.Unverified? then a == RefusedA(r.reason) && next == log
            else
              && next == DS.AfterCall(d, log, r.deliveryId, now)
              && w.body.Some?
              && a == if DS.IsDuplicate(d, log, r.deliveryId, now) then RefusedA("duplicate_delivery") else RouteA(Def(w.body.value), c)
  {
  }

  /** v1A routes exactly v1B's execute events, with the same content up to the job type. */
  lemma SameRouting(id: string, payload: JsValue, c: WebhookConfig)
    ensures var r := Route(id, payload, c);
            && r.deliveryId == id
            && (r.Relevant? && r.event.jobType == Some(Execute) ==> RouteA(payload, c) == AcceptedA(r.event.(jobType := None)))
            && (RouteA(payload, c).AcceptedA? ==> r.Relevant? && r.event.jobType == Some(Execute))
  {
  }

  lemma RequestKeepsId(r: Classified, now: int, numeral: Json -> string)
    requires !r.Unverified? && RequestOf(r, now, numeral).Some?
    ensures RequestOf(r, now, numeral).value.deliveryId == r.deliveryId
    ensures r.Relevant? <==> RequestOf(r, now, numeral).value.job.Some?
  {
  }

  predicate IsDuplicateB(b: ResponseB) {
    b.RecordedB? && b.answer.Duplicate?
  }

  /** v1A's every recording of the id is too old or has been pushed out. */
  ghost predicate LeftWindow(d: DS.Settings, log: seq<DS.Recording>, id: string, now: int) {
    InLog(log, id) && forall i :: 0 <= i < |log| && log[i].id == id ==> !DS.InWindow(d, log, i, now)
  }

  /** What the two pipelines answer to one webhook, relative to each other. */
  ghost predicate Simulates(p: Setup, j: Joint, w: Call, now: int, uuid: string) {
    var r := ClassifyWebhook(w, p.hooks, now);
    var a := ReceiveA(p.dedup, j.log, w, p.hooks, now).0;
    var b := ReceiveB(j.s.db, w, p.hooks, now, uuid, p.numeral).0;
    if r.Unverified? then a == RefusedA(r.reason) && b == RefusedB(r.reason)
    else
      var id := r.deliveryId;
      var inWindow := DS.IsDuplicate(p.dedup, j.log, id, now);
      var execute := r.Relevant? && r.event.jobType == Some(Execute);
      // each pipeline's duplicates: an id in v1A's window, an id with a receipt in v1B
      && (a == RefusedA("duplicate_delivery") <==> inWindow)
      && (IsDuplicateB(b) <==> id in j.s.db.deliveries)
      // an id in the window without a receipt is one v1B failed to record: only then is a v1A duplicate none of v1B's
      && (inWindow && id !in j.s.db.deliveries ==> id in j.failed)
      // what v1B freshly accepts as an execute event v1A accepts with the same content, unless the id is in its window
      && (execute && b.RecordedB? && !b.answer.Duplicate? ==>
            a == if inWindow then RefusedA("duplicate_delivery") else AcceptedA(r.event.(jobType := None)))
      // v1A accepts nothing else
      && (a.AcceptedA? <==> execute && !inWindow)
      && (a.AcceptedA? ==> a.event == r.event.(jobType := None))
      // what v1A accepts and v1B calls a duplicate has left v1A's window, was forgotten, or was made up by reconciliation
      && (a.AcceptedA? && IsDuplicateB(b) ==> id in j.reconciled || id in j.forgotten || LeftWindow(p.dedup, j.log, id, now))
      // v1B fails exactly on an identifier it cannot store and has no receipt for
      && (b.FailedB? <==> !Recordable(p, w, now) && id !in j.s.db.deliveries)
  }

  lemma OneWebhook(p: Setup, j: Joint, w: Call, now: int, uuid: string)
    requires SameIds(j)
    ensures Simulates(p, j, w, now, uuid)
  {
    var r := ClassifyWebhook(w, p.hooks, now);
    SameFront(p.dedup, j.log, w, p.hooks, now);
    if !r.Unverified? {
      SameRouting(r.deliveryId, Def(w.body.value), p.hooks);
      assert r == Route(r.deliveryId, Def(w.body.value), p.hooks);
      RouteIsNoDuplicate(Def(w.body.value), p.hooks);
      if Recordable(p, w, now) {
        RequestKeepsId(r, now, p.numeral);
      }
    }
  }

  lemma RouteIsNoDuplicate(payload: JsValue, c: WebhookConfig)
    ensures RouteA(payload, c) != RefusedA("duplicate_delivery")
  {
    var a := RouteA(payload, c);
    if a.RefusedA? {
      assert a.reason[0] != 'd';
    }
  }

  // ---------------------------------------------------------------- runs

  lemma HookKeepsIds(p: Setup, j: Joint, w: Call, now: int, uuid: string, refused: bool)
    requires SameIds(j) && CanStep(p, j, Hook(w, now, uuid, refused))
    ensures SameIds(JointStep(p, j, Hook(w, now, uuid, refused)))
  {
    var r := ClassifyWebhook(w, p.hooks, now);
    SameFront(p.dedup, j.log, w, p.hooks, now);
    if !r.Unverified? {
      var u := JointStep(p, j, Hook(w, now, uuid, refused));
      assert u.log == DS.AfterCall(p.dedup, j.log, r.deliveryId, now);
      AnswerKeepsId(p, j.s.db, w, now, uuid, refused);
      LogAfterCall(p.dedup, j.log, r.deliveryId, now);
      KeepIds(j, u, r.deliveryId);
    }
  }

  /** What v1B keeps of a verified webhook's id. */
  lemma AnswerKeepsId(p: Setup, t: Tables, w: Call, now: int, uuid: string, refused: bool)
    requires !ClassifyWebhook(w, p.hooks, now).Unverified?
    ensures var id := ClassifyWebhook(w, p.hooks, now).deliveryId;
            var (b, u) := AnswerB(p, t, w, now, uuid, refused);
            u.deliveries.Keys == if b.FailedB? then t.deliveries.Keys else t.deliveries.Keys + {id}
  {
    var r := ClassifyWebhook(w, p.hooks, now);
    if RequestOf(r, now, p.numeral).Some? {
      RequestKeepsId(r, now, p.numeral);
    }
  }

  lemma LogAfterCall(d: DS.Settings, log: seq<DS.Recording>, id: string, now: int)
    ensures forall x :: InLog(DS.AfterCall(d, log, id, now), x) <==> InLog(log, x) || x == id
  {
    LogGrows(log, DS.Recording(id, now));
  }

  lemma KeepIds(j: Joint, u: Joint, id: string)
    requires SameIds(j) && u.reconciled == j.reconciled && u.forgotten == j.forgotten
    requires forall x :: InLog(u.log, x) <==> InLog(j.log, x) || x == id
    requires || (u.failed == j.failed + {id} && u.s.db.deliveries.Keys == j.s.db.deliveries.Keys)
             || (u.failed == j.failed && u.s.db.deliveries.Keys == j.s.db.deliveries.Keys + {id})
    ensures SameIds(u)
  {
    forall i | 0 <= i < |u.log| ensures u.log[i].id in u.s.db.deliveries || u.log[i].id in u.failed {
      var x := u.log[i].id;
      assert InLog(u.log, x);
      if InLog(j.log, x) {
        var k :| 0 <= k < |j.log| && j.log[k].id == x;
        assert x in j.s.db.deliveries || x in j.failed;
        assert x in j.s.db.deliveries ==> x in u.s.db.deliveries.Keys;
      }
    }
    forall x | x in u.s.db.deliveries ensures x in u.reconciled || x in u.forgotten || InLog(u.log, x) {
      assert x in u.s.db.deliveries.Keys;
      assert x in j.s.db.deliveries.Keys || x == id;
    }
  }

  lemma LogGrows(log: seq<DS.Recording>, r: DS.Recording)
    ensures forall id :: InLog(log + [r], id) <==> InLog(log, id) || id == r.id
  {
    forall id ensures InLog(log + [r], id) <==> InLog(log, id) || id == r.id {
      if i :| 0 <= i < |log| && log[i].id == id {
        assert (log + [r])[i].id == id;
      }
      assert (log + [r])[|log|] == r;
    }
  }

  lemma RestartKeepsIds(p: Setup, j: Joint)
    requires SameIds(j)
    ensures SameIds(JointStep(p, j, RestartA))
  {
    forall id | InLog(j.log, id) ensures id in IdsOf(j.log) {
      var i :| 0 <= i < |j.log| && j.log[i].id == id;
      assert j.log[i] in j.log;
    }
  }

  lemma InnerKeepsIds(p: Setup, j: Joint, l: Label)
    requires SameIds(j) && CanStep(p, j, Inner(l))
    ensures SameIds(JointStep(p, j, Inner(l)))
  {
    var u := Step(p.worker, j.s, l);
    forall id | id in j.s.db.deliveries ensures id in u.db.deliveries {
      DeliveriesGrow(p.worker, j.s, l, id);
    }
  }

  lemma DeliveriesGrow(c: Config, s: State, l: Label, id: string)
    requires Enabled(s, l) && id in s.db.deliveries
    ensures id in Step(c, s, l).db.deliveries
  {
  }

  lemma {:induction false} RunKeepsIds(p: Setup, j: Joint, ls: seq<JointLabel>)
    requires SameIds(j) && JointLegal(p, j, ls)
    ensures SameIds(JointRun(p, j, ls))
    decreases |ls|
  {
    if ls != [] {
      match ls[0] {
        case Hook(w, now, uuid, refused) => HookKeepsIds(p, j, w, now, uuid, refused);
        case RestartA => RestartKeepsIds(p, j);
        case Inner(l) => InnerKeepsIds(p, j, l);
      }
      RunKeepsIds(p, JointStep(p, j, ls[0]), ls[1..]);
    }
  }

  /** After any joint history, the two pipelines answer the next webhook as `Simulates` says. */
  lemma PipelinesSimulate(p: Setup, ls: seq<JointLabel>, w: Call, now: int, uuid: string)
    requires JointLegal(p, START, ls)
    ensures Simulates(p, JointRun(p, START, ls), w, now, uuid)
  {
    RunKeepsIds(p, START, ls);
    OneWebhook(p, JointRun(p, START, ls), w, now, uuid);
  }

  /** The exception is real, for every webhook v1B cannot store: sent twice, it is a duplicate to v1A while v1B fails both
      times. */
  lemma UnrecordableWebhooksSplit(p: Setup, j: Joint, w: Call, now: int, uuid: string, uuid': string)
    requires !Recordable(p, w, now) && p.dedup.ttlMs > 0
    requires ClassifyWebhook(w, p.hooks, now).deliveryId !in j.s.db.deliveries
    ensures var (_, log) := ReceiveA(p.dedup, j.log, w, p.hooks, now);
            var (b, t) := ReceiveB(j.s.db, w, p.hooks, now, uuid, p.numeral);
            && b == FailedB && ReceiveB(t, w, p.hooks, now, uuid', p.numeral).0 == FailedB
            && ReceiveA(p.dedup, log, w, p.hooks, now).0 == RefusedA("duplicate_delivery")
  {
    var id := ClassifyWebhook(w, p.hooks, now).deliveryId;
    SameFront(p.dedup, j.log, w, p.hooks, now);
    var log := ReceiveA(p.dedup, j.log, w, p.hooks, now).1;
    SameFront(p.dedup, log, w, p.hooks, now);
    if !DS.IsDuplicate(p.dedup, j.log, id, now) {
      assert log[|j.log|] == DS.Recording(id, now) && DS.InWindow(p.dedup, log, |j.log|, now);
    }
  }
}
