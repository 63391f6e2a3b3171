/**
 * Which webhooks count, read off the payload by its member names: the rules both pipelines follow, in the order in which
 * they are applied.
 */
module WebhookRules {
  import opened Json
  import opened QueueTables
  import opened StoreFields
  import opened Webhook
  import DS = DedupStore

  // ---------------------------------------------------------------- reading a webhook

  function Payload(w: Call): JsValue {
    if w.body.Some? then Def(w.body.value) else Undefined
  }

  function Data(w: Call): JsValue {
    Member(Payload(w), "data")
  }

  function StateName(w: Call): JsValue {
    Member(Member(Data(w), "state"), "name")
  }

  /** Not `undefined`, `null`, `false`, `0` or the empty text. */
  predicate Present(v: JsValue) {
    v != Undefined && v != Def(Null) && v != Def(Bool(false)) && v != Def(Num(0.0)) && v != Def(Str(""))
  }

  predicate Reads(v: JsValue, text: string) {
    v == Def(Str(text))
  }

  // ---------------------------------------------------------------- the rules

  /** Its timestamp is a number no further from now than the window. */
  predicate Recent(w: Call, window: int, now: int) {
    var ts := Member(Payload(w), "webhookTimestamp");
    ts.Def? && ts.v.Num? && -(window as real) <= now as real - ts.v.n <= window as real
  }

  predicate Named(w: Call) {
    w.deliveryId.Some? && w.deliveryId.value != ""
  }

  predicate Authentic(w: Call, c: WebhookConfig, now: int) {
    w.signed && w.body.Some? && Recent(w, c.timestampWindowMs, now) && Named(w)
  }

  /** Why a webhook is refused unread. */
  function Refusal(w: Call, c: WebhookConfig, now: int): string {
    if !w.signed then "invalid_signature"
    else if w.body.None? then "malformed_payload"
    else if !Recent(w, c.timestampWindowMs, now) then "stale_timestamp"
    else "missing_delivery_id"
  }

  predicate AboutIssue(w: Call) {
    && Reads(Member(Payload(w), "type"), "Issue") && Present(Data(w))
    && Present(Member(Data(w), "identifier")) && Present(Member(Data(w), "id"))
  }

  predicate OfTeam(w: Call, c: WebhookConfig) {
    Reads(Member(Member(Data(w), "team"), "id"), c.allowedTeamId)
  }

  predicate OfProject(w: Call, c: WebhookConfig) {
    Reads(Member(Member(Data(w), "project"), "id"), c.allowedProjectId)
  }

  /** The state itself has just changed: the issue is new, or the update says what it was. */
  predicate JustEntered(w: Call) {
    || Reads(Member(Payload(w), "action"), "create")
    || (Reads(Member(Payload(w), "action"), "update") && (match Member(Payload(w), "updatedFrom") case Def(Obj(m)) => "stateId" in m case _ => false))
  }

  // ---------------------------------------------------------------- v1B

  /** A webhook that asks for this leg. */
  predicate AsksFor(w: Call, c: WebhookConfig, now: int, job: JobType) {
    && Authentic(w, c, now) && AboutIssue(w) && OfTeam(w, c) && OfProject(w, c) && JustEntered(w)
    && match job
       case Execute => Reads(StateName(w), c.allowedTargetStateName)
       case Review => Reads(StateName(w), "In Review") && c.allowedTargetStateName != "In Review"
  }

  /** The first rule an authentic webhook breaks. */
  function FirstBroken(w: Call, c: WebhookConfig): string {
    if !AboutIssue(w) then "malformed_payload"
    else if !OfTeam(w, c) then "wrong_team"
    else if !OfProject(w, c) then "wrong_project"
    else if !Reads(StateName(w), c.allowedTargetStateName) && !Reads(StateName(w), "In Review") then "wrong_target_state"
    else "not_a_state_transition"
  }

  /** What is passed on of a relevant webhook. */
  ghost predicate PassesOn(w: Call, c: WebhookConfig, job: JobType, e: NormalizedEvent) {
    && e.event == (match job case Execute => "issue_entered_todo" case Review => "issue_entered_review")
    && Def(e.issueIdentifier) == Member(Data(w), "identifier") && Def(e.issueId) == Member(Data(w), "id")
    && e.projectId == c.allowedProjectId && e.teamId == c.allowedTeamId && Reads(StateName(w), e.targetState)
    && UrlPassed(w, e.url)
  }

  /** The issue's own link, or else the webhook's, if it is a text. */
  ghost predicate UrlPassed(w: Call, url: Option<string>) {
    var own, other := Member(Data(w), "url"), Member(Payload(w), "url");
    var link := if own != Undefined && own != Def(Null) then own else other;
    match url
    case Some(text) => Reads(link, text)
    case None => !(link.Def? && link.v.Str?)
  }

  /** How v1B classifies every webhook. */
  ghost predicate ClassifiedAs(w: Call, c: WebhookConfig, now: int, r: Classified) {
    match r
    case Unverified(reason) => !Authentic(w, c, now) && reason == Refusal(w, c, now)
    case Relevant(id, e) =>
      && w.deliveryId == Some(id)
      && (AsksFor(w, c, now, Execute) || AsksFor(w, c, now, Review))
      && var job := if AsksFor(w, c, now, Execute) then Execute else Review;
         PassesOn(w, c, job, e) && e.jobType == Some(job)
    case Irrelevant(id, reason, identifier) =>
      && w.deliveryId == Some(id) && Authentic(w, c, now) && !AsksFor(w, c, now, Execute) && !AsksFor(w, c, now, Review)
      && reason == FirstBroken(w, c)
      && identifier == if AboutIssue(w) then Member(Data(w), "identifier") else Undefined
  }

  lemma FreshIsRecent(ts: JsValue, now: int, windowMs: int)
    ensures IsFreshTimestamp(ts, now, windowMs) <==> ts.Def? && ts.v.Num? && -(windowMs as real) <= now as real - ts.v.n <= windowMs as real
  {
  }

  lemma TruthyIsPresent(v: JsValue)
    ensures Truthy(v) <==> Present(v)
  {
  }

  lemma EnteredIs(w: Call)
    ensures EnteredTargetState(Payload(w)) <==> JustEntered(w)
  {
    assert |"create"| == 6 && "create"[0] != "update"[0];
  }

  lemma RoutedAs(w: Call, c: WebhookConfig, now: int)
    requires Authentic(w, c, now)
    ensures ClassifiedAs(w, c, now, Route(w.deliveryId.value, Payload(w), c))
  {
    TruthyIsPresent(Data(w));
    TruthyIsPresent(Member(Data(w), "identifier"));
    TruthyIsPresent(Member(Data(w), "id"));
    EnteredIs(w);
  }

  /** `classifyWebhook`, in all its cases. */
  lemma Classifies(w: Call, c: WebhookConfig, now: int)
    ensures ClassifiedAs(w, c, now, ClassifyWebhook(w, c, now))
  {
    FreshIsRecent(Member(Payload(w), "webhookTimestamp"), now, c.timestampWindowMs);
    if Authentic(w, c, now) {
      RoutedAs(w, c, now);
    }
  }

  // ---------------------------------------------------------------- v1A

  /** How v1A answers every webhook: the same rules, with its window in between and the pickup state only. */
  ghost predicate AnsweredAs(d: DS.Settings, log: seq<DS.Recording>, w: Call, c: WebhookConfig, now: int, r: ResponseA) {
    if !Authentic(w, c, now) then r == RefusedA(Refusal(w, c, now))
    else if DS.IsDuplicate(d, log, w.deliveryId.value, now) then r == RefusedA("duplicate_delivery")
    else if AsksFor(w, c, now, Execute) then r.AcceptedA? && PassesOn(w, c, Execute, r.event) && r.event.jobType == None
    else r == RefusedA(FirstBrokenA(w, c))
  }

  function FirstBrokenA(w: Call, c: WebhookConfig): string {
    if !AboutIssue(w) then "malformed_payload"
    else if !OfTeam(w, c) then "wrong_team"
    else if !OfProject(w, c) then "wrong_project"
    else if !Reads(StateName(w), c.allowedTargetStateName) then "wrong_target_state"
    else "not_a_state_transition"
  }

  lemma RoutedAsA(w: Call, c: WebhookConfig, now: int)
    requires Authentic(w, c, now)
    ensures var r := RouteA(Payload(w), c);
            if AsksFor(w, c, now, Execute) then r.AcceptedA? && PassesOn(w, c, Execute, r.event) && r.event.jobType == None
            else r == RefusedA(FirstBrokenA(w, c))
  {
    TruthyIsPresent(Data(w));
    TruthyIsPresent(Member(Data(w), "identifier"));
    TruthyIsPresent(Member(Data(w), "id"));
    EnteredIs(w);
  }

  /** `evaluateWebhook`, in all its cases. */
  lemma Answers(d: DS.Settings, log: seq<DS.Recording>, w: Call, c: WebhookConfig, now: int)
    ensures var (r, next) := ReceiveA(d, log, w, c, now);
            AnsweredAs(d, log, w, c, now, r) && next == if Authentic(w, c, now) then DS.AfterCall(d, log, w.deliveryId.value, now) else log
  {
    FreshIsRecent(Member(Payload(w), "webhookTimestamp"), now, c.timestampWindowMs);
    if Authentic(w, c, now) {
      RoutedAsA(w, c, now);
    }
  }

  /** `evaluateWebhook` on the object it is given. */
  method EvaluateWebhook(store: DS.Store, w: Call, c: WebhookConfig, now: int) returns (r: ResponseA)
    requires store.Valid() && (store.log == [] || store.clock <= now)
    modifies store
    ensures store.Valid()
    ensures (r, store.log) == ReceiveA(store.settings, old(store.log), w, c, now)
    ensures AnsweredAs(store.settings, old(store.log), w, c, now, r)
  {
    Answers(store.settings, store.log, w, c, now);
    if !w.signed {
      return RefusedA("invalid_signature");
    }
    if w.body.None? {
      return RefusedA("malformed_payload");
    }
    var payload := Def(w.body.value);
    if !IsFreshTimestamp(Member(payload, "webhookTimestamp"), now, c.timestampWindowMs) {
      return RefusedA("stale_timestamp");
    }
    if w.deliveryId.None? || w.deliveryId.value == "" {
      return RefusedA("missing_delivery_id");
    }
    var duplicate := store.CheckAndRecord(w.deliveryId.value, now);
    if duplicate {
      return RefusedA("duplicate_delivery");
    }
    r := RouteA(payload, c);
  }

  // ---------------------------------------------------------------- what v1B records

  /** The text an issue identifier is stored as, if it can be. */
  ghost predicate StoresAs(identifier: Json, numeral: Json -> string, text: string) {
    identifier == Str(text) || ((identifier.Num? || identifier.Huge?) && text == numeral(identifier))
  }

  /** An authentic webhook leads to this request. */
  ghost predicate Requests(w: Call, c: WebhookConfig, now: int, numeral: Json -> string, req: Request) {
    && w.deliveryId == Some(req.deliveryId) && req.now == now
    && (req.job.Some? <==> AsksFor(w, c, now, Execute) || AsksFor(w, c, now, Review))
    && (req.job.Some? ==>
          && req.reason == "accepted"
          && req.job.value.jobType == (if AsksFor(w, c, now, Execute) then Execute else Review)
          && PassesOn(w, c, req.job.value.jobType, req.job.value.payload) && req.job.value.payload.jobType == Some(req.job.value.jobType)
          && StoresAs(req.job.value.payload.issueIdentifier, numeral, req.job.value.issue))
    && (req.job.None? ==>
          && req.reason == FirstBroken(w, c)
          && (if AboutIssue(w) then req.issue.Some? && StoresAs(Member(Data(w), "identifier").v, numeral, req.issue.value) else req.issue == None))
  }

  /** The one reason an authentic webhook cannot be recorded: its identifier is no text and no number. */
  ghost predicate Unstorable(w: Call) {
    AboutIssue(w) && var identifier := Member(Data(w), "identifier"); identifier.Def? && (identifier.v.Bool? || identifier.v.Arr? || identifier.v.Obj?)
  }

  lemma RequestFields(w: Call, c: WebhookConfig, now: int, numeral: Json -> string)
    requires Authentic(w, c, now)
    ensures var r := ClassifyWebhook(w, c, now);
            !r.Unverified? && (match RequestOf(r, now, numeral) case Some(req) => Requests(w, c, now, numeral, req) case None => Unstorable(w))
  {
    Classifies(w, c, now);
  }

  /** What v1B answers and what the tables become, for every webhook. */
  lemma Receives(t: Tables, w: Call, c: WebhookConfig, now: int, uuid: string, numeral: Json -> string)
    ensures var (b, u) := ReceiveB(t, w, c, now, uuid, numeral);
            match b
            case RefusedB(reason) => !Authentic(w, c, now) && reason == Refusal(w, c, now) && u == t
            case FailedB => Authentic(w, c, now) && Unstorable(w) && w.deliveryId.value !in t.deliveries && u == t
            case RecordedB(answer) =>
              && Authentic(w, c, now)
              && ((u == t && answer.Duplicate? && w.deliveryId.value in t.deliveries && answer.outcome == t.deliveries[w.deliveryId.value].outcome) ||
                  exists req :: Requests(w, c, now, numeral, req) && RecordsAs(t, u, req, uuid, answer))
  {
    Classifies(w, c, now);
    var r := ClassifyWebhook(w, c, now);
    if !r.Unverified? {
      RequestFields(w, c, now, numeral);
      if RequestOf(r, now, numeral).Some? {
        RecordFields(t, RequestOf(r, now, numeral).value, uuid);
      }
    }
  }
}
