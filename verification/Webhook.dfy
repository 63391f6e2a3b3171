/**
 * The two webhook pipelines: v1A (`evaluateWebhook` over the in-memory dedup set) and v1B (`classifyWebhook`, then the
 * durable `recordDelivery`), and how far they agree.
 */
module Webhook {
  import opened Json
  import opened QueueTables
  import DS = DedupStore

  /** A webhook call. `signed` is the HMAC check's answer and `body` the parsed payload; both are inputs here. */
  datatype Call = Call(signed: bool, body: Option<Json>, deliveryId: Option<string>)

  datatype WebhookConfig = WebhookConfig(
    timestampWindowMs: int,
    allowedTeamId: string,
    allowedProjectId: string,
    allowedTargetStateName: string)

  const REVIEW_TARGET_STATE_NAME := "In Review"

  function Abs(r: real): real {
    if r < 0.0 then -r else r
  }

  predicate IsFreshTimestamp(ts: JsValue, now: int, windowMs: int) {
    ts.Def? && ts.v.Num? && Abs(now as real - ts.v.n) <= windowMs as real
  }

  /** A `create`, or an `update` whose `updatedFrom` has a `stateId` of its own. */
  predicate EnteredTargetState(payload: JsValue) {
    if Is(Member(payload, "action"), "create") then true
    else if Is(Member(payload, "action"), "update") then Member(Member(payload, "updatedFrom"), "stateId").Def?
    else false
  }

  function JobTypeForState(stateName: JsValue, c: WebhookConfig): Option<JobType> {
    if Is(stateName, c.allowedTargetStateName) then Some(Execute)
    else if Is(stateName, REVIEW_TARGET_STATE_NAME) then Some(Review)
    else None
  }

  function TextOf(v: JsValue): string {
    if IsString(v) then v.v.s else ""
  }

  function UrlOf(v: JsValue): Option<string> {
    if IsString(v) then Some(v.v.s) else None
  }

  // ---------------------------------------------------------------- v1B

  datatype Classified =
    | Unverified(reason: string)
    | Irrelevant(deliveryId: string, reason: string, identifier: JsValue)
    | Relevant(deliveryId: string, event: NormalizedEvent)

  function ClassifyWebhook(w: Call, c: WebhookConfig, now: int): Classified {
    if !w.signed then Unverified("invalid_signature")
    else if w.body.None? then Unverified("malformed_payload")
    else
      var payload := Def(w.body.value);
      if !IsFreshTimestamp(Member(payload, "webhookTimestamp"), now, c.timestampWindowMs) then Unverified("stale_timestamp")
      else if w.deliveryId.None? || w.deliveryId.value == "" then Unverified("missing_delivery_id")
      else Route(w.deliveryId.value, payload, c)
  }

  function Route(id: string, payload: JsValue, c: WebhookConfig): Classified {
    var data := Member(payload, "data");
    var identifier := Member(data, "identifier");
    var stateName := Member(Member(data, "state"), "name");
    if !Is(Member(payload, "type"), "Issue") || !Truthy(data) || !Truthy(identifier) || !Truthy(Member(data, "id")) then
      Irrelevant(id, "malformed_payload", Undefined)
    else if !Is(Member(Member(data, "team"), "id"), c.allowedTeamId) then Irrelevant(id, "wrong_team", identifier)
    else if !Is(Member(Member(data, "project"), "id"), c.allowedProjectId) then Irrelevant(id, "wrong_project", identifier)
    else match JobTypeForState(stateName, c)
      case None => Irrelevant(id, "wrong_target_state", identifier)
      case Some(jobType) =>
        if !EnteredTargetState(payload) then Irrelevant(id, "not_a_state_transition", identifier)
        else Relevant(id, NormalizedEvent(
          if jobType == Review then "issue_entered_review" else "issue_entered_todo",
          identifier.v, Member(data, "id").v, c.allowedProjectId, c.allowedTeamId, TextOf(stateName), Some(jobType),
          UrlOf(OrElse(Member(data, "url"), Member(payload, "url")))))
  }

  /** The text an identifier is stored as: a number gets a text of the database's making, and what is neither text nor a
      number cannot be bound to a statement. */
  function StoredText(identifier: Json, numeral: Json -> string): Option<string> {
    match identifier
    case Str(s) => Some(s)
    case Num(_) => Some(numeral(identifier))
    case Huge => Some(numeral(identifier))
    case _ => None
  }

  /** The arguments `recordDelivery` gets; `None` when inserting the identifier throws. */
  function RequestOf(r: Classified, now: int, numeral: Json -> string): Option<Request>
    requires !r.Unverified?
  {
    match r
    case Irrelevant(id, reason, identifier) =>
      if identifier == Undefined then Some(Request(id, now, reason, None, None))
      else
        (match StoredText(identifier.v, numeral)
         case Some(text) => Some(Request(id, now, reason, Some(text), None))
         case None => None)
    case Relevant(id, event) =>
      if event.jobType.None? then None
      else match StoredText(event.issueIdentifier, numeral)
        case Some(text) => Some(Request(id, now, "accepted", Some(text), Some(Job(text, event, event.jobType.value))))
        case None => None
  }

  datatype ResponseB =
    | RefusedB(reason: string)
    | FailedB                 // the store threw; nothing was recorded
    | RecordedB(answer: Recorded)

  function ReceiveB(t: Tables, w: Call, c: WebhookConfig, now: int, uuid: string, numeral: Json -> string): (ResponseB, Tables) {
    var r := ClassifyWebhook(w, c, now);
    if r.Unverified? then (RefusedB(r.reason), t)
    else match RequestOf(r, now, numeral)
      case None => (if r.deliveryId in t.deliveries then RecordedB(Duplicate(t.deliveries[r.deliveryId].outcome)) else FailedB, t)
      case Some(req) => (RecordedB(Answer(t, req, uuid)), Record(t, req, uuid))
  }

  // ---------------------------------------------------------------- v1A

  datatype ResponseA = AcceptedA(event: NormalizedEvent) | RefusedA(reason: string)

  /** `evaluateWebhook`: the dedup check sits between the delivery id and the routing checks. The dedup set is its log of
      fresh recordings, which `DedupStore.Store.CheckAndRecord` keeps and consults. */
  function ReceiveA(d: DS.Settings, log: seq<DS.Recording>, w: Call, c: WebhookConfig, now: int): (ResponseA, seq<DS.Recording>) {
    if !w.signed then (RefusedA("invalid_signature"), log)
    else if w.body.None? then (RefusedA("malformed_payload"), log)
    else
      var payload := Def(w.body.value);
      if !IsFreshTimestamp(Member(payload, "webhookTimestamp"), now, c.timestampWindowMs) then (RefusedA("stale_timestamp"), log)
      else if w.deliveryId.None? || w.deliveryId.value == "" then (RefusedA("missing_delivery_id"), log)
      else
        var next := DS.AfterCall(d, log, w.deliveryId.value, now);
        if DS.IsDuplicate(d, log, w.deliveryId.value, now) then (RefusedA("duplicate_delivery"), next)
        else (RouteA(payload, c), next)
  }

  function RouteA(payload: JsValue, c: WebhookConfig): ResponseA {
    var data := Member(payload, "data");
    var identifier := Member(data, "identifier");
    var stateName := Member(Member(data, "state"), "name");
    if !Is(Member(payload, "type"), "Issue") || !Truthy(data) || !Truthy(identifier) || !Truthy(Member(data, "id")) then RefusedA("malformed_payload")
    else if !Is(Member(Member(data, "team"), "id"), c.allowedTeamId) then RefusedA("wrong_team")
    else if !Is(Member(Member(data, "project"), "id"), c.allowedProjectId) then RefusedA("wrong_project")
    else if !Is(stateName, c.allowedTargetStateName) then RefusedA("wrong_target_state")
    else if !EnteredTargetState(payload) then RefusedA("not_a_state_transition")
    else AcceptedA(NormalizedEvent(
      "issue_entered_todo", identifier.v, Member(data, "id").v, c.allowedProjectId, c.allowedTeamId, TextOf(stateName), None,
      UrlOf(OrElse(Member(data, "url"), Member(payload, "url")))))
  }
}
