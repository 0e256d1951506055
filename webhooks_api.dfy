/**
 * The webhook endpoints (app/api/v1/endpoints/webhooks.py): intake of a
 * gateway delivery, lookup of one stored event, and the filtered listing.
 *
 * The request body is the decoded text; `mac` stands for HMAC-SHA256 as a
 * hex digest and `parse` for json.loads (None: not JSON). The clock reading
 * that stamps the envelope is `now`; created_at and processed_at are not
 * part of the rows of this model.
 */
module WebhooksApi {
  import opened Wrappers
  import opened Values
  import opened Models
  import opened Schemas
  import opened Helpers
  import opened Database
  import opened Tasks

  /** How the intake chain ends before the store is touched: an event to insert, or an error answer. */
  datatype Intake = Accepted(event: WebhookEventCreate) | Refused(status: int, message: string)

  const FailedMessage: string := "Failed to process webhook"

  /** `all(field in payload for field in ["event", "account_id", "entity"])`, stopping at the first miss. */
  function HasRequiredFields(payload: Json): (r: Result<bool, Exc>)
    ensures r.Err? <==> !(payload.JObj? || payload.JArr? || payload.JStr?)
    ensures payload.JObj? ==>
              r == Ok("event" in payload.fields && "account_id" in payload.fields && "entity" in payload.fields)
  {
    match PyIn("event", payload)
    case Err(e) => Err(e)
    case Ok(false) => Ok(false)
    case Ok(true) =>
      match PyIn("account_id", payload)
      case Err(e) => Err(e)
      case Ok(false) => Ok(false)
      case Ok(true) => PyIn("entity", payload)
  }

  /**
   * `payload.get("entity", {}).get("id", f"unknown_{payload.get('created_at', '')}")`:
   * the entity's id when it has one, otherwise "unknown_" and the created_at
   * text; raises when the payload or the entity is not a dict.
   */
  function DeriveEventId(payload: Json): (r: Result<Json, Exc>)
    ensures r.Ok? <==> payload.JObj? && Get(payload.fields, "entity", JObj(map[])).JObj?
    ensures r.Ok? && "id" in Get(payload.fields, "entity", JObj(map[])).fields ==>
              r.value == Get(payload.fields, "entity", JObj(map[])).fields["id"]
    ensures r.Ok? && "id" !in Get(payload.fields, "entity", JObj(map[])).fields ==>
              r.value == JStr("unknown_" + PyStr(Get(payload.fields, "created_at", JStr(""))))
  {
    match payload
    case JObj(m) =>
      var entity := Get(m, "entity", JObj(map[]));
      if !entity.JObj? then Err(NoGetAttribute(TypeName(entity)))
      else Ok(Get(entity.fields, "id", JStr("unknown_" + PyStr(Get(m, "created_at", JStr(""))))))
    case _ => Err(NoGetAttribute(TypeName(payload)))
  }

  /**
   * The checks of handle_razorpay_webhook up to the insert, in order:
   * signature (401), JSON (400), required fields (400), event id and type
   * (500 when an expression raises or pydantic refuses a non-string).
   */
  function CheckDelivery(body: string, signatureHeader: Option<string>, secret: string,
                         mac: (string, string) -> string, parse: string -> Option<Json>): (r: Intake)
    ensures !ValidateWebhookSignature(body, signatureHeader.GetOr(""), secret, mac) ==>
              r == Refused(401, "Invalid webhook signature")
    ensures ValidateWebhookSignature(body, signatureHeader.GetOr(""), secret, mac) && parse(body).None? ==>
              r == Refused(400, "Invalid JSON payload")
    ensures ValidateWebhookSignature(body, signatureHeader.GetOr(""), secret, mac) && parse(body).Some?
            && HasRequiredFields(parse(body).value) == Ok(false) ==>
              r == Refused(400, "Missing required webhook fields")
    ensures r.Accepted? <==>
              && ValidateWebhookSignature(body, signatureHeader.GetOr(""), secret, mac)
              && parse(body).Some? && parse(body).value.JObj?
              && HasRequiredFields(parse(body).value) == Ok(true)
              && DeriveEventId(parse(body).value).Ok? && DeriveEventId(parse(body).value).value.JStr?
              && parse(body).value.fields["event"].JStr?
    ensures r.Accepted? ==>
              r.event == WebhookEventCreate(DeriveEventId(parse(body).value).value.s,
                                            parse(body).value.fields["event"].s, body)
    ensures r.Refused? && r.status == 500 ==> r.message == FailedMessage
  {
    if !ValidateWebhookSignature(body, signatureHeader.GetOr(""), secret, mac) then
      Refused(401, "Invalid webhook signature")
    else if parse(body).None? then
      Refused(400, "Invalid JSON payload")
    else
      var payload := parse(body).value;
      match HasRequiredFields(payload)
      case Err(_) => Refused(500, FailedMessage)
      case Ok(false) => Refused(400, "Missing required webhook fields")
      case Ok(true) =>
        match DeriveEventId(payload)
        case Err(_) => Refused(500, FailedMessage)
        case Ok(eventId) =>
          var eventType := payload.fields["event"];
          if !eventId.JStr? || !eventType.JStr? then Refused(500, FailedMessage)
          else Accepted(WebhookEventCreate(eventId.s, eventType.s, body))
  }

  /** A delivery with a valid signature of a JSON object naming a string event and id is accepted as sent. */
  lemma WellFormedDeliveryAccepted(body: string, signatureHeader: Option<string>, secret: string,
                                   mac: (string, string) -> string, parse: string -> Option<Json>,
                                   event: string, accountId: Json, entity: map<string, Json>, id: string)
    requires ValidateWebhookSignature(body, signatureHeader.GetOr(""), secret, mac)
    requires parse(body).Some? && parse(body).value.JObj?
    requires Get(parse(body).value.fields, "event", JNull) == JStr(event) && "account_id" in parse(body).value.fields
    requires Get(parse(body).value.fields, "entity", JNull) == JObj(entity) && Get(entity, "id", JNull) == JStr(id)
    ensures CheckDelivery(body, signatureHeader, secret, mac, parse) == Accepted(WebhookEventCreate(id, event, body))
  {
  }

  /**
   * handle_razorpay_webhook: a refused delivery writes and queues nothing;
   * an accepted one is inserted and then queued, unless its event id is
   * already stored, in which case the insert fails (500) and nothing is
   * queued.
   */
  method HandleRazorpayWebhook(db: Store, queue: TaskQueue, body: string, signatureHeader: Option<string>,
                               secret: string, mac: (string, string) -> string, parse: string -> Option<Json>,
                               now: real)
    returns (resp: Response)
    requires db.Valid()
    modifies db, queue
    ensures db.Valid()
    ensures CheckDelivery(body, signatureHeader, secret, mac, parse).Refused? ==>
              && resp == ErrorResponse(CheckDelivery(body, signatureHeader, secret, mac, parse).status,
                                       CheckDelivery(body, signatureHeader, secret, mac, parse).message, now)
              && db.State() == old(db.State()) && queue.entries == old(queue.entries)
    ensures CheckDelivery(body, signatureHeader, secret, mac, parse).Accepted? ==>
              var event := CheckDelivery(body, signatureHeader, secret, mac, parse).event;
              && (EventIdTaken(old(db.webhooks), event.eventId) ==>
                    resp == ErrorResponse(500, FailedMessage, now)
                    && db.State() == old(db.State()) && queue.entries == old(queue.entries))
              && (!EventIdTaken(old(db.webhooks), event.eventId) ==>
                    && db.State() == old(db.State()).(
                         webhooks := old(db.webhooks)[old(db.nextWebhookId) := NewWebhookEvent(event.eventId, event.eventType, body)],
                         nextWebhookId := old(db.nextWebhookId) + 1)
                    && queue.entries == old(queue.entries) + [Queued(WebhookTask(old(db.nextWebhookId)), 0)]
                    && resp == SuccessResponse(200, "Webhook received and queued for processing", map[
                         "event_id" := JStr(event.eventId),
                         "event_type" := JStr(event.eventType),
                         "task_id" := JInt(|old(queue.entries)|),
                         "webhook_id" := JInt(old(db.nextWebhookId))], now))
  {
    var intake := CheckDelivery(body, signatureHeader, secret, mac, parse);
    if intake.Refused? {
      return ErrorResponse(intake.status, intake.message, now);
    }
    var created := db.CreateWebhookEvent(intake.event);
    if created.Err? {
      return ErrorResponse(500, FailedMessage, now);
    }
    var taskId := queue.Enqueue(WebhookTask(created.value));
    resp := SuccessResponse(200, "Webhook received and queued for processing", map[
      "event_id" := JStr(intake.event.eventId), "event_type" := JStr(intake.event.eventType),
      "task_id" := JInt(taskId), "webhook_id" := JInt(created.value)], now);
  }

  /** A redelivered event is stored once and queued once: the second delivery answers 500. */
  method DeliverTwice(db: Store, queue: TaskQueue, body: string, signatureHeader: Option<string>,
                      secret: string, mac: (string, string) -> string, parse: string -> Option<Json>, now: real)
    returns (first: Response, second: Response)
    requires db.Valid()
    requires CheckDelivery(body, signatureHeader, secret, mac, parse).Accepted?
    modifies db, queue
    ensures second == ErrorResponse(500, FailedMessage, now)
    ensures |queue.entries| <= |old(queue.entries)| + 1
    ensures |db.webhooks| <= |old(db.webhooks)| + 1
  {
    ghost var event := CheckDelivery(body, signatureHeader, secret, mac, parse).event;
    ghost var n := db.nextWebhookId;
    first := HandleRazorpayWebhook(db, queue, body, signatureHeader, secret, mac, parse, now);
    assert EventIdTaken(db.webhooks, event.eventId) by {
      if EventIdTaken(old(db.webhooks), event.eventId) {
        var k :| k in old(db.webhooks) && old(db.webhooks)[k].eventId == event.eventId;
        assert k in db.webhooks && db.webhooks[k].eventId == event.eventId;
      } else {
        assert n in db.webhooks && db.webhooks[n].eventId == event.eventId;
      }
    }
    second := HandleRazorpayWebhook(db, queue, body, signatureHeader, secret, mac, parse, now);
  }

  /** The stored fields get_webhook_event returns (the two timestamps are not modelled). */
  function EventData(w: WebhookEvent): (data: map<string, Json>)
    ensures data.Keys == {"event_id", "event_type", "processed", "processing_error"}
    ensures data["event_id"] == JStr(w.eventId) && data["event_type"] == JStr(w.eventType)
    ensures data["processed"] == JBool(w.processed) && data["processing_error"] == OptText(w.processingError)
  {
    map["event_id" := JStr(w.eventId), "event_type" := JStr(w.eventType),
        "processed" := JBool(w.processed), "processing_error" := OptText(w.processingError)]
  }

  /** get_webhook_event: 404 for an unknown event id, otherwise the row's fields. */
  method GetWebhookEvent(db: Store, eventId: string, now: real) returns (resp: Response)
    requires db.Valid()
    ensures WebhookWith(db.webhooks, eventId).None? <==> resp == ErrorResponse(404, "Webhook event not found", now)
    ensures WebhookWith(db.webhooks, eventId).Some? ==>
              resp == SuccessResponse(200, "Webhook event retrieved successfully",
                                      EventData(db.webhooks[WebhookWith(db.webhooks, eventId).value]), now)
  {
    var found := db.FindWebhook(eventId);
    if found.None? {
      return ErrorResponse(404, "Webhook event not found", now);
    }
    resp := SuccessResponse(200, "Webhook event retrieved successfully", EventData(db.webhooks[found.value]), now);
  }

  /** The two filters of list_webhook_events: event_type when non-empty, processed when given. */
  predicate Matches(w: WebhookEvent, eventType: Option<string>, processed: Option<bool>) {
    && (eventType.None? || eventType.value == "" || w.eventType == eventType.value)
    && (processed.None? || w.processed == processed.value)
  }

  /** Where OFFSET `skip` starts in a result of n rows. */
  function Offset(n: nat, skip: int): (start: nat)
    ensures start <= n
    ensures skip <= 0 ==> start == 0
    ensures 0 <= skip <= n ==> start == skip
  {
    if skip <= 0 then 0 else if skip >= n then n else skip
  }

  /**
   * SQLite's OFFSET and LIMIT: the rows after the offset (a negative offset
   * skips nothing), as many as the limit allows (a negative limit bounds
   * nothing).
   */
  function Window(s: seq<int>, skip: int, limit: int): (w: seq<int>)
    ensures w <= s[Offset(|s|, skip)..]
    ensures limit < 0 ==> w == s[Offset(|s|, skip)..]
    ensures limit >= 0 ==> |w| == if limit < |s| - Offset(|s|, skip) then limit else |s| - Offset(|s|, skip)
    ensures skip <= 0 && (limit < 0 || |s| <= limit) ==> w == s
    ensures forall x :: x in w ==> x in s
  {
    var rest := s[Offset(|s|, skip)..];
    if limit < 0 then rest else Take(rest, limit)
  }

  /** The rows list_webhook_events returns, by key. */
  function ListedIds(webhooks: map<int, WebhookEvent>, next: int, skip: int, limit: int,
                     eventType: Option<string>, processed: Option<bool>): seq<int>
  {
    Window(RowsWhere(webhooks, (w: WebhookEvent) => Matches(w, eventType, processed), 1, next), skip, limit)
  }

  /** One listed row: the row's key and its stored fields (the two timestamps are not modelled). */
  function ListedRow(id: int, w: WebhookEvent): (row: Json)
    ensures row.JObj? && row.fields.Keys == {"id", "event_id", "event_type", "processed", "processing_error"}
    ensures row.fields["id"] == JInt(id) && row.fields["event_id"] == JStr(w.eventId)
    ensures row.fields["event_type"] == JStr(w.eventType) && row.fields["processed"] == JBool(w.processed)
    ensures row.fields["processing_error"] == OptText(w.processingError)
  {
    JObj(EventData(w)["id" := JInt(id)])
  }

  /**
   * list_webhook_events: the matching rows in key order after the offset and
   * limit, their count, and the parameters echoed back.
   */
  function ListWebhookEvents(webhooks: map<int, WebhookEvent>, next: int, skip: int, limit: int,
                             eventType: Option<string>, processed: Option<bool>, now: real): (resp: Response)
    ensures var ids := ListedIds(webhooks, next, skip, limit, eventType, processed);
            && resp.status == 200
            && "data" in resp.body
            && resp.body["data"] == JObj(map[
                 "webhooks" := JArr(seq(|ids|, i requires 0 <= i < |ids| =>
                                   if ids[i] in webhooks then ListedRow(ids[i], webhooks[ids[i]]) else JNull)),
                 "count" := JInt(|ids|),
                 "skip" := JInt(skip),
                 "limit" := JInt(limit),
                 "filters" := JObj(map["event_type" := OptText(eventType),
                                       "processed" := if processed.Some? then JBool(processed.value) else JNull])])
  {
    var ids := ListedIds(webhooks, next, skip, limit, eventType, processed);
    var rows := seq(|ids|, i requires 0 <= i < |ids| =>
                  if ids[i] in webhooks then ListedRow(ids[i], webhooks[ids[i]]) else JNull);
    SuccessResponse(200, "Webhook events retrieved successfully", map[
      "webhooks" := JArr(rows),
      "count" := JInt(|ids|),
      "skip" := JInt(skip),
      "limit" := JInt(limit),
      "filters" := JObj(map["event_type" := OptText(eventType),
                            "processed" := if processed.Some? then JBool(processed.value) else JNull])], now)
  }

  /**
   * The listing returns stored rows only, each matching both filters, in
   * increasing key order, at most `limit` of them when the limit is not
   * negative; with no offset and a limit that is negative or at least the
   * number of matching rows (the default limit of 100 included), every
   * matching row.
   */
  lemma {:induction false} ListingRespectsFilters(webhooks: map<int, WebhookEvent>, next: int, skip: int, limit: int,
                                                  eventType: Option<string>, processed: Option<bool>)
    requires KeysBelow(webhooks, next)
    ensures var ids := ListedIds(webhooks, next, skip, limit, eventType, processed);
            && (forall x :: x in ids ==> x in webhooks && Matches(webhooks[x], eventType, processed))
            && (forall i, j :: 0 <= i < j < |ids| ==> ids[i] < ids[j])
            && (limit >= 0 ==> |ids| <= limit)
            && (skip <= 0
                && (limit < 0 || |RowsWhere(webhooks, (w: WebhookEvent) => Matches(w, eventType, processed), 1, next)| <= limit) ==>
                  forall x :: x in webhooks && Matches(webhooks[x], eventType, processed) ==> x in ids)
  {
    var keep := (w: WebhookEvent) => Matches(w, eventType, processed);
    var all := RowsWhere(webhooks, keep, 1, next);
    var ids := ListedIds(webhooks, next, skip, limit, eventType, processed);
    assert ids == Window(all, skip, limit);
    RowsWhereIncreasing(webhooks, keep, 1, next);
    forall x | x in ids ensures x in webhooks && Matches(webhooks[x], eventType, processed) {
      RowsWhereMembership(webhooks, keep, 1, next, x);
    }
    var start := Offset(|all|, skip);
    forall i, j | 0 <= i < j < |ids| ensures ids[i] < ids[j] {
      assert ids[i] == all[start + i] && ids[j] == all[start + j];
    }
    forall x | skip <= 0 && (limit < 0 || |all| <= limit) && x in webhooks && Matches(webhooks[x], eventType, processed)
      ensures x in ids
    {
      RowsWhereMembership(webhooks, keep, 1, next, x);
    }
  }
}
