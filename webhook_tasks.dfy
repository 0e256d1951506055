/**
 * The webhook background tasks (app/tasks/webhook_tasks.py): applying a
 * stored gateway event to the payment or order it names, and the periodic
 * scan for failed payments.
 *
 * Each handler assigns fields of the matched row in the task's session; the
 * session is committed either by the handler or, when the handler raises
 * half-way, by the mark_webhook_processed call of the except clause. So the
 * assignments made before an exception are kept, and the effect functions
 * below keep them too.
 *
 * An entity id that is truthy but not a string is treated as matching no
 * row: under the store's invariant every stored gateway id has the form
 * `<prefix><n>`, which no number or boolean renders to.
 */
module WebhookTasks {
  import opened Wrappers
  import opened Values
  import opened Models
  import opened Database
  import opened Tasks

  /** A new value of a row or a table, with the exception raised while computing it, if any. */
  datatype Applied<T> = Applied(value: T, error: Option<Exc>)

  /** The payment and order tables after an event, and the exception it raised, if any. */
  datatype Effect = Effect(payments: map<int, Payment>, orders: map<int, Order>, error: Option<Exc>)

  const PaymentAuthorized: string := "payment.authorized"
  const PaymentCaptured: string := "payment.captured"
  const PaymentFailed: string := "payment.failed"
  const OrderPaid: string := "order.paid"

  predicate IsPaymentEvent(eventType: string) {
    eventType == PaymentAuthorized || eventType == PaymentCaptured || eventType == PaymentFailed
  }

  /** `payload.get("entity", {})`, which raises on a payload that is not a dict, used as a dict. */
  function EntityOf(payload: Json): (r: Result<map<string, Json>, Exc>)
    ensures !payload.JObj? ==> r == Err(NoGetAttribute(TypeName(payload)))
    ensures payload.JObj? ==>
              (r.Ok? <==> Get(payload.fields, "entity", JObj(map[])).JObj?)
              && (r.Ok? ==> JObj(r.value) == Get(payload.fields, "entity", JObj(map[])))
              && (r.Err? ==> r.error == NoGetAttribute(TypeName(Get(payload.fields, "entity", JObj(map[])))))
  {
    match payload
    case JObj(m) =>
      var entity := Get(m, "entity", JObj(map[]));
      if entity.JObj? then Ok(entity.fields) else Err(NoGetAttribute(TypeName(entity)))
    case _ => Err(NoGetAttribute(TypeName(payload)))
  }

  /**
   * `entity.get("id")` when a row can match it: a falsy id makes the handler
   * return at once, and only a non-empty string can equal a stored gateway id.
   */
  function EntityKey(entity: map<string, Json>): (r: Option<string>)
    ensures !Truthy(Get(entity, "id", JNull)) ==> r.None?
    ensures r.Some? <==> "id" in entity && entity["id"].JStr? && entity["id"].s != ""
    ensures r.Some? ==> entity["id"] == JStr(r.value)
  {
    var id := Get(entity, "id", JNull);
    if Truthy(id) && id.JStr? then Some(id.s) else None
  }

  /** The gateway id an event's payload names, when a row can match it. */
  function EventKey(payload: Json): (r: Option<string>)
    ensures r.Some? ==> EntityOf(payload).Ok? && EntityKey(EntityOf(payload).value) == r
  {
    match EntityOf(payload)
    case Ok(entity) => EntityKey(entity)
    case Err(_) => None
  }

  /**
   * What a payment event writes into the matched payment: the new status, and
   * for a capture the fee and tax in rupees, for a failure the error fields.
   * A fee or tax that is not a number raises after the earlier assignments.
   */
  function UpdatePayment(eventType: string, p: Payment, entity: map<string, Json>): (r: Applied<Payment>)
    requires IsPaymentEvent(eventType)
    ensures r.value.(status := p.status, fee := p.fee, tax := p.tax,
                     errorCode := p.errorCode, errorDescription := p.errorDescription) == p
    ensures eventType == PaymentAuthorized ==> r.value.status == PaymentStatus.AUTHORIZED && r.value.fee == p.fee
    ensures eventType == PaymentCaptured ==>
              && r.value.status == PaymentStatus.CAPTURED
              && (r.error.None? <==> Div100(Get(entity, "fee", JInt(0))).Ok? && Div100(Get(entity, "tax", JInt(0))).Ok?)
              && (Div100(Get(entity, "fee", JInt(0))).Err? ==>
                    r.error == Some(Div100(Get(entity, "fee", JInt(0))).error) && r.value.fee == p.fee && r.value.tax == p.tax)
              && (Div100(Get(entity, "fee", JInt(0))).Ok? ==> r.value.fee == Some(Div100(Get(entity, "fee", JInt(0))).value))
              && (Div100(Get(entity, "fee", JInt(0))).Ok? && Div100(Get(entity, "tax", JInt(0))).Err? ==>
                    r.error == Some(Div100(Get(entity, "tax", JInt(0))).error) && r.value.tax == p.tax)
              && (r.error.None? ==> r.value.tax == Some(Div100(Get(entity, "tax", JInt(0))).value))
    ensures eventType == PaymentFailed ==>
              && r.value.status == PaymentStatus.FAILED
              && r.value.errorCode == Get(entity, "error_code", JNull)
              && r.value.errorDescription == Get(entity, "error_description", JNull)
    ensures eventType != PaymentCaptured ==> r.error.None?
    ensures eventType != PaymentCaptured ==> r.value.fee == p.fee && r.value.tax == p.tax
    ensures eventType != PaymentFailed ==> r.value.errorCode == p.errorCode && r.value.errorDescription == p.errorDescription
  {
    if eventType == PaymentAuthorized then
      Applied(p.(status := PaymentStatus.AUTHORIZED), None)
    else if eventType == PaymentCaptured then
      var captured := p.(status := PaymentStatus.CAPTURED);
      match Div100(Get(entity, "fee", JInt(0)))
      case Err(e) => Applied(captured, Some(e))
      case Ok(fee) =>
        var withFee := captured.(fee := Some(fee));
        match Div100(Get(entity, "tax", JInt(0)))
        case Err(e) => Applied(withFee, Some(e))
        case Ok(tax) => Applied(withFee.(tax := Some(tax)), None)
    else
      Applied(p.(status := PaymentStatus.FAILED,
                 errorCode := Get(entity, "error_code", JNull),
                 errorDescription := Get(entity, "error_description", JNull)), None)
  }

  /** Handling the same payment event twice leaves the payment as handling it once did. */
  lemma UpdatePaymentIdempotent(eventType: string, p: Payment, entity: map<string, Json>)
    requires IsPaymentEvent(eventType)
    ensures UpdatePayment(eventType, UpdatePayment(eventType, p, entity).value, entity) == UpdatePayment(eventType, p, entity)
  {
  }

  /**
   * process_payment_authorized / _captured / _failed on the payment table:
   * the payment whose gateway id the entity names is updated; with no such
   * payment, or no usable id, nothing changes.
   */
  ghost function PaymentEvent(eventType: string, payments: map<int, Payment>, payload: Json): (r: Applied<map<int, Payment>>)
    requires IsPaymentEvent(eventType)
    ensures r.value.Keys == payments.Keys
    ensures forall k :: k in payments ==> r.value[k].razorpayPaymentId == payments[k].razorpayPaymentId
    ensures forall k :: k in payments && r.value[k] != payments[k] ==>
              EventKey(payload).Some? && payments[k].razorpayPaymentId == EventKey(payload)
    ensures EntityOf(payload).Err? ==> r == Applied(payments, Some(EntityOf(payload).error))
    ensures EntityOf(payload).Ok? && eventType != PaymentCaptured ==> r.error.None?
    ensures EntityOf(payload).Ok?
            && (EventKey(payload).None? || forall k :: k in payments ==> payments[k].razorpayPaymentId != EventKey(payload))
            ==> r == Applied(payments, None)
  {
    match EntityOf(payload)
    case Err(e) => Applied(payments, Some(e))
    case Ok(entity) =>
      match EntityKey(entity)
      case None => Applied(payments, None)
      case Some(rid) =>
        match PaymentWith(payments, rid)
        case None => Applied(payments, None)
        case Some(k) =>
          var u := UpdatePayment(eventType, payments[k], entity);
          Applied(payments[k := u.value], u.error)
  }

  /** process_order_paid on the order table: the order the entity names gets status "paid". */
  ghost function OrderEvent(orders: map<int, Order>, payload: Json): (r: Applied<map<int, Order>>)
    ensures r.value.Keys == orders.Keys
    ensures forall k :: k in orders ==> r.value[k] == orders[k] || r.value[k] == orders[k].(status := Some("paid"))
    ensures forall k :: k in orders && r.value[k] != orders[k] ==>
              EventKey(payload).Some? && orders[k].razorpayOrderId == EventKey(payload)
    ensures r.error.Some? <==> EntityOf(payload).Err?
    ensures r.error.Some? ==> r == Applied(orders, Some(EntityOf(payload).error))
    ensures EventKey(payload).None? || (forall k :: k in orders ==> orders[k].razorpayOrderId != EventKey(payload))
            ==> r.value == orders
  {
    match EntityOf(payload)
    case Err(e) => Applied(orders, Some(e))
    case Ok(entity) =>
      match EntityKey(entity)
      case None => Applied(orders, None)
      case Some(rid) =>
        match OrderWith(orders, rid)
        case None => Applied(orders, None)
        case Some(k) => Applied(orders[k := orders[k].(status := Some("paid"))], None)
  }

  /**
   * What a run of process_webhook_event does to the payment and order tables
   * for an unprocessed event: a payload that json.loads rejects raises before
   * dispatch; the four handled types go to their handler; any other type
   * changes nothing.
   */
  ghost function ApplyEvent(eventType: string, payments: map<int, Payment>, orders: map<int, Order>,
                            parsed: Option<Json>): (r: Effect)
    ensures parsed.None? ==> r == Effect(payments, orders, Some(JsonDecodeError))
    ensures parsed.Some? && IsPaymentEvent(eventType) ==>
              var a := PaymentEvent(eventType, payments, parsed.value); r == Effect(a.value, orders, a.error)
    ensures parsed.Some? && eventType == OrderPaid ==>
              var a := OrderEvent(orders, parsed.value); r == Effect(payments, a.value, a.error)
    ensures parsed.Some? && !IsPaymentEvent(eventType) && eventType != OrderPaid ==> r == Effect(payments, orders, None)
    ensures !IsPaymentEvent(eventType) ==> r.payments == payments
    ensures eventType != OrderPaid ==> r.orders == orders
  {
    if parsed.None? then Effect(payments, orders, Some(JsonDecodeError))
    else if IsPaymentEvent(eventType) then
      var a := PaymentEvent(eventType, payments, parsed.value);
      Effect(a.value, orders, a.error)
    else if eventType == OrderPaid then
      var a := OrderEvent(orders, parsed.value);
      Effect(payments, a.value, a.error)
    else Effect(payments, orders, None)
  }

  /** With unique gateway ids, the lookup finds the one payment carrying the id. */
  lemma PaymentWithFinds(payments: map<int, Payment>, rid: string, k: int)
    requires UniqueRazorpayPaymentIds(payments)
    requires k in payments && payments[k].razorpayPaymentId == Some(rid)
    ensures PaymentWith(payments, rid) == Some(k)
  {
  }

  /** With unique gateway ids, the lookup finds the one order carrying the id. */
  lemma OrderWithFinds(orders: map<int, Order>, rid: string, k: int)
    requires UniqueRazorpayOrderIds(orders)
    requires k in orders && orders[k].razorpayOrderId == Some(rid)
    ensures OrderWith(orders, rid) == Some(k)
  {
  }

  /**
   * A payment event updates the payment whose gateway id its entity names:
   * authorized sets AUTHORIZED, captured sets CAPTURED with fee and tax, and
   * failed sets FAILED with the error fields (UpdatePayment); every other
   * payment is kept.
   */
  lemma PaymentEventUpdatesNamedPayment(eventType: string, payments: map<int, Payment>, payload: Json, k: int)
    requires IsPaymentEvent(eventType) && UniqueRazorpayPaymentIds(payments)
    requires k in payments && EventKey(payload).Some? && payments[k].razorpayPaymentId == EventKey(payload)
    ensures var u := UpdatePayment(eventType, payments[k], EntityOf(payload).value);
            PaymentEvent(eventType, payments, payload) == Applied(payments[k := u.value], u.error)
  {
    PaymentWithFinds(payments, EventKey(payload).value, k);
  }

  /** order.paid sets status "paid" on the order whose gateway id its entity names, and keeps every other order. */
  lemma OrderEventMarksNamedOrderPaid(orders: map<int, Order>, payload: Json, k: int)
    requires UniqueRazorpayOrderIds(orders)
    requires k in orders && EventKey(payload).Some? && orders[k].razorpayOrderId == EventKey(payload)
    ensures OrderEvent(orders, payload) == Applied(orders[k := orders[k].(status := Some("paid"))], None)
  {
    OrderWithFinds(orders, EventKey(payload).value, k);
  }

  /** A payment event applied twice leaves the payments as applying it once did, and raises the same. */
  lemma {:induction false} PaymentEventIdempotent(eventType: string, payments: map<int, Payment>, payload: Json)
    requires IsPaymentEvent(eventType) && UniqueRazorpayPaymentIds(payments)
    ensures PaymentEvent(eventType, PaymentEvent(eventType, payments, payload).value, payload)
            == PaymentEvent(eventType, payments, payload)
  {
    var once := PaymentEvent(eventType, payments, payload);
    match EntityOf(payload)
    case Err(_) =>
    case Ok(entity) =>
      match EntityKey(entity)
      case None =>
      case Some(rid) =>
        match PaymentWith(payments, rid)
        case None =>
        case Some(k) =>
          var u := UpdatePayment(eventType, payments[k], entity);
          assert once.value == payments[k := u.value];
          assert UniqueRazorpayPaymentIds(once.value) by {
            forall a, b | a in once.value && b in once.value && once.value[a].razorpayPaymentId.Some?
                          && once.value[a].razorpayPaymentId == once.value[b].razorpayPaymentId
              ensures a == b
            {
              assert payments[a].razorpayPaymentId == once.value[a].razorpayPaymentId;
              assert payments[b].razorpayPaymentId == once.value[b].razorpayPaymentId;
            }
          }
          PaymentWithFinds(once.value, rid, k);
          UpdatePaymentIdempotent(eventType, payments[k], entity);
          assert once.value[k := UpdatePayment(eventType, once.value[k], entity).value] == once.value;
  }

  /** order.paid applied twice leaves the orders as applying it once did. */
  lemma {:induction false} OrderEventIdempotent(orders: map<int, Order>, payload: Json)
    requires UniqueRazorpayOrderIds(orders)
    ensures OrderEvent(OrderEvent(orders, payload).value, payload) == OrderEvent(orders, payload)
  {
    var once := OrderEvent(orders, payload);
    match EntityOf(payload)
    case Err(_) =>
    case Ok(entity) =>
      match EntityKey(entity)
      case None =>
      case Some(rid) =>
        match OrderWith(orders, rid)
        case None =>
        case Some(k) =>
          assert once.value == orders[k := orders[k].(status := Some("paid"))];
          assert UniqueRazorpayOrderIds(once.value) by {
            forall a, b | a in once.value && b in once.value && once.value[a].razorpayOrderId.Some?
                          && once.value[a].razorpayOrderId == once.value[b].razorpayOrderId
              ensures a == b
            {
              assert orders[a].razorpayOrderId == once.value[a].razorpayOrderId;
              assert orders[b].razorpayOrderId == once.value[b].razorpayOrderId;
            }
          }
          OrderWithFinds(once.value, rid, k);
          assert once.value[k := once.value[k].(status := Some("paid"))] == once.value;
  }

  /**
   * Re-delivering an event is harmless: applying it to the tables it produced
   * changes nothing further and raises what the first application raised.
   */
  lemma {:induction false} ApplyEventIdempotent(eventType: string, payments: map<int, Payment>,
                                                orders: map<int, Order>, parsed: Option<Json>)
    requires UniqueRazorpayPaymentIds(payments) && UniqueRazorpayOrderIds(orders)
    ensures ApplyEvent(eventType, ApplyEvent(eventType, payments, orders, parsed).payments,
                       ApplyEvent(eventType, payments, orders, parsed).orders, parsed)
            == ApplyEvent(eventType, payments, orders, parsed)
  {
    if parsed.Some? {
      if IsPaymentEvent(eventType) {
        PaymentEventIdempotent(eventType, payments, parsed.value);
      } else if eventType == OrderPaid {
        OrderEventIdempotent(orders, parsed.value);
      }
    }
  }

  /** An event keeps every row's gateway id, so the store's invariants survive it. */
  lemma ApplyEventKeepsInvariant(eventType: string, payments: map<int, Payment>, orders: map<int, Order>,
                                 parsed: Option<Json>, nextPayment: int, nextOrder: int)
    requires PaymentsOk(payments, nextPayment) && OrdersOk(orders, nextOrder)
    ensures PaymentsOk(ApplyEvent(eventType, payments, orders, parsed).payments, nextPayment)
    ensures OrdersOk(ApplyEvent(eventType, payments, orders, parsed).orders, nextOrder)
  {
    var r := ApplyEvent(eventType, payments, orders, parsed);
    assert forall k :: k in r.payments ==> DerivedPaymentId(k, payments[k]);
    assert forall k :: k in r.payments ==> r.payments[k].razorpayPaymentId == payments[k].razorpayPaymentId;
  }

  /**
   * process_payment_authorized / _captured / _failed: returns the exception
   * the handler raised, if any, with the assignments made before it kept.
   */
  method ProcessPaymentEvent(db: Store, eventType: string, payload: Json) returns (error: Option<Exc>)
    requires db.Valid() && IsPaymentEvent(eventType)
    modifies db
    ensures db.Valid()
    ensures error == PaymentEvent(eventType, old(db.payments), payload).error
    ensures db.State() == old(db.State()).(payments := PaymentEvent(eventType, old(db.payments), payload).value)
  {
    var entity := EntityOf(payload);
    if entity.Err? {
      return Some(entity.error);
    }
    var rid := EntityKey(entity.value);
    if rid.None? {
      return None;
    }
    var k := db.FindPayment(rid.value);
    if k.None? {
      return None;
    }
    var u := UpdatePayment(eventType, db.payments[k.value], entity.value);
    assert DerivedPaymentId(k.value, db.payments[k.value]);
    PaymentReplaceKeepsInvariant(db.payments, db.nextPaymentId, k.value, u.value);
    db.payments := db.payments[k.value := u.value];
    error := u.error;
  }

  /** process_order_paid: returns the exception it raised, if any. */
  method ProcessOrderPaid(db: Store, payload: Json) returns (error: Option<Exc>)
    requires db.Valid()
    modifies db
    ensures db.Valid()
    ensures error == OrderEvent(old(db.orders), payload).error
    ensures db.State() == old(db.State()).(orders := OrderEvent(old(db.orders), payload).value)
  {
    var entity := EntityOf(payload);
    if entity.Err? {
      return Some(entity.error);
    }
    var rid := EntityKey(entity.value);
    if rid.None? {
      return None;
    }
    var k := db.FindOrder(rid.value);
    if k.None? {
      return None;
    }
    var o := db.orders[k.value].(status := Some("paid"));
    OrderReplaceKeepsInvariant(db.orders, db.nextOrderId, k.value, o);
    db.orders := db.orders[k.value := o];
    error := None;
  }

  /** The row of an event after a run: processed, with str(e) of the exception raised, if any. */
  function Marked(w: WebhookEvent, error: Option<Exc>): (r: WebhookEvent)
    ensures r.processed && r.eventId == w.eventId && r.eventType == w.eventType && r.payload == w.payload
    ensures r.processingError.Some? <==> error.Some?
    ensures error.Some? ==> r.processingError == Some(Message(error.value))
  {
    w.(processed := true, processingError := if error.Some? then Some(Message(error.value)) else None)
  }

  /**
   * process_webhook_event. `parse` stands for json.loads (None: the text is
   * not JSON). A missing row is retried; a processed row is left alone; an
   * unprocessed one has its event applied and is then marked processed,
   * carrying the exception's text when the event raised, in which case the
   * task is retried as well.
   */
  method ProcessWebhookEvent(db: Store, queue: TaskQueue, parse: string -> Option<Json>, webhookId: int,
                             retries: nat, maxRetries: nat)
    returns (outcome: TaskOutcome)
    requires db.Valid()
    modifies db, queue
    ensures db.Valid()
    ensures webhookId !in old(db.webhooks) ==>
              && outcome == RetryOutcome(retries, maxRetries, ValueError("Webhook event not found"))
              && db.State() == old(db.State())
              && queue.entries == old(queue.entries) +
                   (if retries < maxRetries then [Queued(WebhookTask(webhookId), retries + 1)] else [])
    ensures webhookId in old(db.webhooks) && old(db.webhooks)[webhookId].processed ==>
              && outcome == Completed(map["status" := JStr("already_processed")])
              && db.State() == old(db.State())
              && queue.entries == old(queue.entries)
    ensures webhookId in old(db.webhooks) && !old(db.webhooks)[webhookId].processed ==>
              var w := old(db.webhooks)[webhookId];
              var e := ApplyEvent(w.eventType, old(db.payments), old(db.orders), parse(w.payload));
              && db.State() == old(db.State()).(payments := e.payments, orders := e.orders,
                                                webhooks := old(db.webhooks)[webhookId := Marked(w, e.error)])
              && (e.error.None? ==>
                    outcome == Completed(map["status" := JStr("processed"), "event_type" := JStr(w.eventType)])
                    && queue.entries == old(queue.entries))
              && (e.error.Some? ==>
                    outcome == RetryOutcome(retries, maxRetries, e.error.value)
                    && queue.entries == old(queue.entries) +
                         (if retries < maxRetries then [Queued(WebhookTask(webhookId), retries + 1)] else []))
  {
    if webhookId !in db.webhooks {
      var found := db.MarkWebhookProcessed(webhookId, Some("Webhook event not found"));
      outcome := queue.Retry(WebhookTask(webhookId), retries, maxRetries, ValueError("Webhook event not found"));
      return;
    }
    var w := db.webhooks[webhookId];
    if w.processed {
      return Completed(map["status" := JStr("already_processed")]);
    }
    var parsed := parse(w.payload);
    var error: Option<Exc>;
    if parsed.None? {
      error := Some(JsonDecodeError);
    } else if IsPaymentEvent(w.eventType) {
      error := ProcessPaymentEvent(db, w.eventType, parsed.value);
    } else if w.eventType == OrderPaid {
      error := ProcessOrderPaid(db, parsed.value);
    } else {
      error := None;
    }
    var found := db.MarkWebhookProcessed(webhookId, if error.Some? then Some(Message(error.value)) else None);
    if error.None? {
      outcome := Completed(map["status" := JStr("processed"), "event_type" := JStr(w.eventType)]);
    } else {
      outcome := queue.Retry(WebhookTask(webhookId), retries, maxRetries, error.value);
    }
  }

  /**
   * A run that raised has still marked its event processed, so the retry it
   * scheduled finds the event processed and returns without applying it.
   */
  method RetriedRunIsSkipped(db: Store, queue: TaskQueue, parse: string -> Option<Json>, webhookId: int,
                             retries: nat, maxRetries: nat)
    returns (first: TaskOutcome, second: TaskOutcome)
    requires db.Valid() && webhookId in db.webhooks
    modifies db, queue
    ensures db.Valid()
    ensures first.RetryScheduled? ==> queue.entries == old(queue.entries) + [Queued(WebhookTask(webhookId), retries + 1)]
    ensures webhookId in db.webhooks && db.webhooks[webhookId].processed
    ensures second == Completed(map["status" := JStr("already_processed")])
  {
    ghost var w := db.webhooks[webhookId];
    ghost var e := ApplyEvent(w.eventType, db.payments, db.orders, parse(w.payload));
    first := ProcessWebhookEvent(db, queue, parse, webhookId, retries, maxRetries);
    assert first.RetryScheduled? ==> !w.processed && e.error.Some? && retries < maxRetries;
    second := ProcessWebhookEvent(db, queue, parse, webhookId, retries + 1, maxRetries);
  }

  /** The number of failed payments one scan looks at (`.limit(100)`). */
  const RetryScanLimit: nat := 100

  /** `Payment.status == PaymentStatus.FAILED` */
  predicate IsFailed(p: Payment) {
    p.status == PaymentStatus.FAILED
  }

  /**
   * process_failed_payments_retry: the first 100 failed payments in id
   * order, and their count. Nothing is written.
   */
  method ProcessFailedPaymentsRetry(db: Store) returns (ids: seq<int>, outcome: TaskOutcome)
    requires db.Valid()
    ensures ids == Take(RowsWhere(db.payments, IsFailed, 1, db.nextPaymentId), RetryScanLimit)
    ensures outcome == Completed(map["status" := JStr("completed"), "retry_count" := JInt(|ids|)])
  {
    ids := [];
    var i := 1;
    while i < db.nextPaymentId && |ids| < RetryScanLimit
      invariant 1 <= i <= db.nextPaymentId
      invariant ids == RowsWhere(db.payments, IsFailed, 1, i)
      invariant |ids| <= RetryScanLimit
      decreases db.nextPaymentId - i
    {
      if i in db.payments && IsFailed(db.payments[i]) {
        ids := ids + [i];
      }
      i := i + 1;
    }
    RowsWherePrefix(db.payments, IsFailed, 1, i, db.nextPaymentId);
    outcome := Completed(map["status" := JStr("completed"), "retry_count" := JInt(|ids|)]);
  }

  /** A scan lists failed payments only, each once, and all of them when there are at most 100. */
  lemma ScanListsFailedPayments(payments: map<int, Payment>, next: int)
    requires KeysBelow(payments, next)
    ensures var ids := Take(RowsWhere(payments, IsFailed, 1, next), RetryScanLimit);
            && (forall x :: x in ids ==> x in payments && payments[x].status == PaymentStatus.FAILED)
            && (forall i, j :: 0 <= i < j < |ids| ==> ids[i] < ids[j])
            && (|RowsWhere(payments, IsFailed, 1, next)| <= RetryScanLimit ==>
                  forall x :: x in payments && payments[x].status == PaymentStatus.FAILED ==> x in ids)
  {
    var all := RowsWhere(payments, IsFailed, 1, next);
    var ids := Take(all, RetryScanLimit);
    RowsWhereIncreasing(payments, IsFailed, 1, next);
    forall x | x in ids ensures x in payments && payments[x].status == PaymentStatus.FAILED {
      RowsWhereMembership(payments, IsFailed, 1, next, x);
    }
    forall x | x in payments && payments[x].status == PaymentStatus.FAILED && |all| <= RetryScanLimit
      ensures x in ids
    {
      RowsWhereMembership(payments, IsFailed, 1, next, x);
    }
  }
}
