/**
 * The eMandate background tasks (app/tasks/emandate_tasks.py): authorization,
 * the recurring payment and the status validation. Each task reads the
 * mandate, assigns fields in place and commits; every exception of the first
 * two ends in `self.retry`, the third re-raises.
 *
 * The source hands `create_order` and `create_payment` plain dicts where the
 * services read attributes; the model passes the records those dicts
 * describe, built and validated as pydantic builds them.
 */
module EMandateTasks {
  import opened Wrappers
  import opened Values
  import opened Text
  import opened Models
  import Schemas
  import Gateway
  import opened Database
  import opened Tasks

  /** `if mandate.razorpay_mandate_id:` — set and not empty. */
  predicate HasGatewayId(m: Mandate) {
    m.razorpayMandateId.Some? && m.razorpayMandateId.value != ""
  }

  /** The mandate authorization leaves: AUTHORIZED and `mandate_mock_<id>`, whatever its status was. */
  function Authorized(m: Mandate, id: nat): (r: Mandate)
    ensures r.status == Some(MandateStatus.AUTHORIZED) && r.razorpayMandateId == Some(MockId(MandatePrefix, id))
    ensures HasGatewayId(r)
    ensures r.(status := m.status, razorpayMandateId := m.razorpayMandateId) == m
  {
    m.(status := Some(MandateStatus.AUTHORIZED), razorpayMandateId := Some(MockId(MandatePrefix, id)))
  }

  /** The mandate validation leaves: CONFIRMED once a gateway id is set, otherwise untouched. */
  function Validated(m: Mandate): (r: Mandate)
    ensures HasGatewayId(m) ==> r.status == Some(MandateStatus.CONFIRMED)
    ensures !HasGatewayId(m) ==> r == m
    ensures r.(status := m.status) == m
  {
    if HasGatewayId(m) then m.(status := Some(MandateStatus.CONFIRMED)) else m
  }

  /** Validating twice leaves what validating once left. */
  lemma ValidatedIdempotent(m: Mandate)
    ensures Validated(Validated(m)) == Validated(m)
  {
  }

  /** An authorized mandate is confirmed by the next validation, from any earlier status. */
  lemma AuthorizeThenValidateConfirms(m: Mandate, id: nat)
    ensures Validated(Authorized(m, id)).status == Some(MandateStatus.CONFIRMED)
    ensures RecurringGuard(map[id := Validated(Authorized(m, id))], id).None?
  {
  }

  /** The exception the recurring task raises before touching anything, if any. */
  function RecurringGuard(mandates: map<int, Mandate>, id: int): (r: Option<Exc>)
    ensures r.None? <==> id in mandates && mandates[id].status == Some(MandateStatus.CONFIRMED)
    ensures id !in mandates ==> r == Some(ValueError("Mandate not found"))
    ensures id in mandates && mandates[id].status != Some(MandateStatus.CONFIRMED) ==>
              r == Some(ValueError("Mandate is not confirmed"))
  {
    if id !in mandates then Some(ValueError("Mandate not found"))
    else if mandates[id].status != Some(MandateStatus.CONFIRMED) then Some(ValueError("Mandate is not confirmed"))
    else None
  }

  /** `payment_data.get("notes")` as stored in a Text column. */
  function NotesValue(notes: Option<map<string, Json>>): (j: Json)
    ensures notes.None? <==> j == JNull
  {
    match notes
    case None => JNull
    case Some(m) => JObj(m)
  }

  /**
   * process_emandate_authorization: a missing mandate is retried with
   * "Mandate not found" and changes nothing; otherwise one order is created
   * through the gateway and the mandate becomes AUTHORIZED with its gateway id.
   */
  method ProcessEMandateAuthorization(db: Store, queue: TaskQueue, customerId: int, mandateId: int,
                                      orderData: Schemas.OrderCreate, retries: nat, maxRetries: nat)
    returns (outcome: TaskOutcome)
    requires db.Valid() && db.Linked()
    modifies db, db.gateway, queue
    ensures db.Valid() && db.Linked()
    ensures mandateId !in old(db.mandates) ==>
              && outcome == RetryOutcome(retries, maxRetries, ValueError("Mandate not found"))
              && db.State() == old(db.State())
              && queue.entries == old(queue.entries) +
                   (if retries < maxRetries then [Queued(AuthorizeTask(customerId, mandateId, orderData), retries + 1)] else [])
    ensures mandateId in old(db.mandates) ==>
              && mandateId >= 0
              && outcome == Completed(map[
                   "status" := JStr("success"),
                   "mandate_id" := JInt(mandateId),
                   "order_id" := JInt(old(db.nextOrderId)),
                   "razorpay_order_id" := JStr(MockId(Gateway.OrderPrefix, |old(db.gateway.orders)| + 1))])
              && db.State() == old(db.State()).(
                   orders := old(db.orders)[old(db.nextOrderId) := NewOrder(
                     Some(MockId(Gateway.OrderPrefix, |old(db.gateway.orders)| + 1)), orderData.customerId,
                     orderData.amount, orderData.currency, orderData.receipt, Some("created"), orderData.notes)],
                   nextOrderId := old(db.nextOrderId) + 1,
                   mandates := old(db.mandates)[mandateId := Authorized(old(db.mandates)[mandateId], mandateId)])
              && queue.entries == old(queue.entries)
  {
    if mandateId !in db.mandates {
      outcome := queue.Retry(AuthorizeTask(customerId, mandateId, orderData), retries, maxRetries,
                             ValueError("Mandate not found"));
      return;
    }
    var rid := MockId(Gateway.OrderPrefix, |db.gateway.orders| + 1);
    var r := db.CreateOrder(orderData);
    var orderId := r.value;
    var m := Authorized(db.mandates[mandateId], mandateId);
    MandateReplaceKeepsInvariant(db.mandates, db.nextMandateId, db.customers, mandateId, m);
    db.mandates := db.mandates[mandateId := m];
    outcome := Completed(map["status" := JStr("success"), "mandate_id" := JInt(mandateId),
                             "order_id" := JInt(orderId), "razorpay_order_id" := JStr(rid)]);
  }

  /** The payment row the recurring task leaves: captured, with its own and the order's gateway ids. */
  function CapturedRecurringPayment(customerId: int, mandateId: int, paymentId: nat, orderRid: string,
                                    data: RecurringPaymentData): (p: Payment)
    ensures p.status == PaymentStatus.CAPTURED && p.transactionType == RECURRING_PAYMENT
    ensures p.amount == data.amount && p.mandateId == Some(mandateId) && p.customerId == customerId
    ensures p.razorpayPaymentId == Some(MockId(PaymentPrefix, paymentId)) && p.razorpayOrderId == Some(orderRid)
    ensures p.currency == data.currency.GetOr("INR")
  {
    NewPayment(customerId, Some(mandateId), data.amount, data.currency.GetOr("INR"), Some(RECURRING_PAYMENT),
               data.description, data.receipt, NotesValue(data.notes))
      .(razorpayPaymentId := Some(MockId(PaymentPrefix, paymentId)),
        razorpayOrderId := Some(orderRid),
        status := PaymentStatus.CAPTURED)
  }

  /**
   * The OrderCreate record the recurring task's order dict describes. The
   * request's notes are a dict, which OrderCreate's `Optional[str]` refuses,
   * and so is a non-positive amount.
   */
  function RecurringOrder(customerId: int, data: RecurringPaymentData): (r: Result<Schemas.OrderCreate, Exc>)
    ensures r.Ok? <==> data.amount > 0.0 && data.notes.None?
    ensures r.Ok? ==> r.value == Schemas.OrderCreate(data.amount, data.currency.GetOr("INR"), data.receipt, JNull,
                                                     Some(customerId))
  {
    Schemas.MakeOrderCreate(data.amount, Some(data.currency.GetOr("INR")), data.receipt, NotesValue(data.notes),
                            Some(customerId))
  }

  /**
   * The PaymentCreate record the recurring task's payment dict describes, with
   * "recurring_payment" read as the schema's member; pydantic accepts it
   * exactly when it accepts the order record.
   */
  function RecurringPaymentRecord(customerId: int, mandateId: int, data: RecurringPaymentData)
    : (r: Result<Schemas.PaymentCreate, Exc>)
    ensures r.Ok? <==> RecurringOrder(customerId, data).Ok?
    ensures r.Ok? ==> r.value == Schemas.PaymentCreate(customerId, Some(mandateId), data.amount, data.currency.GetOr("INR"),
                                                       data.description, data.receipt, JNull,
                                                       Schemas.RECURRING_PAYMENT)
  {
    Schemas.MakePaymentCreate(customerId, Some(mandateId), data.amount, Some(data.currency.GetOr("INR")),
                              Some(Schemas.RECURRING_PAYMENT), data.description, data.receipt, NotesValue(data.notes))
  }

  /**
   * process_recurring_payment: a missing or not exactly CONFIRMED mandate, or
   * an order record pydantic refuses, is retried before anything is written;
   * otherwise one order and one captured payment are created. The amount is
   * not compared with the mandate's.
   */
  method ProcessRecurringPayment(db: Store, queue: TaskQueue, mandateId: int, data: RecurringPaymentData,
                                 retries: nat, maxRetries: nat)
    returns (outcome: TaskOutcome)
    requires db.Valid() && db.Linked()
    modifies db, db.gateway, queue
    ensures db.Valid() && db.Linked()
    ensures RecurringGuard(old(db.mandates), mandateId).Some? ==>
              && outcome == RetryOutcome(retries, maxRetries, RecurringGuard(old(db.mandates), mandateId).value)
              && db.State() == old(db.State())
              && queue.entries == old(queue.entries) +
                   (if retries < maxRetries then [Queued(RecurringTask(mandateId, data), retries + 1)] else [])
    ensures RecurringGuard(old(db.mandates), mandateId).None?
            && RecurringOrder(old(db.mandates)[mandateId].customerId, data).Err? ==>
              && outcome == RetryOutcome(retries, maxRetries, RecurringOrder(old(db.mandates)[mandateId].customerId, data).error)
              && db.State() == old(db.State())
              && queue.entries == old(queue.entries) +
                   (if retries < maxRetries then [Queued(RecurringTask(mandateId, data), retries + 1)] else [])
    ensures RecurringGuard(old(db.mandates), mandateId).None?
            && RecurringOrder(old(db.mandates)[mandateId].customerId, data).Ok? ==>
              && old(db.nextPaymentId) >= 0
              && outcome == Completed(map[
                   "status" := JStr("success"),
                   "payment_id" := JInt(old(db.nextPaymentId)),
                   "razorpay_payment_id" := JStr(MockId(PaymentPrefix, old(db.nextPaymentId))),
                   "amount" := JReal(data.amount)])
              && db.State() == old(db.State()).(
                   orders := old(db.orders)[old(db.nextOrderId) := NewOrder(
                     Some(MockId(Gateway.OrderPrefix, |old(db.gateway.orders)| + 1)),
                     Some(old(db.mandates)[mandateId].customerId), data.amount, data.currency.GetOr("INR"),
                     data.receipt, Some("created"), NotesValue(data.notes))],
                   nextOrderId := old(db.nextOrderId) + 1,
                   payments := old(db.payments)[old(db.nextPaymentId) := CapturedRecurringPayment(
                     old(db.mandates)[mandateId].customerId, mandateId, old(db.nextPaymentId),
                     MockId(Gateway.OrderPrefix, |old(db.gateway.orders)| + 1), data)],
                   nextPaymentId := old(db.nextPaymentId) + 1)
              && queue.entries == old(queue.entries)
  {
    var refused := RecurringGuard(db.mandates, mandateId);
    if refused.Some? {
      outcome := queue.Retry(RecurringTask(mandateId, data), retries, maxRetries, refused.value);
      return;
    }
    var orderData := RecurringOrder(db.mandates[mandateId].customerId, data);
    if orderData.Err? {
      outcome := queue.Retry(RecurringTask(mandateId, data), retries, maxRetries, orderData.error);
      return;
    }
    outcome := ChargeRecurring(db, mandateId, data);
  }

  /**
   * The success path of process_recurring_payment: the gateway order and the
   * payment row are created, and the row is then marked captured.
   */
  method ChargeRecurring(db: Store, mandateId: int, data: RecurringPaymentData) returns (outcome: TaskOutcome)
    requires db.Valid() && db.Linked()
    requires RecurringGuard(db.mandates, mandateId).None?
    requires RecurringOrder(db.mandates[mandateId].customerId, data).Ok?
    modifies db, db.gateway
    ensures db.Valid() && db.Linked()
    ensures && old(db.nextPaymentId) >= 0
            && outcome == Completed(map[
                 "status" := JStr("success"),
                 "payment_id" := JInt(old(db.nextPaymentId)),
                 "razorpay_payment_id" := JStr(MockId(PaymentPrefix, old(db.nextPaymentId))),
                 "amount" := JReal(data.amount)])
            && db.State() == old(db.State()).(
                 orders := old(db.orders)[old(db.nextOrderId) := NewOrder(
                   Some(MockId(Gateway.OrderPrefix, |old(db.gateway.orders)| + 1)),
                   Some(old(db.mandates)[mandateId].customerId), data.amount, data.currency.GetOr("INR"),
                   data.receipt, Some("created"), NotesValue(data.notes))],
                 nextOrderId := old(db.nextOrderId) + 1,
                 payments := old(db.payments)[old(db.nextPaymentId) := CapturedRecurringPayment(
                   old(db.mandates)[mandateId].customerId, mandateId, old(db.nextPaymentId),
                   MockId(Gateway.OrderPrefix, |old(db.gateway.orders)| + 1), data)],
                 nextPaymentId := old(db.nextPaymentId) + 1)
  {
    var customerId := db.mandates[mandateId].customerId;
    var orderData := RecurringOrder(customerId, data);
    assert NotesValue(data.notes) == JNull;
    var paymentData := RecurringPaymentRecord(customerId, mandateId, data);
    assert paymentData.value == Schemas.PaymentCreate(customerId, Some(mandateId), data.amount, data.currency.GetOr("INR"),
                                                      data.description, data.receipt, JNull, Schemas.RECURRING_PAYMENT);
    ghost var s0 := db.State();
    var rid := MockId(Gateway.OrderPrefix, |db.gateway.orders| + 1);
    var r := db.CreateOrder(orderData.value);
    ghost var s1 := db.State();
    var paymentId := RecordCapturedPayment(db, mandateId, rid, data, paymentData.value);
    assert db.State() == s1.(payments := s1.payments[paymentId := CapturedRecurringPayment(
                                            customerId, mandateId, paymentId, rid, data)],
                             nextPaymentId := paymentId + 1);
    outcome := Completed(map["status" := JStr("success"), "payment_id" := JInt(paymentId),
                             "razorpay_payment_id" := JStr(MockId(PaymentPrefix, paymentId)),
                             "amount" := JReal(data.amount)]);
  }

  /** The payment row of the success path: inserted by create_payment, then marked captured. */
  method RecordCapturedPayment(db: Store, mandateId: int, rid: string, data: RecurringPaymentData,
                               paymentData: Schemas.PaymentCreate) returns (paymentId: nat)
    requires db.Valid() && db.Linked()
    requires paymentData == Schemas.PaymentCreate(paymentData.customerId, Some(mandateId), data.amount,
                                                  data.currency.GetOr("INR"), data.description, data.receipt,
                                                  NotesValue(data.notes), Schemas.RECURRING_PAYMENT)
    modifies db
    ensures db.Valid() && db.Linked()
    ensures paymentId == old(db.nextPaymentId)
    ensures db.State() == old(db.State()).(
              payments := old(db.payments)[paymentId := CapturedRecurringPayment(
                paymentData.customerId, mandateId, paymentId, rid, data)],
              nextPaymentId := paymentId + 1)
  {
    ghost var s0 := db.State();
    var id := db.CreatePayment(paymentData);
    assert db.customers == s0.customers && db.orders == s0.orders;
    paymentId := id;
    var p := CapturedRecurringPayment(paymentData.customerId, mandateId, paymentId, rid, data);
    PaymentReplaceKeepsInvariant(db.payments, db.nextPaymentId, paymentId, p);
    ghost var created := db.payments;
    db.payments := db.payments[paymentId := p];
    assert db.payments == s0.payments[paymentId := p] by {
      assert created == s0.payments[paymentId := created[paymentId]];
    }
    assert db.customers == s0.customers && db.orders == s0.orders;
  }

  /**
   * validate_mandate_status: a missing mandate fails without retry; otherwise
   * the mandate is validated and the task returns its status value, which
   * fails when the status is NULL.
   */
  method ValidateMandateStatus(db: Store, mandateId: int) returns (outcome: TaskOutcome)
    requires db.Valid()
    modifies db
    ensures db.Valid()
    ensures mandateId !in old(db.mandates) ==>
              outcome == Failed(ValueError("Mandate not found")) && db.State() == old(db.State())
    ensures mandateId in old(db.mandates) ==>
              && db.State() == old(db.State()).(mandates := old(db.mandates)[mandateId := Validated(old(db.mandates)[mandateId])])
              && outcome == match StatusValue(Validated(old(db.mandates)[mandateId]).status)
                            case Ok(v) => Completed(map["mandate_id" := JInt(mandateId), "status" := JStr(v)])
                            case Err(e) => Failed(e)
  {
    if mandateId !in db.mandates {
      return Failed(ValueError("Mandate not found"));
    }
    var m := Validated(db.mandates[mandateId]);
    MandateReplaceKeepsInvariant(db.mandates, db.nextMandateId, db.customers, mandateId, m);
    db.mandates := db.mandates[mandateId := m];
    var value := StatusValue(m.status);
    if value.Err? {
      return Failed(value.error);
    }
    outcome := Completed(map["mandate_id" := JInt(mandateId), "status" := JStr(value.value)]);
  }
}
