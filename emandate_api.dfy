/**
 * The eMandate endpoints (app/api/v1/endpoints/emandate.py): each checks the
 * request against the store, answers an error envelope with a 4xx code when
 * a check fails, and otherwise hands the work to a background task.
 *
 * authorize_emandate passes a dict to create_mandate, which reads
 * attributes; the model gives create_mandate the record that dict describes,
 * built and validated as pydantic builds it.
 */
module EMandateApi {
  import opened Wrappers
  import opened Values
  import opened Text
  import opened Models
  import opened Schemas
  import opened Helpers
  import opened Database
  import opened Tasks
  import EMandateTasks

  /** `str(notes) if notes else None`: `render` stands for Python's str() of a dict. */
  function MandateNotes(notes: Option<map<string, Json>>, render: map<string, Json> -> string): (j: Json)
    ensures j.JNull? <==> notes.None? || notes == Some(map[])
    ensures !j.JNull? ==> j == JStr(render(notes.value))
  {
    if notes.Some? && notes.value != map[] then JStr(render(notes.value)) else JNull
  }

  /**
   * The MandateCreate record authorize_emandate's dict describes: currency
   * INR by default, no bank fields, and the notes rendered as text. pydantic
   * refuses it for a non-positive amount.
   */
  function AuthorizationMandate(req: EMandateAuthorizationRequest, render: map<string, Json> -> string)
    : (r: Result<MandateCreate, Exc>)
    ensures r.Ok? <==> req.amount > 0.0
    ensures r.Err? ==> r.error == ValidationError("amount")
    ensures r.Ok? ==> r.value == MandateCreate(req.customerId, req.amount, "INR", Some(req.frequency),
                                               req.startDate, req.endDate, None, None, None,
                                               MandateNotes(req.notes, render))
  {
    MakeMandateCreate(req.customerId, req.amount, None, Some(req.frequency), req.startDate, req.endDate,
                      MandateNotes(req.notes, render))
  }

  /** The request's notes as the OrderCreate field receives them. */
  function NotesJson(notes: Option<map<string, Json>>): (j: Json)
    ensures notes.None? <==> j.JNull?
  {
    if notes.Some? then JObj(notes.value) else JNull
  }

  /** The OrderCreate that authorize_emandate builds for mandate `mandateId`; pydantic may refuse it. */
  function AuthorizationOrder(req: EMandateAuthorizationRequest, mandateId: int): (r: Result<OrderCreate, Exc>)
  {
    MakeOrderCreate(req.amount, Some("INR"), Some("emandate_auth_" + IntToString(mandateId)),
                    NotesJson(req.notes), Some(req.customerId))
  }

  /**
   * The order is built only for a positive amount and no notes (OrderCreate's
   * notes are a string, and the request's are a dict); it carries the
   * request's amount and customer, currency INR and receipt
   * `emandate_auth_<mandate id>`.
   */
  lemma AuthorizationOrderAccepted(req: EMandateAuthorizationRequest, mandateId: int)
    ensures AuthorizationOrder(req, mandateId).Ok? <==> req.amount > 0.0 && req.notes.None?
    ensures AuthorizationOrder(req, mandateId).Ok? ==>
              AuthorizationOrder(req, mandateId).value ==
                OrderCreate(req.amount, "INR", Some("emandate_auth_" + IntToString(mandateId)), JNull, Some(req.customerId))
  {
  }

  /**
   * authorize_emandate: 404 for an unknown customer, with nothing written or
   * queued; a mandate record pydantic refuses (a non-positive amount) ends in
   * 500 before anything is written; otherwise the mandate is stored first,
   * and then either the order is refused (500, the mandate stays) or the
   * authorization task is queued (202).
   */
  method AuthorizeEMandate(db: Store, queue: TaskQueue, req: EMandateAuthorizationRequest,
                           render: map<string, Json> -> string, now: real)
    returns (resp: Response)
    requires db.Valid()
    modifies db, queue
    ensures db.Valid()
    ensures req.customerId !in old(db.customers) ==>
              && resp == ErrorResponse(404, "Customer not found", now)
              && db.State() == old(db.State()) && queue.entries == old(queue.entries)
    ensures req.customerId in old(db.customers) && req.amount <= 0.0 ==>
              && resp == ErrorResponse(500, "Failed to initiate eMandate authorization", now)
              && db.State() == old(db.State()) && queue.entries == old(queue.entries)
    ensures req.customerId in old(db.customers) && req.amount > 0.0 ==>
              && db.State() == old(db.State()).(
                   mandates := old(db.mandates)[old(db.nextMandateId) := NewMandate(
                     req.customerId, req.amount, "INR", Some(req.frequency), req.startDate, req.endDate,
                     None, None, None, MandateNotes(req.notes, render))],
                   nextMandateId := old(db.nextMandateId) + 1)
              && (AuthorizationOrder(req, old(db.nextMandateId)).Err? ==>
                    resp == ErrorResponse(500, "Failed to initiate eMandate authorization", now)
                    && queue.entries == old(queue.entries))
              && (AuthorizationOrder(req, old(db.nextMandateId)).Ok? ==>
                    && queue.entries == old(queue.entries) + [Queued(AuthorizeTask(
                         req.customerId, old(db.nextMandateId), AuthorizationOrder(req, old(db.nextMandateId)).value), 0)]
                    && resp == SuccessResponse(202, "eMandate authorization initiated successfully", map[
                         "mandate_id" := JInt(old(db.nextMandateId)),
                         "task_id" := JInt(|old(queue.entries)|),
                         "status" := JStr("processing"),
                         "customer_id" := JInt(req.customerId)], now))
  {
    if req.customerId !in db.customers {
      return ErrorResponse(404, "Customer not found", now);
    }
    var data := AuthorizationMandate(req, render);
    if data.Err? {
      return ErrorResponse(500, "Failed to initiate eMandate authorization", now);
    }
    var created := db.CreateMandate(data.value);
    var mandateId := created.value;
    var order := AuthorizationOrder(req, mandateId);
    if order.Err? {
      return ErrorResponse(500, "Failed to initiate eMandate authorization", now);
    }
    var taskId := queue.Enqueue(AuthorizeTask(req.customerId, mandateId, order.value));
    resp := SuccessResponse(202, "eMandate authorization initiated successfully", map[
      "mandate_id" := JInt(mandateId), "task_id" := JInt(taskId),
      "status" := JStr("processing"), "customer_id" := JInt(req.customerId)], now);
  }

  /** `mandate.status in [AUTHORIZED, CONFIRMED]`; a NULL status is not. */
  predicate ActiveForPayments(status: Option<MandateStatus>) {
    status == Some(MandateStatus.AUTHORIZED) || status == Some(MandateStatus.CONFIRMED)
  }

  /** The refusal create_recurring_payment answers, as (status code, message), or None to go ahead. */
  function RecurringRefusal(mandates: map<int, Mandate>, req: EMandateRecurringPaymentRequest): (r: Option<(int, string)>)
    ensures r.None? <==>
              req.mandateId in mandates && ActiveForPayments(mandates[req.mandateId].status)
              && req.amount <= mandates[req.mandateId].amount
    ensures req.mandateId !in mandates ==> r == Some((404, "Mandate not found"))
    ensures req.mandateId in mandates && !ActiveForPayments(mandates[req.mandateId].status) ==>
              r == Some((400, "Mandate is not active for payments"))
    ensures req.mandateId in mandates && ActiveForPayments(mandates[req.mandateId].status)
            && req.amount > mandates[req.mandateId].amount ==>
              r == Some((400, "Payment amount exceeds mandate limit"))
  {
    if req.mandateId !in mandates then Some((404, "Mandate not found"))
    else if !ActiveForPayments(mandates[req.mandateId].status) then Some((400, "Mandate is not active for payments"))
    else if req.amount > mandates[req.mandateId].amount then Some((400, "Payment amount exceeds mandate limit"))
    else None
  }

  /** The payment_data dict the endpoint hands the task: no currency key. */
  function RecurringData(req: EMandateRecurringPaymentRequest): (d: RecurringPaymentData)
    ensures d.amount == req.amount && d.currency.None? && d.notes == req.notes
  {
    RecurringPaymentData(req.amount, None, req.description, req.receipt, req.notes)
  }

  /**
   * create_recurring_payment: every check comes before the enqueue, so a
   * refused request queues nothing; an accepted one queues one recurring
   * payment task and answers 202. The store is only read.
   */
  method CreateRecurringPayment(db: Store, queue: TaskQueue, req: EMandateRecurringPaymentRequest, now: real)
    returns (resp: Response)
    modifies queue
    ensures RecurringRefusal(db.mandates, req).Some? ==>
              resp == ErrorResponse(RecurringRefusal(db.mandates, req).value.0, RecurringRefusal(db.mandates, req).value.1, now)
              && queue.entries == old(queue.entries)
    ensures RecurringRefusal(db.mandates, req).None? ==>
              && queue.entries == old(queue.entries) + [Queued(RecurringTask(req.mandateId, RecurringData(req)), 0)]
              && resp == SuccessResponse(202, "Recurring payment initiated successfully", map[
                   "mandate_id" := JInt(req.mandateId),
                   "task_id" := JInt(|old(queue.entries)|),
                   "status" := JStr("processing"),
                   "amount" := JReal(req.amount)], now)
  {
    var refusal := RecurringRefusal(db.mandates, req);
    if refusal.Some? {
      return ErrorResponse(refusal.value.0, refusal.value.1, now);
    }
    var taskId := queue.Enqueue(RecurringTask(req.mandateId, RecurringData(req)));
    resp := SuccessResponse(202, "Recurring payment initiated successfully", map[
      "mandate_id" := JInt(req.mandateId), "task_id" := JInt(taskId),
      "status" := JStr("processing"), "amount" := JReal(req.amount)], now);
  }

  /** The ceiling is inclusive: an active mandate accepts a payment of exactly its amount. */
  lemma AmountCeilingInclusive(mandates: map<int, Mandate>, req: EMandateRecurringPaymentRequest)
    requires req.mandateId in mandates && ActiveForPayments(mandates[req.mandateId].status)
    requires req.amount == mandates[req.mandateId].amount
    ensures RecurringRefusal(mandates, req).None?
  {
  }

  /**
   * The endpoint and the task disagree on AUTHORIZED: the endpoint queues a
   * payment for an authorized mandate, and the task then refuses it as not
   * confirmed, before creating anything.
   */
  lemma AuthorizedMandateAcceptedThenRefused(mandates: map<int, Mandate>, req: EMandateRecurringPaymentRequest)
    requires req.mandateId in mandates && mandates[req.mandateId].status == Some(MandateStatus.AUTHORIZED)
    requires req.amount <= mandates[req.mandateId].amount
    ensures RecurringRefusal(mandates, req).None?
    ensures EMandateTasks.RecurringGuard(mandates, req.mandateId) == Some(ValueError("Mandate is not confirmed"))
  {
  }

  /** Whatever the endpoint accepts, the task accepts exactly when the mandate is CONFIRMED. */
  lemma AcceptedPaymentRunsIffConfirmed(mandates: map<int, Mandate>, req: EMandateRecurringPaymentRequest)
    requires RecurringRefusal(mandates, req).None?
    ensures EMandateTasks.RecurringGuard(mandates, req.mandateId).None? <==>
              mandates[req.mandateId].status == Some(MandateStatus.CONFIRMED)
  {
  }

  /**
   * validate_mandate: 404 for an unknown mandate, queuing nothing; otherwise
   * the validation task is queued first and the answer reports the status as
   * it stands before the task runs. A NULL status makes reading its value
   * raise after the task was queued, which ends in 500.
   */
  method ValidateMandate(db: Store, queue: TaskQueue, mandateId: int, now: real) returns (resp: Response)
    modifies queue
    ensures mandateId !in db.mandates ==>
              resp == ErrorResponse(404, "Mandate not found", now) && queue.entries == old(queue.entries)
    ensures mandateId in db.mandates ==>
              && queue.entries == old(queue.entries) + [Queued(ValidateTask(mandateId), 0)]
              && (db.mandates[mandateId].status.None? ==> resp == ErrorResponse(500, "Failed to validate mandate", now))
              && (db.mandates[mandateId].status.Some? ==>
                    resp == SuccessResponse(200, "Mandate validation initiated", map[
                      "mandate_id" := JInt(mandateId),
                      "task_id" := JInt(|old(queue.entries)|),
                      "current_status" := JStr(db.mandates[mandateId].status.value.Value())], now))
  {
    if mandateId !in db.mandates {
      return ErrorResponse(404, "Mandate not found", now);
    }
    var taskId := queue.Enqueue(ValidateTask(mandateId));
    var current := StatusValue(db.mandates[mandateId].status);
    if current.Err? {
      return ErrorResponse(500, "Failed to validate mandate", now);
    }
    resp := SuccessResponse(200, "Mandate validation initiated", map[
      "mandate_id" := JInt(mandateId), "task_id" := JInt(taskId),
      "current_status" := JStr(current.value)], now);
  }
}
