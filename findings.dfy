/**
 * Two defects of the source, each modelled as written and as intended.
 *
 * Fresh gateway clients. Every service object calls get_razorpay_client() in
 * its constructor (app/services/database_service.py:21, 93, 157), and in
 * development that builds a new MockRazorpayClient each time
 * (app/services/razorpay_service.py:171-175). A new mock numbers from one
 * again, so every customer is given the gateway id `cust_mock_1` and every
 * order `order_mock_1`; the UNIQUE constraints on those columns
 * (app/models/models.py:36, 104) then refuse the second one. The intended
 * behaviour uses the client the store shares across calls, which is what the
 * rest of the model does.
 *
 * Dicts where records are expected. authorize_emandate hands create_mandate a
 * dict (app/api/v1/endpoints/emandate.py:38-47), and both payment tasks hand
 * create_order a dict (app/tasks/emandate_tasks.py:38, 86-94); the services
 * read attributes of their argument (app/services/database_service.py:99,
 * 164), which a dict does not have. The first read raises before anything is
 * written, so the endpoint answers 500 and the tasks only ever retry. The
 * intended behaviour, which the rest of the model uses, builds the record the
 * dict describes, with pydantic's validation, and passes it.
 *
 * Enum members written by value. update_mandate assigns the schema's status
 * member, and create_payment the schema's transaction type, to columns
 * declared as SQLAlchemy Enums of the model's enums
 * (app/services/database_service.py:141, 203; app/models/models.py:57, 84).
 * Such a column stores a member's name and reads names back; the schema
 * members are `str` values ("confirmed"), which it stores unchecked and then
 * cannot read back, so the refresh right after the commit raises. The
 * intended behaviour, which the rest of the model uses, writes the model's
 * member with the same value.
 */
module Findings {
  import opened Wrappers
  import opened Values
  import opened Text
  import opened Schemas
  import Models
  import Gateway
  import opened Helpers
  import opened Database
  import opened Tasks
  import EMandateTasks
  import EMandateApi

  /** create_customer as written: the gateway client is a new mock, so the id is always `cust_mock_1`. */
  method CreateCustomerFreshClient(db: Store, data: CustomerCreate) returns (r: Result<int, Exc>)
    requires db.Valid()
    modifies db
    ensures db.Valid()
    ensures r.Ok? <==>
              !EmailTaken(old(db.customers), data.email)
              && !RazorpayCustomerIdTaken(old(db.customers), MockId(Gateway.CustomerPrefix, 1))
    ensures r.Ok? ==> r.value in db.customers && db.customers[r.value].razorpayCustomerId == Some(MockId(Gateway.CustomerPrefix, 1))
    ensures r.Err? ==> r.error == ValueError("Customer with this email already exists") && db.State() == old(db.State())
  {
    var client := new Gateway.MockRazorpayClient();
    r := db.CreateCustomerWith(client, data);
  }

  /** create_order as written: the gateway client is a new mock, so the id is always `order_mock_1`. */
  method CreateOrderFreshClient(db: Store, data: OrderCreate) returns (r: Result<int, Exc>)
    requires db.Valid()
    modifies db
    ensures db.Valid()
    ensures r.Ok? <==> !RazorpayOrderIdTaken(old(db.orders), MockId(Gateway.OrderPrefix, 1))
    ensures r.Ok? ==> r.value in db.orders && db.orders[r.value].razorpayOrderId == Some(MockId(Gateway.OrderPrefix, 1))
    ensures r.Err? ==> r.error == IntegrityError("UNIQUE constraint failed: orders.razorpay_order_id") && db.State() == old(db.State())
  {
    var client := new Gateway.MockRazorpayClient();
    r := db.CreateOrderWith(client, data);
  }

  /** As written: on an empty database, a second customer with a different email is refused. */
  method SecondCustomerRefusedWithFreshClients() returns (first: Result<int, Exc>, second: Result<int, Exc>)
    ensures first.Ok?
    ensures second == Err(ValueError("Customer with this email already exists"))
  {
    var db := new Store();
    first := CreateCustomerFreshClient(db, CustomerCreate("Asha", "asha@example.com", None, None));
    var k := first.value;
    assert k in db.customers && db.customers[k].razorpayCustomerId == Some(MockId(Gateway.CustomerPrefix, 1));
    second := CreateCustomerFreshClient(db, CustomerCreate("Ravi", "ravi@example.com", None, None));
  }

  /** As written: on an empty database, a second order is refused by the UNIQUE constraint. */
  method SecondOrderRefusedWithFreshClients() returns (first: Result<int, Exc>, second: Result<int, Exc>)
    ensures first.Ok?
    ensures second == Err(IntegrityError("UNIQUE constraint failed: orders.razorpay_order_id"))
  {
    var db := new Store();
    var data := OrderCreate(100.0, "INR", None, JNull, None);
    first := CreateOrderFreshClient(db, data);
    var k := first.value;
    assert k in db.orders && db.orders[k].razorpayOrderId == Some(MockId(Gateway.OrderPrefix, 1));
    second := CreateOrderFreshClient(db, data);
  }

  /** Corrected: with the shared client, customers with different emails are all accepted, under distinct gateway ids. */
  method SecondCustomerAcceptedWithSharedClient() returns (first: Result<int, Exc>, second: Result<int, Exc>)
    ensures first.Ok? && second.Ok? && first.value != second.value
  {
    var db := new Store();
    first := db.CreateCustomer(CustomerCreate("Asha", "asha@example.com", None, None));
    second := db.CreateCustomer(CustomerCreate("Ravi", "ravi@example.com", None, None));
  }

  /** Corrected: with the shared client, every order is accepted under a fresh gateway id. */
  method SecondOrderAcceptedWithSharedClient() returns (first: Result<int, Exc>, second: Result<int, Exc>)
    ensures first.Ok? && second.Ok? && first.value != second.value
  {
    var db := new Store();
    var data := OrderCreate(100.0, "INR", None, JNull, None);
    first := db.CreateOrder(data);
    second := db.CreateOrder(data);
  }

  /**
   * authorize_emandate as written: create_mandate reads `customer_id` off the
   * dict it is given and raises, so every request for a known customer ends in
   * 500, with nothing stored and nothing queued.
   */
  method AuthorizeEMandateAsWritten(db: Store, queue: TaskQueue, req: EMandateAuthorizationRequest, now: real)
    returns (resp: Response)
    ensures req.customerId !in db.customers ==> resp == ErrorResponse(404, "Customer not found", now)
    ensures req.customerId in db.customers ==> resp == ErrorResponse(500, "Failed to initiate eMandate authorization", now)
    ensures resp.status != 202
  {
    if req.customerId !in db.customers {
      return ErrorResponse(404, "Customer not found", now);
    }
    // create_mandate raises MissingAttribute("dict", "customer_id") and rolls back
    resp := ErrorResponse(500, "Failed to initiate eMandate authorization", now);
  }

  /** As written the request is refused with 500; the corrected endpoint accepts the same request with 202. */
  method AuthorizationRefusedAsWrittenAcceptedCorrected() returns (asWritten: Response, corrected: Response)
    ensures asWritten.status == 500
    ensures corrected.status == 202
  {
    var db := new Store();
    var queue := new TaskQueue();
    var customer := db.CreateCustomer(CustomerCreate("Asha", "asha@example.com", None, None));
    var req := EMandateAuthorizationRequest(customer.value, 100.0, "monthly", None, None, None, None);
    asWritten := AuthorizeEMandateAsWritten(db, queue, req, 0.0);
    EMandateApi.AuthorizationOrderAccepted(req, db.nextMandateId);
    corrected := EMandateApi.AuthorizeEMandate(db, queue, req, (notes: map<string, Json>) => "", 0.0);
  }

  /**
   * process_emandate_authorization as written: for a stored mandate,
   * create_order reads `amount` off the dict it is given and raises, so the
   * run never completes; it writes nothing and retries while retries remain.
   */
  method ProcessEMandateAuthorizationAsWritten(db: Store, queue: TaskQueue, customerId: int, mandateId: int,
                                               orderData: OrderCreate, retries: nat, maxRetries: nat)
    returns (outcome: TaskOutcome)
    modifies queue
    ensures mandateId !in db.mandates ==> outcome == RetryOutcome(retries, maxRetries, ValueError("Mandate not found"))
    ensures mandateId in db.mandates ==> outcome == RetryOutcome(retries, maxRetries, MissingAttribute("dict", "amount"))
    ensures !outcome.Completed?
    ensures queue.entries == old(queue.entries) +
              (if retries < maxRetries then [Queued(AuthorizeTask(customerId, mandateId, orderData), retries + 1)] else [])
  {
    var raised := if mandateId !in db.mandates then ValueError("Mandate not found") else MissingAttribute("dict", "amount");
    outcome := queue.Retry(AuthorizeTask(customerId, mandateId, orderData), retries, maxRetries, raised);
  }

  /**
   * process_recurring_payment as written: a mandate that passes the guard
   * reaches create_order, which raises on the dict it is given, so no
   * recurring payment is ever recorded.
   */
  method ProcessRecurringPaymentAsWritten(db: Store, queue: TaskQueue, mandateId: int, data: RecurringPaymentData,
                                          retries: nat, maxRetries: nat)
    returns (outcome: TaskOutcome)
    modifies queue
    ensures EMandateTasks.RecurringGuard(db.mandates, mandateId).Some? ==>
              outcome == RetryOutcome(retries, maxRetries, EMandateTasks.RecurringGuard(db.mandates, mandateId).value)
    ensures EMandateTasks.RecurringGuard(db.mandates, mandateId).None? ==>
              outcome == RetryOutcome(retries, maxRetries, MissingAttribute("dict", "amount"))
    ensures !outcome.Completed?
    ensures queue.entries == old(queue.entries) +
              (if retries < maxRetries then [Queued(RecurringTask(mandateId, data), retries + 1)] else [])
  {
    var refused := EMandateTasks.RecurringGuard(db.mandates, mandateId);
    var raised := if refused.Some? then refused.value else MissingAttribute("dict", "amount");
    outcome := queue.Retry(RecurringTask(mandateId, data), retries, maxRetries, raised);
  }

  /** Corrected: a confirmed mandate's recurring payment completes and records one captured payment. */
  method RecurringPaymentCompletesCorrected() returns (asWritten: TaskOutcome, corrected: TaskOutcome)
    ensures asWritten == RetryScheduled(MissingAttribute("dict", "amount"))
    ensures corrected.Completed?
  {
    var db := new Store();
    var queue := new TaskQueue();
    var customer := db.CreateCustomer(CustomerCreate("Asha", "asha@example.com", None, None));
    var mandate := db.CreateMandate(MandateCreate(customer.value, 500.0, "INR", Some("monthly"), None, None,
                                                  None, None, None, JNull));
    var m := mandate.value;
    ghost var before := db.State();
    var confirm := MandateUpdate(Unset, Unset, Unset, Unset, Set(Some(MandateStatusEnum.CONFIRMED)), Unset);
    assert ApplyMandateUpdate(db.mandates[m], confirm) == Ok(db.mandates[m].(status := Some(Models.MandateStatus.CONFIRMED)));
    var confirmed := db.UpdateMandate(m, confirm);
    assert db.customers == before.customers && db.orders == before.orders;
    assert db.Linked();
    assert EMandateTasks.RecurringGuard(db.mandates, m).None?;
    var data := RecurringPaymentData(100.0, None, None, None, None);
    assert EMandateTasks.RecurringOrder(db.mandates[m].customerId, data).Ok?;
    asWritten := ProcessRecurringPaymentAsWritten(db, queue, m, data, 0, DefaultMaxRetries);
    corrected := EMandateTasks.ProcessRecurringPayment(db, queue, m, data, 0, DefaultMaxRetries);
  }

  /**
   * update_mandate as written, for a sent status: the schema member is stored
   * as its value, and reading the column back raises, whatever the status.
   */
  function StatusReadBackAsWritten(e: MandateStatusEnum): (r: Result<Models.MandateStatus, Exc>)
    ensures r == Err(LookupError(e.Value(), "mandatestatus", "CREATED, AUTHORIZED, CONFIRMED, ..., EXPIRED"))
  {
    assert 'a' <= e.Value()[0] <= 'z';
    Models.LowerCaseTextIsNoName(e.Value());
    Models.LoadMandateStatus(Models.StoredMandateStatus(Models.AsText(e.Value())))
  }

  /** Corrected: update_mandate writes the column's member, which reads back as the status that was sent. */
  lemma UpdatedStatusReadsBack(m: Models.Mandate, u: MandateUpdate, e: MandateStatusEnum)
    requires u.status == Set(Some(e)) && ApplyMandateUpdate(m, u).Ok?
    ensures var s := ApplyMandateUpdate(m, u).value.status;
            && s.Some? && s.value.Value() == e.Value()
            && Models.LoadMandateStatus(Models.StoredMandateStatus(Models.AsMember(s.value))) == Ok(s.value)
  {
    Models.EnumColumnsRoundTrip(ApplyMandateUpdate(m, u).value.status.value, Models.RECURRING_PAYMENT);
  }

  /**
   * create_payment as written: the schema's transaction type is stored as its
   * value, and the refresh after the commit raises, whatever the type.
   */
  function TransactionTypeReadBackAsWritten(e: TransactionTypeEnum): (r: Result<Models.TransactionType, Exc>)
    ensures r == Err(LookupError(e.Value(), "transactiontype", "AUTHORIZATION, RECURRING_PAYMENT, REFUND"))
  {
    assert 'a' <= e.Value()[0] <= 'z';
    Models.LowerCaseTextIsNoName(e.Value());
    Models.LoadTransactionType(Models.StoredTransactionType(Models.AsText(e.Value())))
  }

  /** Corrected: create_payment writes the column's member, which reads back as the requested type. */
  lemma CreatedPaymentTypeReadsBack(data: PaymentCreate)
    ensures var t := TransactionTypeToModel(data.transactionType);
            && t.Value() == data.transactionType.Value()
            && Models.LoadTransactionType(Models.StoredTransactionType(Models.AsMember(t))) == Ok(t)
  {
    Models.EnumColumnsRoundTrip(Models.MandateStatus.CREATED, TransactionTypeToModel(data.transactionType));
  }
}
