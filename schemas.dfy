/**
 * The request-side schemas (app/schemas/schemas.py): the enums they mirror,
 * the shapes the services and endpoints receive, the defaults pydantic fills
 * in, and the `validate_amount` validator that three of them declare.
 */
module Schemas {
  import opened Wrappers
  import opened Values
  import Models

  datatype MandateStatusEnum = CREATED | AUTHORIZED | CONFIRMED | PAUSED | CANCELLED | EXPIRED {
    function Value(): string {
      match this
      case CREATED => "created"
      case AUTHORIZED => "authorized"
      case CONFIRMED => "confirmed"
      case PAUSED => "paused"
      case CANCELLED => "cancelled"
      case EXPIRED => "expired"
    }
  }

  datatype PaymentStatusEnum = CREATED | AUTHORIZED | CAPTURED | REFUNDED | FAILED {
    function Value(): string {
      match this
      case CREATED => "created"
      case AUTHORIZED => "authorized"
      case CAPTURED => "captured"
      case REFUNDED => "refunded"
      case FAILED => "failed"
    }
  }

  datatype TransactionTypeEnum = AUTHORIZATION | RECURRING_PAYMENT | REFUND {
    function Value(): string {
      match this
      case AUTHORIZATION => "authorization"
      case RECURRING_PAYMENT => "recurring_payment"
      case REFUND => "refund"
    }
  }

  /** The column enum a schema enum is stored as: the member with the same value. */
  function MandateStatusToModel(e: MandateStatusEnum): (s: Models.MandateStatus)
    ensures s.Value() == e.Value()
  {
    match e
    case CREATED => Models.MandateStatus.CREATED
    case AUTHORIZED => Models.MandateStatus.AUTHORIZED
    case CONFIRMED => Models.MandateStatus.CONFIRMED
    case PAUSED => Models.MandateStatus.PAUSED
    case CANCELLED => Models.MandateStatus.CANCELLED
    case EXPIRED => Models.MandateStatus.EXPIRED
  }

  /** The schema enum a stored status is reported as: the member with the same value. */
  function MandateStatusFromModel(s: Models.MandateStatus): (e: MandateStatusEnum)
    ensures e.Value() == s.Value()
  {
    match s
    case CREATED => MandateStatusEnum.CREATED
    case AUTHORIZED => MandateStatusEnum.AUTHORIZED
    case CONFIRMED => MandateStatusEnum.CONFIRMED
    case PAUSED => MandateStatusEnum.PAUSED
    case CANCELLED => MandateStatusEnum.CANCELLED
    case EXPIRED => MandateStatusEnum.EXPIRED
  }

  function PaymentStatusToModel(e: PaymentStatusEnum): (s: Models.PaymentStatus)
    ensures s.Value() == e.Value()
  {
    match e
    case CREATED => Models.PaymentStatus.CREATED
    case AUTHORIZED => Models.PaymentStatus.AUTHORIZED
    case CAPTURED => Models.PaymentStatus.CAPTURED
    case REFUNDED => Models.PaymentStatus.REFUNDED
    case FAILED => Models.PaymentStatus.FAILED
  }

  function PaymentStatusFromModel(s: Models.PaymentStatus): (e: PaymentStatusEnum)
    ensures e.Value() == s.Value()
  {
    match s
    case CREATED => PaymentStatusEnum.CREATED
    case AUTHORIZED => PaymentStatusEnum.AUTHORIZED
    case CAPTURED => PaymentStatusEnum.CAPTURED
    case REFUNDED => PaymentStatusEnum.REFUNDED
    case FAILED => PaymentStatusEnum.FAILED
  }

  function TransactionTypeToModel(e: TransactionTypeEnum): (t: Models.TransactionType)
    ensures t.Value() == e.Value()
  {
    match e
    case AUTHORIZATION => Models.AUTHORIZATION
    case RECURRING_PAYMENT => Models.RECURRING_PAYMENT
    case REFUND => Models.REFUND
  }

  function TransactionTypeFromModel(t: Models.TransactionType): (e: TransactionTypeEnum)
    ensures e.Value() == t.Value()
  {
    match t
    case AUTHORIZATION => TransactionTypeEnum.AUTHORIZATION
    case RECURRING_PAYMENT => TransactionTypeEnum.RECURRING_PAYMENT
    case REFUND => TransactionTypeEnum.REFUND
  }

  /**
   * The schema enums and the column enums are the same sets of values: the
   * conversions by value are mutually inverse.
   */
  lemma SchemaEnumsMirrorModel()
    ensures forall e: MandateStatusEnum :: MandateStatusFromModel(MandateStatusToModel(e)) == e
    ensures forall s: Models.MandateStatus :: MandateStatusToModel(MandateStatusFromModel(s)) == s
    ensures forall e: PaymentStatusEnum :: PaymentStatusFromModel(PaymentStatusToModel(e)) == e
    ensures forall s: Models.PaymentStatus :: PaymentStatusToModel(PaymentStatusFromModel(s)) == s
    ensures forall e: TransactionTypeEnum :: TransactionTypeFromModel(TransactionTypeToModel(e)) == e
    ensures forall t: Models.TransactionType :: TransactionTypeToModel(TransactionTypeFromModel(t)) == t
  {
  }

  const DefaultCurrency: string := "INR"

  /** The schemas that take an amount; the first three declare `validate_amount`. */
  datatype AmountSchema =
    | MandateBaseSchema
    | PaymentBaseSchema
    | OrderCreateSchema
    | EMandateAuthorizationSchema
    | EMandateRecurringPaymentSchema

  predicate HasAmountValidator(schema: AmountSchema) {
    schema.MandateBaseSchema? || schema.PaymentBaseSchema? || schema.OrderCreateSchema?
  }

  /** `validate_amount`: returns the amount, or raises when it is not positive. */
  function ValidateAmount(v: real): (r: Result<real, Exc>)
    ensures r.Ok? <==> v > 0.0
    ensures r.Ok? ==> r.value == v
    ensures r.Err? ==> r.error == ValueError("Amount must be greater than 0")
  {
    if v <= 0.0 then Err(ValueError("Amount must be greater than 0")) else Ok(v)
  }

  /** How pydantic treats the `amount` field of a schema: through the validator when it declares one. */
  function CheckAmount(schema: AmountSchema, v: real): (r: Result<real, Exc>)
    ensures HasAmountValidator(schema) ==> (r.Ok? <==> v > 0.0)
    ensures r.Ok? ==> r.value == v
  {
    if HasAmountValidator(schema) then
      match ValidateAmount(v)
      case Ok(a) => Ok(a)
      case Err(_) => Err(ValidationError("amount"))
    else Ok(v)
  }

  /** The eMandate request schemas declare no amount validator: zero and negative amounts pass. */
  lemma EMandateRequestsAcceptAnyAmount(v: real)
    ensures CheckAmount(EMandateAuthorizationSchema, v) == Ok(v)
    ensures CheckAmount(EMandateRecurringPaymentSchema, v) == Ok(v)
  {
  }

  datatype CustomerCreate = CustomerCreate(name: string, email: string, contact: Option<string>, gstin: Option<string>)

  /** Every field may be absent, or present with a value or with null. */
  datatype CustomerUpdate = CustomerUpdate(
    name: Field<Option<string>>,
    email: Field<Option<string>>,
    contact: Field<Option<string>>,
    gstin: Field<Option<string>>)

  datatype MandateCreate = MandateCreate(
    customerId: int,
    amount: real,
    currency: string,
    frequency: Option<string>,
    startDate: Option<Models.Timestamp>,
    endDate: Option<Models.Timestamp>,
    bankAccount: Option<string>,
    ifscCode: Option<string>,
    accountHolderName: Option<string>,
    notes: Json)

  datatype MandateUpdate = MandateUpdate(
    amount: Field<Option<real>>,
    frequency: Field<Option<string>>,
    startDate: Field<Option<Models.Timestamp>>,
    endDate: Field<Option<Models.Timestamp>>,
    status: Field<Option<MandateStatusEnum>>,
    notes: Field<Option<string>>)

  datatype PaymentCreate = PaymentCreate(
    customerId: int,
    mandateId: Option<int>,
    amount: real,
    currency: string,
    description: Option<string>,
    receipt: Option<string>,
    notes: Json,
    transactionType: TransactionTypeEnum)

  datatype OrderCreate = OrderCreate(
    amount: real,
    currency: string,
    receipt: Option<string>,
    notes: Json,
    customerId: Option<int>)

  datatype WebhookEventCreate = WebhookEventCreate(eventId: string, eventType: string, payload: string)

  datatype EMandateAuthorizationRequest = EMandateAuthorizationRequest(
    customerId: int,
    amount: real,
    frequency: string,
    startDate: Option<Models.Timestamp>,
    endDate: Option<Models.Timestamp>,
    description: Option<string>,
    notes: Option<map<string, Json>>)

  datatype EMandateRecurringPaymentRequest = EMandateRecurringPaymentRequest(
    mandateId: int,
    amount: real,
    description: Option<string>,
    receipt: Option<string>,
    notes: Option<map<string, Json>>)

  /** pydantic's `Optional[str]`: null or a string; a number, a list or a dict is refused. */
  predicate OptionalStr(j: Json) {
    j.JNull? || j.JStr?
  }

  /**
   * MandateCreate(...): currency defaults to "INR" and the bank fields to
   * None; a non-positive amount is rejected, and so are notes that are
   * neither null nor a string.
   */
  function MakeMandateCreate(customerId: int, amount: real, currency: Option<string>,
                             frequency: Option<string>, startDate: Option<Models.Timestamp>,
                             endDate: Option<Models.Timestamp>, notes: Json): (r: Result<MandateCreate, Exc>)
    ensures r.Ok? <==> amount > 0.0 && OptionalStr(notes)
    ensures amount <= 0.0 ==> r == Err(ValidationError("amount"))
    ensures amount > 0.0 && !OptionalStr(notes) ==> r == Err(ValidationError("notes"))
    ensures r.Ok? ==> r.value.customerId == customerId && r.value.amount == amount
                      && r.value.currency == currency.GetOr(DefaultCurrency)
    ensures r.Ok? ==> r.value.frequency == frequency && r.value.startDate == startDate
                      && r.value.endDate == endDate && r.value.notes == notes
    ensures r.Ok? ==> r.value.bankAccount.None? && r.value.ifscCode.None? && r.value.accountHolderName.None?
  {
    match CheckAmount(MandateBaseSchema, amount)
    case Err(e) => Err(e)
    case Ok(a) =>
      if !OptionalStr(notes) then Err(ValidationError("notes"))
      else Ok(MandateCreate(customerId, a, currency.GetOr(DefaultCurrency), frequency, startDate, endDate,
                            None, None, None, notes))
  }

  /**
   * PaymentCreate(...): currency defaults to "INR" and the transaction type to
   * RECURRING_PAYMENT; a non-positive amount is rejected, and so are notes
   * that are neither null nor a string.
   */
  function MakePaymentCreate(customerId: int, mandateId: Option<int>, amount: real,
                             currency: Option<string>, transactionType: Option<TransactionTypeEnum>,
                             description: Option<string>, receipt: Option<string>,
                             notes: Json): (r: Result<PaymentCreate, Exc>)
    ensures r.Ok? <==> amount > 0.0 && OptionalStr(notes)
    ensures amount <= 0.0 ==> r == Err(ValidationError("amount"))
    ensures amount > 0.0 && !OptionalStr(notes) ==> r == Err(ValidationError("notes"))
    ensures r.Ok? ==> r.value.currency == currency.GetOr(DefaultCurrency)
    ensures r.Ok? ==> r.value.transactionType == transactionType.GetOr(RECURRING_PAYMENT)
    ensures r.Ok? ==> r.value.amount == amount && r.value.customerId == customerId && r.value.mandateId == mandateId
    ensures r.Ok? ==> r.value.description == description && r.value.receipt == receipt && r.value.notes == notes
  {
    match CheckAmount(PaymentBaseSchema, amount)
    case Err(e) => Err(e)
    case Ok(a) =>
      if !OptionalStr(notes) then Err(ValidationError("notes"))
      else Ok(PaymentCreate(customerId, mandateId, a, currency.GetOr(DefaultCurrency), description, receipt,
                            notes, transactionType.GetOr(RECURRING_PAYMENT)))
  }

  /**
   * OrderCreate(...): currency defaults to "INR"; a non-positive amount is
   * rejected, and so are notes that are neither null nor a string.
   */
  function MakeOrderCreate(amount: real, currency: Option<string>, receipt: Option<string>,
                           notes: Json, customerId: Option<int>): (r: Result<OrderCreate, Exc>)
    ensures r.Ok? <==> amount > 0.0 && OptionalStr(notes)
    ensures amount <= 0.0 ==> r == Err(ValidationError("amount"))
    ensures amount > 0.0 && !OptionalStr(notes) ==> r == Err(ValidationError("notes"))
    ensures r.Ok? ==> r.value.currency == currency.GetOr(DefaultCurrency) && r.value.amount == amount
    ensures r.Ok? ==> r.value.receipt == receipt && r.value.notes == notes && r.value.customerId == customerId
  {
    match CheckAmount(OrderCreateSchema, amount)
    case Err(e) => Err(e)
    case Ok(a) =>
      if !OptionalStr(notes) then Err(ValidationError("notes"))
      else Ok(OrderCreate(a, currency.GetOr(DefaultCurrency), receipt, notes, customerId))
  }
}
