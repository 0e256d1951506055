/**
 * The persisted entities (app/models/models.py): the three status enums, one
 * record per table with the column defaults a fresh row gets, and the UNIQUE
 * constraints of the tables as predicates over a table (a map from primary
 * key to row).
 */
module Models {
  import opened Wrappers
  import opened Values

  datatype MandateStatus = CREATED | AUTHORIZED | CONFIRMED | PAUSED | CANCELLED | EXPIRED {
    /** The enum member's name, which an `Enum(MandateStatus)` column stores. */
    function Name(): string {
      match this
      case CREATED => "CREATED"
      case AUTHORIZED => "AUTHORIZED"
      case CONFIRMED => "CONFIRMED"
      case PAUSED => "PAUSED"
      case CANCELLED => "CANCELLED"
      case EXPIRED => "EXPIRED"
    }

    /** The enum member's value, as stored and as reported in responses. */
    function Value(): string {
      match this
      case CREATED => "created"
      case AUTHORIZED => "authorized"
      case CONFIRMED => "confirmed"
      case PAUSED => "paused"
      case CANCELLED => "cancelled"
      case EXPIRED => "expired"
    }
  }

  datatype PaymentStatus = CREATED | AUTHORIZED | CAPTURED | REFUNDED | FAILED {
    function Value(): string {
      match this
      case CREATED => "created"
      case AUTHORIZED => "authorized"
      case CAPTURED => "captured"
      case REFUNDED => "refunded"
      case FAILED => "failed"
    }
  }

  datatype TransactionType = AUTHORIZATION | RECURRING_PAYMENT | REFUND {
    /** The enum member's name, which an `Enum(TransactionType)` column stores. */
    function Name(): string {
      match this
      case AUTHORIZATION => "AUTHORIZATION"
      case RECURRING_PAYMENT => "RECURRING_PAYMENT"
      case REFUND => "REFUND"
    }

    function Value(): string {
      match this
      case AUTHORIZATION => "authorization"
      case RECURRING_PAYMENT => "recurring_payment"
      case REFUND => "refund"
    }
  }

  const AllMandateStatuses: seq<MandateStatus> :=
    [MandateStatus.CREATED, MandateStatus.AUTHORIZED, MandateStatus.CONFIRMED,
     MandateStatus.PAUSED, MandateStatus.CANCELLED, MandateStatus.EXPIRED]

  const AllPaymentStatuses: seq<PaymentStatus> :=
    [PaymentStatus.CREATED, PaymentStatus.AUTHORIZED, PaymentStatus.CAPTURED,
     PaymentStatus.REFUNDED, PaymentStatus.FAILED]

  /** MandateStatus(value): the member with that value, if any. */
  function MandateStatusOf(v: string): (r: Option<MandateStatus>)
    ensures r.Some? ==> r.value.Value() == v
  {
    if v == "created" then Some(MandateStatus.CREATED)
    else if v == "authorized" then Some(MandateStatus.AUTHORIZED)
    else if v == "confirmed" then Some(MandateStatus.CONFIRMED)
    else if v == "paused" then Some(MandateStatus.PAUSED)
    else if v == "cancelled" then Some(MandateStatus.CANCELLED)
    else if v == "expired" then Some(MandateStatus.EXPIRED)
    else None
  }

  function PaymentStatusOf(v: string): (r: Option<PaymentStatus>)
    ensures r.Some? ==> r.value.Value() == v
  {
    if v == "created" then Some(PaymentStatus.CREATED)
    else if v == "authorized" then Some(PaymentStatus.AUTHORIZED)
    else if v == "captured" then Some(PaymentStatus.CAPTURED)
    else if v == "refunded" then Some(PaymentStatus.REFUNDED)
    else if v == "failed" then Some(PaymentStatus.FAILED)
    else None
  }

  function TransactionTypeOf(v: string): (r: Option<TransactionType>)
    ensures r.Some? ==> r.value.Value() == v
  {
    if v == "authorization" then Some(AUTHORIZATION)
    else if v == "recurring_payment" then Some(RECURRING_PAYMENT)
    else if v == "refund" then Some(REFUND)
    else None
  }

  /** Mandate status has exactly six members, with six different values, each read back by value. */
  lemma MandateStatusEnumeration()
    ensures |AllMandateStatuses| == 6
    ensures forall s: MandateStatus :: s in AllMandateStatuses && MandateStatusOf(s.Value()) == Some(s)
    ensures forall i, j :: 0 <= i < j < |AllMandateStatuses| ==>
              AllMandateStatuses[i].Value() != AllMandateStatuses[j].Value()
  {
    forall s: MandateStatus ensures s in AllMandateStatuses && MandateStatusOf(s.Value()) == Some(s) {
      match s
      case CREATED => assert s == AllMandateStatuses[0];
      case AUTHORIZED => assert s == AllMandateStatuses[1];
      case CONFIRMED => assert s == AllMandateStatuses[2];
      case PAUSED => assert s == AllMandateStatuses[3];
      case CANCELLED => assert s == AllMandateStatuses[4];
      case EXPIRED => assert s == AllMandateStatuses[5];
    }
  }

  /** Payment status has exactly five members, with five different values, each read back by value. */
  lemma PaymentStatusEnumeration()
    ensures |AllPaymentStatuses| == 5
    ensures forall s: PaymentStatus :: s in AllPaymentStatuses && PaymentStatusOf(s.Value()) == Some(s)
    ensures forall i, j :: 0 <= i < j < |AllPaymentStatuses| ==>
              AllPaymentStatuses[i].Value() != AllPaymentStatuses[j].Value()
  {
    forall s: PaymentStatus ensures s in AllPaymentStatuses && PaymentStatusOf(s.Value()) == Some(s) {
      match s
      case CREATED => assert s == AllPaymentStatuses[0];
      case AUTHORIZED => assert s == AllPaymentStatuses[1];
      case CAPTURED => assert s == AllPaymentStatuses[2];
      case REFUNDED => assert s == AllPaymentStatuses[3];
      case FAILED => assert s == AllPaymentStatuses[4];
    }
  }

  lemma TransactionTypeRoundTrip(t: TransactionType)
    ensures TransactionTypeOf(t.Value()) == Some(t)
  {
  }

  /**
   * What an `Enum(E)` column is assigned: a member of E, or any other
   * string. A member of a `str`-valued enum, such as the schema enums, is
   * such a string: its value.
   */
  datatype EnumInput<E> = AsMember(member: E) | AsText(text: string)

  /**
   * SQLAlchemy's Enum(MandateStatus) column on write: a member is stored by
   * its name; a string is stored as it is, unchecked.
   */
  function StoredMandateStatus(v: EnumInput<MandateStatus>): (stored: string)
    ensures v.AsMember? ==> stored == v.member.Name()
    ensures v.AsText? ==> stored == v.text
  {
    match v
    case AsMember(s) => s.Name()
    case AsText(t) => t
  }

  /** The Enum(MandateStatus) column on read: a stored name gives its member, anything else raises. */
  function LoadMandateStatus(stored: string): (r: Result<MandateStatus, Exc>)
    ensures r.Ok? ==> r.value.Name() == stored
    ensures r.Err? <==> forall s: MandateStatus :: s.Name() != stored
    ensures r.Err? ==> r.error == LookupError(stored, "mandatestatus", "CREATED, AUTHORIZED, CONFIRMED, ..., EXPIRED")
  {
    if stored == "CREATED" then Ok(MandateStatus.CREATED)
    else if stored == "AUTHORIZED" then Ok(MandateStatus.AUTHORIZED)
    else if stored == "CONFIRMED" then Ok(MandateStatus.CONFIRMED)
    else if stored == "PAUSED" then Ok(MandateStatus.PAUSED)
    else if stored == "CANCELLED" then Ok(MandateStatus.CANCELLED)
    else if stored == "EXPIRED" then Ok(MandateStatus.EXPIRED)
    else Err(LookupError(stored, "mandatestatus", "CREATED, AUTHORIZED, CONFIRMED, ..., EXPIRED"))
  }

  /** The Enum(TransactionType) column on write: a member by its name, a string as it is. */
  function StoredTransactionType(v: EnumInput<TransactionType>): (stored: string)
    ensures v.AsMember? ==> stored == v.member.Name()
    ensures v.AsText? ==> stored == v.text
  {
    match v
    case AsMember(t) => t.Name()
    case AsText(t) => t
  }

  /** The Enum(TransactionType) column on read: a stored name gives its member, anything else raises. */
  function LoadTransactionType(stored: string): (r: Result<TransactionType, Exc>)
    ensures r.Ok? ==> r.value.Name() == stored
    ensures r.Err? <==> forall t: TransactionType :: t.Name() != stored
    ensures r.Err? ==> r.error == LookupError(stored, "transactiontype", "AUTHORIZATION, RECURRING_PAYMENT, REFUND")
  {
    if stored == "AUTHORIZATION" then Ok(AUTHORIZATION)
    else if stored == "RECURRING_PAYMENT" then Ok(RECURRING_PAYMENT)
    else if stored == "REFUND" then Ok(REFUND)
    else Err(LookupError(stored, "transactiontype", "AUTHORIZATION, RECURRING_PAYMENT, REFUND"))
  }

  /** A member written to its Enum column is read back as itself. */
  lemma EnumColumnsRoundTrip(s: MandateStatus, t: TransactionType)
    ensures LoadMandateStatus(StoredMandateStatus(AsMember(s))) == Ok(s)
    ensures LoadTransactionType(StoredTransactionType(AsMember(t))) == Ok(t)
  {
  }

  /** Member names are upper case, so a text starting with a lower-case letter names no member. */
  lemma LowerCaseTextIsNoName(stored: string)
    requires |stored| > 0 && 'a' <= stored[0] <= 'z'
    ensures LoadMandateStatus(stored) == Err(LookupError(stored, "mandatestatus", "CREATED, AUTHORIZED, CONFIRMED, ..., EXPIRED"))
    ensures LoadTransactionType(stored) == Err(LookupError(stored, "transactiontype", "AUTHORIZATION, RECURRING_PAYMENT, REFUND"))
  {
    forall s: MandateStatus ensures s.Name() != stored {
      assert 'A' <= s.Name()[0] <= 'Z';
    }
    forall t: TransactionType ensures t.Name() != stored {
      assert 'A' <= t.Name()[0] <= 'Z';
    }
  }

  /** A DateTime column, kept as an opaque instant. */
  type Timestamp = int

  datatype Customer = Customer(
    razorpayCustomerId: Option<string>,
    name: string,
    email: string,
    contact: Option<string>,
    gstin: Option<string>)

  /** `status` is nullable: an update may write null into it. */
  datatype Mandate = Mandate(
    razorpayMandateId: Option<string>,
    customerId: int,
    amount: real,
    currency: string,
    status: Option<MandateStatus>,
    frequency: Option<string>,
    startDate: Option<Timestamp>,
    endDate: Option<Timestamp>,
    bankAccount: Option<string>,
    ifscCode: Option<string>,
    accountHolderName: Option<string>,
    notes: Json)

  /** `fee` and `tax` are major units; `errorCode`/`errorDescription` hold whatever the gateway sent (JNull is NULL). */
  datatype Payment = Payment(
    razorpayPaymentId: Option<string>,
    razorpayOrderId: Option<string>,
    customerId: int,
    mandateId: Option<int>,
    amount: real,
    currency: string,
    status: PaymentStatus,
    transactionType: TransactionType,
    description: Option<string>,
    receipt: Option<string>,
    notes: Json,
    fee: Option<real>,
    tax: Option<real>,
    errorCode: Json,
    errorDescription: Json)

  datatype Order = Order(
    razorpayOrderId: Option<string>,
    customerId: Option<int>,
    amount: real,
    currency: string,
    receipt: Option<string>,
    status: Option<string>,
    attempts: int,
    notes: Json)

  datatype WebhookEvent = WebhookEvent(
    eventId: string,
    eventType: string,
    payload: string,
    processed: bool,
    processingError: Option<string>,
    processedAt: Option<Timestamp>)

  /** A mandate row as inserted: status takes its default and no gateway id is set yet. */
  function NewMandate(customerId: int, amount: real, currency: string, frequency: Option<string>,
                      startDate: Option<Timestamp>, endDate: Option<Timestamp>,
                      bankAccount: Option<string>, ifscCode: Option<string>,
                      accountHolderName: Option<string>, notes: Json): (m: Mandate)
    ensures m.status == Some(MandateStatus.CREATED) && m.razorpayMandateId == None
    ensures m.customerId == customerId && m.amount == amount && m.currency == currency
    ensures m.frequency == frequency && m.startDate == startDate && m.endDate == endDate
    ensures m.bankAccount == bankAccount && m.ifscCode == ifscCode && m.accountHolderName == accountHolderName
    ensures m.notes == notes
  {
    Mandate(None, customerId, amount, currency, Some(MandateStatus.CREATED), frequency,
            startDate, endDate, bankAccount, ifscCode, accountHolderName, notes)
  }

  /**
   * A payment row as inserted: status CREATED, transaction type RECURRING_PAYMENT
   * unless one is given, and no gateway ids, fee, tax or error yet.
   */
  function NewPayment(customerId: int, mandateId: Option<int>, amount: real, currency: string,
                      transactionType: Option<TransactionType>, description: Option<string>,
                      receipt: Option<string>, notes: Json): (p: Payment)
    ensures p.status == PaymentStatus.CREATED
    ensures p.transactionType == transactionType.GetOr(RECURRING_PAYMENT)
    ensures p.razorpayPaymentId == None && p.razorpayOrderId == None
    ensures p.fee == None && p.tax == None && p.errorCode == JNull && p.errorDescription == JNull
    ensures p.customerId == customerId && p.mandateId == mandateId && p.amount == amount
    ensures p.currency == currency && p.description == description && p.receipt == receipt && p.notes == notes
  {
    Payment(None, None, customerId, mandateId, amount, currency, PaymentStatus.CREATED,
            transactionType.GetOr(RECURRING_PAYMENT), description, receipt, notes,
            None, None, JNull, JNull)
  }

  /** An order row as inserted: no attempts yet. */
  function NewOrder(razorpayOrderId: Option<string>, customerId: Option<int>, amount: real,
                    currency: string, receipt: Option<string>, status: Option<string>,
                    notes: Json): (o: Order)
    ensures o.attempts == 0
    ensures o.razorpayOrderId == razorpayOrderId && o.amount == amount && o.status == status
    ensures o.customerId == customerId && o.currency == currency && o.receipt == receipt && o.notes == notes
  {
    Order(razorpayOrderId, customerId, amount, currency, receipt, status, 0, notes)
  }

  /** A webhook row as inserted: unprocessed, with no error and no processing time. */
  function NewWebhookEvent(eventId: string, eventType: string, payload: string): (w: WebhookEvent)
    ensures !w.processed && w.processingError == None && w.processedAt == None
    ensures w.eventId == eventId && w.eventType == eventType && w.payload == payload
  {
    WebhookEvent(eventId, eventType, payload, false, None, None)
  }

  // The UNIQUE constraints. A NULL never collides with anything.

  ghost predicate UniqueEmails(customers: map<int, Customer>) {
    forall a, b :: a in customers && b in customers && customers[a].email == customers[b].email ==> a == b
  }

  ghost predicate UniqueRazorpayCustomerIds(customers: map<int, Customer>) {
    forall a, b ::
      (a in customers && b in customers && customers[a].razorpayCustomerId.Some? && customers[a].razorpayCustomerId == customers[b].razorpayCustomerId) ==> a == b
  }

  ghost predicate UniqueRazorpayMandateIds(mandates: map<int, Mandate>) {
    forall a, b ::
      (a in mandates && b in mandates && mandates[a].razorpayMandateId.Some? && mandates[a].razorpayMandateId == mandates[b].razorpayMandateId) ==> a == b
  }

  ghost predicate UniqueRazorpayPaymentIds(payments: map<int, Payment>) {
    forall a, b ::
      (a in payments && b in payments && payments[a].razorpayPaymentId.Some? && payments[a].razorpayPaymentId == payments[b].razorpayPaymentId) ==> a == b
  }

  ghost predicate UniqueRazorpayOrderIds(orders: map<int, Order>) {
    forall a, b ::
      (a in orders && b in orders && orders[a].razorpayOrderId.Some? && orders[a].razorpayOrderId == orders[b].razorpayOrderId) ==> a == b
  }

  ghost predicate UniqueEventIds(webhooks: map<int, WebhookEvent>) {
    forall a, b :: a in webhooks && b in webhooks && webhooks[a].eventId == webhooks[b].eventId ==> a == b
  }

  /** `mandate.status.value`, which raises when the status is NULL. */
  function StatusValue(s: Option<MandateStatus>): (r: Result<string, Exc>)
    ensures r.Ok? <==> s.Some?
    ensures s.Some? ==> r.value == s.value.Value()
  {
    match s
    case Some(st) => Ok(st.Value())
    case None => Err(NoValueAttribute)
  }
}
