/**
 * The database and the service layer over it (app/services/database_service.py).
 * A `Store` holds one map per table, from primary key to row, and the next
 * key SQLite hands out; each service call is one atomic update of those maps.
 * `gateway` is the one mock gateway client the services share.
 */
module Database {
  import opened Wrappers
  import opened Values
  import opened Text
  import opened Models
  import Schemas
  import Gateway

  /** The gateway identifiers the tasks derive from a row's own key. */
  const MandatePrefix: string := "mandate_mock_"
  const PaymentPrefix: string := "pay_mock_"

  /** A snapshot of every table and key counter, to say in one clause what a call changes. */
  datatype Tables = Tables(
    customers: map<int, Customer>,
    mandates: map<int, Mandate>,
    payments: map<int, Payment>,
    orders: map<int, Order>,
    webhooks: map<int, WebhookEvent>,
    nextCustomerId: int,
    nextMandateId: int,
    nextPaymentId: int,
    nextOrderId: int,
    nextWebhookId: int)

  ghost predicate KeysBelow<T>(m: map<int, T>, next: int) {
    1 <= next && forall k :: k in m ==> 1 <= k < next
  }

  predicate EmailTaken(customers: map<int, Customer>, email: string) {
    exists k | k in customers :: customers[k].email == email
  }

  predicate EmailTakenByOther(customers: map<int, Customer>, id: int, email: string) {
    exists k | k in customers :: k != id && customers[k].email == email
  }

  predicate RazorpayCustomerIdTaken(customers: map<int, Customer>, rid: string) {
    exists k | k in customers :: customers[k].razorpayCustomerId == Some(rid)
  }

  predicate RazorpayOrderIdTaken(orders: map<int, Order>, rid: string) {
    exists k | k in orders :: orders[k].razorpayOrderId == Some(rid)
  }

  predicate EventIdTaken(webhooks: map<int, WebhookEvent>, eventId: string) {
    exists k | k in webhooks :: webhooks[k].eventId == eventId
  }

  /** A mandate's gateway id is either unset or `mandate_mock_<its own key>`. */
  ghost predicate DerivedMandateIds(mandates: map<int, Mandate>) {
    forall k :: k in mandates ==> DerivedMandateId(k, mandates[k])
  }

  ghost predicate DerivedMandateId(k: int, m: Mandate) {
    k >= 0 && (m.razorpayMandateId == None || m.razorpayMandateId == Some(MockId(MandatePrefix, k)))
  }

  /** A payment's gateway id is either unset or `pay_mock_<its own key>`. */
  ghost predicate DerivedPaymentIds(payments: map<int, Payment>) {
    forall k :: k in payments ==> DerivedPaymentId(k, payments[k])
  }

  ghost predicate DerivedPaymentId(k: int, p: Payment) {
    k >= 0 && (p.razorpayPaymentId == None || p.razorpayPaymentId == Some(MockId(PaymentPrefix, k)))
  }

  /** Identifiers derived from the row key never collide: the UNIQUE constraint on razorpay_mandate_id holds. */
  lemma {:induction false} DerivedMandateIdsUnique(mandates: map<int, Mandate>)
    requires DerivedMandateIds(mandates)
    ensures UniqueRazorpayMandateIds(mandates)
  {
    forall a: int, b: int | a in mandates && b in mandates && mandates[a].razorpayMandateId.Some?
                  && mandates[a].razorpayMandateId == mandates[b].razorpayMandateId
      ensures a == b
    {
      assert DerivedMandateId(a, mandates[a]) && DerivedMandateId(b, mandates[b]);
      assert mandates[a].razorpayMandateId == Some(MockId(MandatePrefix, a));
      assert mandates[b].razorpayMandateId == Some(MockId(MandatePrefix, b));
      MockIdInjective(MandatePrefix, a, b);
    }
  }

  /** The same for razorpay_payment_id: a lookup by it finds at most one payment. */
  lemma {:induction false} DerivedPaymentIdsUnique(payments: map<int, Payment>)
    requires DerivedPaymentIds(payments)
    ensures UniqueRazorpayPaymentIds(payments)
  {
    forall a: int, b: int | a in payments && b in payments && payments[a].razorpayPaymentId.Some?
                  && payments[a].razorpayPaymentId == payments[b].razorpayPaymentId
      ensures a == b
    {
      assert DerivedPaymentId(a, payments[a]) && DerivedPaymentId(b, payments[b]);
      assert payments[a].razorpayPaymentId == Some(MockId(PaymentPrefix, a));
      assert payments[b].razorpayPaymentId == Some(MockId(PaymentPrefix, b));
      MockIdInjective(PaymentPrefix, a, b);
    }
  }

  // One invariant per table, so that a call that changes one table only
  // re-establishes that table's invariant.

  ghost predicate CustomersOk(customers: map<int, Customer>, next: int) {
    KeysBelow(customers, next) && UniqueEmails(customers) && UniqueRazorpayCustomerIds(customers)
  }

  ghost predicate MandatesOk(mandates: map<int, Mandate>, next: int, customers: map<int, Customer>) {
    && KeysBelow(mandates, next)
    && DerivedMandateIds(mandates)
    && (forall k :: k in mandates ==> mandates[k].customerId in customers)
  }

  ghost predicate PaymentsOk(payments: map<int, Payment>, next: int) {
    KeysBelow(payments, next) && DerivedPaymentIds(payments)
  }

  ghost predicate OrdersOk(orders: map<int, Order>, next: int) {
    KeysBelow(orders, next) && UniqueRazorpayOrderIds(orders)
  }

  ghost predicate WebhooksOk(webhooks: map<int, WebhookEvent>, next: int) {
    && KeysBelow(webhooks, next)
    && UniqueEventIds(webhooks)
    && (forall k :: k in webhooks ==> webhooks[k].processedAt == None)
  }

  /** A customer whose email and gateway id are unused can be inserted under the next key. */
  lemma CustomerInsertKeepsInvariant(customers: map<int, Customer>, next: int, c: Customer)
    requires CustomersOk(customers, next)
    requires !EmailTaken(customers, c.email)
    requires c.razorpayCustomerId.None? || !RazorpayCustomerIdTaken(customers, c.razorpayCustomerId.value)
    ensures CustomersOk(customers[next := c], next + 1)
  {
  }

  /** Rewriting a customer keeps the invariant when its new email is nobody else's and its gateway id stays. */
  lemma CustomerReplaceKeepsInvariant(customers: map<int, Customer>, next: int, id: int, c: Customer)
    requires CustomersOk(customers, next) && id in customers
    requires !EmailTakenByOther(customers, id, c.email)
    requires c.razorpayCustomerId == customers[id].razorpayCustomerId
    ensures CustomersOk(customers[id := c], next)
  {
  }

  /** Mandates stay valid when customers are only added or rewritten. */
  lemma MandatesKeepInvariantAsCustomersGrow(mandates: map<int, Mandate>, next: int,
                                             customers: map<int, Customer>, customers': map<int, Customer>)
    requires MandatesOk(mandates, next, customers) && customers.Keys <= customers'.Keys
    ensures MandatesOk(mandates, next, customers')
  {
  }

  lemma MandateInsertKeepsInvariant(mandates: map<int, Mandate>, next: int, customers: map<int, Customer>, m: Mandate)
    requires MandatesOk(mandates, next, customers)
    requires m.customerId in customers && m.razorpayMandateId == None
    ensures MandatesOk(mandates[next := m], next + 1, customers)
  {
  }

  /** Rewriting a mandate keeps the invariant when its customer exists and its gateway id is unset or derived from its key. */
  lemma MandateReplaceKeepsInvariant(mandates: map<int, Mandate>, next: int, customers: map<int, Customer>,
                                     id: int, m: Mandate)
    requires MandatesOk(mandates, next, customers) && id in mandates
    requires m.customerId in customers
    requires m.razorpayMandateId == None || (id >= 0 && m.razorpayMandateId == Some(MockId(MandatePrefix, id)))
    ensures MandatesOk(mandates[id := m], next, customers)
  {
  }

  lemma PaymentInsertKeepsInvariant(payments: map<int, Payment>, next: int, p: Payment)
    requires PaymentsOk(payments, next) && p.razorpayPaymentId == None
    ensures PaymentsOk(payments[next := p], next + 1)
  {
  }

  lemma PaymentReplaceKeepsInvariant(payments: map<int, Payment>, next: int, id: int, p: Payment)
    requires PaymentsOk(payments, next) && id in payments
    requires p.razorpayPaymentId == None || (id >= 0 && p.razorpayPaymentId == Some(MockId(PaymentPrefix, id)))
    ensures PaymentsOk(payments[id := p], next)
  {
  }

  lemma OrderInsertKeepsInvariant(orders: map<int, Order>, next: int, o: Order)
    requires OrdersOk(orders, next)
    requires o.razorpayOrderId.None? || !RazorpayOrderIdTaken(orders, o.razorpayOrderId.value)
    ensures OrdersOk(orders[next := o], next + 1)
  {
  }

  lemma OrderReplaceKeepsInvariant(orders: map<int, Order>, next: int, id: int, o: Order)
    requires OrdersOk(orders, next) && id in orders
    requires o.razorpayOrderId == orders[id].razorpayOrderId
    ensures OrdersOk(orders[id := o], next)
  {
  }

  lemma WebhookInsertKeepsInvariant(webhooks: map<int, WebhookEvent>, next: int, w: WebhookEvent)
    requires WebhooksOk(webhooks, next)
    requires !EventIdTaken(webhooks, w.eventId) && w.processedAt == None
    ensures WebhooksOk(webhooks[next := w], next + 1)
  {
  }

  lemma WebhookReplaceKeepsInvariant(webhooks: map<int, WebhookEvent>, next: int, id: int, w: WebhookEvent)
    requires WebhooksOk(webhooks, next) && id in webhooks
    requires w.eventId == webhooks[id].eventId && w.processedAt == None
    ensures WebhooksOk(webhooks[id := w], next)
  {
  }

  /**
   * The keys in [lo, hi) of the rows satisfying `keep`, in increasing order:
   * what a filtered query without ORDER BY returns from a table scanned in
   * key order.
   */
  function RowsWhere<T>(table: map<int, T>, keep: T -> bool, lo: int, hi: int): (ids: seq<int>)
    ensures |ids| <= if hi <= lo then 0 else hi - lo
    decreases hi - lo
  {
    if hi <= lo then []
    else RowsWhere(table, keep, lo, hi - 1) + (if hi - 1 in table && keep(table[hi - 1]) then [hi - 1] else [])
  }

  /** A query lists exactly the satisfying rows of its range. */
  lemma {:induction false} RowsWhereMembership<T>(table: map<int, T>, keep: T -> bool, lo: int, hi: int, x: int)
    ensures x in RowsWhere(table, keep, lo, hi) <==> lo <= x < hi && x in table && keep(table[x])
    decreases hi - lo
  {
    if lo < hi {
      RowsWhereMembership(table, keep, lo, hi - 1, x);
    }
  }

  /** A query lists keys in strictly increasing order, so none twice. */
  lemma {:induction false} RowsWhereIncreasing<T>(table: map<int, T>, keep: T -> bool, lo: int, hi: int)
    ensures forall i, j :: 0 <= i < j < |RowsWhere(table, keep, lo, hi)| ==>
              RowsWhere(table, keep, lo, hi)[i] < RowsWhere(table, keep, lo, hi)[j]
    decreases hi - lo
  {
    if lo < hi {
      var front := RowsWhere(table, keep, lo, hi - 1);
      RowsWhereIncreasing(table, keep, lo, hi - 1);
      forall i | 0 <= i < |front| ensures front[i] < hi - 1 {
        RowsWhereMembership(table, keep, lo, hi - 1, front[i]);
      }
    }
  }

  /** Scanning a shorter range lists a prefix of what the longer one lists. */
  lemma {:induction false} RowsWherePrefix<T>(table: map<int, T>, keep: T -> bool, lo: int, mid: int, hi: int)
    requires lo <= mid <= hi
    ensures RowsWhere(table, keep, lo, mid) <= RowsWhere(table, keep, lo, hi)
    decreases hi - mid
  {
    if mid < hi {
      RowsWherePrefix(table, keep, lo, mid, hi - 1);
    }
  }

  /** `.limit(n)` for n >= 0: the first n elements, or all of them. */
  function Take(s: seq<int>, n: nat): (t: seq<int>)
    ensures |t| == if |s| <= n then |s| else n
    ensures t <= s
  {
    if |s| <= n then s else s[..n]
  }

  /** int(x) on a Decimal: truncation toward zero. */
  function Trunc(x: real): (n: int)
    ensures x >= 0.0 ==> n as real <= x < n as real + 1.0
    ensures x < 0.0 ==> n as real - 1.0 < x <= n as real
  {
    if x >= 0.0 then x.Floor else -((-x).Floor)
  }

  /** The amount create_order sends the gateway: `int(amount * 100)`, in paise. */
  function ToPaise(amount: real): (paise: int)
    ensures amount >= 0.0 ==> 0 <= paise && paise as real <= amount * 100.0 < paise as real + 1.0
    ensures amount < 0.0 ==> paise <= 0 && paise as real - 1.0 < amount * 100.0 <= paise as real
  {
    Trunc(amount * 100.0)
  }

  /** An amount with at most two decimals (a whole number of paise) converts exactly. */
  lemma ToPaiseExact(paise: int)
    ensures ToPaise(paise as real / 100.0) == paise
  {
    assert paise as real / 100.0 * 100.0 == paise as real;
  }

  /** The value a nullable column takes under an update: the new value when the field was sent. */
  function Assign<T>(f: Field<T>, current: T): (v: T)
    ensures f.Unset? ==> v == current
    ensures f.Set? ==> v == f.value
  {
    match f
    case Unset => current
    case Set(x) => x
  }

  /**
   * The customer row update_customer leaves: every field that was sent is
   * written, the others are kept; a null name or email is refused by NOT NULL.
   */
  function ApplyCustomerUpdate(c: Customer, u: Schemas.CustomerUpdate): (r: Result<Customer, Exc>)
    ensures r.Err? <==> u.name == Set(None) || u.email == Set(None)
    ensures r.Ok? ==> r.value.razorpayCustomerId == c.razorpayCustomerId
    ensures r.Ok? ==> (u.name.Unset? ==> r.value.name == c.name) && (u.name.Set? ==> Some(r.value.name) == u.name.value)
    ensures r.Ok? ==> (u.email.Unset? ==> r.value.email == c.email) && (u.email.Set? ==> Some(r.value.email) == u.email.value)
    ensures r.Ok? ==> r.value.contact == Assign(u.contact, c.contact) && r.value.gstin == Assign(u.gstin, c.gstin)
  {
    if u.name == Set(None) then Err(IntegrityError("NOT NULL constraint failed: customers.name"))
    else if u.email == Set(None) then Err(IntegrityError("NOT NULL constraint failed: customers.email"))
    else
      Ok(c.(name := if u.name.Set? then u.name.value.value else c.name,
            email := if u.email.Set? then u.email.value.value else c.email,
            contact := Assign(u.contact, c.contact),
            gstin := Assign(u.gstin, c.gstin)))
  }

  /** Sending the same customer update twice leaves what sending it once left. */
  lemma CustomerUpdateIdempotent(c: Customer, u: Schemas.CustomerUpdate)
    requires ApplyCustomerUpdate(c, u).Ok?
    ensures ApplyCustomerUpdate(ApplyCustomerUpdate(c, u).value, u) == ApplyCustomerUpdate(c, u)
  {
  }

  /**
   * The mandate row update_mandate leaves: every field that was sent is
   * written (status included, possibly as NULL), the others are kept; a null
   * amount is refused by NOT NULL. A sent status is written as the column's
   * member with the same value, which is what the code intends; as written
   * it stores the schema member's value, which the column cannot read back
   * (see the Findings module).
   */
  function ApplyMandateUpdate(m: Mandate, u: Schemas.MandateUpdate): (r: Result<Mandate, Exc>)
    ensures r.Err? <==> u.amount == Set(None)
    ensures r.Ok? ==> r.value.(amount := m.amount, frequency := m.frequency, startDate := m.startDate,
                               endDate := m.endDate, status := m.status, notes := m.notes) == m
    ensures r.Ok? ==> (u.amount.Unset? ==> r.value.amount == m.amount) && (u.amount.Set? ==> Some(r.value.amount) == u.amount.value)
    ensures r.Ok? ==> r.value.frequency == Assign(u.frequency, m.frequency)
    ensures r.Ok? ==> r.value.startDate == Assign(u.startDate, m.startDate) && r.value.endDate == Assign(u.endDate, m.endDate)
    ensures r.Ok? ==> (u.status.Unset? ==> r.value.status == m.status)
    ensures r.Ok? && u.status.Set? ==>
              (r.value.status.Some? <==> u.status.value.Some?)
              && (r.value.status.Some? ==> r.value.status.value.Value() == u.status.value.value.Value())
              && (r.value.status.Some? ==> LoadMandateStatus(StoredMandateStatus(AsMember(r.value.status.value))) == Ok(r.value.status.value))
    ensures r.Ok? ==> (u.notes.Unset? ==> r.value.notes == m.notes) && (u.notes.Set? ==> r.value.notes == OptText(u.notes.value))
    ensures r.Ok? ==> r.value.razorpayMandateId == m.razorpayMandateId && r.value.customerId == m.customerId
    ensures r.Ok? ==> r.value.currency == m.currency && r.value.bankAccount == m.bankAccount
    ensures r.Ok? ==> r.value.ifscCode == m.ifscCode && r.value.accountHolderName == m.accountHolderName
  {
    if u.amount == Set(None) then Err(IntegrityError("NOT NULL constraint failed: mandates.amount"))
    else
      Ok(m.(amount := if u.amount.Set? then u.amount.value.value else m.amount,
            frequency := Assign(u.frequency, m.frequency),
            startDate := Assign(u.startDate, m.startDate),
            endDate := Assign(u.endDate, m.endDate),
            status := match u.status
                      case Unset => m.status
                      case Set(None) => None
                      case Set(Some(e)) => Some(Schemas.MandateStatusToModel(e)),
            notes := if u.notes.Set? then OptText(u.notes.value) else m.notes))
  }

  lemma MandateUpdateIdempotent(m: Mandate, u: Schemas.MandateUpdate)
    requires ApplyMandateUpdate(m, u).Ok?
    ensures ApplyMandateUpdate(ApplyMandateUpdate(m, u).value, u) == ApplyMandateUpdate(m, u)
  {
  }

  /** The payment whose razorpay_payment_id is `rid`, if there is one. */
  ghost function PaymentWith(payments: map<int, Payment>, rid: string): (r: Option<int>)
    ensures r.Some? ==> r.value in payments && payments[r.value].razorpayPaymentId == Some(rid)
    ensures r.None? ==> forall k :: k in payments ==> payments[k].razorpayPaymentId != Some(rid)
  {
    if exists k :: k in payments && payments[k].razorpayPaymentId == Some(rid) then
      var k :| k in payments && payments[k].razorpayPaymentId == Some(rid); Some(k)
    else None
  }

  /** The order whose razorpay_order_id is `rid`, if there is one. */
  ghost function OrderWith(orders: map<int, Order>, rid: string): (r: Option<int>)
    ensures r.Some? ==> r.value in orders && orders[r.value].razorpayOrderId == Some(rid)
    ensures r.None? ==> forall k :: k in orders ==> orders[k].razorpayOrderId != Some(rid)
  {
    if exists k :: k in orders && orders[k].razorpayOrderId == Some(rid) then
      var k :| k in orders && orders[k].razorpayOrderId == Some(rid); Some(k)
    else None
  }

  /** The webhook row whose event_id is `eventId`, if there is one. */
  ghost function WebhookWith(webhooks: map<int, WebhookEvent>, eventId: string): (r: Option<int>)
    ensures r.Some? ==> r.value in webhooks && webhooks[r.value].eventId == eventId
    ensures r.None? ==> forall k :: k in webhooks ==> webhooks[k].eventId != eventId
  {
    if exists k :: k in webhooks && webhooks[k].eventId == eventId then
      var k :| k in webhooks && webhooks[k].eventId == eventId; Some(k)
    else None
  }

  class Store {
    var customers: map<int, Customer>
    var mandates: map<int, Mandate>
    var payments: map<int, Payment>
    var orders: map<int, Order>
    var webhooks: map<int, WebhookEvent>
    var nextCustomerId: int
    var nextMandateId: int
    var nextPaymentId: int
    var nextOrderId: int
    var nextWebhookId: int
    const gateway: Gateway.MockRazorpayClient

    function State(): Tables
      reads this
    {
      Tables(customers, mandates, payments, orders, webhooks,
             nextCustomerId, nextMandateId, nextPaymentId, nextOrderId, nextWebhookId)
    }

    /**
     * The constraints of the schema (keys below the counters, every UNIQUE
     * column, a mandate's customer exists) and what the code keeps true of its
     * own writes (derived gateway ids; processed_at is never written).
     */
    ghost predicate Valid()
      reads this
    {
      && CustomersOk(customers, nextCustomerId)
      && MandatesOk(mandates, nextMandateId, customers)
      && PaymentsOk(payments, nextPaymentId)
      && OrdersOk(orders, nextOrderId)
      && WebhooksOk(webhooks, nextWebhookId)
    }

    /** Every gateway id stored in the database names a document of the shared gateway. */
    ghost predicate Linked()
      reads this, gateway
    {
      && gateway.Valid()
      && (forall k :: k in customers && customers[k].razorpayCustomerId.Some? ==>
            customers[k].razorpayCustomerId.value in gateway.customers)
      && (forall k :: k in orders && orders[k].razorpayOrderId.Some? ==>
            orders[k].razorpayOrderId.value in gateway.orders)
    }

    constructor()
      ensures Valid() && Linked() && fresh(gateway)
      ensures customers == map[] && mandates == map[] && payments == map[] && orders == map[] && webhooks == map[]
    {
      customers := map[];
      mandates := map[];
      payments := map[];
      orders := map[];
      webhooks := map[];
      nextCustomerId := 1;
      nextMandateId := 1;
      nextPaymentId := 1;
      nextOrderId := 1;
      nextWebhookId := 1;
      gateway := new Gateway.MockRazorpayClient();
    }

    /**
     * create_customer through a given gateway client: the gateway document is
     * created first, then the row; a clash on email or on the gateway id is
     * reported as "Customer with this email already exists" and adds no row,
     * while the gateway keeps its new document.
     */
    method CreateCustomerWith(client: Gateway.MockRazorpayClient, data: Schemas.CustomerCreate)
      returns (r: Result<int, Exc>)
      requires Valid() && client.Valid()
      modifies this, client
      ensures Valid() && client.Valid()
      ensures MockId(Gateway.CustomerPrefix, |old(client.customers)| + 1) in client.customers
      ensures old(client.customers).Keys <= client.customers.Keys && client.orders == old(client.orders)
      ensures r.Ok? <==>
                !EmailTaken(old(customers), data.email)
                && !RazorpayCustomerIdTaken(old(customers), MockId(Gateway.CustomerPrefix, |old(client.customers)| + 1))
      ensures r.Ok? ==>
                r.value == old(nextCustomerId)
                && State() == old(State()).(
                     customers := old(customers)[r.value := Customer(Some(MockId(Gateway.CustomerPrefix, |old(client.customers)| + 1)),
                                                                     data.name, data.email, data.contact, data.gstin)],
                     nextCustomerId := old(nextCustomerId) + 1)
      ensures r.Err? ==> r.error == ValueError("Customer with this email already exists") && State() == old(State())
    {
      var doc := client.CreateCustomer(map["name" := JStr(data.name), "email" := JStr(data.email),
                                           "contact" := OptText(data.contact), "gstin" := OptText(data.gstin),
                                           "notes" := JObj(map[])]);
      if EmailTaken(customers, data.email) || RazorpayCustomerIdTaken(customers, doc.id) {
        r := Err(ValueError("Customer with this email already exists"));
        return;
      }
      var id := nextCustomerId;
      var c := Customer(Some(doc.id), data.name, data.email, data.contact, data.gstin);
      CustomerInsertKeepsInvariant(customers, id, c);
      MandatesKeepInvariantAsCustomersGrow(mandates, nextMandateId, customers, customers[id := c]);
      customers := customers[id := c];
      nextCustomerId := nextCustomerId + 1;
      r := Ok(id);
    }

    /** create_customer through the shared gateway: refused exactly when the email is in use. */
    method CreateCustomer(data: Schemas.CustomerCreate) returns (r: Result<int, Exc>)
      requires Valid() && Linked()
      modifies this, gateway
      ensures Valid() && Linked()
      ensures r.Ok? <==> !EmailTaken(old(customers), data.email)
      ensures r.Ok? ==>
                r.value == old(nextCustomerId)
                && State() == old(State()).(
                     customers := old(customers)[r.value := Customer(Some(MockId(Gateway.CustomerPrefix, |old(gateway.customers)| + 1)),
                                                                     data.name, data.email, data.contact, data.gstin)],
                     nextCustomerId := old(nextCustomerId) + 1)
      ensures r.Err? ==> r.error == ValueError("Customer with this email already exists") && State() == old(State())
    {
      Gateway.NextIdIsFresh(Gateway.CustomerPrefix, gateway.customers);
      r := CreateCustomerWith(gateway, data);
    }

    /**
     * update_customer: None for an unknown id; otherwise the sent fields are
     * written, unless NOT NULL or the UNIQUE email refuses the commit.
     */
    method UpdateCustomer(id: int, u: Schemas.CustomerUpdate) returns (r: Result<Option<Customer>, Exc>)
      requires Valid()
      modifies this
      ensures Valid()
      ensures id !in old(customers) ==> r == Ok(None) && State() == old(State())
      ensures id in old(customers) && ApplyCustomerUpdate(old(customers)[id], u).Err? ==>
                r == Err(ApplyCustomerUpdate(old(customers)[id], u).error) && State() == old(State())
      ensures id in old(customers) && ApplyCustomerUpdate(old(customers)[id], u).Ok? ==>
                var c := ApplyCustomerUpdate(old(customers)[id], u).value;
                if EmailTakenByOther(old(customers), id, c.email) then
                  r == Err(IntegrityError("UNIQUE constraint failed: customers.email")) && State() == old(State())
                else
                  r == Ok(Some(c)) && State() == old(State()).(customers := old(customers)[id := c])
    {
      if id !in customers {
        return Ok(None);
      }
      var updated := ApplyCustomerUpdate(customers[id], u);
      if updated.Err? {
        return Err(updated.error);
      }
      var c := updated.value;
      if EmailTakenByOther(customers, id, c.email) {
        return Err(IntegrityError("UNIQUE constraint failed: customers.email"));
      }
      CustomerReplaceKeepsInvariant(customers, nextCustomerId, id, c);
      MandatesKeepInvariantAsCustomersGrow(mandates, nextMandateId, customers, customers[id := c]);
      customers := customers[id := c];
      r := Ok(Some(c));
    }

    /** create_mandate: refused for an unknown customer; otherwise the input is stored with status CREATED. */
    method CreateMandate(data: Schemas.MandateCreate) returns (r: Result<int, Exc>)
      requires Valid()
      modifies this
      ensures Valid()
      ensures data.customerId !in old(customers) ==>
                r == Err(ValueError("Customer not found")) && State() == old(State())
      ensures data.customerId in old(customers) ==>
                r == Ok(old(nextMandateId))
                && State() == old(State()).(
                     mandates := old(mandates)[old(nextMandateId) := NewMandate(
                       data.customerId, data.amount, data.currency, data.frequency, data.startDate,
                       data.endDate, data.bankAccount, data.ifscCode, data.accountHolderName, data.notes)],
                     nextMandateId := old(nextMandateId) + 1)
    {
      if data.customerId !in customers {
        return Err(ValueError("Customer not found"));
      }
      var id := nextMandateId;
      var m := NewMandate(data.customerId, data.amount, data.currency, data.frequency, data.startDate,
                          data.endDate, data.bankAccount, data.ifscCode, data.accountHolderName, data.notes);
      MandateInsertKeepsInvariant(mandates, id, customers, m);
      mandates := mandates[id := m];
      nextMandateId := nextMandateId + 1;
      r := Ok(id);
    }

    /** update_mandate: None for an unknown id; otherwise the sent fields are written, status included. */
    method UpdateMandate(id: int, u: Schemas.MandateUpdate) returns (r: Result<Option<Mandate>, Exc>)
      requires Valid()
      modifies this
      ensures Valid()
      ensures id !in old(mandates) ==> r == Ok(None) && State() == old(State())
      ensures id in old(mandates) && ApplyMandateUpdate(old(mandates)[id], u).Err? ==>
                r == Err(ApplyMandateUpdate(old(mandates)[id], u).error) && State() == old(State())
      ensures id in old(mandates) && ApplyMandateUpdate(old(mandates)[id], u).Ok? ==>
                r == Ok(Some(ApplyMandateUpdate(old(mandates)[id], u).value))
                && State() == old(State()).(mandates := old(mandates)[id := ApplyMandateUpdate(old(mandates)[id], u).value])
    {
      if id !in mandates {
        return Ok(None);
      }
      var updated := ApplyMandateUpdate(mandates[id], u);
      if updated.Err? {
        return Err(updated.error);
      }
      MandateReplaceKeepsInvariant(mandates, nextMandateId, customers, id, updated.value);
      mandates := mandates[id := updated.value];
      r := Ok(Some(updated.value));
    }

    /** The row create_order writes once the gateway has answered with id `rid` and status `status`. */
    method InsertOrder(rid: string, status: string, data: Schemas.OrderCreate) returns (r: Result<int, Exc>)
      requires Valid()
      modifies this
      ensures Valid()
      ensures r.Ok? <==> !RazorpayOrderIdTaken(old(orders), rid)
      ensures r.Ok? ==>
                r.value == old(nextOrderId)
                && State() == old(State()).(
                     orders := old(orders)[r.value := NewOrder(Some(rid), data.customerId, data.amount, data.currency,
                                                               data.receipt, Some(status), data.notes)],
                     nextOrderId := old(nextOrderId) + 1)
      ensures r.Err? ==> r.error == IntegrityError("UNIQUE constraint failed: orders.razorpay_order_id") && State() == old(State())
    {
      if RazorpayOrderIdTaken(orders, rid) {
        return Err(IntegrityError("UNIQUE constraint failed: orders.razorpay_order_id"));
      }
      var id := nextOrderId;
      var o := NewOrder(Some(rid), data.customerId, data.amount, data.currency, data.receipt, Some(status), data.notes);
      OrderInsertKeepsInvariant(orders, id, o);
      orders := orders[id := o];
      nextOrderId := nextOrderId + 1;
      r := Ok(id);
    }

    /**
     * create_order through a given gateway client: the gateway receives the
     * amount in whole paise (truncated toward zero), the row keeps the amount
     * in rupees and the gateway's status; a clash on the gateway id adds no row.
     */
    method CreateOrderWith(client: Gateway.MockRazorpayClient, data: Schemas.OrderCreate)
      returns (r: Result<int, Exc>)
      requires Valid() && client.Valid()
      modifies this, client
      ensures Valid() && client.Valid()
      ensures MockId(Gateway.OrderPrefix, |old(client.orders)| + 1) in client.orders
      ensures client.orders[MockId(Gateway.OrderPrefix, |old(client.orders)| + 1)].amount == JInt(ToPaise(data.amount))
      ensures old(client.orders).Keys <= client.orders.Keys && client.customers == old(client.customers)
      ensures r.Ok? <==> !RazorpayOrderIdTaken(old(orders), MockId(Gateway.OrderPrefix, |old(client.orders)| + 1))
      ensures r.Ok? ==>
                r.value == old(nextOrderId)
                && State() == old(State()).(
                     orders := old(orders)[r.value := NewOrder(Some(MockId(Gateway.OrderPrefix, |old(client.orders)| + 1)),
                                                               data.customerId, data.amount, data.currency,
                                                               data.receipt, Some("created"), data.notes)],
                     nextOrderId := old(nextOrderId) + 1)
      ensures r.Err? ==> r.error == IntegrityError("UNIQUE constraint failed: orders.razorpay_order_id") && State() == old(State())
    {
      var request := map["amount" := JInt(ToPaise(data.amount)), "currency" := JStr(data.currency),
                         "receipt" := OptText(data.receipt),
                         "notes" := if Truthy(data.notes) then data.notes else JObj(map[])];
      assert Get(request, "amount", JNull) == JInt(ToPaise(data.amount));
      var doc := client.CreateOrder(request);
      r := InsertOrder(doc.id, doc.status, data);
    }

    /** create_order through the shared gateway: its fresh id never clashes, so the order is always stored. */
    method CreateOrder(data: Schemas.OrderCreate) returns (r: Result<int, Exc>)
      requires Valid() && Linked()
      modifies this, gateway
      ensures Valid() && Linked()
      ensures MockId(Gateway.OrderPrefix, |old(gateway.orders)| + 1) in gateway.orders
      ensures gateway.orders[MockId(Gateway.OrderPrefix, |old(gateway.orders)| + 1)].amount == JInt(ToPaise(data.amount))
      ensures r == Ok(old(nextOrderId))
      ensures State() == old(State()).(
                orders := old(orders)[old(nextOrderId) := NewOrder(Some(MockId(Gateway.OrderPrefix, |old(gateway.orders)| + 1)),
                                                                   data.customerId, data.amount, data.currency,
                                                                   data.receipt, Some("created"), data.notes)],
                nextOrderId := old(nextOrderId) + 1)
    {
      Gateway.NextIdIsFresh(Gateway.OrderPrefix, gateway.orders);
      r := CreateOrderWith(gateway, data);
    }

    /**
     * create_payment: a new row with status CREATED and the requested
     * transaction type, written as the column's member with the same value
     * (as written, the schema member's value is stored, which the column
     * cannot read back; see the Findings module).
     */
    method CreatePayment(data: Schemas.PaymentCreate) returns (id: int)
      requires Valid()
      modifies this
      ensures Valid()
      ensures id == old(nextPaymentId)
      ensures State() == old(State()).(
                payments := old(payments)[id := NewPayment(data.customerId, data.mandateId, data.amount, data.currency,
                                                           Some(Schemas.TransactionTypeToModel(data.transactionType)),
                                                           data.description, data.receipt, data.notes)],
                nextPaymentId := old(nextPaymentId) + 1)
    {
      id := nextPaymentId;
      var p := NewPayment(data.customerId, data.mandateId, data.amount, data.currency,
                          Some(Schemas.TransactionTypeToModel(data.transactionType)),
                          data.description, data.receipt, data.notes);
      PaymentInsertKeepsInvariant(payments, id, p);
      payments := payments[id := p];
      nextPaymentId := nextPaymentId + 1;
    }

    /** create_webhook_event: stores the three fields as given; a repeated event_id is refused by UNIQUE. */
    method CreateWebhookEvent(data: Schemas.WebhookEventCreate) returns (r: Result<int, Exc>)
      requires Valid()
      modifies this
      ensures Valid()
      ensures r.Ok? <==> !EventIdTaken(old(webhooks), data.eventId)
      ensures r.Ok? ==>
                r.value == old(nextWebhookId)
                && State() == old(State()).(
                     webhooks := old(webhooks)[r.value := NewWebhookEvent(data.eventId, data.eventType, data.payload)],
                     nextWebhookId := old(nextWebhookId) + 1)
      ensures r.Err? ==> r.error == IntegrityError("UNIQUE constraint failed: webhook_events.event_id") && State() == old(State())
    {
      if EventIdTaken(webhooks, data.eventId) {
        return Err(IntegrityError("UNIQUE constraint failed: webhook_events.event_id"));
      }
      var id := nextWebhookId;
      var w := NewWebhookEvent(data.eventId, data.eventType, data.payload);
      WebhookInsertKeepsInvariant(webhooks, id, w);
      webhooks := webhooks[id := w];
      nextWebhookId := nextWebhookId + 1;
      r := Ok(id);
    }

    /** mark_webhook_processed: sets processed and the error (None clears it) on an existing row. */
    method MarkWebhookProcessed(id: int, error: Option<string>) returns (found: bool)
      requires Valid()
      modifies this
      ensures Valid()
      ensures found <==> id in old(webhooks)
      ensures found ==>
                State() == old(State()).(webhooks := old(webhooks)[id := old(webhooks)[id].(processed := true, processingError := error)])
      ensures !found ==> State() == old(State())
    {
      if id !in webhooks {
        return false;
      }
      var w := webhooks[id].(processed := true, processingError := error);
      WebhookReplaceKeepsInvariant(webhooks, nextWebhookId, id, w);
      webhooks := webhooks[id := w];
      found := true;
    }

    /** The query `Payment.razorpay_payment_id == rid ... .first()`. */
    method FindPayment(rid: string) returns (r: Option<int>)
      requires Valid()
      ensures r == PaymentWith(payments, rid)
    {
      DerivedPaymentIdsUnique(payments);
      if exists k | k in payments :: payments[k].razorpayPaymentId == Some(rid) {
        var k :| k in payments && payments[k].razorpayPaymentId == Some(rid);
        r := Some(k);
      } else {
        r := None;
      }
    }

    /** The query `Order.razorpay_order_id == rid ... .first()`. */
    method FindOrder(rid: string) returns (r: Option<int>)
      requires Valid()
      ensures r == OrderWith(orders, rid)
    {
      if exists k | k in orders :: orders[k].razorpayOrderId == Some(rid) {
        var k :| k in orders && orders[k].razorpayOrderId == Some(rid);
        r := Some(k);
      } else {
        r := None;
      }
    }

    /** The query `WebhookEvent.event_id == eventId ... .first()`. */
    method FindWebhook(eventId: string) returns (r: Option<int>)
      requires Valid()
      ensures r == WebhookWith(webhooks, eventId)
    {
      if exists k | k in webhooks :: webhooks[k].eventId == eventId {
        var k :| k in webhooks && webhooks[k].eventId == eventId;
        r := Some(k);
      } else {
        r := None;
      }
    }
  }
}
