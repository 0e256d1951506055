/**
 * The payment gateway as the core sees it (app/services/razorpay_service.py):
 * the in-memory MockRazorpayClient that development builds use, the choice
 * between it and the live client, and the live client's refund body rule.
 * The live client's HTTP exchange is not part of this model.
 */
module Gateway {
  import opened Wrappers
  import opened Values
  import opened Text

  /** The fixed created_at every mock document carries. */
  const MockCreatedAt: int := 1234567890

  const CustomerPrefix: string := "cust_mock_"
  const OrderPrefix: string := "order_mock_"
  const RefundPrefix: string := "rfnd_mock_"

  /** A customer document; the request's fields are copied as sent (absent ones as null). */
  datatype CustomerDoc = CustomerDoc(
    id: string,
    name: Json,
    email: Json,
    contact: Json,
    gstin: Json,
    notes: Json,
    createdAt: int)

  /** An order document; `amount` is whatever the request sent (the services send integer paise). */
  datatype OrderDoc = OrderDoc(
    id: string,
    amount: Json,
    amountPaid: int,
    amountDue: Json,
    currency: Json,
    receipt: Json,
    status: string,
    attempts: int,
    notes: Json,
    createdAt: int)

  datatype RefundDoc = RefundDoc(
    id: string,
    amount: Option<int>,
    currency: string,
    paymentId: string,
    status: string,
    createdAt: int)

  /**
   * The keys of a document map are identifiers `<prefix><k>` with 1 <= k <= the
   * map's size: what `len(...) + 1` numbering over a map that never shrinks leaves.
   */
  ghost predicate CountedIds<T>(prefix: string, m: map<string, T>) {
    forall k :: k in m ==> ParseMockId(prefix, k).Some? && 1 <= ParseMockId(prefix, k).value <= |m|
  }

  /** The next identifier `<prefix><size + 1>` is not yet a key. */
  lemma {:induction false} NextIdIsFresh<T>(prefix: string, m: map<string, T>)
    requires CountedIds(prefix, m)
    ensures MockId(prefix, |m| + 1) !in m
  {
    MockIdRoundTrip(prefix, |m| + 1);
  }

  /** Adding the next identifier keeps the numbering. */
  lemma {:induction false} NextIdKeepsCounting<T>(prefix: string, m: map<string, T>, v: T)
    requires CountedIds(prefix, m)
    ensures CountedIds(prefix, m[MockId(prefix, |m| + 1) := v])
    ensures |m[MockId(prefix, |m| + 1) := v]| == |m| + 1
  {
    var id := MockId(prefix, |m| + 1);
    NextIdIsFresh(prefix, m);
    MockIdRoundTrip(prefix, |m| + 1);
    var m' := m[id := v];
    assert m'.Keys == m.Keys + {id};
    forall k | k in m'
      ensures ParseMockId(prefix, k).Some? && 1 <= ParseMockId(prefix, k).value <= |m'|
    {
      if k != id {
        assert k in m;
      }
    }
  }

  class MockRazorpayClient {
    var customers: map<string, CustomerDoc>
    var orders: map<string, OrderDoc>
    /** Never filled by any method; capture_payment reads and updates it. */
    var payments: map<string, map<string, Json>>

    ghost predicate Valid()
      reads this
    {
      && CountedIds(CustomerPrefix, customers)
      && (forall k :: k in customers ==> customers[k].id == k)
      && CountedIds(OrderPrefix, orders)
      && (forall k :: k in orders ==> orders[k].id == k)
    }

    constructor()
      ensures Valid()
      ensures customers == map[] && orders == map[] && payments == map[]
    {
      customers := map[];
      orders := map[];
      payments := map[];
    }

    /** create_customer: stores and returns a document under the next fresh id. */
    method CreateCustomer(data: map<string, Json>) returns (doc: CustomerDoc)
      requires Valid()
      modifies this
      ensures Valid()
      ensures doc.id == MockId(CustomerPrefix, |old(customers)| + 1)
      ensures doc.id !in old(customers)
      ensures customers == old(customers)[doc.id := doc]
      ensures |customers| == |old(customers)| + 1
      ensures doc.name == Get(data, "name", JNull) && doc.email == Get(data, "email", JNull)
      ensures doc.contact == Get(data, "contact", JNull) && doc.gstin == Get(data, "gstin", JNull)
      ensures doc.notes == Get(data, "notes", JObj(map[])) && doc.createdAt == MockCreatedAt
      ensures orders == old(orders) && payments == old(payments)
    {
      var id := MockId(CustomerPrefix, |customers| + 1);
      NextIdIsFresh(CustomerPrefix, customers);
      doc := CustomerDoc(id, Get(data, "name", JNull), Get(data, "email", JNull),
                         Get(data, "contact", JNull), Get(data, "gstin", JNull),
                         Get(data, "notes", JObj(map[])), MockCreatedAt);
      NextIdKeepsCounting(CustomerPrefix, customers, doc);
      customers := customers[id := doc];
    }

    /**
     * create_order: stores and returns a document under the next fresh id,
     * with nothing paid, the whole amount due, status "created", no attempts
     * and currency "INR" unless the request names one.
     */
    method CreateOrder(data: map<string, Json>) returns (doc: OrderDoc)
      requires Valid()
      modifies this
      ensures Valid()
      ensures doc.id == MockId(OrderPrefix, |old(orders)| + 1)
      ensures doc.id !in old(orders)
      ensures orders == old(orders)[doc.id := doc]
      ensures |orders| == |old(orders)| + 1
      ensures doc.amount == Get(data, "amount", JNull) && doc.amountDue == doc.amount && doc.amountPaid == 0
      ensures doc.currency == Get(data, "currency", JStr("INR"))
      ensures doc.status == "created" && doc.attempts == 0
      ensures doc.receipt == Get(data, "receipt", JNull) && doc.notes == Get(data, "notes", JObj(map[]))
      ensures customers == old(customers) && payments == old(payments)
    {
      var id := MockId(OrderPrefix, |orders| + 1);
      NextIdIsFresh(OrderPrefix, orders);
      doc := OrderDoc(id, Get(data, "amount", JNull), 0, Get(data, "amount", JNull),
                      Get(data, "currency", JStr("INR")), Get(data, "receipt", JNull),
                      "created", 0, Get(data, "notes", JObj(map[])), MockCreatedAt);
      NextIdKeepsCounting(OrderPrefix, orders, doc);
      orders := orders[id := doc];
    }

    /** get_customer: the stored document, or None standing for the empty document. */
    function GetCustomer(id: string): (r: Option<CustomerDoc>)
      reads this
      ensures r.Some? <==> id in customers
      ensures r.Some? ==> r.value == customers[id]
      ensures Valid() && r.Some? ==> r.value.id == id
    {
      if id in customers then Some(customers[id]) else None
    }

    /** get_order: the stored document, or None standing for the empty document. */
    function GetOrder(id: string): (r: Option<OrderDoc>)
      reads this
      ensures r.Some? <==> id in orders
      ensures r.Some? ==> r.value == orders[id]
      ensures Valid() && r.Some? ==> r.value.id == id
    {
      if id in orders then Some(orders[id]) else None
    }

    /** get_payment: the stored document, or the empty one. */
    function GetPayment(id: string): (r: map<string, Json>)
      reads this
      ensures id !in payments ==> r == map[]
      ensures id in payments ==> r == payments[id]
    {
      if id in payments then payments[id] else map[]
    }

    /**
     * capture_payment: a stored, non-empty payment document gets status
     * "captured" and the given amount; anything else is returned unchanged.
     */
    method CapturePayment(id: string, amount: int) returns (doc: map<string, Json>)
      modifies this
      ensures id in old(payments) && old(payments)[id] != map[] ==>
                doc == old(payments)[id]["status" := JStr("captured")]["amount" := JInt(amount)]
                && payments == old(payments)[id := doc]
      ensures !(id in old(payments) && old(payments)[id] != map[]) ==>
                doc == old(GetPayment(id)) && payments == old(payments)
      ensures customers == old(customers) && orders == old(orders)
    {
      doc := GetPayment(id);
      if doc != map[] {
        doc := doc["status" := JStr("captured")]["amount" := JInt(amount)];
        payments := payments[id := doc];
      }
    }

    /** refund_payment: a processed refund in INR, numbered after the stored payments; nothing is stored. */
    method RefundPayment(paymentId: string, amount: Option<int>) returns (doc: RefundDoc)
      ensures doc.id == MockId(RefundPrefix, |payments| + 1)
      ensures doc.status == "processed" && doc.currency == "INR"
      ensures doc.paymentId == paymentId && doc.amount == amount
    {
      doc := RefundDoc(MockId(RefundPrefix, |payments| + 1), amount, "INR", paymentId, "processed", MockCreatedAt);
    }
  }

  /** Which client get_razorpay_client builds. */
  datatype ClientKind = Mock | Live

  /** get_razorpay_client: the mock exactly in development or with debug on. */
  function ClientFor(environment: string, debug: bool): (k: ClientKind)
    ensures k == Mock <==> environment == "development" || debug
  {
    if environment == "development" || debug then Mock else Live
  }

  /** The live refund_payment request body: "amount" only when the amount is truthy, so 0 is left out. */
  function RefundBody(amount: Option<int>): (body: map<string, Json>)
    ensures "amount" in body <==> amount.Some? && amount.value != 0
    ensures "amount" in body ==> body["amount"] == JInt(amount.value)
    ensures body.Keys <= {"amount"}
  {
    if amount.Some? && amount.value != 0 then map["amount" := JInt(amount.value)] else map[]
  }
}
