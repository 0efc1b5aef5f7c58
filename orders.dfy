/** The `Order` model: its columns and their constraints, the unsaved
    instance the loader builds, the database write that checks the
    constraints, `__str__`, the default newest-first ordering, and the
    `orders` table itself. */
module Orders {
  import opened Wrappers
  import opened Json
  import opened Calendar
  import opened Money

  const OrderIdMaxLength: nat := 100
  const CustomerIdMaxLength: nat := 100
  const CustomerNameMaxLength: nat := 255
  const StatusMaxLength: nat := 50

  /** The model default of `discount_amount`. */
  const DiscountDefault: Decimal := Zero

  /** A stored row of the `orders` table, without its surrogate key. */
  datatype Order = Order(
    orderId: string,
    customerId: string,
    customerName: string,
    createdAt: DateTime,
    date: Date,
    status: string,
    totalAmount: Decimal,
    subtotalAmount: Decimal,
    discountAmount: Decimal,
    rawData: Json)

  /** The column constraints the database enforces: the `varchar` lengths
      and the `numeric(10, 2)` bounds. */
  predicate FitsSchema(o: Order) {
    && |o.orderId| <= OrderIdMaxLength
    && |o.customerId| <= CustomerIdMaxLength
    && |o.customerName| <= CustomerNameMaxLength
    && |o.status| <= StatusMaxLength
    && FitsColumn(o.totalAmount)
    && FitsColumn(o.subtotalAmount)
    && FitsColumn(o.discountAmount)
  }

  /** An `Order` instance built in Python and not yet written. Its text
      attributes hold what the ORM will send for them: the text itself, or
      `None` for SQL NULL. */
  datatype Draft = Draft(
    orderId: Option<string>,
    customerId: Option<string>,
    customerName: Option<string>,
    createdAt: DateTime,
    date: Date,
    status: Option<string>,
    totalAmount: Decimal,
    subtotalAmount: Decimal,
    discountAmount: Decimal,
    rawData: Json)

  /** The instance a stored row reads back as. */
  function AsDraft(o: Order): Draft {
    Draft(Some(o.orderId), Some(o.customerId), Some(o.customerName), o.createdAt, o.date,
          Some(o.status), o.totalAmount, o.subtotalAmount, o.discountAmount, o.rawData)
  }

  /** A text column: NOT NULL, at most `maxLength` characters. */
  function TextColumn(value: Option<string>, column: string, maxLength: nat): (r: Result<string, Error>)
    ensures r.Ok? <==> value.Some? && |value.value| <= maxLength
    ensures r.Ok? ==> r.value == value.value
  {
    match value
    case None => Err(NotNullViolation(column))
    case Some(s) => if |s| <= maxLength then Ok(s) else Err(ValueTooLong(column))
  }

  /** A `numeric(10, 2)` column. */
  function NumericColumn(d: Decimal, column: string): (r: Result<Decimal, Error>)
    ensures r.Ok? <==> FitsColumn(d)
    ensures r.Ok? ==> r.value == d
  {
    if FitsColumn(d) then Ok(d) else Err(NumericOverflow(column))
  }

  /** Writing an instance (`save()` or one row of `bulk_create`): it is
      stored exactly when some row within the column constraints reads back
      as the instance, and then that row is what is stored. */
  function Save(d: Draft): (r: Result<Order, Error>)
    ensures r.Ok? ==> FitsSchema(r.value) && AsDraft(r.value) == d
    ensures r.Err? ==> forall o :: AsDraft(o) == d ==> !FitsSchema(o)
  {
    var orderId :- TextColumn(d.orderId, "order_id", OrderIdMaxLength);
    var customerId :- TextColumn(d.customerId, "customer_id", CustomerIdMaxLength);
    var customerName :- TextColumn(d.customerName, "customer_name", CustomerNameMaxLength);
    var status :- TextColumn(d.status, "status", StatusMaxLength);
    var total :- NumericColumn(d.totalAmount, "total_amount");
    var subtotal :- NumericColumn(d.subtotalAmount, "subtotal_amount");
    var discount :- NumericColumn(d.discountAmount, "discount_amount");
    Ok(Order(orderId, customerId, customerName, d.createdAt, d.date, status,
             total, subtotal, discount, d.rawData))
  }

  /** Saving a row that already fits gives the row back. */
  lemma SaveStoredRow(o: Order)
    requires FitsSchema(o)
    ensures Save(AsDraft(o)) == Ok(o)
  {
  }

  // ---------------------------------------------------------------------
  // __str__

  /** `str(order)`. */
  function Describe(o: Order): string {
    "Order " + o.orderId + " - " + o.customerName
  }

  /** The text starts with "Order ", then the order id, then " - ", then
      the customer name, and nothing else. */
  lemma DescribeLayout(o: Order)
    ensures |Describe(o)| == 9 + |o.orderId| + |o.customerName|
    ensures Describe(o)[..6] == "Order "
    ensures Describe(o)[6..6 + |o.orderId|] == o.orderId
    ensures Describe(o)[6 + |o.orderId|..9 + |o.orderId|] == " - "
    ensures Describe(o)[9 + |o.orderId|..] == o.customerName
  {
  }

  /** Two orders of the same customer name are told apart by their text
      exactly when their ids differ. */
  lemma {:induction false} DescribeSeparatesIds(a: Order, b: Order)
    requires a.customerName == b.customerName
    ensures Describe(a) == Describe(b) <==> a.orderId == b.orderId
  {
    if Describe(a) == Describe(b) {
      DescribeLayout(a);
      DescribeLayout(b);
      assert |a.orderId| == |b.orderId|;
    }
  }

  // ---------------------------------------------------------------------
  // Meta.ordering = ['-created_at']

  /** Newest first: no order is created after an order listed before it. */
  predicate NewestFirst(os: seq<Order>) {
    forall i, j :: 0 <= i < j < |os| ==> AtOrBefore(os[j].createdAt, os[i].createdAt)
  }

  /** Puts `o` into a newest-first list, before the orders not newer than it. */
  function InsertNewestFirst(o: Order, os: seq<Order>): (r: seq<Order>)
    requires NewestFirst(os)
    ensures NewestFirst(r)
    ensures multiset(r) == multiset(os) + multiset{o}
  {
    if os == [] then [o]
    else if AtOrBefore(os[0].createdAt, o.createdAt) then
      NewestInFront(o, os);
      [o] + os
    else
      var tail := InsertNewestFirst(o, os[1..]);
      OlderBehind(o, os, tail);
      [os[0]] + tail
  }

  /** An order at least as new as the first goes in front. */
  lemma NewestInFront(o: Order, os: seq<Order>)
    requires NewestFirst(os) && os != [] && AtOrBefore(os[0].createdAt, o.createdAt)
    ensures NewestFirst([o] + os)
  {
    var r := [o] + os;
    forall i, j | 0 <= i < j < |r| ensures AtOrBefore(r[j].createdAt, r[i].createdAt) {
      assert r[j] == os[j - 1];
      if i == 0 {
        AtOrBeforeIsTotalOrder(os[j - 1].createdAt, os[0].createdAt, o.createdAt);
      } else {
        assert r[i] == os[i - 1];
      }
    }
  }

  /** An order older than the first goes into the rest of the list. */
  lemma OlderBehind(o: Order, os: seq<Order>, tail: seq<Order>)
    requires NewestFirst(os) && os != [] && !AtOrBefore(os[0].createdAt, o.createdAt)
    requires NewestFirst(tail) && multiset(tail) == multiset(os[1..]) + multiset{o}
    ensures NewestFirst([os[0]] + tail)
    ensures multiset([os[0]] + tail) == multiset(os) + multiset{o}
  {
    assert os == [os[0]] + os[1..];
    AtOrBeforeIsTotalOrder(o.createdAt, os[0].createdAt, o.createdAt);
    var r := [os[0]] + tail;
    forall i, j | 0 <= i < j < |r| ensures AtOrBefore(r[j].createdAt, r[i].createdAt) {
      var x := tail[j - 1];
      assert r[j] == x;
      assert x in multiset(tail);
      if i == 0 {
        if x != o {
          assert x in multiset(os[1..]);
          var k :| 0 <= k < |os[1..]| && os[1..][k] == x;
          assert os[k + 1] == x;
        }
      } else {
        assert r[i] == tail[i - 1];
      }
    }
  }

  /** The rows in the model's default order. */
  function DefaultOrdering(os: seq<Order>): (r: seq<Order>)
    ensures NewestFirst(r)
    ensures multiset(r) == multiset(os)
  {
    if os == [] then []
    else
      var r := InsertNewestFirst(os[|os| - 1], DefaultOrdering(os[..|os| - 1]));
      assert os == os[..|os| - 1] + [os[|os| - 1]];
      r
  }

  // ---------------------------------------------------------------------
  // The table

  /** A row with its surrogate primary key `id`. */
  datatype Row = Row(id: nat, order: Order)

  /** The `orders` table as a value: rows keyed by the unique `order_id`,
      and the next surrogate key to hand out. */
  datatype Table = Table(rows: map<string, Row>, nextId: nat)

  /** What holds of a table the loader has written: each row sits under its
      own `order_id` (so `order_id` is unique), fits the columns, has a real
      calendar timestamp and carries its date, and has a surrogate key of its own below
      `nextId`. */
  predicate TableInvariant(t: Table) {
    && (forall k | k in t.rows ::
          && t.rows[k].order.orderId == k
          && FitsSchema(t.rows[k].order)
          && ValidDateTime(t.rows[k].order.createdAt)
          && t.rows[k].order.date == DateOf(t.rows[k].order.createdAt)
          && t.rows[k].id < t.nextId)
    && (forall k1, k2 | k1 in t.rows && k2 in t.rows && k1 != k2 :: t.rows[k1].id != t.rows[k2].id)
  }

  /** The live `orders` table, updated in place by the loader. */
  class OrderTable {
    var rows: map<string, Row>
    var nextId: nat

    ghost predicate Valid()
      reads this
    {
      TableInvariant(State())
    }

    function State(): Table
      reads this
    {
      Table(rows, nextId)
    }

    /** An empty table whose first surrogate key will be 1. */
    constructor ()
      ensures Valid() && rows == map[] && nextId == 1
    {
      rows := map[];
      nextId := 1;
    }
  }
}
