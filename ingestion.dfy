/** The order loader as functions: turning one raw order into an `Order`
    instance, choosing the list of orders in the feed, and the upsert run
    over a batch, from which the imperative loader is proved correct. */
module Ingestion {
  import opened Wrappers
  import opened Json
  import opened Calendar
  import opened Money
  import opened DateParsing
  import opened Orders

  /** `_cents_to_decimal` applied to a value from the JSON: `Decimal(value)`
      of an integer is exact. Every other value, text included, is an error
      here; Python would accept numeric text and floats, which this model
      leaves out. */
  function CentsToDecimalOf(v: Json): (r: Result<Decimal, Error>)
    ensures r.Ok? <==> v.JInt?
    ensures r.Ok? ==> Cents(r.value) == v.i
  {
    if v.JInt? then Ok(CentsToDecimal(v.i)) else Err(TypeError("conversion to Decimal"))
  }

  /** Whether the record has `createdAt.iso`, which `_prepare_order` reads without a
      default. */
  predicate HasCreatedAtIso(data: Json) {
    data.JObject? && "createdAt" in data.members
    && data.members["createdAt"].JObject? && "iso" in data.members["createdAt"].members
  }

  /** `_prepare_order`: one raw order object to an unsaved `Order`, in the
      order Python evaluates it, so the first exception raised is the one
      returned. */
  function PrepareOrder(data: Json, now: DateTime): (r: Result<Draft, Error>)
    ensures r.Ok? ==> HasCreatedAtIso(data)
    ensures data.JObject? && "createdAt" !in data.members ==> r == Err(KeyError("createdAt"))
    ensures r.Ok? ==> r.value.date == DateOf(r.value.createdAt)
    ensures r.Ok? ==> r.value.rawData == data
    ensures r.Ok? && ValidDateTime(now) ==> ValidDateTime(r.value.createdAt)
    ensures r.Ok? ==> r.value.createdAt == now || ValidDateTime(r.value.createdAt)
    ensures r.Ok? ==> r.value.orderId == ColumnText(Get(data.members, "id", JNull))
    ensures r.Ok? ==> var c := Get(data.members, "customer", JObject(map[]));
              && c.JObject?
              && r.value.customerId == ColumnText(Get(c.members, "_id", JString("")))
              && r.value.customerName == ColumnText(Get(c.members, "name", JString("")))
    ensures r.Ok? ==> r.value.status == ColumnText(Get(data.members, "status", JString("pending")))
    ensures r.Ok? && "subtotal_price" in data.members ==> data.members["subtotal_price"] == JInt(Cents(r.value.subtotalAmount))
    ensures r.Ok? && "total_discounts" in data.members ==> data.members["total_discounts"] == JInt(Cents(r.value.discountAmount))
  {
    var createdAtObject :- Subscript(data, "createdAt");
    var iso :- Subscript(createdAtObject, "iso");
    var createdAt :- ParseDateTime(iso, now);
    // `data['createdAt']['iso']` succeeded, so the record is a dict and `.get` on it cannot fail.
    var fields := data.members;
    var totalPrice :- CentsToDecimalOf(Get(fields, "totalPrice", JInt(0)));
    var customer := Get(fields, "customer", JObject(map[]));
    if !customer.JObject? then Err(AttributeError("get"))
    else
      // The default `total_price * 100` is the total in cents.
      var subtotal :- CentsToDecimalOf(Get(fields, "subtotal_price", JInt(Cents(totalPrice))));
      var discount :- CentsToDecimalOf(Get(fields, "total_discounts", JInt(0)));
      Ok(Draft(
        orderId := ColumnText(Get(fields, "id", JNull)),
        customerId := ColumnText(Get(customer.members, "_id", JString(""))),
        customerName := ColumnText(Get(customer.members, "name", JString(""))),
        createdAt := createdAt,
        date := DateOf(createdAt),
        status := ColumnText(Get(fields, "status", JString("pending"))),
        totalAmount := totalPrice,
        subtotalAmount := subtotal,
        discountAmount := discount,
        rawData := data))
  }

  /** `load_from_file`'s choice of orders: a top-level array is the list
      of orders; otherwise the `orders` member of the object, or an empty
      list without one. The loop of `bulk_create_orders` then iterates the
      chosen value: an empty text or object gives no orders, and a non-empty
      one only values that `_prepare_order` rejects. */
  function SelectOrders(data: Json): (r: Result<seq<Json>, Error>)
    ensures data.JArray? ==> r == Ok(data.items)
    ensures data.JObject? && "orders" !in data.members ==> r == Ok([])
    ensures (data.JObject? && "orders" in data.members && data.members["orders"].JArray?)
              ==> r == Ok(data.members["orders"].items)
    ensures !data.JArray? && !data.JObject? ==> r.Err?
  {
    match data
    case JArray(items) => Ok(items)
    case JObject(m) =>
      var orders := Get(m, "orders", JArray([]));
      (match orders
       case JArray(items) => Ok(items)
       case JObject(members) => if members == map[] then Ok([]) else Err(TypeError("string indices must be integers"))
       case JString(s) => if s == "" then Ok([]) else Err(TypeError("string indices must be integers"))
       case _ => Err(TypeError("object is not iterable")))
    case _ => Err(AttributeError("get"))
  }

  // ---------------------------------------------------------------------
  // bulk_create_orders

  datatype Counts = Counts(created: nat, updated: nat, total: nat)

  /** The loop's state: the table as the transaction sees it, the instances
      queued for the bulk insert, and the update counter. */
  datatype Run = Run(rows: map<string, Row>, pending: seq<Draft>, updated: nat)

  datatype Ingested = Ingested(counts: Counts, table: Table)

  /** Whether the instance's order id is already a key of the table, which
      is what the `filter(order_id=...)` lookup of `bulk_create_orders` decides. */
  predicate IsStored(d: Draft, rows: map<string, Row>) {
    d.orderId.Some? && d.orderId.value in rows
  }

  /** `_prepare_order` of each record. It reads nothing but the record and
      the clock, so preparing the whole batch up front gives the same
      instances and errors as the loop's call does one record at a time. */
  function PrepareAll(records: seq<Json>, now: DateTime): (r: seq<Result<Draft, Error>>)
    ensures |r| == |records|
  {
    if records == [] then []
    else PrepareAll(records[..|records| - 1], now) + [PrepareOrder(records[|records| - 1], now)]
  }

  /** Position `i` of the prepared batch is record `i` prepared. */
  lemma {:induction false} PrepareAllAt(records: seq<Json>, now: DateTime, i: nat)
    requires i < |records|
    ensures PrepareAll(records, now)[i] == PrepareOrder(records[i], now)
    decreases |records|
  {
    if i < |records| - 1 {
      var init := records[..|records| - 1];
      assert init[i] == records[i];
      PrepareAllAt(init, now, i);
    }
  }

  /** With a real clock reading, every prepared instance holds a real
      timestamp and its date. */
  lemma PrepareAllDated(records: seq<Json>, now: DateTime, ps: seq<Result<Draft, Error>>)
    requires ValidDateTime(now) && ps == PrepareAll(records, now)
    ensures forall i | 0 <= i < |ps| :: ps[i].Ok? ==>
              ValidDateTime(ps[i].value.createdAt) && ps[i].value.date == DateOf(ps[i].value.createdAt)
  {
    forall i | 0 <= i < |ps| && ps[i].Ok?
      ensures ValidDateTime(ps[i].value.createdAt) && ps[i].value.date == DateOf(ps[i].value.createdAt)
    {
      PrepareAllAt(records, now, i);
    }
  }

  /** One iteration of the loop: the record's instance, or the exception
      `_prepare_order` raised; a stored id is overwritten in place (every column,
      keeping the surrogate key) and saved at once; any other instance is
      queued. */
  function Step(run: Run, prepared: Result<Draft, Error>): (r: Result<Run, Error>)
    ensures r.Ok? ==> r.value.rows.Keys == run.rows.Keys
    ensures r.Ok? ==> |r.value.pending| + r.value.updated == |run.pending| + run.updated + 1
  {
    var d :- prepared;
    if IsStored(d, run.rows) then
      var key := d.orderId.value;
      var o :- Save(d);
      Ok(run.(rows := run.rows[key := Row(run.rows[key].id, o)], updated := run.updated + 1))
    else
      Ok(run.(pending := run.pending + [d]))
  }

  /** The loop over the prepared records, in order; the first exception
      ends it. */
  function Walk(run: Run, prepared: seq<Result<Draft, Error>>): (r: Result<Run, Error>)
    ensures r.Ok? ==> r.value.rows.Keys == run.rows.Keys
    ensures r.Ok? ==> |r.value.pending| + r.value.updated == |run.pending| + run.updated + |prepared|
  {
    if prepared == [] then Ok(run)
    else
      var before :- Walk(run, prepared[..|prepared| - 1]);
      Step(before, prepared[|prepared| - 1])
  }

  /** `bulk_create`: the queued instances are inserted in order, each with
      the next surrogate key; a NULL, an oversized value or an `order_id`
      that is already a key is a constraint violation. */
  function Insert(t: Table, pending: seq<Draft>): (r: Result<Table, Error>)
    ensures r.Ok? ==> r.value.nextId == t.nextId + |pending|
    ensures r.Ok? ==> t.rows.Keys <= r.value.rows.Keys
  {
    if pending == [] then Ok(t)
    else
      var before :- Insert(t, pending[..|pending| - 1]);
      var o :- Save(pending[|pending| - 1]);
      if o.orderId in before.rows then Err(UniqueViolation(o.orderId))
      else Ok(Table(before.rows[o.orderId := Row(before.nextId, o)], before.nextId + 1))
  }

  /** The transaction over prepared records: the loop, then the bulk insert
      of what was queued. An error anywhere means the transaction rolls back
      and the table is as it was. */
  function Upsert(t: Table, prepared: seq<Result<Draft, Error>>): (r: Result<Ingested, Error>)
    ensures r.Ok? ==> r.value.counts.total == r.value.counts.created + r.value.counts.updated
    ensures r.Ok? ==> r.value.counts.total == |prepared|
    ensures r.Ok? ==> t.rows.Keys <= r.value.table.rows.Keys
  {
    var run :- Walk(Run(t.rows, [], 0), prepared);
    var after :- Insert(Table(run.rows, t.nextId), run.pending);
    var created := |run.pending|;
    Ok(Ingested(Counts(created, run.updated, created + run.updated), after))
  }

  /** `bulk_create_orders` on a batch of records. */
  function Ingest(t: Table, records: seq<Json>, now: DateTime): (r: Result<Ingested, Error>)
    ensures r.Ok? ==> r.value.counts.total == r.value.counts.created + r.value.counts.updated
    ensures r.Ok? ==> r.value.counts.total == |records|
    ensures r.Ok? ==> t.rows.Keys <= r.value.table.rows.Keys
  {
    Upsert(t, PrepareAll(records, now))
  }
}
