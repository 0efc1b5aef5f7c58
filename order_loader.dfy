/** `OrderLoader`: the imperative loader. `bulk_create_orders` runs its loop
    and the bulk insert against the live table inside one transaction, and
    is proved to do exactly what `Ingestion.Ingest` describes: on success
    the table is the committed one and the counters are returned, on any
    exception the table is rolled back to what it was. */
module OrderLoader {
  import opened Wrappers
  import opened Json
  import opened Calendar
  import opened DateParsing
  import opened Orders
  import opened Ingestion
  import opened IngestProperties
  import opened IngestTheorems

  /** `_parse_datetime`: falsy input is the current time; otherwise the
      layouts are tried in order and the first that matches wins; text no
      layout matches is the current time too. */
  method ParseDatetime(dateStr: Json, now: DateTime) returns (r: Result<DateTime, Error>)
    ensures r == ParseDateTime(dateStr, now)
  {
    if !Truthy(dateStr) {
      return Ok(now);
    }
    if !dateStr.JString? {
      return Err(TypeError("strptime() argument 1 must be str"));
    }
    var s := dateStr.s;
    var i := 0;
    while i < |Layouts|
      invariant 0 <= i <= |Layouts|
      invariant FirstMatch(Layouts[i..], s) == FirstMatch(Layouts, s)
    {
      var attempt := TryLayout(Layouts[i], s);
      assert Layouts[i..][0] == Layouts[i] && Layouts[i..][1..] == Layouts[i + 1..];
      if attempt.Some? {
        return Ok(attempt.value);
      }
      i := i + 1;
    }
    return Ok(now);
  }

  /** `Ingest` on the records is `Upsert` on their prepared forms. */
  lemma IngestIsUpsert(t: Table, records: seq<Json>, now: DateTime, ps: seq<Result<Draft, Error>>)
    requires ps == PrepareAll(records, now)
    ensures Ingest(t, records, now) == Upsert(t, ps)
  {
  }

  /** The three ways `Upsert` ends, one stage at a time. */
  lemma UpsertWalkFails(t: Table, ps: seq<Result<Draft, Error>>)
    requires Walk(Run(t.rows, [], 0), ps).Err?
    ensures Upsert(t, ps) == Err(Walk(Run(t.rows, [], 0), ps).error)
  {
  }

  lemma UpsertInsertFails(t: Table, ps: seq<Result<Draft, Error>>, run: Run)
    requires Walk(Run(t.rows, [], 0), ps) == Ok(run)
    requires Insert(Table(run.rows, t.nextId), run.pending).Err?
    ensures Upsert(t, ps) == Err(Insert(Table(run.rows, t.nextId), run.pending).error)
  {
  }

  lemma UpsertCommits(t: Table, ps: seq<Result<Draft, Error>>, run: Run, after: Table)
    requires Walk(Run(t.rows, [], 0), ps) == Ok(run)
    requires Insert(Table(run.rows, t.nextId), run.pending) == Ok(after)
    ensures Upsert(t, ps) == Ok(Ingested(Counts(|run.pending|, run.updated, |run.pending| + run.updated), after))
  {
  }

  /** `Order.objects.bulk_create(orders)`: one `INSERT` of the saved form
      of every queued order, numbered in queue order. The statement is
      atomic: a value a column cannot hold, or an `order_id` already in the
      table, aborts it and leaves the table as it was. */
  method BulkCreate(table: OrderTable, orders: seq<Draft>) returns (r: Result<(), Error>)
    modifies table
    ensures var spec := Insert(old(table.State()), orders);
      && (spec.Ok? ==> r.Ok? && table.State() == spec.value)
      && (spec.Err? ==> r == Err(spec.error) && table.State() == old(table.State()))
  {
    var before := table.State();
    var j := 0;
    while j < |orders|
      invariant 0 <= j <= |orders|
      invariant Insert(before, orders[..j]) == Ok(table.State())
    {
      InsertSnoc(before, orders, j, table.State());
      var saved := Save(orders[j]);
      if saved.Err? {
        InsertErrPersists(before, orders, j + 1);
        table.rows, table.nextId := before.rows, before.nextId;
        return Err(saved.error);
      }
      var o := saved.value;
      if o.orderId in table.rows {
        InsertErrPersists(before, orders, j + 1);
        table.rows, table.nextId := before.rows, before.nextId;
        return Err(UniqueViolation(o.orderId));
      }
      table.rows := table.rows[o.orderId := Row(table.nextId, o)];
      table.nextId := table.nextId + 1;
      j := j + 1;
    }
    assert orders[..j] == orders;
    return Ok(());
  }

  /** The bulk insert, one instance further. */
  lemma InsertSnoc(t: Table, orders: seq<Draft>, j: nat, mid: Table)
    requires j < |orders| && Insert(t, orders[..j]) == Ok(mid)
    ensures Save(orders[j]).Err? ==> Insert(t, orders[..j + 1]) == Err(Save(orders[j]).error)
    ensures Save(orders[j]).Ok? && Save(orders[j]).value.orderId in mid.rows ==>
              Insert(t, orders[..j + 1]) == Err(UniqueViolation(Save(orders[j]).value.orderId))
    ensures Save(orders[j]).Ok? && Save(orders[j]).value.orderId !in mid.rows ==>
              var o := Save(orders[j]).value;
              Insert(t, orders[..j + 1]) == Ok(Table(mid.rows[o.orderId := Row(mid.nextId, o)], mid.nextId + 1))
  {
    assert orders[..j + 1][..j] == orders[..j];
  }

  /** The loop, one record further. */
  lemma WalkSnoc(run0: Run, ps: seq<Result<Draft, Error>>, i: nat, before: Run)
    requires i < |ps| && Walk(run0, ps[..i]) == Ok(before)
    ensures Walk(run0, ps[..i + 1]) == Step(before, ps[i])
  {
    assert ps[..i + 1][..i] == ps[..i];
  }

  /** The loop's call of `_prepare_order` on the record at position `i`, which is
      that position of the batch prepared up front. */
  method PrepareRecord(ordersData: seq<Json>, now: DateTime, i: nat, ghost ps: seq<Result<Draft, Error>>)
    returns (r: Result<Draft, Error>)
    requires i < |ordersData| && ps == PrepareAll(ordersData, now)
    ensures r == ps[i]
  {
    r := PrepareOrder(ordersData[i], now);
    PrepareAllAt(ordersData, now, i);
  }

  /** One pass of the loop body of `bulk_create_orders` on a prepared instance: a
      stored `order_id` has its row overwritten and saved at once, any other
      instance is queued. */
  method SaveOrQueueOne(table: OrderTable, orderObj: Draft, ordersToCreate: seq<Draft>, updatedCount: nat)
    returns (r: Result<(seq<Draft>, nat), Error>)
    modifies table
    ensures table.nextId == old(table.nextId)
    ensures var spec := Step(Run(old(table.rows), ordersToCreate, updatedCount), Ok(orderObj));
      && (spec.Ok? ==> r == Ok((spec.value.pending, spec.value.updated)) && table.rows == spec.value.rows)
      && (spec.Err? ==> r == Err(spec.error))
  {
    if IsStored(orderObj, table.rows) {
      var key := orderObj.orderId.value;
      var saved := Save(orderObj);
      if saved.Err? {
        return Err(saved.error);
      }
      table.rows := table.rows[key := Row(table.rows[key].id, saved.value)];
      return Ok((ordersToCreate, updatedCount + 1));
    }
    return Ok((ordersToCreate + [orderObj], updatedCount));
  }

  /** The loop of `bulk_create_orders`: each record is
      prepared and then stored or queued. The first exception ends the
      loop; what it has written by then is left to the enclosing
      transaction to undo. */
  method SaveOrQueue(table: OrderTable, ordersData: seq<Json>, now: DateTime, ghost ps: seq<Result<Draft, Error>>)
    returns (r: Result<(seq<Draft>, nat), Error>)
    requires ps == PrepareAll(ordersData, now)
    modifies table
    ensures table.nextId == old(table.nextId)
    ensures var spec := Walk(Run(old(table.rows), [], 0), ps);
      && (spec.Ok? ==> r == Ok((spec.value.pending, spec.value.updated)) && table.rows == spec.value.rows)
      && (spec.Err? ==> r == Err(spec.error))
  {
    ghost var run0 := Run(table.rows, [], 0);
    var ordersToCreate: seq<Draft> := [];
    var updatedCount: nat := 0;
    var i := 0;
    while i < |ordersData|
      invariant 0 <= i <= |ordersData|
      invariant table.nextId == old(table.nextId)
      invariant Walk(run0, ps[..i]) == Ok(Run(table.rows, ordersToCreate, updatedCount))
    {
      var prepared := PrepareRecord(ordersData, now, i, ps);
      WalkSnoc(run0, ps, i, Run(table.rows, ordersToCreate, updatedCount));
      if prepared.Err? {
        WalkErrPersists(run0, ps, i + 1);
        return Err(prepared.error);
      }
      var step := SaveOrQueueOne(table, prepared.value, ordersToCreate, updatedCount);
      if step.Err? {
        WalkErrPersists(run0, ps, i + 1);
        return Err(step.error);
      }
      ordersToCreate, updatedCount := step.value.0, step.value.1;
      i := i + 1;
    }
    assert ps[..i] == ps;
    return Ok((ordersToCreate, updatedCount));
  }

  /** Whatever the transaction ends in, the table it leaves keeps the
      table invariant, provided the clock reads a real calendar time. */
  lemma TransactionKeepsInvariant(before: Table, ordersData: seq<Json>, now: DateTime, after: Table)
    requires TableInvariant(before) && ValidDateTime(now)
    requires var spec := Ingest(before, ordersData, now);
      && (spec.Ok? ==> after == spec.value.table)
      && (spec.Err? ==> after == before)
    ensures TableInvariant(after)
  {
    if Ingest(before, ordersData, now).Ok? {
      IngestPreservesInvariant(before, ordersData, now);
    }
  }

  /** The end of `bulk_create_orders`, after the loop: the queue, if there is one, is inserted
      in bulk and the counters are returned; an exception from the insert
      rolls the table back to the snapshot taken when the transaction
      began. */
  method InsertQueued(table: OrderTable, snapshot: Table, ghost ps: seq<Result<Draft, Error>>,
                      ordersToCreate: seq<Draft>, updatedCount: nat)
    returns (r: Result<Counts, Error>)
    requires table.nextId == snapshot.nextId
    requires Walk(Run(snapshot.rows, [], 0), ps) == Ok(Run(table.rows, ordersToCreate, updatedCount))
    modifies table
    ensures var spec := Upsert(snapshot, ps);
      && (spec.Ok? ==> r == Ok(spec.value.counts) && table.State() == spec.value.table)
      && (spec.Err? ==> r == Err(spec.error) && table.State() == snapshot)
  {
    ghost var run := Run(table.rows, ordersToCreate, updatedCount);
    var createdCount: nat := 0;
    if ordersToCreate != [] {
      var inserted := BulkCreate(table, ordersToCreate);
      if inserted.Err? {
        UpsertInsertFails(snapshot, ps, run);
        table.rows := snapshot.rows;
        return Err(inserted.error);
      }
      createdCount := |ordersToCreate|;
    }
    assert createdCount == |ordersToCreate|;
    UpsertCommits(snapshot, ps, run, table.State());
    r := Ok(Counts(createdCount, updatedCount, createdCount + updatedCount));
  }

  /** `bulk_create_orders`: inside one transaction, the loop and then the
      bulk insert of the queue (skipped when the queue is empty);
      an exception from either rolls the table back to what it was. */
  method BulkCreateOrders(table: OrderTable, ordersData: seq<Json>, now: DateTime) returns (r: Result<Counts, Error>)
    modifies table
    ensures var spec := Ingest(old(table.State()), ordersData, now);
      && (spec.Ok? ==> r == Ok(spec.value.counts) && table.State() == spec.value.table)
      && (spec.Err? ==> r == Err(spec.error) && table.State() == old(table.State()))
  {
    var snapshot := table.State();
    ghost var ps := PrepareAll(ordersData, now);
    IngestIsUpsert(snapshot, ordersData, now, ps);
    var walked := SaveOrQueue(table, ordersData, now, ps);
    if walked.Err? {
      UpsertWalkFails(snapshot, ps);
      table.rows := snapshot.rows;
      return Err(walked.error);
    }
    var (ordersToCreate, updatedCount) := walked.value;
    r := InsertQueued(table, snapshot, ps, ordersToCreate, updatedCount);
  }

  /** `load_from_file` on the decoded document: the list of orders is
      chosen as `load_from_file` does, then loaded; the table invariant holds
      afterwards whatever the outcome. */
  method LoadFromFile(table: OrderTable, data: Json, now: DateTime) returns (r: Result<Counts, Error>)
    requires table.Valid() && ValidDateTime(now)
    modifies table
    ensures table.Valid()
    ensures SelectOrders(data).Err? ==> r == Err(SelectOrders(data).error) && table.State() == old(table.State())
    ensures SelectOrders(data).Ok? ==>
      var spec := Ingest(old(table.State()), SelectOrders(data).value, now);
      && (spec.Ok? ==> r == Ok(spec.value.counts) && table.State() == spec.value.table)
      && (spec.Err? ==> r == Err(spec.error) && table.State() == old(table.State()))
  {
    var orders := SelectOrders(data);
    if orders.Err? {
      return Err(orders.error);
    }
    ghost var before := table.State();
    r := BulkCreateOrders(table, orders.value, now);
    TransactionKeepsInvariant(before, orders.value, now, table.State());
  }
}
