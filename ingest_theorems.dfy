/** What a whole `bulk_create_orders` transaction does to the table: when it
    commits, what it writes, the counters it returns, the table invariant it
    keeps, and that a second run of the same batch changes nothing. */
module IngestTheorems {
  import opened Wrappers
  import opened Json
  import opened Calendar
  import opened Money
  import opened DateParsing
  import opened Orders
  import opened Ingestion
  import opened IngestProperties

  // ---------------------------------------------------------------------
  // Over prepared records

  /** The transaction commits exactly when every record prepared, every
      instance can be written, and no order id the table does not hold
      appears twice in the batch. */
  lemma UpsertSucceeds(t: Table, ps: seq<Result<Draft, Error>>)
    ensures Upsert(t, ps).Ok? <==> AllOk(ps) && AllSave(Drafts(ps)) && NoRepeatedNewId(Drafts(ps), t.rows)
  {
    var run0 := Run(t.rows, [], 0);
    WalkSucceeds(run0, ps);
    var w := Walk(run0, ps);
    if w.Ok? {
      WalkQueues(run0, ps);
      var ds := Drafts(ps);
      var f := Fresh(ds, t.rows);
      assert w.value.pending == f;
      InsertSucceeds(Table(w.value.rows, t.nextId), f);
      FreshDistinct(ds, t.rows);
      assert forall d | d in f :: !IsStored(d, w.value.rows);
      assert AllSave(f) && StoredSave(ds, t.rows) <==> AllSave(ds);
    }
  }

  /** A commit is the loop followed by the insert of its queue, which holds
      the instances whose order id the table does not hold. */
  lemma UpsertSteps(t: Table, ps: seq<Result<Draft, Error>>)
    requires Upsert(t, ps).Ok?
    ensures AllOk(ps) && AllSave(Drafts(ps)) && NoRepeatedNewId(Drafts(ps), t.rows)
    ensures Walk(Run(t.rows, [], 0), ps).Ok?
    ensures var run := Walk(Run(t.rows, [], 0), ps).value; var f := Fresh(Drafts(ps), t.rows);
      && run.pending == f
      && run.updated == |ps| - |f|
      && run.rows.Keys == t.rows.Keys
      && Insert(Table(run.rows, t.nextId), f).Ok?
      && Upsert(t, ps).value == Ingested(Counts(|f|, |ps| - |f|, |ps|), Insert(Table(run.rows, t.nextId), f).value)
  {
    UpsertSucceeds(t, ps);
    WalkQueues(Run(t.rows, [], 0), ps);
  }

  /** After a commit: the counters and the next surrogate key. */
  lemma UpsertCounts(t: Table, ps: seq<Result<Draft, Error>>)
    requires Upsert(t, ps).Ok?
    ensures AllOk(ps)
    ensures var f := Fresh(Drafts(ps), t.rows); var out := Upsert(t, ps).value;
      && out.counts == Counts(|f|, |ps| - |f|, |ps|)
      && out.table.nextId == t.nextId + |f|
  {
    UpsertSteps(t, ps);
  }

  /** After a commit the table's keys are its old ones and the batch's order
      ids. */
  lemma UpsertKeys(t: Table, ps: seq<Result<Draft, Error>>)
    requires Upsert(t, ps).Ok?
    ensures AllOk(ps)
    ensures Upsert(t, ps).value.table.rows.Keys == t.rows.Keys + IdsOf(Drafts(ps))
  {
    UpsertSteps(t, ps);
    var ds := Drafts(ps);
    var f := Fresh(ds, t.rows);
    var run := Walk(Run(t.rows, [], 0), ps).value;
    InsertKeys(Table(run.rows, t.nextId), f);
    assert IdsOf(ds) <= t.rows.Keys + IdsOf(f) by {
      forall k | k in IdsOf(ds) ensures k in t.rows.Keys + IdsOf(f) {
        var d :| d in ds && d.orderId == Some(k);
        if k !in t.rows {
          assert d in f;
        }
      }
    }
  }

  /** After a commit every row that was stored has been overwritten by the
      last instance with its id, keeping its surrogate key, or is
      untouched. */
  lemma UpsertOldRows(t: Table, ps: seq<Result<Draft, Error>>)
    requires Upsert(t, ps).Ok?
    ensures AllOk(ps) && AllSave(Drafts(ps))
    ensures forall k | k in t.rows ::
              && k in Upsert(t, ps).value.table.rows
              && Upsert(t, ps).value.table.rows[k] == Replaced(t.rows[k], LastWithId(Drafts(ps), k))
  {
    UpsertSteps(t, ps);
    var run0 := Run(t.rows, [], 0);
    WalkRows(run0, ps);
    var run := Walk(run0, ps).value;
    InsertKeepsRows(Table(run.rows, t.nextId), Fresh(Drafts(ps), t.rows));
  }

  /** After a commit the queued instances are new rows under their order
      ids, with the next surrogate keys in queue order. */
  lemma UpsertNewRows(t: Table, ps: seq<Result<Draft, Error>>)
    requires Upsert(t, ps).Ok?
    ensures AllOk(ps)
    ensures NewRowsQueued(t.nextId, Fresh(Drafts(ps), t.rows), Upsert(t, ps).value.table)
  {
    UpsertSteps(t, ps);
    var run := Walk(Run(t.rows, [], 0), ps).value;
    var f := Fresh(Drafts(ps), t.rows);
    var mid := Table(run.rows, t.nextId);
    InsertNewRows(mid, f);
    assert Upsert(t, ps).value.table == Insert(mid, f).value;
  }

  /** After a commit every order id of the batch holds the last record that
      carries it. */
  lemma UpsertStoresLast(t: Table, ps: seq<Result<Draft, Error>>)
    requires Upsert(t, ps).Ok?
    ensures AllOk(ps) && AllSave(Drafts(ps))
    ensures forall k | k in IdsOf(Drafts(ps)) ::
              && LastWithId(Drafts(ps), k).Some?
              && k in Upsert(t, ps).value.table.rows
              && Upsert(t, ps).value.table.rows[k].order == Save(LastWithId(Drafts(ps), k).value).value
  {
    UpsertSteps(t, ps);
    UpsertKeys(t, ps);
    UpsertOldRows(t, ps);
    UpsertNewRows(t, ps);
    var ds := Drafts(ps);
    var f := Fresh(ds, t.rows);
    var out := Upsert(t, ps).value;
    FreshDistinct(ds, t.rows);
    forall k | k in IdsOf(ds)
      ensures && LastWithId(ds, k).Some?
              && k in out.table.rows
              && out.table.rows[k].order == Save(LastWithId(ds, k).value).value
    {
      var d0 :| d0 in ds && d0.orderId == Some(k);
      assert LastWithId(ds, k).Some?;
      var last := LastWithId(ds, k).value;
      if k !in t.rows {
        assert d0 in f && last in f;
        var i :| 0 <= i < |f| && f[i] == d0;
        var j :| 0 <= j < |f| && f[j] == last;
        assert f[i].orderId == f[j].orderId;
        assert i == j;
      }
    }
  }

  /** What a commit of the instances `ds` leaves, stated without running
      the loop: the counters, the next surrogate key, the keys, the stored
      rows overwritten or untouched, the new rows in queue order, and every
      order id of the batch holding the last instance that carries it. */
  predicate Described(t: Table, ds: seq<Draft>, out: Ingested)
    requires AllSave(ds)
  {
    var f := Fresh(ds, t.rows);
    && out.counts == Counts(|f|, |ds| - |f|, |ds|)
    && out.table.nextId == t.nextId + |f|
    && out.table.rows.Keys == t.rows.Keys + IdsOf(ds)
    && (forall k | k in t.rows :: out.table.rows[k] == Replaced(t.rows[k], LastWithId(ds, k)))
    && NewRowsQueued(t.nextId, f, out.table)
    && (forall k | k in IdsOf(ds) ::
          LastWithId(ds, k).Some? && out.table.rows[k].order == Save(LastWithId(ds, k).value).value)
  }

  /** Every commit is `Described`. */
  lemma UpsertDescribed(t: Table, ps: seq<Result<Draft, Error>>)
    requires Upsert(t, ps).Ok?
    ensures AllOk(ps) && AllSave(Drafts(ps)) && NoRepeatedNewId(Drafts(ps), t.rows)
    ensures Described(t, Drafts(ps), Upsert(t, ps).value)
  {
    UpsertSteps(t, ps);
    UpsertCounts(t, ps);
    UpsertKeys(t, ps);
    UpsertOldRows(t, ps);
    UpsertNewRows(t, ps);
    UpsertStoresLast(t, ps);
  }

  /** A row a described commit added holds a queued instance, the `i`th,
      and the surrogate key handed out to it. */
  lemma NewRowQueued(t: Table, ds: seq<Draft>, after: Table, k: string) returns (i: nat)
    requires AllSave(ds) && NewRowsQueued(t.nextId, Fresh(ds, t.rows), after)
    requires k in IdsOf(ds) && k !in t.rows
    ensures i < |Fresh(ds, t.rows)| && Fresh(ds, t.rows)[i].orderId == Some(k)
    ensures after.rows[k] == Row(t.nextId + i, Save(Fresh(ds, t.rows)[i]).value)
  {
    var f := Fresh(ds, t.rows);
    var d :| d in ds && d.orderId == Some(k);
    assert d in f;
    i :| 0 <= i < |f| && f[i] == d;
  }

  /** Each row of a described commit sits under its own order id, fits the
      columns, has a real timestamp and its date, and a surrogate key below
      the next one. */
  lemma DescribedRow(t: Table, ds: seq<Draft>, out: Ingested, k: string)
    requires TableInvariant(t)
    requires AllSave(ds) && Described(t, ds, out)
    requires forall d | d in ds :: ValidDateTime(d.createdAt) && d.date == DateOf(d.createdAt)
    requires k in out.table.rows
    ensures var row := out.table.rows[k];
      && row.order.orderId == k
      && FitsSchema(row.order)
      && ValidDateTime(row.order.createdAt)
      && row.order.date == DateOf(row.order.createdAt)
      && row.id < out.table.nextId
  {
    if k in IdsOf(ds) {
      var last := LastWithId(ds, k).value;
      assert Save(last).Ok?;
    }
    if k !in t.rows {
      var i := NewRowQueued(t, ds, out.table, k);
    }
  }

  /** The surrogate key of a row of a described commit: a stored row keeps
      its own, a new row has the one handed out to the `i`th queued
      instance, which carries its order id. */
  lemma DescribedRowId(t: Table, ds: seq<Draft>, out: Ingested, k: string) returns (i: nat)
    requires AllSave(ds) && Described(t, ds, out)
    requires k in out.table.rows
    ensures k in t.rows ==> out.table.rows[k].id == t.rows[k].id
    ensures k !in t.rows ==>
      && i < |Fresh(ds, t.rows)| && Fresh(ds, t.rows)[i].orderId == Some(k)
      && out.table.rows[k].id == t.nextId + i
  {
    if k !in t.rows {
      i := NewRowQueued(t, ds, out.table, k);
    } else {
      i := 0;
    }
  }

  /** No two rows of a described commit share a surrogate key. */
  lemma DescribedDistinctKeys(t: Table, ds: seq<Draft>, out: Ingested, k1: string, k2: string)
    requires TableInvariant(t)
    requires AllSave(ds) && Described(t, ds, out)
    requires k1 in out.table.rows && k2 in out.table.rows && k1 != k2
    ensures out.table.rows[k1].id != out.table.rows[k2].id
  {
    var i1 := DescribedRowId(t, ds, out, k1);
    var i2 := DescribedRowId(t, ds, out, k2);
    if k1 in t.rows && k2 in t.rows {
      assert t.rows[k1].id != t.rows[k2].id;
    } else if k1 in t.rows {
      assert t.rows[k1].id < t.nextId;
    } else if k2 in t.rows {
      assert t.rows[k2].id < t.nextId;
    } else {
      assert i1 != i2;
    }
  }

  /** The rows of a described commit keep the table invariant, given
      instances with real timestamps and their dates. */
  lemma DescribedKeepsInvariant(t: Table, ds: seq<Draft>, out: Ingested)
    requires TableInvariant(t)
    requires AllSave(ds) && Described(t, ds, out)
    requires forall d | d in ds :: ValidDateTime(d.createdAt) && d.date == DateOf(d.createdAt)
    ensures TableInvariant(out.table)
  {
    forall k | k in out.table.rows
      ensures && out.table.rows[k].order.orderId == k
              && FitsSchema(out.table.rows[k].order)
              && ValidDateTime(out.table.rows[k].order.createdAt)
              && out.table.rows[k].order.date == DateOf(out.table.rows[k].order.createdAt)
              && out.table.rows[k].id < out.table.nextId
    {
      DescribedRow(t, ds, out, k);
    }
    forall k1, k2 | k1 in out.table.rows && k2 in out.table.rows && k1 != k2
      ensures out.table.rows[k1].id != out.table.rows[k2].id
    {
      DescribedDistinctKeys(t, ds, out, k1, k2);
    }
  }

  /** The rows a commit writes keep the table invariant, given instances
      with real timestamps and their dates. */
  lemma UpsertPreservesInvariant(t: Table, ps: seq<Result<Draft, Error>>)
    requires TableInvariant(t)
    requires Upsert(t, ps).Ok?
    requires forall i | 0 <= i < |ps| :: ps[i].Ok? ==>
               ValidDateTime(ps[i].value.createdAt) && ps[i].value.date == DateOf(ps[i].value.createdAt)
    ensures TableInvariant(Upsert(t, ps).value.table)
  {
    UpsertDescribed(t, ps);
    DescribedKeepsInvariant(t, Drafts(ps), Upsert(t, ps).value);
  }

  /** Nothing is queued when the table holds every order id of the batch. */
  lemma NothingQueued(ds: seq<Draft>, rows: map<string, Row>)
    requires AllSave(ds) && IdsOf(ds) <= rows.Keys
    ensures Fresh(ds, rows) == []
  {
    forall d | d in ds ensures IsStored(d, rows) {
      assert d.orderId.value in IdsOf(ds);
    }
  }

  /** Overwriting every stored row with the instance it already holds, on
      a table that holds every order id of the batch, leaves the rows as
      they were. */
  lemma RerunRows(first: Table, ds: seq<Draft>, second: Table)
    requires AllSave(ds) && IdsOf(ds) <= first.rows.Keys
    requires forall k | k in IdsOf(ds) ::
               k in first.rows
               && LastWithId(ds, k).Some? && first.rows[k].order == Save(LastWithId(ds, k).value).value
    requires second.rows.Keys == first.rows.Keys + IdsOf(ds)
    requires forall k | k in first.rows ::
               k in second.rows && second.rows[k] == Replaced(first.rows[k], LastWithId(ds, k))
    ensures second.rows == first.rows
  {
    assert second.rows.Keys == first.rows.Keys;
    forall k | k in first.rows ensures second.rows[k] == first.rows[k] {
      if LastWithId(ds, k).Some? {
        assert k in IdsOf(ds);
      }
    }
  }

  /** Running the same prepared batch again on the table it produced
      updates every record, creates none and leaves the table as it was. */
  lemma UpsertIdempotent(t: Table, ps: seq<Result<Draft, Error>>)
    requires Upsert(t, ps).Ok?
    ensures var first := Upsert(t, ps).value;
      Upsert(first.table, ps) == Ok(Ingested(Counts(0, |ps|, |ps|), first.table))
  {
    UpsertKeys(t, ps);
    UpsertStoresLast(t, ps);
    UpsertRerun(Upsert(t, ps).value.table, ps);
  }

  /** Instances that can all be written and whose ids the table all holds
      are all stored, so none of them is a repeated new id. */
  lemma AllStored(rows: map<string, Row>, ds: seq<Draft>)
    requires AllSave(ds) && IdsOf(ds) <= rows.Keys
    ensures forall d | d in ds :: IsStored(d, rows)
    ensures NoRepeatedNewId(ds, rows)
  {
    forall d | d in ds ensures IsStored(d, rows) {
      assert Save(d).Ok?;
      assert d.orderId.value in IdsOf(ds);
    }
  }

  /** A batch every order id of which the table holds, each with the last
      instance that carries it, commits as all updates and changes nothing. */
  lemma UpsertRerun(first: Table, ps: seq<Result<Draft, Error>>)
    requires AllOk(ps) && AllSave(Drafts(ps)) && IdsOf(Drafts(ps)) <= first.rows.Keys
    requires forall k | k in IdsOf(Drafts(ps)) ::
               && LastWithId(Drafts(ps), k).Some?
               && k in first.rows
               && first.rows[k].order == Save(LastWithId(Drafts(ps), k).value).value
    ensures Upsert(first, ps) == Ok(Ingested(Counts(0, |ps|, |ps|), first))
  {
    var ds := Drafts(ps);
    AllStored(first.rows, ds);
    UpsertSucceeds(first, ps);
    var second := Upsert(first, ps).value;
    NothingQueued(ds, first.rows);
    UpsertCounts(first, ps);
    UpsertKeys(first, ps);
    UpsertOldRows(first, ps);
    RerunRows(first, ds, second.table);
  }

  // ---------------------------------------------------------------------
  // Over records

  /** The prepared batch is the records prepared one by one. */
  lemma PrepareAllOk(records: seq<Json>, now: DateTime)
    ensures forall i | 0 <= i < |records| :: PrepareAll(records, now)[i] == PrepareOrder(records[i], now)
    ensures AllOk(PrepareAll(records, now)) <==> forall i | 0 <= i < |records| :: PrepareOrder(records[i], now).Ok?
  {
    forall i | 0 <= i < |records| ensures PrepareAll(records, now)[i] == PrepareOrder(records[i], now) {
      PrepareAllAt(records, now, i);
    }
  }

  /** `bulk_create_orders` commits exactly when every record prepares,
      every instance can be written, and no order id the table does not
      hold appears twice in the batch. */
  lemma IngestSucceeds(t: Table, records: seq<Json>, now: DateTime)
    ensures Ingest(t, records, now).Ok? <==>
      && AllOk(PrepareAll(records, now))
      && AllSave(Drafts(PrepareAll(records, now)))
      && NoRepeatedNewId(Drafts(PrepareAll(records, now)), t.rows)
  {
    UpsertSucceeds(t, PrepareAll(records, now));
  }

  /** A record without `createdAt.iso` fails the whole run. */
  lemma IngestRejectsMissingCreatedAt(t: Table, records: seq<Json>, now: DateTime, i: nat)
    requires i < |records| && !HasCreatedAtIso(records[i])
    ensures Ingest(t, records, now).Err?
  {
    IngestSucceeds(t, records, now);
    PrepareAllOk(records, now);
    assert PrepareOrder(records[i], now).Err?;
  }

  /** Two records whose `id` members give the same order id, one the table
      does not hold, fail the whole run: both are queued and the second
      insert violates the unique constraint (or, without an id, the first
      write violates NOT NULL). */
  lemma IngestRejectsRepeatedNewId(t: Table, records: seq<Json>, now: DateTime, i: nat, j: nat)
    requires i < j < |records|
    requires PrepareOrder(records[i], now).Ok? && PrepareOrder(records[j], now).Ok?
    requires ColumnText(Get(records[i].members, "id", JNull)) == ColumnText(Get(records[j].members, "id", JNull))
    requires var k := ColumnText(Get(records[i].members, "id", JNull)); k.None? || k.value !in t.rows
    ensures Ingest(t, records, now).Err?
  {
    IngestSucceeds(t, records, now);
    var ps := PrepareAll(records, now);
    PrepareAllAt(records, now, i);
    PrepareAllAt(records, now, j);
    if AllOk(ps) {
      assert Drafts(ps)[i] == PrepareOrder(records[i], now).value;
      assert Drafts(ps)[j] == PrepareOrder(records[j], now).value;
    }
  }

  /** Two records whose `id` members give an order id the table holds are
      both updates: the row ends up with the second one, under its old
      surrogate key. */
  lemma IngestRepeatedStoredId(t: Table, a: Json, b: Json, now: DateTime)
    requires PrepareOrder(a, now).Ok? && PrepareOrder(b, now).Ok?
    requires ColumnText(Get(a.members, "id", JNull)) == ColumnText(Get(b.members, "id", JNull))
    requires var k := ColumnText(Get(a.members, "id", JNull)); k.Some? && k.value in t.rows
    requires Ingest(t, [a, b], now).Ok?
    ensures var k := ColumnText(Get(a.members, "id", JNull)).value; var out := Ingest(t, [a, b], now).value;
      && out.counts == Counts(0, 2, 2)
      && Save(PrepareOrder(b, now).value).Ok?
      && out.table.rows[k] == Row(t.rows[k].id, Save(PrepareOrder(b, now).value).value)
  {
    PrepareAllAt([a, b], now, 0);
    PrepareAllAt([a, b], now, 1);
    var da, db := PrepareOrder(a, now).value, PrepareOrder(b, now).value;
    assert PrepareAll([a, b], now) == [Ok(da), Ok(db)];
    UpsertRepeatedStoredId(t, da, db);
  }

  /** The same, over the two prepared instances. */
  lemma UpsertRepeatedStoredId(t: Table, da: Draft, db: Draft)
    requires da.orderId == db.orderId && IsStored(da, t.rows)
    requires Upsert(t, [Ok(da), Ok(db)]).Ok?
    ensures var k := da.orderId.value; var out := Upsert(t, [Ok(da), Ok(db)]).value;
      && out.counts == Counts(0, 2, 2)
      && Save(db).Ok?
      && out.table.rows[k] == Row(t.rows[k].id, Save(db).value)
  {
    var ps := [Ok(da), Ok(db)];
    UpsertDescribed(t, ps);
    var ds := Drafts(ps);
    var k := da.orderId.value;
    assert ds == [da, db];
    assert Fresh(ds, t.rows) == [];
    assert LastWithId(ds, k) == Some(ds[1]);
    assert ds[1] in ds;
  }

  /** A committed run keeps the table invariant. */
  lemma IngestPreservesInvariant(t: Table, records: seq<Json>, now: DateTime)
    requires TableInvariant(t) && ValidDateTime(now)
    requires Ingest(t, records, now).Ok?
    ensures TableInvariant(Ingest(t, records, now).value.table)
  {
    var ps := PrepareAll(records, now);
    PrepareAllDated(records, now, ps);
    UpsertPreservesInvariant(t, ps);
  }

  /** Loading the same batch again creates nothing, updates every record
      and leaves the table as it was: at the same clock reading, or at any
      later one when every record is dated by its own text. */
  lemma IngestIdempotent(t: Table, records: seq<Json>, now1: DateTime, now2: DateTime)
    requires now2 == now1 || forall i | 0 <= i < |records| :: DatedByText(records[i])
    requires Ingest(t, records, now1).Ok?
    ensures var first := Ingest(t, records, now1).value;
      Ingest(first.table, records, now2) == Ok(Ingested(Counts(0, |records|, |records|), first.table))
  {
    if now2 != now1 {
      PrepareAllClockFree(records, now1, now2);
    }
    UpsertIdempotent(t, PrepareAll(records, now1));
  }

  /** A one-record batch with an order id the table does not hold creates
      one row, under the next surrogate key. */
  lemma UpsertCreatesOne(t: Table, d: Draft, o: Order)
    requires Save(d) == Ok(o) && o.orderId !in t.rows
    ensures Upsert(t, [Ok(d)]) == Ok(Ingested(Counts(1, 0, 1), Table(t.rows[o.orderId := Row(t.nextId, o)], t.nextId + 1)))
  {
    assert d.orderId == Some(o.orderId);
    var ps: seq<Result<Draft, Error>> := [Ok(d)];
    assert ps[..0] == [];
    var run := Run(t.rows, [], 0);
    assert Walk(run, ps[..0]) == Ok(run);
    assert !IsStored(d, t.rows);
    assert run.pending + [d] == [d];
    assert Step(run, Ok(d)) == Ok(Run(t.rows, [d], 0));
    assert Walk(run, ps) == Ok(Run(t.rows, [d], 0));
    assert [d][..0] == [];
    assert Insert(Table(t.rows, t.nextId), []) == Ok(t);
  }

  /** A one-record batch with an order id the table holds overwrites that
      row, keeping its surrogate key. */
  lemma UpsertUpdatesOne(t: Table, d: Draft, o: Order)
    requires Save(d) == Ok(o) && o.orderId in t.rows
    ensures Upsert(t, [Ok(d)])
            == Ok(Ingested(Counts(0, 1, 1), Table(t.rows[o.orderId := Row(t.rows[o.orderId].id, o)], t.nextId)))
  {
    assert d.orderId == Some(o.orderId);
    var ps: seq<Result<Draft, Error>> := [Ok(d)];
    assert ps[..0] == [];
    var run := Run(t.rows, [], 0);
    assert Walk(run, ps[..0]) == Ok(run);
    assert IsStored(d, t.rows);
  }

  /** A record with an empty `createdAt.iso`, which each run stamps with its
      own clock reading. */
  const UndatedRecord: Json := JObject(map["id" := JString("a"), "createdAt" := JObject(map["iso" := JString("")])])

  /** The row that record is written as at clock reading `now`. */
  function UndatedOrder(now: DateTime): Order {
    Order("a", "", "", now, DateOf(now), "pending", Zero, Zero, Zero, UndatedRecord)
  }

  lemma UndatedPrepareOrder(now: DateTime)
    ensures PrepareOrder(UndatedRecord, now) == Ok(AsDraft(UndatedOrder(now)))
  {
  }

  lemma UndatedPrepares(now: DateTime)
    ensures PrepareAll([UndatedRecord], now) == [Ok(AsDraft(UndatedOrder(now)))]
    ensures Save(AsDraft(UndatedOrder(now))) == Ok(UndatedOrder(now))
  {
    UndatedPrepareOrder(now);
    assert [UndatedRecord][..0] == [];
  }

  /** The record's run, at clock reading `now`, is the upsert of its row. */
  lemma UndatedIngest(t: Table, now: DateTime)
    ensures Ingest(t, [UndatedRecord], now) == Upsert(t, [Ok(AsDraft(UndatedOrder(now)))])
    ensures Save(AsDraft(UndatedOrder(now))) == Ok(UndatedOrder(now))
  {
    UndatedPrepares(now);
  }

  /** Without that condition the second run can change the table: the
      record above, loaded into an empty table and loaded again at another
      clock reading, has its `created_at` rewritten. */
  lemma RerunRestampsFallback(now1: DateTime, now2: DateTime)
    requires now1 != now2
    ensures var first := Ingest(Table(map[], 1), [UndatedRecord], now1);
      && first.Ok?
      && Ingest(first.value.table, [UndatedRecord], now2).Ok?
      && Ingest(first.value.table, [UndatedRecord], now2).value.table != first.value.table
  {
    UndatedIngest(Table(map[], 1), now1);
    var t1 := Table(map["a" := Row(1, UndatedOrder(now1))], 2);
    UndatedIngest(t1, now2);
    UpsertCreatesOne(Table(map[], 1), AsDraft(UndatedOrder(now1)), UndatedOrder(now1));
    UpsertUpdatesOne(t1, AsDraft(UndatedOrder(now2)), UndatedOrder(now2));
    var t2 := Table(map["a" := Row(1, UndatedOrder(now2))], 2);
    assert t2.rows["a"].order.createdAt != t1.rows["a"].order.createdAt;
  }
}
