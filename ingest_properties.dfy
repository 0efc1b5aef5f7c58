/** What `bulk_create_orders` promises about a batch: when it succeeds, what
    the table holds afterwards and what the counters say; when it fails; and
    that running it twice on the same batch changes nothing the second time. */
module IngestProperties {
  import opened Wrappers
  import opened Json
  import opened Calendar
  import opened Money
  import opened DateParsing
  import opened Orders
  import opened Ingestion

  // ---------------------------------------------------------------------
  // _prepare_order

  /** The defaults `_prepare_order` fills in for absent members: status
      "pending", empty customer fields, a zero discount, the subtotal equal
      to the total and a zero total; present amounts are converted cent for
      cent. */
  lemma PrepareDefaults(data: Json, now: DateTime)
    requires PrepareOrder(data, now).Ok?
    ensures var d := PrepareOrder(data, now).value; var m := data.members;
      && ("status" !in m ==> d.status == Some("pending"))
      && ("customer" !in m ==> d.customerId == Some("") && d.customerName == Some(""))
      && ("total_discounts" !in m ==> d.discountAmount == DiscountDefault)
      && ("subtotal_price" !in m ==> d.subtotalAmount == d.totalAmount)
      && ("totalPrice" !in m ==> d.totalAmount == Zero)
      && ("totalPrice" in m ==> Cents(d.totalAmount) == m["totalPrice"].i)
  {
  }

  /** The timestamp is the parsed `createdAt.iso` and the date its calendar
      day. */
  lemma PrepareTimestamp(data: Json, now: DateTime)
    requires PrepareOrder(data, now).Ok?
    ensures var d := PrepareOrder(data, now).value;
      && ParseDateTime(data.members["createdAt"].members["iso"], now) == Ok(d.createdAt)
      && d.date == DateOf(d.createdAt)
  {
  }

  /** Whether the record's timestamp comes from its own `createdAt.iso`
      text, read by one of the layouts, rather than from the clock. */
  predicate DatedByText(data: Json) {
    && HasCreatedAtIso(data)
    && var iso := data.members["createdAt"].members["iso"];
       iso.JString? && FirstMatch(Layouts, iso.s).Some?
  }

  /** A record dated by its own text prepares alike at every clock reading. */
  lemma PrepareClockFree(data: Json, now1: DateTime, now2: DateTime)
    requires DatedByText(data)
    ensures PrepareOrder(data, now1) == PrepareOrder(data, now2)
  {
    var iso := data.members["createdAt"].members["iso"];
    assert ParseDateTime(iso, now1) == ParseDateTime(iso, now2);
  }

  /** A batch of records dated by their own text prepares alike at every
      clock reading. */
  lemma PrepareAllClockFree(records: seq<Json>, now1: DateTime, now2: DateTime)
    requires forall i | 0 <= i < |records| :: DatedByText(records[i])
    ensures PrepareAll(records, now1) == PrepareAll(records, now2)
  {
    forall i | 0 <= i < |records| ensures PrepareAll(records, now1)[i] == PrepareAll(records, now2)[i] {
      PrepareAllAt(records, now1, i);
      PrepareAllAt(records, now2, i);
      PrepareClockFree(records[i], now1, now2);
    }
  }

  /** Which records `_prepare_order` accepts: one with `createdAt.iso` that
      is text or falsy, integer amounts where present, and a dict (or
      nothing) as `customer`. */
  predicate Preparable(data: Json) {
    && HasCreatedAtIso(data)
    && (var iso := data.members["createdAt"].members["iso"]; !Truthy(iso) || iso.JString?)
    && Get(data.members, "totalPrice", JInt(0)).JInt?
    && Get(data.members, "customer", JObject(map[])).JObject?
    && Get(data.members, "subtotal_price", JInt(0)).JInt?
    && Get(data.members, "total_discounts", JInt(0)).JInt?
  }

  lemma PrepareOrderSucceeds(data: Json, now: DateTime)
    ensures PrepareOrder(data, now).Ok? <==> Preparable(data)
  {
  }

  // ---------------------------------------------------------------------
  // The instances of a batch

  /** Every record of the batch prepared. */
  predicate AllOk(ps: seq<Result<Draft, Error>>) {
    forall i | 0 <= i < |ps| :: ps[i].Ok?
  }

  /** The instances of a batch every record of which prepared. */
  function Drafts(ps: seq<Result<Draft, Error>>): (ds: seq<Draft>)
    requires AllOk(ps)
    ensures |ds| == |ps|
    ensures forall i | 0 <= i < |ps| :: ps[i] == Ok(ds[i])
  {
    if ps == [] then []
    else
      var m := |ps| - 1;
      assert forall i | 0 <= i < m :: ps[..m][i] == ps[i];
      Drafts(ps[..m]) + [ps[m].value]
  }

  /** The instances whose order id the table does not hold: those queued for
      `bulk_create`. */
  function Fresh(ds: seq<Draft>, rows: map<string, Row>): (r: seq<Draft>)
    ensures forall d :: d in r <==> d in ds && !IsStored(d, rows)
    ensures |r| <= |ds|
    ensures (forall d | d in ds :: IsStored(d, rows)) ==> r == []
  {
    if ds == [] then []
    else
      var d := ds[|ds| - 1];
      assert ds == ds[..|ds| - 1] + [d];
      if IsStored(d, rows) then Fresh(ds[..|ds| - 1], rows) else Fresh(ds[..|ds| - 1], rows) + [d]
  }

  /** The last instance with order id `k`, if any. */
  function LastWithId(ds: seq<Draft>, k: string): (r: Option<Draft>)
    ensures r.None? <==> forall i | 0 <= i < |ds| :: ds[i].orderId != Some(k)
    ensures r.Some? ==> r.value in ds && r.value.orderId == Some(k)
  {
    if ds == [] then None
    else if ds[|ds| - 1].orderId == Some(k) then Some(ds[|ds| - 1])
    else
      var m := |ds| - 1;
      assert forall i | 0 <= i < m :: ds[..m][i] == ds[i];
      LastWithId(ds[..m], k)
  }

  /** No instance after the one `LastWithId` picks carries its id. */
  lemma {:induction false} LastWithIdIsLast(ds: seq<Draft>, k: string)
    requires LastWithId(ds, k).Some?
    ensures exists i | 0 <= i < |ds| :: ds[i] == LastWithId(ds, k).value
              && forall j | i < j < |ds| :: ds[j].orderId != Some(k)
  {
    var m := |ds| - 1;
    if ds[m].orderId != Some(k) {
      LastWithIdIsLast(ds[..m], k);
      var i :| 0 <= i < m && ds[..m][i] == LastWithId(ds[..m], k).value
                 && forall j | i < j < m :: ds[..m][j].orderId != Some(k);
      assert ds[i] == LastWithId(ds, k).value;
      assert forall j | i < j < |ds| :: ds[j].orderId != Some(k) by {
        forall j | i < j < |ds| ensures ds[j].orderId != Some(k) {
          if j < m { assert ds[..m][j] == ds[j]; }
        }
      }
    }
  }

  /** The order ids of the instances. */
  function IdsOf(ds: seq<Draft>): set<string> {
    set d | d in ds && d.orderId.Some? :: d.orderId.value
  }

  /** No two instances carry the same order id. */
  predicate DistinctIds(ds: seq<Draft>) {
    forall i, j | 0 <= i < j < |ds| :: ds[i].orderId != ds[j].orderId
  }

  /** An order id that appears twice is one the table already holds. */
  predicate NoRepeatedNewId(ds: seq<Draft>, rows: map<string, Row>) {
    forall i, j | 0 <= i < j < |ds| :: ds[i].orderId == ds[j].orderId ==> IsStored(ds[i], rows)
  }

  /** Every instance of the batch can be written. */
  predicate AllSave(ds: seq<Draft>) {
    forall d | d in ds :: Save(d).Ok?
  }

  /** The row `row` after the loop of `bulk_create_orders` has overwritten
      it with the instance `last`, if there is one. */
  function Replaced(row: Row, last: Option<Draft>): (r: Row)
    requires last.Some? ==> Save(last.value).Ok?
    ensures r.id == row.id
  {
    match last
    case None => row
    case Some(d) => Row(row.id, Save(d).value)
  }

  // ---------------------------------------------------------------------
  // The loop of `bulk_create_orders`

  /** Once the loop has failed on a prefix of the batch, it fails on the
      whole batch with the same error. */
  lemma {:induction false} WalkErrPersists(run: Run, ps: seq<Result<Draft, Error>>, n: nat)
    requires n <= |ps|
    requires Walk(run, ps[..n]).Err?
    ensures Walk(run, ps) == Walk(run, ps[..n])
    decreases |ps|
  {
    if n < |ps| {
      var m := |ps| - 1;
      assert ps[..m][..n] == ps[..n];
      WalkErrPersists(run, ps[..m], n);
    } else {
      assert ps[..n] == ps;
    }
  }

  /** Every instance whose order id is stored can be written. */
  predicate StoredSave(ds: seq<Draft>, rows: map<string, Row>) {
    forall d | d in ds && IsStored(d, rows) :: Save(d).Ok?
  }

  /** One iteration on a prepared record. */
  lemma StepOk(run: Run, d: Draft)
    ensures Step(run, Ok(d)).Ok? <==> !IsStored(d, run.rows) || Save(d).Ok?
    ensures Step(run, Ok(d)).Ok? && IsStored(d, run.rows) ==>
      Step(run, Ok(d)).value == run.(rows := run.rows[d.orderId.value := Row(run.rows[d.orderId.value].id, Save(d).value)],
                                     updated := run.updated + 1)
    ensures !IsStored(d, run.rows) ==> Step(run, Ok(d)).value == run.(pending := run.pending + [d])
  {
  }

  /** The batch's instances, one record longer. */
  lemma DraftsSnoc(ps: seq<Result<Draft, Error>>)
    requires ps != [] && AllOk(ps)
    ensures AllOk(ps[..|ps| - 1])
    ensures Drafts(ps) == Drafts(ps[..|ps| - 1]) + [ps[|ps| - 1].value]
  {
    var m := |ps| - 1;
    assert forall i | 0 <= i < m :: ps[..m][i] == ps[i];
  }

  /** The loop succeeds exactly when every record prepared and every
      instance whose order id is stored can be written. */
  lemma {:induction false} WalkSucceeds(run: Run, ps: seq<Result<Draft, Error>>)
    ensures Walk(run, ps).Ok? <==> AllOk(ps) && StoredSave(Drafts(ps), run.rows)
  {
    if ps != [] {
      var m := |ps| - 1;
      var prefix := ps[..m];
      WalkSucceeds(run, prefix);
      assert forall i | 0 <= i < m :: prefix[i] == ps[i];
      var w := Walk(run, prefix);
      if w.Ok? && ps[m].Ok? {
        DraftsSnoc(ps);
        var d := ps[m].value;
        assert forall x :: x in Drafts(ps) <==> x in Drafts(prefix) || x == d;
        assert IsStored(d, w.value.rows) <==> IsStored(d, run.rows);
        StepOk(w.value, d);
      } else if !ps[m].Ok? {
        assert !AllOk(ps);
      } else {
        assert !AllOk(prefix) || !StoredSave(Drafts(prefix), run.rows);
        if AllOk(ps) {
          DraftsSnoc(ps);
          assert forall x :: x in Drafts(prefix) ==> x in Drafts(ps);
        }
      }
    }
  }

  /** After a successful loop the queue holds the instances whose order id
      is not stored, in order, and the counter the others. */
  lemma {:induction false} WalkQueues(run: Run, ps: seq<Result<Draft, Error>>)
    requires Walk(run, ps).Ok?
    ensures AllOk(ps)
    ensures Walk(run, ps).value.pending == run.pending + Fresh(Drafts(ps), run.rows)
    ensures Walk(run, ps).value.updated == run.updated + |ps| - |Fresh(Drafts(ps), run.rows)|
  {
    WalkSucceeds(run, ps);
    if ps != [] {
      var m := |ps| - 1;
      var prefix := ps[..m];
      WalkQueues(run, prefix);
      DraftsSnoc(ps);
      var d := ps[m].value;
      var before := Walk(run, prefix).value;
      assert IsStored(d, before.rows) <==> IsStored(d, run.rows);
      StepOk(before, d);
      assert Drafts(ps)[..m] == Drafts(prefix);
    }
  }

  /** After a successful loop each stored row has been overwritten by the
      last instance with its id, keeping its surrogate key; the others are
      as they were. */
  lemma {:induction false} WalkRows(run: Run, ps: seq<Result<Draft, Error>>)
    requires Walk(run, ps).Ok?
    ensures AllOk(ps) && StoredSave(Drafts(ps), run.rows)
    ensures forall k | k in run.rows ::
              Walk(run, ps).value.rows[k] == Replaced(run.rows[k], LastWithId(Drafts(ps), k))
  {
    WalkSucceeds(run, ps);
    if ps != [] {
      var m := |ps| - 1;
      var prefix := ps[..m];
      WalkRows(run, prefix);
      DraftsSnoc(ps);
      var ds := Drafts(ps);
      var d := ps[m].value;
      assert forall x :: x in ds <==> x in Drafts(prefix) || x == d;
      var before := Walk(run, prefix).value;
      assert IsStored(d, before.rows) <==> IsStored(d, run.rows);
      StepOk(before, d);
      forall k | k in run.rows
        ensures Walk(run, ps).value.rows[k] == Replaced(run.rows[k], LastWithId(ds, k))
      {
        if d.orderId != Some(k) {
          assert LastWithId(ds, k) == LastWithId(Drafts(prefix), k);
        }
      }
    }
  }

  // ---------------------------------------------------------------------
  // The `bulk_create` call of `bulk_create_orders`

  /** The keys after the insert: the old ones and the queue's order ids. */
  lemma {:induction false} InsertKeys(t: Table, pending: seq<Draft>)
    requires Insert(t, pending).Ok?
    ensures Insert(t, pending).value.rows.Keys == t.rows.Keys + IdsOf(pending)
  {
    if pending != [] {
      var m := |pending| - 1;
      var prefix := pending[..m];
      var before, o := InsertLast(t, pending);
      InsertKeys(t, prefix);
      IdsOfSnoc(prefix, pending[m]);
      assert pending == prefix + [pending[m]];
    }
  }

  /** The insert leaves every row that was there as it was. */
  lemma {:induction false} InsertKeepsRows(t: Table, pending: seq<Draft>)
    requires Insert(t, pending).Ok?
    ensures forall k | k in t.rows :: Insert(t, pending).value.rows[k] == t.rows[k]
  {
    if pending != [] {
      var before, o := InsertLast(t, pending);
      InsertKeepsRows(t, pending[..|pending| - 1]);
    }
  }

  /** The `i`-th queued instance is stored under its order id with the
      `i`-th next surrogate key. */
  lemma {:induction false} InsertNewRows(t: Table, pending: seq<Draft>)
    requires Insert(t, pending).Ok?
    ensures NewRowsQueued(t.nextId, pending, Insert(t, pending).value)
  {
    if pending != [] {
      var m := |pending| - 1;
      var prefix := pending[..m];
      var before, o := InsertLast(t, pending);
      InsertNewRows(t, prefix);
      var after := Insert(t, pending).value;
      forall i | 0 <= i < |pending|
        ensures && pending[i].orderId.Some? && Save(pending[i]).Ok?
                && pending[i].orderId.value in after.rows
                && after.rows[pending[i].orderId.value] == Row(t.nextId + i, Save(pending[i]).value)
      {
        if i < m {
          assert pending[i] == prefix[i];
          var k := prefix[i].orderId.value;
          assert k in before.rows && k != o.orderId;
        }
      }
    }
  }

  /** The queued instances `f` are rows of `after` under their order ids,
      with the surrogate keys from `firstId` on in queue order. */
  predicate NewRowsQueued(firstId: nat, f: seq<Draft>, after: Table) {
    forall i | 0 <= i < |f| ::
      && f[i].orderId.Some? && Save(f[i]).Ok?
      && f[i].orderId.value in after.rows
      && after.rows[f[i].orderId.value] == Row(firstId + i, Save(f[i]).value)
  }

  /** The last step of the insert: the queue without its last instance
      went in, that instance saves, and its order id was not yet a key. */
  lemma InsertLast(t: Table, pending: seq<Draft>) returns (before: Table, o: Order)
    requires pending != [] && Insert(t, pending).Ok?
    ensures Insert(t, pending[..|pending| - 1]) == Ok(before)
    ensures Save(pending[|pending| - 1]) == Ok(o) && pending[|pending| - 1].orderId == Some(o.orderId)
    ensures o.orderId !in before.rows
    ensures Insert(t, pending).value == Table(before.rows[o.orderId := Row(before.nextId, o)], before.nextId + 1)
  {
    before := Insert(t, pending[..|pending| - 1]).value;
    o := Save(pending[|pending| - 1]).value;
  }

  /** The order ids of a queue one instance longer. */
  lemma IdsOfSnoc(ds: seq<Draft>, d: Draft)
    ensures IdsOf(ds + [d]) == IdsOf(ds) + (if d.orderId.Some? then {d.orderId.value} else {})
  {
    assert forall x :: x in ds + [d] <==> x in ds || x == d;
  }

  /** Once the insert has failed on a prefix of the queue, it fails on the
      whole queue with the same error. */
  lemma {:induction false} InsertErrPersists(t: Table, pending: seq<Draft>, n: nat)
    requires n <= |pending|
    requires Insert(t, pending[..n]).Err?
    ensures Insert(t, pending) == Insert(t, pending[..n])
    decreases |pending|
  {
    if n < |pending| {
      var m := |pending| - 1;
      assert pending[..m][..n] == pending[..n];
      InsertErrPersists(t, pending[..m], n);
    } else {
      assert pending[..n] == pending;
    }
  }

  /** What `bulk_create` needs of its queue: every instance can be
      written, none has an order id the table holds, and no two share one. */
  predicate Insertable(rows: map<string, Row>, pending: seq<Draft>) {
    AllSave(pending) && (forall d | d in pending :: !IsStored(d, rows)) && DistinctIds(pending)
  }

  /** `Insertable` of a queue one instance longer. */
  lemma InsertableSnoc(rows: map<string, Row>, pending: seq<Draft>)
    requires pending != []
    ensures var m := |pending| - 1; var d := pending[m];
      Insertable(rows, pending) <==>
        && Insertable(rows, pending[..m])
        && Save(d).Ok? && !IsStored(d, rows)
        && forall i | 0 <= i < m :: pending[i].orderId != d.orderId
  {
    var m := |pending| - 1;
    assert pending == pending[..m] + [pending[m]];
    assert forall i | 0 <= i < m :: pending[..m][i] == pending[i];
    assert forall x :: x in pending <==> x in pending[..m] || x == pending[m];
  }

  /** The insert succeeds exactly when its queue is `Insertable`. */
  lemma {:induction false} InsertSucceeds(t: Table, pending: seq<Draft>)
    ensures Insert(t, pending).Ok? <==> Insertable(t.rows, pending)
  {
    if pending != [] {
      var m := |pending| - 1;
      var prefix := pending[..m];
      InsertSucceeds(t, prefix);
      InsertableSnoc(t.rows, pending);
      var d := pending[m];
      if Insert(t, prefix).Ok? && Save(d).Ok? {
        InsertKeys(t, prefix);
        var o := Save(d).value;
        assert o.orderId in IdsOf(prefix) <==> exists i | 0 <= i < m :: pending[i].orderId == d.orderId by {
          if o.orderId in IdsOf(prefix) {
            var x :| x in prefix && x.orderId == Some(o.orderId);
            var i :| 0 <= i < m && prefix[i] == x;
            assert pending[i].orderId == d.orderId;
          }
          if exists i | 0 <= i < m :: pending[i].orderId == d.orderId {
            var i :| 0 <= i < m && pending[i].orderId == d.orderId;
            assert prefix[i] in prefix;
          }
        }
      }
    }
  }

  // ---------------------------------------------------------------------
  // The queue of `orders_to_create`

  /** `NoRepeatedNewId` of a batch one instance longer. */
  lemma NoRepeatedNewIdSnoc(ds: seq<Draft>, rows: map<string, Row>)
    requires ds != []
    ensures var m := |ds| - 1;
      NoRepeatedNewId(ds, rows) <==>
        && NoRepeatedNewId(ds[..m], rows)
        && forall i | 0 <= i < m :: ds[i].orderId == ds[m].orderId ==> IsStored(ds[i], rows)
  {
    var m := |ds| - 1;
    assert forall i | 0 <= i < m :: ds[..m][i] == ds[i];
  }

  /** `DistinctIds` of a queue one instance longer. */
  lemma DistinctIdsSnoc(f: seq<Draft>, d: Draft)
    ensures DistinctIds(f + [d]) <==> DistinctIds(f) && forall x | x in f :: x.orderId != d.orderId
  {
    assert forall i | 0 <= i < |f| :: (f + [d])[i] == f[i];
    assert (f + [d])[|f|] == d;
  }

  /** An instance whose order id the table does not hold avoids every id in
      the queue exactly when it avoids every id of the batch not held. */
  lemma FreshAvoids(ds: seq<Draft>, rows: map<string, Row>, d: Draft)
    requires !IsStored(d, rows)
    ensures (forall x | x in Fresh(ds, rows) :: x.orderId != d.orderId) <==>
            (forall i | 0 <= i < |ds| :: ds[i].orderId == d.orderId ==> IsStored(ds[i], rows))
  {
    if forall x | x in Fresh(ds, rows) :: x.orderId != d.orderId {
      forall i | 0 <= i < |ds| && ds[i].orderId == d.orderId ensures IsStored(ds[i], rows) {
        assert ds[i] in ds;
      }
    }
  }

  /** The queue has no repeated order id exactly when no order id the table
      does not hold appears twice in the batch. */
  lemma {:induction false} FreshDistinct(ds: seq<Draft>, rows: map<string, Row>)
    ensures DistinctIds(Fresh(ds, rows)) <==> NoRepeatedNewId(ds, rows)
  {
    if ds != [] {
      var m := |ds| - 1;
      var prefix := ds[..m];
      var d := ds[m];
      FreshDistinct(prefix, rows);
      NoRepeatedNewIdSnoc(ds, rows);
      if !IsStored(d, rows) {
        var f := Fresh(prefix, rows);
        assert Fresh(ds, rows) == f + [d];
        DistinctIdsSnoc(f, d);
        FreshAvoids(prefix, rows, d);
        assert forall i | 0 <= i < m :: ds[i] == prefix[i];
      }
    }
  }
}
