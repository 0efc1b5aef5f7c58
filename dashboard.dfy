/** `Dashboard`: the per-day summary the home page shows. The query groups
    the stored orders by `date`, counts each group (`Count('id')`, and `id`
    is never NULL), sums its `total_amount`, and orders the groups by date,
    newest first. It is modelled as a fold over the stored orders. */
module Dashboard {
  import opened Calendar
  import opened Money
  import opened Orders

  /** One row of `orders_by_day`. */
  datatype DayTotal = DayTotal(date: Date, orderCount: nat, totalAmount: Decimal)

  // ---------------------------------------------------------------------
  // What a group is, read off the orders directly

  /** How many of `os` fall on `d`. */
  function CountOn(os: seq<Order>, d: Date): (n: nat)
    ensures n <= |os|
  {
    if os == [] then 0
    else CountOn(os[..|os| - 1], d) + (if os[|os| - 1].date == d then 1 else 0)
  }

  /** The sum, in cents, of `total_amount` over the orders of `os` on `d`. */
  function CentsOn(os: seq<Order>, d: Date): int {
    if os == [] then 0
    else CentsOn(os[..|os| - 1], d) + (if os[|os| - 1].date == d then Cents(os[|os| - 1].totalAmount) else 0)
  }

  /** The dates the orders fall on. */
  function OrderDates(os: seq<Order>): set<Date> {
    set o | o in os :: o.date
  }

  // ---------------------------------------------------------------------
  // The rows

  /** Dates strictly decrease down the rows: `order_by('-date')` over groups
      that each have a date of their own. */
  predicate Descending(rows: seq<DayTotal>) {
    forall i, j | 0 <= i < j < |rows| :: DateBefore(rows[j].date, rows[i].date)
  }

  /** The dates the rows are for. */
  function RowDates(rows: seq<DayTotal>): set<Date> {
    set r | r in rows :: r.date
  }

  /** Every row stands for at least one order. */
  predicate NonEmptyGroups(rows: seq<DayTotal>) {
    forall i | 0 <= i < |rows| :: rows[i].orderCount >= 1
  }

  /** The `order_count` of the row for `d`, or 0 when there is none. */
  function CountIn(rows: seq<DayTotal>, d: Date): (n: nat)
    ensures d !in RowDates(rows) ==> n == 0
  {
    if rows == [] then 0
    else if rows[0].date == d then rows[0].orderCount
    else CountIn(rows[1..], d)
  }

  /** The `total_amount` of the row for `d` in cents, or 0 when there is none. */
  function CentsIn(rows: seq<DayTotal>, d: Date): (c: int)
    ensures d !in RowDates(rows) ==> c == 0
  {
    if rows == [] then 0
    else if rows[0].date == d then Cents(rows[0].totalAmount)
    else CentsIn(rows[1..], d)
  }

  /** The sum of `order_count` down the rows. */
  function TotalCount(rows: seq<DayTotal>): nat {
    if rows == [] then 0 else rows[0].orderCount + TotalCount(rows[1..])
  }

  /** A row further down has a date before the first row's. */
  lemma DescendingTail(rows: seq<DayTotal>)
    requires Descending(rows) && rows != []
    ensures Descending(rows[1..])
    ensures forall d | d in RowDates(rows[1..]) :: DateBefore(d, rows[0].date)
  {
    forall d | d in RowDates(rows[1..]) ensures DateBefore(d, rows[0].date) {
      var r :| r in rows[1..] && r.date == d;
      var j :| 0 <= j < |rows[1..]| && rows[1..][j] == r;
      assert rows[j + 1] == r;
    }
  }

  /** Counts `o` into the rows: its date's row gains one order and its
      amount, or a row for a new date goes in where the order keeps the
      dates descending. */
  function AddOrder(rows: seq<DayTotal>, o: Order): (r: seq<DayTotal>)
    requires Descending(rows)
    ensures Descending(r)
    ensures RowDates(r) == RowDates(rows) + {o.date}
    decreases |rows|
  {
    if rows == [] then
      [DayTotal(o.date, 1, o.totalAmount)]
    else if rows[0].date == o.date then
      var first := rows[0].(orderCount := rows[0].orderCount + 1,
                            totalAmount := Add(rows[0].totalAmount, o.totalAmount));
      SameDate(rows, first);
      [first] + rows[1..]
    else if DateBefore(rows[0].date, o.date) then
      NewestDate(rows, o.date, o.totalAmount);
      [DayTotal(o.date, 1, o.totalAmount)] + rows
    else
      DescendingTail(rows);
      DateBeforeIsStrictTotalOrder(o.date, rows[0].date, o.date);
      var tail := AddOrder(rows[1..], o);
      OlderDate(rows, o.date, tail);
      [rows[0]] + tail
  }

  /** The first row replaced by one for the same date keeps the rows
      descending and their dates. */
  lemma SameDate(rows: seq<DayTotal>, first: DayTotal)
    requires Descending(rows) && rows != [] && first.date == rows[0].date
    ensures Descending([first] + rows[1..])
    ensures RowDates([first] + rows[1..]) == RowDates(rows)
  {
    assert rows == [rows[0]] + rows[1..];
    var r := [first] + rows[1..];
    forall i, j | 0 <= i < j < |r| ensures DateBefore(r[j].date, r[i].date) {
      assert r[j] == rows[j];
      assert r[i].date == rows[i].date;
    }
  }

  /** A date before the first row's goes into the rows after it. */
  lemma OlderDate(rows: seq<DayTotal>, d: Date, tail: seq<DayTotal>)
    requires Descending(rows) && rows != [] && DateBefore(d, rows[0].date)
    requires Descending(tail) && RowDates(tail) == RowDates(rows[1..]) + {d}
    ensures Descending([rows[0]] + tail)
    ensures RowDates([rows[0]] + tail) == RowDates(rows) + {d}
  {
    DescendingTail(rows);
    var r := [rows[0]] + tail;
    forall i, j | 0 <= i < j < |r| ensures DateBefore(r[j].date, r[i].date) {
      assert r[j] == tail[j - 1];
      assert tail[j - 1].date in RowDates(tail);
      if i > 0 {
        assert r[i] == tail[i - 1];
      }
    }
    assert RowDates(r) == {rows[0].date} + RowDates(tail) by {
      forall x | x in RowDates(r) ensures x in {rows[0].date} + RowDates(tail) {
        var y :| y in r && y.date == x;
        if y != rows[0] {
          assert y in tail;
        }
      }
      forall x | x in RowDates(tail) ensures x in RowDates(r) {
        var y :| y in tail && y.date == x;
        assert y in r;
      }
    }
    assert RowDates(rows) == {rows[0].date} + RowDates(rows[1..]) by {
      assert rows == [rows[0]] + rows[1..];
      forall x | x in RowDates(rows) ensures x in {rows[0].date} + RowDates(rows[1..]) {
        var y :| y in rows && y.date == x;
        if y != rows[0] {
          assert y in rows[1..];
        }
      }
      forall x | x in RowDates(rows[1..]) ensures x in RowDates(rows) {
        var y :| y in rows[1..] && y.date == x;
        assert y in rows;
      }
    }
  }

  /** A date after the first row's is after every row's, so a row for it
      can go in front. */
  lemma NewestDate(rows: seq<DayTotal>, d: Date, amount: Decimal)
    requires Descending(rows) && rows != [] && DateBefore(rows[0].date, d)
    ensures d !in RowDates(rows)
    ensures Descending([DayTotal(d, 1, amount)] + rows)
  {
    DescendingTail(rows);
    forall e | e in RowDates(rows) ensures DateBefore(e, d) {
      DateBeforeIsStrictTotalOrder(e, rows[0].date, d);
    }
    DateBeforeIsStrictTotalOrder(d, d, d);
    var r := [DayTotal(d, 1, amount)] + rows;
    forall i, j | 0 <= i < j < |r| ensures DateBefore(r[j].date, r[i].date) {
      assert r[j] == rows[j - 1];
      assert rows[j - 1].date in RowDates(rows);
    }
  }

  /** Adding an order adds one to its date's count and its amount to its
      date's total, and changes no other date's row. */
  lemma {:induction false} AddOrderGroups(rows: seq<DayTotal>, o: Order, d: Date)
    requires Descending(rows)
    ensures CountIn(AddOrder(rows, o), d) == CountIn(rows, d) + (if d == o.date then 1 else 0)
    ensures CentsIn(AddOrder(rows, o), d) == CentsIn(rows, d) + (if d == o.date then Cents(o.totalAmount) else 0)
    decreases |rows|
  {
    if rows != [] && rows[0].date != o.date && !DateBefore(rows[0].date, o.date) {
      DescendingTail(rows);
      AddOrderGroups(rows[1..], o, d);
    } else if rows != [] && rows[0].date != o.date {
      NewestDate(rows, o.date, o.totalAmount);
    }
  }

  /** Adding an order keeps every row non-empty and adds one to the total
      count. */
  lemma {:induction false} AddOrderCounts(rows: seq<DayTotal>, o: Order)
    requires Descending(rows) && NonEmptyGroups(rows)
    ensures NonEmptyGroups(AddOrder(rows, o))
    ensures TotalCount(AddOrder(rows, o)) == TotalCount(rows) + 1
    decreases |rows|
  {
    if rows != [] && rows[0].date != o.date && !DateBefore(rows[0].date, o.date) {
      DescendingTail(rows);
      AddOrderCounts(rows[1..], o);
      var r := AddOrder(rows, o);
      assert r[1..] == AddOrder(rows[1..], o);
    }
  }

  /** `orders_by_day`: the stored orders folded into rows, one order at a
      time. The rows are the groups the query returns: newest date first,
      one row per date an order falls on, each with that date's order count
      and amount. */
  function OrdersByDay(os: seq<Order>): (rows: seq<DayTotal>)
    ensures Descending(rows) && NonEmptyGroups(rows)
    ensures RowDates(rows) == OrderDates(os)
    ensures forall d :: CountIn(rows, d) == CountOn(os, d)
    ensures forall d :: CentsIn(rows, d) == CentsOn(os, d)
    ensures TotalCount(rows) == |os|
  {
    if os == [] then []
    else
      var init := os[..|os| - 1];
      assert os == init + [os[|os| - 1]];
      assert OrderDates(os) == OrderDates(init) + {os[|os| - 1].date};
      var before := OrdersByDay(init);
      AddOrderCounts(before, os[|os| - 1]);
      forall d ensures CountIn(AddOrder(before, os[|os| - 1]), d) == CountOn(os, d)
        && CentsIn(AddOrder(before, os[|os| - 1]), d) == CentsOn(os, d)
      {
        AddOrderGroups(before, os[|os| - 1], d);
      }
      AddOrder(before, os[|os| - 1])
  }

  // ---------------------------------------------------------------------
  // Properties of the summary

  /** With the dates distinct, the row at `i` is the row `CountIn` and
      `CentsIn` read. */
  lemma {:induction false} RowAt(rows: seq<DayTotal>, i: nat)
    requires Descending(rows) && i < |rows|
    ensures CountIn(rows, rows[i].date) == rows[i].orderCount
    ensures CentsIn(rows, rows[i].date) == Cents(rows[i].totalAmount)
    decreases i
  {
    if i > 0 {
      DescendingTail(rows);
      assert rows[1..][i - 1] == rows[i];
      assert rows[i].date != rows[0].date by {
        DateBeforeIsStrictTotalOrder(rows[i].date, rows[0].date, rows[0].date);
      }
      RowAt(rows[1..], i - 1);
    }
  }

  /** Each row holds the count and the amount of exactly the orders on its
      date, and a date appears in one row at most. */
  lemma OrdersByDayRows(os: seq<Order>)
    ensures forall i | 0 <= i < |OrdersByDay(os)| ::
      && OrdersByDay(os)[i].orderCount == CountOn(os, OrdersByDay(os)[i].date)
      && Cents(OrdersByDay(os)[i].totalAmount) == CentsOn(os, OrdersByDay(os)[i].date)
    ensures forall i, j | 0 <= i < j < |OrdersByDay(os)| :: OrdersByDay(os)[i].date != OrdersByDay(os)[j].date
  {
    var rows := OrdersByDay(os);
    forall i | 0 <= i < |rows|
      ensures rows[i].orderCount == CountOn(os, rows[i].date)
      ensures Cents(rows[i].totalAmount) == CentsOn(os, rows[i].date)
    {
      RowAt(rows, i);
    }
    forall i, j | 0 <= i < j < |rows| ensures rows[i].date != rows[j].date {
      DateBeforeIsStrictTotalOrder(rows[j].date, rows[i].date, rows[i].date);
    }
  }

  /** A date no order falls on has no row; one that some order falls on has
      exactly one. */
  lemma OrdersByDayCoversDates(os: seq<Order>, d: Date)
    ensures (exists i :: 0 <= i < |OrdersByDay(os)| && OrdersByDay(os)[i].date == d) <==> d in OrderDates(os)
  {
    var rows := OrdersByDay(os);
    if d in OrderDates(os) {
      assert d in RowDates(rows);
      var r :| r in rows && r.date == d;
      var i :| 0 <= i < |rows| && rows[i] == r;
    }
  }
}
