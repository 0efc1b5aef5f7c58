/** Python's `date` and `datetime` values (naive, no time zone) and the
    calendar rules their constructors enforce. */
module Calendar {

  datatype Date = Date(year: int, month: int, day: int)

  datatype DateTime = DateTime(year: int, month: int, day: int,
                               hour: int, minute: int, second: int, microsecond: int)

  predicate IsLeapYear(y: int) {
    y % 4 == 0 && (y % 100 != 0 || y % 400 == 0)
  }

  function DaysInMonth(y: int, m: int): (n: int)
    requires 1 <= m <= 12
    ensures 28 <= n <= 31
    ensures m == 2 ==> (n == 29 <==> IsLeapYear(y))
  {
    if m == 2 then (if IsLeapYear(y) then 29 else 28)
    else if m == 4 || m == 6 || m == 9 || m == 11 then 30
    else 31
  }

  /** What `date(y, m, d)` accepts: years 1..9999, months 1..12, and a day
      that exists in that month of that year. */
  predicate ValidDate(y: int, m: int, d: int) {
    1 <= y <= 9999 && 1 <= m <= 12 && 1 <= d <= DaysInMonth(y, m)
  }

  /** What `datetime(...)` accepts. */
  predicate ValidDateTime(t: DateTime) {
    && ValidDate(t.year, t.month, t.day)
    && 0 <= t.hour <= 23 && 0 <= t.minute <= 59 && 0 <= t.second <= 59
    && 0 <= t.microsecond <= 999999
  }

  /** `datetime.date()`: the calendar date of a timestamp. */
  function DateOf(t: DateTime): Date {
    Date(t.year, t.month, t.day)
  }

  /** `a < b` on dates: chronological, i.e. lexicographic on the fields. */
  predicate DateBefore(a: Date, b: Date) {
    a.year < b.year
    || (a.year == b.year && a.month < b.month)
    || (a.year == b.year && a.month == b.month && a.day < b.day)
  }

  /** `a <= b` on timestamps: lexicographic on the seven fields. */
  predicate AtOrBefore(a: DateTime, b: DateTime) {
    if a.year != b.year then a.year < b.year
    else if a.month != b.month then a.month < b.month
    else if a.day != b.day then a.day < b.day
    else if a.hour != b.hour then a.hour < b.hour
    else if a.minute != b.minute then a.minute < b.minute
    else if a.second != b.second then a.second < b.second
    else a.microsecond <= b.microsecond
  }

  /** The date order is a strict total order. */
  lemma DateBeforeIsStrictTotalOrder(a: Date, b: Date, c: Date)
    ensures !DateBefore(a, a)
    ensures DateBefore(a, b) ==> !DateBefore(b, a)
    ensures DateBefore(a, b) && DateBefore(b, c) ==> DateBefore(a, c)
    ensures a == b || DateBefore(a, b) || DateBefore(b, a)
  {
  }

  /** The timestamp order is a total preorder that is antisymmetric, so a
      total order. */
  lemma AtOrBeforeIsTotalOrder(a: DateTime, b: DateTime, c: DateTime)
    ensures AtOrBefore(a, a)
    ensures AtOrBefore(a, b) || AtOrBefore(b, a)
    ensures AtOrBefore(a, b) && AtOrBefore(b, a) ==> a == b
    ensures AtOrBefore(a, b) && AtOrBefore(b, c) ==> AtOrBefore(a, c)
  {
  }
}
