/** The flexible timestamp parser of the order loader (`_parse_datetime`):
    five fixed `strptime` layouts tried in order, the first that parses
    wins, and the caller's "now" when the text is empty or nothing parses.

    Each layout is scanned the way Python's `strptime` scans it: every
    directive is a regular expression whose alternatives are tried in a
    fixed order, literal letters match either case, a space in the layout
    matches a run of whitespace, the whole text must be consumed, and the
    fields must then form a real date and time. */
module DateParsing {
  import opened Wrappers
  import opened Json
  import opened Calendar

  /** The layouts, in the order they are tried:
      `%Y-%m-%dT%H:%M:%S.%fZ`, `%Y-%m-%dT%H:%M:%SZ`, `%Y-%m-%dT%H:%M:%S`,
      `%Y-%m-%d %H:%M:%S` and `%Y-%m-%d`. */
  datatype Layout = IsoFractionZ | IsoZ | IsoLocal | SpaceSeparated | DateOnly

  const Layouts: seq<Layout> := [IsoFractionZ, IsoZ, IsoLocal, SpaceSeparated, DateOnly]

  /** A field value read from the front of the text, and what follows it. */
  datatype Scan = Scan(value: int, rest: string)

  datatype DateScan = DateScan(year: int, month: int, day: int, rest: string)

  datatype ClockScan = ClockScan(hour: int, minute: int, second: int, rest: string)

  /** The time-of-day fields a layout supplies (zero when it has none). */
  datatype Clock = Clock(hour: int, minute: int, second: int, microsecond: int)

  // ---------------------------------------------------------------------
  // Characters

  predicate IsDigit(c: char) { '0' <= c <= '9' }

  function DigitValue(c: char): (v: int)
    requires IsDigit(c)
    ensures 0 <= v <= 9
  {
    c as int - '0' as int
  }

  function DigitChar(d: int): (c: char)
    requires 0 <= d <= 9
    ensures IsDigit(c) && DigitValue(c) == d
  {
    ('0' as int + d) as char
  }

  /** The ASCII characters that `\s` matches. */
  predicate IsSpace(c: char) {
    c == ' ' || ('\t' <= c <= '\r') || ('\U{1C}' <= c <= '\U{1F}')
  }

  /** A literal of the layout; letters match in either case. */
  predicate MatchesLiteral(c: char, literal: char) {
    if 'A' <= literal <= 'Z' then c == literal || c as int == literal as int + 32
    else c == literal
  }

  // ---------------------------------------------------------------------
  // Directives

  /** Two digits, the first in `lo1..hi1`, the second in `lo2..hi2`. */
  function Pair(s: string, lo1: char, hi1: char, lo2: char, hi2: char): Option<Scan>
    requires '0' <= lo1 && hi1 <= '9' && '0' <= lo2 && hi2 <= '9'
  {
    if |s| >= 2 && lo1 <= s[0] <= hi1 && lo2 <= s[1] <= hi2
    then Some(Scan(10 * DigitValue(s[0]) + DigitValue(s[1]), s[2..]))
    else None
  }

  /** One digit in `lo..hi`. */
  function Single(s: string, lo: char, hi: char): Option<Scan>
    requires '0' <= lo && hi <= '9'
  {
    if |s| >= 1 && lo <= s[0] <= hi then Some(Scan(DigitValue(s[0]), s[1..])) else None
  }

  /** Regular-expression alternation: the first alternative that matches. */
  function OrElse(a: Option<Scan>, b: Option<Scan>): Option<Scan> {
    if a.Some? then a else b
  }

  /** `%Y`: exactly four digits. */
  function ScanYear(s: string): Option<Scan> {
    if |s| >= 4 && IsDigit(s[0]) && IsDigit(s[1]) && IsDigit(s[2]) && IsDigit(s[3])
    then Some(Scan(1000 * DigitValue(s[0]) + 100 * DigitValue(s[1])
                   + 10 * DigitValue(s[2]) + DigitValue(s[3]), s[4..]))
    else None
  }

  /** `%m`: `10`-`12`, else `01`-`09`, else one digit `1`-`9`. */
  function ScanMonth(s: string): Option<Scan> {
    OrElse(Pair(s, '1', '1', '0', '2'), OrElse(Pair(s, '0', '0', '1', '9'), Single(s, '1', '9')))
  }

  /** `%d`: `30`-`31`, else `10`-`29`, else `01`-`09`, else one digit
      `1`-`9`, else a space followed by `1`-`9`. */
  function ScanDay(s: string): Option<Scan> {
    OrElse(Pair(s, '3', '3', '0', '1'),
    OrElse(Pair(s, '1', '2', '0', '9'),
    OrElse(Pair(s, '0', '0', '1', '9'),
    OrElse(Single(s, '1', '9'),
      if |s| >= 2 && s[0] == ' ' && '1' <= s[1] <= '9'
      then Some(Scan(DigitValue(s[1]), s[2..])) else None))))
  }

  /** `%H`: `20`-`23`, else `00`-`19`, else one digit. */
  function ScanHour(s: string): Option<Scan> {
    OrElse(Pair(s, '2', '2', '0', '3'), OrElse(Pair(s, '0', '1', '0', '9'), Single(s, '0', '9')))
  }

  /** `%M`: `00`-`59`, else one digit. */
  function ScanMinute(s: string): Option<Scan> {
    OrElse(Pair(s, '0', '5', '0', '9'), Single(s, '0', '9'))
  }

  /** `%S`: `60`-`61`, else `00`-`59`, else one digit. Leap seconds pass the
      scan and are rejected later, when the `datetime` is built. */
  function ScanSecond(s: string): Option<Scan> {
    OrElse(Pair(s, '6', '6', '0', '1'), OrElse(Pair(s, '0', '5', '0', '9'), Single(s, '0', '9')))
  }

  /** Up to `places` further digits of a fraction, greedily, with `acc` the
      value so far; the digits not present count as trailing zeros. */
  function FractionDigits(s: string, places: nat, acc: int): Scan
    decreases places
  {
    if places == 0 then Scan(acc, s)
    else if |s| > 0 && IsDigit(s[0]) then FractionDigits(s[1..], places - 1, 10 * acc + DigitValue(s[0]))
    else Scan(acc * Pow10(places), s)
  }

  function Pow10(n: nat): (p: nat)
    ensures p >= 1
  {
    if n == 0 then 1 else 10 * Pow10(n - 1)
  }

  /** `%f`: one to six digits, read as microseconds (`5` is 500000). */
  function ScanFraction(s: string): Option<Scan> {
    if |s| > 0 && IsDigit(s[0]) then Some(FractionDigits(s, 6, 0)) else None
  }

  /** A literal character of the layout. */
  function ScanLiteral(s: string, literal: char): Option<string> {
    if |s| > 0 && MatchesLiteral(s[0], literal) then Some(s[1..]) else None
  }

  /** What is left after a run of whitespace. */
  function SkipSpaces(s: string): string {
    if |s| > 0 && IsSpace(s[0]) then SkipSpaces(s[1..]) else s
  }

  /** A space in the layout: one or more whitespace characters. */
  function ScanSpaces(s: string): Option<string> {
    if |s| > 0 && IsSpace(s[0]) then Some(SkipSpaces(s)) else None
  }

  // ---------------------------------------------------------------------
  // Layouts

  /** `%Y-%m-%d`, the prefix of every layout. */
  function ScanDate(s: string): Option<DateScan> {
    match ScanYear(s)
    case None => None
    case Some(y) =>
      match ScanLiteral(y.rest, '-')
      case None => None
      case Some(s1) =>
        match ScanMonth(s1)
        case None => None
        case Some(m) =>
          match ScanLiteral(m.rest, '-')
          case None => None
          case Some(s2) =>
            match ScanDay(s2)
            case None => None
            case Some(d) => Some(DateScan(y.value, m.value, d.value, d.rest))
  }

  /** `%H:%M:%S`. */
  function ScanClock(s: string): Option<ClockScan> {
    match ScanHour(s)
    case None => None
    case Some(h) =>
      match ScanLiteral(h.rest, ':')
      case None => None
      case Some(s1) =>
        match ScanMinute(s1)
        case None => None
        case Some(mi) =>
          match ScanLiteral(mi.rest, ':')
          case None => None
          case Some(s2) =>
            match ScanSecond(s2)
            case None => None
            case Some(sec) => Some(ClockScan(h.value, mi.value, sec.value, sec.rest))
  }

  /** What follows `%S` in the three ISO layouts, ending the text. */
  function IsoSuffix(layout: Layout, s: string): Option<int>
    requires layout == IsoFractionZ || layout == IsoZ || layout == IsoLocal
  {
    match layout
    case IsoLocal => if s == "" then Some(0) else None
    case IsoZ => if ScanLiteral(s, 'Z') == Some("") then Some(0) else None
    case IsoFractionZ =>
      match ScanLiteral(s, '.')
      case None => None
      case Some(s1) =>
        match ScanFraction(s1)
        case None => None
        case Some(f) => if ScanLiteral(f.rest, 'Z') == Some("") then Some(f.value) else None
  }

  /** The part of a layout after `%Y-%m-%d`, which must consume the rest of
      the text. */
  function ScanTime(layout: Layout, s: string): Option<Clock> {
    match layout
    case DateOnly => if s == "" then Some(Clock(0, 0, 0, 0)) else None
    case SpaceSeparated =>
      (match ScanSpaces(s)
       case None => None
       case Some(s1) =>
         match ScanClock(s1)
         case None => None
         case Some(c) => if c.rest == "" then Some(Clock(c.hour, c.minute, c.second, 0)) else None)
    case _ =>
      match ScanLiteral(s, 'T')
      case None => None
      case Some(s1) =>
        match ScanClock(s1)
        case None => None
        case Some(c) =>
          match IsoSuffix(layout, c.rest)
          case None => None
          case Some(us) => Some(Clock(c.hour, c.minute, c.second, us))
  }

  /** `datetime.strptime(text, layout)`, with `None` for the `ValueError`
      raised when the text does not fit the layout or names no real
      date and time. */
  function TryLayout(layout: Layout, s: string): (r: Option<DateTime>)
    ensures r.Some? ==> ValidDateTime(r.value)
  {
    match ScanDate(s)
    case None => None
    case Some(d) =>
      match ScanTime(layout, d.rest)
      case None => None
      case Some(c) =>
        var t := DateTime(d.year, d.month, d.day, c.hour, c.minute, c.second, c.microsecond);
        if ValidDateTime(t) then Some(t) else None
  }

  /** The loop over the layouts: the first that parses wins. */
  function FirstMatch(layouts: seq<Layout>, s: string): (r: Option<DateTime>)
    ensures r.Some? ==> exists i :: 0 <= i < |layouts| && TryLayout(layouts[i], s) == r
                          && forall j :: 0 <= j < i ==> TryLayout(layouts[j], s).None?
    ensures r.None? ==> forall i :: 0 <= i < |layouts| ==> TryLayout(layouts[i], s).None?
  {
    if layouts == [] then None
    else
      var here := TryLayout(layouts[0], s);
      if here.Some? then here
      else
        var r := FirstMatch(layouts[1..], s);
        assert forall i :: 1 <= i < |layouts| ==> layouts[i] == layouts[1..][i - 1];
        r
  }

  /** `_parse_datetime` on text: "now" for the empty text and for text that
      no layout parses, otherwise the first layout's result. It never fails. */
  function ParseText(s: string, now: DateTime): (r: DateTime)
    ensures s == "" ==> r == now
    ensures r == now || ValidDateTime(r)
    ensures FirstMatch(Layouts, s).None? ==> r == now
    ensures FirstMatch(Layouts, s).Some? ==> r == FirstMatch(Layouts, s).value
  {
    if s == "" then now
    else match FirstMatch(Layouts, s)
      case Some(t) => t
      case None => now
  }

  /** `_parse_datetime` on whatever the JSON holds: a false value (`null`,
      `""`, `0`, `[]`, `{}`) gives "now"; other text is parsed; any other
      value makes `strptime` raise a `TypeError`, which is not caught. */
  function ParseDateTime(v: Json, now: DateTime): (r: Result<DateTime, Error>)
    ensures !Truthy(v) ==> r == Ok(now)
    ensures r.Ok? <==> !Truthy(v) || v.JString?
    ensures r.Ok? ==> r.value == now || ValidDateTime(r.value)
    ensures Truthy(v) && v.JString? ==> r == Ok(ParseText(v.s, now))
    ensures v.JString? && FirstMatch(Layouts, v.s).Some? ==> r == Ok(FirstMatch(Layouts, v.s).value)
    ensures v.JString? && FirstMatch(Layouts, v.s).None? ==> r == Ok(now)
  {
    if !Truthy(v) then Ok(now)
    else if v.JString? then Ok(ParseText(v.s, now))
    else Err(TypeError("strptime() argument 1 must be str"))
  }

  // ---------------------------------------------------------------------
  // Rendering: the reference inverse of the parser

  /** Two-digit, zero-padded decimal text (`%02d`). */
  function Digits2(n: int): string
    requires 0 <= n <= 99
  {
    [DigitChar(n / 10), DigitChar(n % 10)]
  }

  function Digits4(n: int): string
    requires 0 <= n <= 9999
  {
    Digits2(n / 100) + Digits2(n % 100)
  }

  function Digits6(n: int): string
    requires 0 <= n <= 999999
  {
    Digits2(n / 10000) + Digits2(n / 100 % 100) + Digits2(n % 100)
  }

  function DateText(t: DateTime): string
    requires ValidDateTime(t)
  {
    Digits4(t.year) + "-" + Digits2(t.month) + "-" + Digits2(t.day)
  }

  function ClockText(t: DateTime): string
    requires ValidDateTime(t)
  {
    Digits2(t.hour) + ":" + Digits2(t.minute) + ":" + Digits2(t.second)
  }

  /** What a layout writes after the date. */
  function TimeText(layout: Layout, t: DateTime): string
    requires ValidDateTime(t)
  {
    match layout
    case IsoFractionZ => "T" + (ClockText(t) + ("." + (Digits6(t.microsecond) + "Z")))
    case IsoZ => "T" + (ClockText(t) + "Z")
    case IsoLocal => "T" + ClockText(t)
    case SpaceSeparated => " " + ClockText(t)
    case DateOnly => ""
  }

  /** The canonical text of `t` in a layout, as `strftime` writes it. */
  function Render(layout: Layout, t: DateTime): string
    requires ValidDateTime(t)
  {
    DateText(t) + TimeText(layout, t)
  }

  /** The fields of `t` a layout carries; the others read back as zero. */
  function Truncate(layout: Layout, t: DateTime): DateTime {
    match layout
    case IsoFractionZ => t
    case DateOnly => DateTime(t.year, t.month, t.day, 0, 0, 0, 0)
    case _ => t.(microsecond := 0)
  }

  // ---------------------------------------------------------------------
  // Each directive reads back the digits that rendering writes

  lemma ScanYearDigits(n: int, rest: string)
    requires 0 <= n <= 9999
    ensures ScanYear(Digits4(n) + rest) == Some(Scan(n, rest))
  {
    var s := Digits4(n) + rest;
    assert s[4..] == rest;
  }

  lemma ScanMonthDigits(n: int, rest: string)
    requires 1 <= n <= 12
    ensures ScanMonth(Digits2(n) + rest) == Some(Scan(n, rest))
  {
    var s := Digits2(n) + rest;
    assert s[2..] == rest;
  }

  lemma ScanDayDigits(n: int, rest: string)
    requires 1 <= n <= 31
    ensures ScanDay(Digits2(n) + rest) == Some(Scan(n, rest))
  {
    var s := Digits2(n) + rest;
    assert s[2..] == rest;
  }

  lemma ScanHourDigits(n: int, rest: string)
    requires 0 <= n <= 23
    ensures ScanHour(Digits2(n) + rest) == Some(Scan(n, rest))
  {
    var s := Digits2(n) + rest;
    assert s[2..] == rest;
  }

  lemma ScanMinuteDigits(n: int, rest: string)
    requires 0 <= n <= 59
    ensures ScanMinute(Digits2(n) + rest) == Some(Scan(n, rest))
  {
    var s := Digits2(n) + rest;
    assert s[2..] == rest;
  }

  lemma ScanSecondDigits(n: int, rest: string)
    requires 0 <= n <= 59
    ensures ScanSecond(Digits2(n) + rest) == Some(Scan(n, rest))
  {
    var s := Digits2(n) + rest;
    assert s[2..] == rest;
  }

  /** Two digits of a fraction are consumed together. */
  lemma FractionTwoDigits(p: int, rest: string, places: nat, acc: int)
    requires 0 <= p <= 99
    ensures FractionDigits(Digits2(p) + rest, places + 2, acc)
         == FractionDigits(rest, places, 100 * acc + p)
  {
    var s := Digits2(p) + rest;
    assert s[1..][1..] == rest;
  }

  /** Six digits are three pairs: the number's ten-thousands, its
      hundreds below that, and its last two digits. */
  lemma SixDigitPairs(n: int)
    requires 0 <= n <= 999999
    ensures 0 <= n / 10000 <= 99 && 0 <= n / 100 % 100 <= 99 && 0 <= n % 100 <= 99
    ensures 100 * (100 * (n / 10000) + n / 100 % 100) + n % 100 == n
  {
    assert n == 100 * (n / 100) + n % 100;
    assert n / 100 == 100 * (n / 100 / 100) + n / 100 % 100;
    assert n / 100 / 100 == n / 10000;
  }

  /** Six rendered digits read back as the same number of microseconds. */
  lemma ScanFractionDigits(n: int, rest: string)
    requires 0 <= n <= 999999
    ensures ScanFraction(Digits6(n) + rest) == Some(Scan(n, rest))
  {
    SixDigitPairs(n);
    var a, b, c := n / 10000, n / 100 % 100, n % 100;
    var pa, pb, pc := Digits2(a), Digits2(b), Digits2(c);
    assert Digits6(n) + rest == pa + (pb + (pc + rest));
    FractionTwoDigits(a, pb + (pc + rest), 4, 0);
    FractionTwoDigits(b, pc + rest, 2, a);
    FractionTwoDigits(c, rest, 0, 100 * a + b);
  }

  /** `a`, a separator, `b`, a separator, `c`, then `tail`, grouped from
      the right as a scan consumes them. */
  lemma ThreeFields(a: string, sep: char, b: string, c: string, tail: string)
    ensures a + [sep] + b + [sep] + c + tail == a + ([sep] + (b + ([sep] + (c + tail))))
  {
  }

  lemma ScanDateRendered(t: DateTime, tail: string)
    requires ValidDateTime(t)
    ensures ScanDate(DateText(t) + tail) == Some(DateScan(t.year, t.month, t.day, tail))
  {
    var d2 := Digits2(t.day) + tail;
    var m2 := Digits2(t.month) + ("-" + d2);
    ThreeFields(Digits4(t.year), '-', Digits2(t.month), Digits2(t.day), tail);
    assert DateText(t) + tail == Digits4(t.year) + ("-" + m2);
    ScanYearDigits(t.year, "-" + m2);
    assert ScanLiteral("-" + m2, '-') == Some(m2);
    ScanMonthDigits(t.month, "-" + d2);
    assert ScanLiteral("-" + d2, '-') == Some(d2);
    ScanDayDigits(t.day, tail);
  }

  lemma ScanClockRendered(t: DateTime, tail: string)
    requires ValidDateTime(t)
    ensures ScanClock(ClockText(t) + tail) == Some(ClockScan(t.hour, t.minute, t.second, tail))
  {
    var s2 := Digits2(t.second) + tail;
    var m2 := Digits2(t.minute) + (":" + s2);
    ThreeFields(Digits2(t.hour), ':', Digits2(t.minute), Digits2(t.second), tail);
    assert ClockText(t) + tail == Digits2(t.hour) + (":" + m2);
    ScanHourDigits(t.hour, ":" + m2);
    assert ScanLiteral(":" + m2, ':') == Some(m2);
    ScanMinuteDigits(t.minute, ":" + s2);
    assert ScanLiteral(":" + s2, ':') == Some(s2);
    ScanSecondDigits(t.second, tail);
  }

  lemma ScanTimeRenderedSpace(t: DateTime)
    requires ValidDateTime(t)
    ensures ScanTime(SpaceSeparated, TimeText(SpaceSeparated, t))
         == Some(Clock(t.hour, t.minute, t.second, 0))
  {
    var tail := TimeText(SpaceSeparated, t);
    assert tail[1..] == ClockText(t) + "";
    assert SkipSpaces(tail[1..]) == tail[1..];
    ScanClockRendered(t, "");
  }

  lemma ScanTimeRenderedIsoLocal(t: DateTime)
    requires ValidDateTime(t)
    ensures ScanTime(IsoLocal, TimeText(IsoLocal, t)) == Some(Clock(t.hour, t.minute, t.second, 0))
  {
    var clock := ClockText(t) + "";
    assert TimeText(IsoLocal, t)[1..] == clock;
    assert ScanLiteral(TimeText(IsoLocal, t), 'T') == Some(clock);
    ScanClockRendered(t, "");
    assert IsoSuffix(IsoLocal, "") == Some(0);
  }

  lemma ScanTimeRenderedIsoZ(t: DateTime)
    requires ValidDateTime(t)
    ensures ScanTime(IsoZ, TimeText(IsoZ, t)) == Some(Clock(t.hour, t.minute, t.second, 0))
  {
    var clock := ClockText(t) + "Z";
    assert TimeText(IsoZ, t)[1..] == clock;
    assert ScanLiteral(TimeText(IsoZ, t), 'T') == Some(clock);
    ScanClockRendered(t, "Z");
    assert "Z"[1..] == "";
    assert IsoSuffix(IsoZ, "Z") == Some(0);
  }

  lemma ScanTimeRenderedIsoFractionZ(t: DateTime)
    requires ValidDateTime(t)
    ensures ScanTime(IsoFractionZ, TimeText(IsoFractionZ, t))
         == Some(Clock(t.hour, t.minute, t.second, t.microsecond))
  {
    var frac := "." + (Digits6(t.microsecond) + "Z");
    var clock := ClockText(t) + frac;
    assert TimeText(IsoFractionZ, t)[1..] == clock;
    assert ScanLiteral(TimeText(IsoFractionZ, t), 'T') == Some(clock);
    ScanClockRendered(t, frac);
    IsoFractionSuffixRendered(t.microsecond);
  }

  lemma IsoFractionSuffixRendered(us: int)
    requires 0 <= us <= 999999
    ensures IsoSuffix(IsoFractionZ, "." + (Digits6(us) + "Z")) == Some(us)
  {
    var frac := "." + (Digits6(us) + "Z");
    assert frac[1..] == Digits6(us) + "Z";
    ScanFractionDigits(us, "Z");
    assert "Z"[1..] == "";
  }

  /** Every layout parses its own rendering of a valid timestamp back to the
      fields it carries. */
  lemma TryLayoutRendered(layout: Layout, t: DateTime)
    requires ValidDateTime(t)
    ensures TryLayout(layout, Render(layout, t)) == Some(Truncate(layout, t))
  {
    ScanDateRendered(t, TimeText(layout, t));
    match layout
    case DateOnly =>
    case SpaceSeparated => ScanTimeRenderedSpace(t);
    case IsoLocal => ScanTimeRenderedIsoLocal(t);
    case IsoZ => ScanTimeRenderedIsoZ(t);
    case IsoFractionZ => ScanTimeRenderedIsoFractionZ(t);
  }

  /** What the text after the seconds looks like in each ISO layout. */
  lemma IsoSuffixShape(layout: Layout, s: string)
    requires layout == IsoFractionZ || layout == IsoZ || layout == IsoLocal
    requires IsoSuffix(layout, s).Some?
    ensures layout == IsoLocal ==> s == ""
    ensures layout == IsoZ ==> |s| == 1 && MatchesLiteral(s[0], 'Z')
    ensures layout == IsoFractionZ ==> |s| > 0 && s[0] == '.'
  {
  }

  /** What the text after the date looks like in each layout. */
  lemma ScanTimeShape(layout: Layout, rest: string)
    requires ScanTime(layout, rest).Some?
    ensures layout == DateOnly ==> rest == ""
    ensures layout == SpaceSeparated ==> |rest| > 0 && IsSpace(rest[0])
    ensures layout != DateOnly && layout != SpaceSeparated ==>
              |rest| > 0 && MatchesLiteral(rest[0], 'T') && ScanClock(rest[1..]).Some?
              && IsoSuffix(layout, ScanClock(rest[1..]).value.rest).Some?
  {
  }

  /** No text is accepted by the time parts of two different layouts. */
  lemma ScanTimeExclusive(a: Layout, b: Layout, rest: string)
    requires ScanTime(a, rest).Some? && ScanTime(b, rest).Some?
    ensures a == b
  {
    ScanTimeShape(a, rest);
    ScanTimeShape(b, rest);
    if a != DateOnly && a != SpaceSeparated && b != DateOnly && b != SpaceSeparated {
      var c := ScanClock(rest[1..]).value;
      IsoSuffixShape(a, c.rest);
      IsoSuffixShape(b, c.rest);
    }
  }

  lemma LayoutsAreExclusive(a: Layout, b: Layout, s: string)
    requires TryLayout(a, s).Some? && TryLayout(b, s).Some?
    ensures a == b
  {
    var rest := ScanDate(s).value.rest;
    ScanTimeExclusive(a, b, rest);
  }

  /** Whatever layout parses the text, the first-match loop returns its result. */
  lemma FirstMatchFinds(layouts: seq<Layout>, layout: Layout, s: string)
    requires layout in layouts && TryLayout(layout, s).Some?
    ensures FirstMatch(layouts, s) == TryLayout(layout, s)
  {
    var k :| 0 <= k < |layouts| && layouts[k] == layout;
    var r := FirstMatch(layouts, s);
    assert r.Some? by {
      assert TryLayout(layouts[k], s).Some?;
    }
    var i :| 0 <= i < |layouts| && TryLayout(layouts[i], s) == r;
    LayoutsAreExclusive(layouts[i], layout, s);
  }

  /** Round trip: parsing the rendering of a valid timestamp in any of the
      five layouts gives back the timestamp (without the fields the layout
      lacks), never the fallback. */
  lemma ParseRendered(layout: Layout, t: DateTime, now: DateTime)
    requires ValidDateTime(t)
    ensures ParseText(Render(layout, t), now) == Truncate(layout, t)
  {
    TryLayoutRendered(layout, t);
    FirstMatchFinds(Layouts, layout, Render(layout, t));
  }

  lemma ExampleFields()
    ensures Digits4(2024) == "2024" && Digits2(1) == "01" && Digits2(15) == "15"
    ensures Digits2(10) == "10" && Digits2(30) == "30" && Digits2(0) == "00"
    ensures Digits6(123456) == "123456"
  {
    assert Digits2(20) == "20" && Digits2(24) == "24";
    assert Digits2(12) == "12" && Digits2(34) == "34" && Digits2(56) == "56";
  }

  /** The five accepted spellings of 15 January 2024 at 10:30; the
      date-only one is read as midnight. */
  lemma ParseExampleIsoFractionZ(now: DateTime)
    ensures ParseText("2024-01-15T10:30:00.123456Z", now) == DateTime(2024, 1, 15, 10, 30, 0, 123456)
  {
    var t := DateTime(2024, 1, 15, 10, 30, 0, 123456);
    ExampleFields();
    assert Render(IsoFractionZ, t) == "2024-01-15T10:30:00.123456Z";
    ParseRendered(IsoFractionZ, t, now);
  }

  lemma ParseExampleIsoZ(now: DateTime)
    ensures ParseText("2024-01-15T10:30:00Z", now) == DateTime(2024, 1, 15, 10, 30, 0, 0)
  {
    var t := DateTime(2024, 1, 15, 10, 30, 0, 0);
    ExampleFields();
    assert Render(IsoZ, t) == "2024-01-15T10:30:00Z";
    ParseRendered(IsoZ, t, now);
  }

  lemma ParseExampleIsoLocal(now: DateTime)
    ensures ParseText("2024-01-15T10:30:00", now) == DateTime(2024, 1, 15, 10, 30, 0, 0)
  {
    var t := DateTime(2024, 1, 15, 10, 30, 0, 0);
    ExampleFields();
    assert Render(IsoLocal, t) == "2024-01-15T10:30:00";
    ParseRendered(IsoLocal, t, now);
  }

  lemma ParseExampleSpaceSeparated(now: DateTime)
    ensures ParseText("2024-01-15 10:30:00", now) == DateTime(2024, 1, 15, 10, 30, 0, 0)
  {
    var t := DateTime(2024, 1, 15, 10, 30, 0, 0);
    ExampleFields();
    assert Render(SpaceSeparated, t) == "2024-01-15 10:30:00";
    ParseRendered(SpaceSeparated, t, now);
  }

  lemma ParseExampleDateOnly(now: DateTime)
    ensures ParseText("2024-01-15", now) == DateTime(2024, 1, 15, 0, 0, 0, 0)
  {
    var t := DateTime(2024, 1, 15, 0, 0, 0, 0);
    ExampleFields();
    assert Render(DateOnly, t) == "2024-01-15";
    ParseRendered(DateOnly, t, now);
  }

  /** A text that fails the `%Y-%m-%d` prefix fails every layout. */
  lemma NoDatePrefixFallsBack(s: string, now: DateTime)
    requires ScanDate(s).None?
    ensures ParseText(s, now) == now
  {
  }

  /** Month 13 does not scan: `%m` reads only the `1`, and the `3` is not
      the `-` that must follow. */
  lemma MonthThirteenFallsBack(now: DateTime)
    ensures ParseText("2024-13-01", now) == now
  {
    var s := "2024-13-01";
    assert ScanYear(s) == Some(Scan(2024, "-13-01"));
    assert ScanLiteral("-13-01", '-') == Some("13-01");
    assert ScanMonth("13-01") == Some(Scan(1, "3-01"));
    assert ScanLiteral("3-01", '-') == None;
    NoDatePrefixFallsBack(s, now);
  }

  /** 30 February scans as a date but is not one, so every layout raises. */
  lemma FebruaryThirtiethFallsBack(now: DateTime)
    ensures ParseText("2024-02-30", now) == now
  {
    var s := "2024-02-30";
    assert ScanYear(s) == Some(Scan(2024, "-02-30"));
    assert ScanLiteral("-02-30", '-') == Some("02-30");
    assert ScanMonth("02-30") == Some(Scan(2, "-30"));
    assert ScanLiteral("-30", '-') == Some("30");
    assert "30"[0] == '3' && "30"[1] == '0' && "30"[2..] == "";
    assert Pair("30", '3', '3', '0', '1') == Some(Scan(30, ""));
    assert ScanDay("30") == Some(Scan(30, ""));
    assert ScanDate(s) == Some(DateScan(2024, 2, 30, ""));
    assert !ValidDate(2024, 2, 30);
    forall layout | layout in Layouts
      ensures TryLayout(layout, s).None?
    {
    }
  }
}
