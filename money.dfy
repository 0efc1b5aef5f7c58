/** Two-place fixed-point amounts: what `Decimal(cents) / 100` produces and
    what a `DecimalField(max_digits=10, decimal_places=2)` column holds. */
module Money {

  /** A decimal with two fractional digits, held exactly as its value in
      hundredths: 58.90 is `Decimal(5890)`. */
  datatype Decimal = Decimal(cents: int)

  /** The value of `d` times one hundred. */
  function Cents(d: Decimal): int {
    d.cents
  }

  /** `Decimal(cents) / 100`: the quotient of an integer by 100 has at most
      two fractional digits, so the default 28-digit context divides it
      exactly for every amount a column can hold. */
  function CentsToDecimal(cents: int): (d: Decimal)
    ensures Cents(d) == cents
  {
    Decimal(cents)
  }

  /** The magnitude of `d` before the point, as the decimal is written. */
  function Units(d: Decimal): nat {
    (if d.cents < 0 then -d.cents else d.cents) / 100
  }

  /** The two digits of `d` after the point. */
  function Hundredths(d: Decimal): nat {
    (if d.cents < 0 then -d.cents else d.cents) % 100
  }

  /** Sign, digits before the point and digits after it determine the
      amount and are determined by it. */
  lemma DecimalDigits(d: Decimal)
    ensures Hundredths(d) < 100
    ensures d.cents == (if d.cents < 0 then -1 else 1) * (Units(d) * 100 + Hundredths(d))
    ensures forall e: Decimal ::
              ((e.cents < 0 <==> d.cents < 0) && Units(e) == Units(d) && Hundredths(e) == Hundredths(d)) ==> e == d
  {
    forall e: Decimal | (e.cents < 0 <==> d.cents < 0) && Units(e) == Units(d) && Hundredths(e) == Hundredths(d)
      ensures e == d
    {
      var me := if e.cents < 0 then -e.cents else e.cents;
      var md := if d.cents < 0 then -d.cents else d.cents;
      assert me == me / 100 * 100 + me % 100;
      assert md == md / 100 * 100 + md % 100;
    }
  }

  /** 5890 cents are 58.90; -5 cents are -0.05. */
  lemma CentsToDecimalExamples()
    ensures Units(CentsToDecimal(5890)) == 58 && Hundredths(CentsToDecimal(5890)) == 90
    ensures Units(CentsToDecimal(-5)) == 0 && Hundredths(CentsToDecimal(-5)) == 5
    ensures CentsToDecimal(-5).cents < 0
    ensures CentsToDecimal(0) == Zero
  {
  }

  /** The zero amount, the default of `discount_amount`. */
  const Zero: Decimal := Decimal(0)

  /** At most ten digits with two after the point leave eight before it. */
  const MaxUnitsExclusive: nat := 100_000_000

  /** Whether a `numeric(10, 2)` column can hold the value; a larger one is a
      numeric field overflow. In cents the bound is |cents| < 10^10. */
  predicate FitsColumn(d: Decimal) {
    -10_000_000_000 < d.cents < 10_000_000_000
  }

  /** The column holds exactly the amounts with at most eight digits before
      the point. */
  lemma FitsColumnDigits(d: Decimal)
    ensures FitsColumn(d) <==> Units(d) < MaxUnitsExclusive
  {
    var magnitude := if d.cents < 0 then -d.cents else d.cents;
    assert magnitude / 100 < MaxUnitsExclusive <==> magnitude < 10_000_000_000;
  }

  /** Exact sum, as SQL `SUM` over numeric values gives it. */
  function Add(a: Decimal, b: Decimal): (r: Decimal)
    ensures Cents(r) == Cents(a) + Cents(b)
  {
    Decimal(a.cents + b.cents)
  }
}
