/** Exact rounding of money amounts, and conversion between currencies by scaled rates. */
module Money {
  import opened Decimal

  function Abs(x: int): nat { if x < 0 then -x else x }

  /** Division of magnitudes, half up, with the sign put back. */
  function RoundDiv(numerator: int, denominator: int): int
    requires denominator != 0
  {
    var top, bottom := Abs(numerator), Abs(denominator);
    var rounded := (top + bottom / 2) / bottom;
    if (numerator < 0) != (denominator < 0) then -rounded else rounded
  }

  /* ---------- products ---------- */

  lemma NonnegativeProduct(a: nat, b: nat)
    ensures a * b >= 0
  {
  }

  lemma AtLeastOnce(a: int, b: nat)
    requires a > 0
    ensures a * b >= b
  {
    NonnegativeProduct(a - 1, b);
    assert a * b == (a - 1) * b + b;
  }

  /** A multiple that is smaller than one step is not more than none. */
  lemma LessThanOneStep(a: int, d: nat)
    requires a * d < d
    ensures a <= 0
  {
    if a > 0 { AtLeastOnce(a, d); }
  }

  /* ---------- what rounding means ---------- */

  /** The multiple `p` of `d` is as near to `n` as any, and the one further from zero when two are. */
  predicate Near(p: int, n: int, d: int) {
    2 * Abs(p - n) <= Abs(d) && (2 * Abs(p - n) == Abs(d) ==> Abs(p) > Abs(n))
  }

  /** `r` is a nearest integer to n/d, ties away from zero. */
  predicate Nearest(r: int, n: int, d: int) { Near(r * d, n, d) }

  lemma NearestNonnegative(n: nat, d: nat)
    requires d > 0
    ensures (n + d / 2) / d >= 0 && Nearest((n + d / 2) / d, n, d)
  {
    var r := (n + d / 2) / d;
    var e := (n + d / 2) % d;
    assert n + d / 2 == r * d + e && 0 <= e < d;
    NonnegativeProduct(r, d);
    NearFromRemainder(r * d, n, d, e);
  }

  lemma NearFromRemainder(p: nat, n: nat, d: nat, e: nat)
    requires n + d / 2 == p + e && e < d
    ensures Near(p, n, d)
  {
  }

  lemma NearSigns(p: int, n: int, d: int)
    requires Near(p, n, d)
    ensures Near(-p, -n, d) && Near(p, n, -d) && Near(-p, -n, -d)
  {
  }

  /** The quotient is a nearest integer, ties away from zero. */
  lemma RoundDivNearest(n: int, d: int)
    requires d != 0
    ensures Nearest(RoundDiv(n, d), n, d)
  {
    var r := (Abs(n) + Abs(d) / 2) / Abs(d);
    NearestNonnegative(Abs(n), Abs(d));
    NearSigns(r * Abs(d), Abs(n), Abs(d));
    SignedProduct(r, d);
  }

  lemma SignedProduct(r: int, d: int)
    ensures r * Abs(d) == (if d < 0 then (-r) * d else r * d)
    ensures (-r) * d == -(r * d)
  {
  }

  lemma NearsAreClose(p: int, q: int, m: int, n: int, d: int)
    requires d > 0 && m <= n && Near(p, m, d) && Near(q, n, d) && (p <= 0 || p >= d)
    ensures p - q < d
  {
  }

  lemma MultipleGap(r: int, d: nat)
    ensures r * d <= 0 || r * d >= d
  {
    if r > 0 { AtLeastOnce(r, d); } else { NonnegativeProduct(-r, d); SignedProduct(r, d); }
  }

  /** Nearest integers are in the order of what they are nearest to. */
  lemma NearestMonotone(q: int, r: int, m: int, n: int, d: int)
    requires d > 0 && m <= n && Nearest(q, m, d) && Nearest(r, n, d)
    ensures q <= r
  {
    MultipleGap(q, d);
    NearsAreClose(q * d, r * d, m, n, d);
    assert (q - r) * d == q * d - r * d;
    LessThanOneStep(q - r, d);
  }

  /** Only one integer is nearest in that sense. */
  lemma NearestUnique(r: int, q: int, n: int, d: int)
    requires d > 0 && Nearest(r, n, d) && Nearest(q, n, d)
    ensures r == q
  {
    NearestMonotone(r, q, n, n, d);
    NearestMonotone(q, r, n, n, d);
  }

  /* ---------- odd and monotone ---------- */

  lemma HalfIsNone(b: nat)
    requires b > 0
    ensures (b / 2) / b == 0
  {
  }

  lemma RoundDivOdd(n: int, d: int)
    requires d != 0
    ensures RoundDiv(-n, d) == -RoundDiv(n, d) && RoundDiv(n, -d) == -RoundDiv(n, d)
  {
    assert Abs(-n) == Abs(n) && Abs(-d) == Abs(d);
    HalfIsNone(Abs(d));
  }

  lemma RoundDivMonotone(m: int, n: int, d: int)
    requires d > 0 && m <= n
    ensures RoundDiv(m, d) <= RoundDiv(n, d)
  {
    RoundDivNearest(m, d);
    RoundDivNearest(n, d);
    NearestMonotone(RoundDiv(m, d), RoundDiv(n, d), m, n, d);
  }

  lemma RoundDivExact(x: int, d: int)
    requires d > 0
    ensures RoundDiv(x * d, d) == x
  {
    RoundDivNearest(x * d, d);
    NearestUnique(RoundDiv(x * d, d), x, x * d, d);
  }

  /* ---------- conversion ---------- */

  /** The rate value / 10^scale. */
  datatype ScaledRate = ScaledRate(value: nat, scale: nat)

  function Numerator(source: ScaledRate, target: ScaledRate): nat { source.value * Pow10(target.scale) }

  function ConvertCents(cents: int, source: ScaledRate, target: ScaledRate): int {
    if source.value == 0 || target.value == 0 then cents
    else RoundDiv(cents * source.value * Pow10(target.scale), target.value * Pow10(source.scale))
  }

  predicate Usable(r: ScaledRate) { r.value > 0 }

  lemma Convertible(cents: int, source: ScaledRate, target: ScaledRate)
    requires Usable(source) && Usable(target)
    ensures Numerator(source, target) > 0 && Numerator(target, source) > 0
    ensures ConvertCents(cents, source, target) == RoundDiv(cents * Numerator(source, target), Numerator(target, source))
  {
    AtLeastOnce(source.value, Pow10(target.scale));
    AtLeastOnce(target.value, Pow10(source.scale));
    assert cents * source.value * Pow10(target.scale) == cents * Numerator(source, target);
  }

  /** Without a rate the amount stays; with both rates it is the nearest to the exact amount, ties away from zero. */
  lemma ConvertIsNearest(cents: int, source: ScaledRate, target: ScaledRate)
    ensures source.value == 0 || target.value == 0 ==> ConvertCents(cents, source, target) == cents
    ensures source.value > 0 && target.value > 0 ==>
      Nearest(ConvertCents(cents, source, target), cents * (source.value * Pow10(target.scale)), target.value * Pow10(source.scale))
  {
    if Usable(source) && Usable(target) {
      Convertible(cents, source, target);
      RoundDivNearest(cents * Numerator(source, target), Numerator(target, source));
    }
  }

  /**
   There and back moves an amount by at most 1/2 + rateTarget / (2 * rateSource) cents: with
   N / D the source rate over the target rate, 2 |back - cents| N <= N + D.
   */
  lemma RoundTripBound(cents: int, source: ScaledRate, target: ScaledRate)
    requires Usable(source) && Usable(target)
    ensures var back := ConvertCents(ConvertCents(cents, source, target), target, source);
      var n, d := Numerator(source, target), Numerator(target, source);
      2 * (Abs(back - cents) * n) <= n + d
  {
    var n, d := Numerator(source, target), Numerator(target, source);
    var y := ConvertCents(cents, source, target);
    var z := ConvertCents(y, target, source);
    Convertible(cents, source, target);
    Convertible(y, target, source);
    RoundDivNearest(cents * n, d);
    RoundDivNearest(y * d, n);
    NearestThereAndBack(cents, y, z, n, d);
  }

  lemma NearestThereAndBack(x: int, y: int, z: int, n: nat, d: nat)
    requires Nearest(y, x * n, d) && Nearest(z, y * d, n)
    ensures 2 * (Abs(z - x) * n) <= n + d
  {
    ThereAndBack(x * n, y * d, z * n, n, d);
    ScaledDistance(x, z, n);
  }

  lemma ScaledDistance(x: int, z: int, n: nat)
    ensures Abs(z * n - x * n) == Abs(z - x) * n
  {
    assert z * n - x * n == (z - x) * n;
    AbsProduct(z - x, n);
  }

  lemma ThereAndBack(x: int, y: int, z: int, n: nat, d: nat)
    requires Near(y, x, d) && Near(z, y, n)
    ensures 2 * Abs(z - x) <= n + d
  {
  }

  lemma AbsProduct(a: int, b: nat)
    ensures Abs(a * b) == Abs(a) * b
  {
    NonnegativeProduct(Abs(a), b);
    assert a < 0 ==> a * b == -(Abs(a) * b);
  }

  /** Into a currency whose unit is worth less, the way back is exact. */
  lemma RoundTripExact(cents: int, source: ScaledRate, target: ScaledRate)
    requires Usable(source) && Usable(target) && Numerator(target, source) < Numerator(source, target)
    ensures ConvertCents(ConvertCents(cents, source, target), target, source) == cents
  {
    var n := Numerator(source, target);
    var back := ConvertCents(ConvertCents(cents, source, target), target, source);
    RoundTripBound(cents, source, target);
    LessThanOneStep(Abs(back - cents), n);
  }

  lemma ConvertToSelf(cents: int, rate: ScaledRate)
    ensures ConvertCents(cents, rate, rate) == cents
  {
    if Usable(rate) {
      Convertible(cents, rate, rate);
      RoundDivExact(cents, Numerator(rate, rate));
    }
  }

  /** Conversion keeps the order of amounts and treats debts like credits. */
  lemma ConvertMonotoneAndOdd(a: int, b: int, source: ScaledRate, target: ScaledRate)
    ensures a <= b ==> ConvertCents(a, source, target) <= ConvertCents(b, source, target)
    ensures ConvertCents(-a, source, target) == -ConvertCents(a, source, target)
  {
    if Usable(source) && Usable(target) {
      var n, d := Numerator(source, target), Numerator(target, source);
      Convertible(a, source, target);
      Convertible(b, source, target);
      Convertible(-a, source, target);
      assert (-a) * n == -(a * n);
      RoundDivOdd(a * n, d);
      if a <= b {
        NonnegativeProduct(b - a, n);
        assert (b - a) * n == b * n - a * n;
        RoundDivMonotone(a * n, b * n, d);
      }
    }
  }

  /* ---------- discounts and totals ---------- */

  function CalculateDiscountPercent(current: int, previous: int): int {
    if current < 0 || previous <= 0 || current >= previous then 0
    else RoundDiv((previous - current) * 100, previous)
  }

  /** There is a discount exactly from a positive price to a lower one that is not negative, and then it is the nearest percentage. */
  lemma DiscountIsNearest(current: int, previous: int)
    ensures !(0 <= current < previous) ==> CalculateDiscountPercent(current, previous) == 0
    ensures 0 <= current < previous ==> Nearest(CalculateDiscountPercent(current, previous), (previous - current) * 100, previous)
  {
    if 0 <= current < previous { RoundDivNearest((previous - current) * 100, previous); }
  }

  /** A discount is between 0 and 100 percent, within half a percent, and not higher for a higher price. */
  lemma DiscountInRange(current: int, dearer: int, previous: int)
    requires 0 <= current <= dearer
    ensures 0 <= CalculateDiscountPercent(dearer, previous) <= CalculateDiscountPercent(current, previous) <= 100
    ensures current < previous ==>
      2 * Abs(CalculateDiscountPercent(current, previous) * previous - (previous - current) * 100) <= previous
  {
    if current < previous {
      RoundDivNearest((previous - current) * 100, previous);
      RoundDivMonotone((previous - current) * 100, 100 * previous, previous);
      RoundDivExact(100, previous);
      RoundDivMonotone(0, (previous - current) * 100, previous);
      RoundDivExact(0, previous);
      if dearer < previous {
        RoundDivMonotone((previous - dearer) * 100, (previous - current) * 100, previous);
        RoundDivMonotone(0, (previous - dearer) * 100, previous);
      }
    }
  }

  datatype Amount = Amount(currency: string, cents: int)

  function TotalIn(amounts: seq<Amount>, currency: string): int {
    if amounts == [] then 0
    else
      var last := amounts[|amounts| - 1];
      TotalIn(amounts[..|amounts| - 1], currency) + if last.currency == currency then last.cents else 0
  }

  predicate Mentions(amounts: seq<Amount>, currency: string) {
    exists k :: 0 <= k < |amounts| && amounts[k].currency == currency
  }

  lemma OneMoreAmount(amounts: seq<Amount>, i: nat, currency: string)
    requires i < |amounts|
    ensures TotalIn(amounts[..i + 1], currency) ==
            TotalIn(amounts[..i], currency) + if amounts[i].currency == currency then amounts[i].cents else 0
    ensures Mentions(amounts[..i + 1], currency) <==> Mentions(amounts[..i], currency) || amounts[i].currency == currency
  {
    var before, after := amounts[..i], amounts[..i + 1];
    assert after[..i] == before && after[i] == amounts[i];
    if Mentions(before, currency) {
      var k :| 0 <= k < i && before[k].currency == currency;
      assert after[k].currency == currency;
    }
    if Mentions(after, currency) {
      var k :| 0 <= k < i + 1 && after[k].currency == currency;
      assert k < i ==> before[k].currency == currency;
    }
  }

  /** The totals of a list, no more and no less. */
  ghost predicate AreTotals(totals: map<string, int>, amounts: seq<Amount>) {
    && (forall c :: c in totals <==> Mentions(amounts, c))
    && (forall c :: TotalIn(amounts, c) == if c in totals then totals[c] else 0)
  }

  lemma OneMoreTotal(totals: map<string, int>, amounts: seq<Amount>, i: nat)
    requires i < |amounts| && AreTotals(totals, amounts[..i])
    ensures var a := amounts[i];
      AreTotals(totals[a.currency := (if a.currency in totals then totals[a.currency] else 0) + a.cents], amounts[..i + 1])
  {
    forall c
      ensures TotalIn(amounts[..i + 1], c) ==
              TotalIn(amounts[..i], c) + if amounts[i].currency == c then amounts[i].cents else 0
      ensures Mentions(amounts[..i + 1], c) <==> Mentions(amounts[..i], c) || amounts[i].currency == c
    {
      OneMoreAmount(amounts, i, c);
    }
  }

  /** Every currency mentioned has its total, and no other is listed. */
  method SumMoneyCentsByCurrency(amounts: seq<Amount>) returns (totals: map<string, int>)
    ensures forall c :: c in totals <==> Mentions(amounts, c)
    ensures forall c :: c in totals ==> totals[c] == TotalIn(amounts, c)
  {
    totals := map[];
    for i := 0 to |amounts|
      invariant AreTotals(totals, amounts[..i])
    {
      OneMoreTotal(totals, amounts, i);
      var a := amounts[i];
      totals := totals[a.currency := (if a.currency in totals then totals[a.currency] else 0) + a.cents];
    }
    assert amounts[..|amounts|] == amounts;
  }
}
