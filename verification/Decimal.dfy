/** Decimal numerals: what printing, left-padding and parsing of natural numbers amount to. */
module Decimal {

  predicate IsDigit(c: char) { '0' <= c <= '9' }

  predicate AllDigits(s: string) { forall k :: 0 <= k < |s| ==> IsDigit(s[k]) }

  function Digit(d: nat): char
    requires d < 10
  {
    '0' + d as char
  }

  function Numeral(n: nat): (s: string)
    ensures |s| > 0 && AllDigits(s)
  {
    if n < 10 then [Digit(n)] else Numeral(n / 10) + [Digit(n % 10)]
  }

  function ValueOf(s: string): nat
    requires AllDigits(s)
  {
    if s == "" then 0 else 10 * ValueOf(s[..|s| - 1]) + (s[|s| - 1] as int - '0' as int)
  }

  function Zeros(n: nat): string { seq(n, _ => '0') }

  function PadStart(s: string, width: nat): string {
    if |s| < width then Zeros(width - |s|) + s else s
  }

  function Pow10(n: nat): (p: nat)
    ensures p > 0
  {
    if n == 0 then 1 else 10 * Pow10(n - 1)
  }

  lemma ValueAppend(s: string, c: char)
    requires AllDigits(s) && IsDigit(c)
    ensures AllDigits(s + [c]) && ValueOf(s + [c]) == 10 * ValueOf(s) + (c as int - '0' as int)
  {
    assert (s + [c])[..|s|] == s;
  }

  /** Parsing undoes printing. */
  lemma {:induction false} NumeralValue(n: nat)
    ensures ValueOf(Numeral(n)) == n
  {
    if n >= 10 {
      NumeralValue(n / 10);
      ValueAppend(Numeral(n / 10), Digit(n % 10));
    } else {
      assert [Digit(n)][..0] == "";
    }
  }

  predicate NoLeadingZero(s: string) { |s| > 0 && (s[0] == '0' ==> |s| == 1) }

  lemma {:induction false} NumeralShape(n: nat)
    ensures NoLeadingZero(Numeral(n)) && (n > 0 ==> Numeral(n)[0] != '0')
  {
    if n >= 10 { NumeralShape(n / 10); }
  }

  /** Printing undoes parsing, of numerals without a leading zero. */
  lemma {:induction false} NumeralOfValue(s: string)
    requires AllDigits(s) && NoLeadingZero(s)
    ensures Numeral(ValueOf(s)) == s
    ensures |s| > 1 ==> ValueOf(s) >= 10
  {
    var n := |s| - 1;
    if n > 0 {
      NumeralOfValue(s[..n]);
      if n == 1 { SingleDigit(s[..1]); }
      assert s == s[..n] + [s[n]];
    } else {
      SingleDigit(s);
    }
  }

  lemma SingleDigit(s: string)
    requires AllDigits(s) && |s| == 1
    ensures ValueOf(s) == s[0] as int - '0' as int && Numeral(ValueOf(s)) == s
  {
    assert s[..0] == "";
    assert s == [s[0]];
  }

  /** Zeros in front change nothing. */
  lemma {:induction false} ValueOfPadded(n: nat, s: string)
    requires AllDigits(s)
    ensures AllDigits(Zeros(n) + s) && ValueOf(Zeros(n) + s) == ValueOf(s)
    decreases |s|, n
  {
    if s != "" {
      var m := |s| - 1;
      ValueOfPadded(n, s[..m]);
      assert (Zeros(n) + s)[..n + m] == Zeros(n) + s[..m];
    } else if n > 0 {
      ValueOfPadded(n - 1, s);
      assert (Zeros(n) + s)[..n - 1] == Zeros(n - 1) + s;
    } else {
      assert Zeros(n) + s == s;
    }
  }

  lemma {:induction false} NumeralFits(n: nat, width: nat)
    requires n < Pow10(width) && width > 0
    ensures |Numeral(n)| <= width
    decreases width
  {
    if n >= 10 { NumeralFits(n / 10, width - 1); }
  }

  lemma {:induction false} ValueBound(s: string)
    requires AllDigits(s)
    ensures ValueOf(s) < Pow10(|s|)
  {
    if s != "" { ValueBound(s[..|s| - 1]); }
  }

  /** A padded numeral has just its width and keeps its value. */
  lemma PaddedNumeral(n: nat, width: nat)
    requires n < Pow10(width) && width > 0
    ensures var s := PadStart(Numeral(n), width); |s| == width && AllDigits(s) && ValueOf(s) == n
  {
    NumeralFits(n, width);
    NumeralValue(n);
    ValueOfPadded(width - |Numeral(n)|, Numeral(n));
    assert Zeros(0) + Numeral(n) == Numeral(n);
  }

  /** Numerals of one width are equal exactly when their values are. */
  lemma {:induction false} ValueDetermines(s: string, t: string)
    requires AllDigits(s) && AllDigits(t) && |s| == |t| && ValueOf(s) == ValueOf(t)
    ensures s == t
  {
    if s != "" {
      var n := |s| - 1;
      ValueDetermines(s[..n], t[..n]);
      assert s == s[..n] + [s[n]] && t == t[..n] + [t[n]];
    }
  }
}
