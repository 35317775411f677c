/** Exchange rates as decimal texts with an exponent, read without loss. */
module RateText {
  import opened Wrappers
  import opened Decimal
  import opened Money
  import MoneyText

  const MAX_RATE_TEXT_LENGTH := 96
  const MAX_RATE_DIGITS := 36
  const MAX_RATE_SCALE := 18
  const MAX_RATE_EXPONENT := 36

  datatype Parts = Parts(integer: string, decimal: string, exponent: string)

  predicate IsExponent(s: string) {
    s != "" && (AllDigits(s) || (|s| > 1 && (s[0] == '+' || s[0] == '-') && AllDigits(s[1..])))
  }

  function ExponentOf(s: string): int
    requires IsExponent(s)
  {
    if AllDigits(s) then ValueOf(s)
    else
      var n: int := ValueOf(s[1..]);
      if s[0] == '-' then -n else n
  }

  /* ---------- the grammar ---------- */

  /** `^[+]?\d+(\.\d*)?(e[+-]?\d+)?$`, in either case, the exponent "0" when there is none. */
  function Tokenize(text: string): Option<Parts> {
    AfterSign(if text != "" && text[0] == '+' then text[1..] else text)
  }

  function AfterSign(t: string): Option<Parts> {
    var integer := MoneyText.DigitsOf(t);
    var rest := t[|integer|..];
    if integer == "" then None
    else if rest != "" && rest[0] == '.' then
      var decimal := MoneyText.DigitsOf(rest[1..]);
      AfterDigits(integer, decimal, rest[1..][|decimal|..])
    else AfterDigits(integer, "", rest)
  }

  function AfterDigits(integer: string, decimal: string, rest: string): Option<Parts> {
    if rest == "" then Some(Parts(integer, decimal, "0"))
    else if (rest[0] == 'e' || rest[0] == 'E') && IsExponent(rest[1..]) then Some(Parts(integer, decimal, rest[1..]))
    else None
  }

  predicate WellFormed(p: Parts) {
    p.integer != "" && AllDigits(p.integer) && AllDigits(p.decimal) && IsExponent(p.exponent)
  }

  lemma TokensWellFormed(text: string)
    requires Tokenize(text).Some?
    ensures WellFormed(Tokenize(text).value)
  {
  }

  /** The exponent as written, if it is. */
  function Tail(mark: string, exponent: string): string { if mark == "" then "" else mark + exponent }

  lemma AfterDigitsReads(p: Parts, mark: string)
    requires WellFormed(p) && mark in {"", "e", "E"} && (mark == "" ==> p.exponent == "0")
    ensures AfterDigits(p.integer, p.decimal, Tail(mark, p.exponent)) == Some(p)
    ensures Tail(mark, p.exponent) != "" ==> !IsDigit(Tail(mark, p.exponent)[0]) && Tail(mark, p.exponent)[0] != '.'
  {
    if mark != "" { assert (mark + p.exponent)[1..] == p.exponent; }
  }

  /** The text is made of these parts, with or without a plus sign, a point and an exponent mark. */
  predicate IsSpelling(text: string, p: Parts, plus: string, point: string, mark: string) {
    && WellFormed(p) && plus in {"", "+"} && point in {"", "."} && mark in {"", "e", "E"}
    && (point == "" ==> p.decimal == "") && (mark == "" ==> p.exponent == "0")
    && text == plus + (p.integer + (point + (p.decimal + Tail(mark, p.exponent))))
  }

  /** The grammar: `text` is a spelling of `p`. */
  ghost predicate Spells(text: string, p: Parts) {
    exists plus: string, point: string, mark: string :: IsSpelling(text, p, plus, point, mark)
  }

  /** Every text of the grammar is read as the parts it is made of. */
  lemma SpellingRead(text: string, p: Parts, plus: string, point: string, mark: string)
    requires IsSpelling(text, p, plus, point, mark)
    ensures Tokenize(text) == Some(p)
  {
    var tail := Tail(mark, p.exponent);
    var rest := point + (p.decimal + tail);
    var t := p.integer + rest;
    AfterDigitsReads(p, mark);
    if point == "" { assert rest == tail; }
    MoneyText.DigitsOfParts(p.integer, rest);
    assert t[|p.integer|..] == rest;
    if point == "." {
      assert rest[1..] == p.decimal + tail;
      MoneyText.DigitsOfParts(p.decimal, tail);
      assert rest[1..][|p.decimal|..] == tail;
    }
    assert AfterSign(t) == Some(p);
    if plus == "" { assert plus + t == t; } else { assert (plus + t)[1..] == t; }
  }

  lemma OnlyTails(integer: string, decimal: string, rest: string, p: Parts) returns (mark: string)
    requires AfterDigits(integer, decimal, rest) == Some(p)
    ensures mark in {"", "e", "E"} && rest == Tail(mark, p.exponent) && (mark == "" ==> p.exponent == "0")
    ensures p.integer == integer && p.decimal == decimal
  {
    mark := if rest == "" then "" else [rest[0]];
    if rest != "" { assert rest == [rest[0]] + rest[1..]; }
  }

  lemma PointSplits(rest: string, decimal: string)
    requires rest != "" && rest[0] == '.' && decimal == MoneyText.DigitsOf(rest[1..])
    ensures rest == "." + (decimal + rest[1..][|decimal|..])
  {
    var after := rest[1..];
    assert after == decimal + after[|decimal|..];
    assert rest == "." + after;
  }

  lemma OnlyNumbers(t: string, p: Parts) returns (point: string, mark: string)
    requires AfterSign(t) == Some(p)
    ensures point in {"", "."} && mark in {"", "e", "E"}
    ensures (point == "" ==> p.decimal == "") && (mark == "" ==> p.exponent == "0")
    ensures t == p.integer + (point + (p.decimal + Tail(mark, p.exponent)))
  {
    var integer := MoneyText.DigitsOf(t);
    var rest := t[|integer|..];
    assert t == integer + rest;
    if rest != "" && rest[0] == '.' {
      var decimal := MoneyText.DigitsOf(rest[1..]);
      var tail := rest[1..][|decimal|..];
      PointSplits(rest, decimal);
      point := ".";
      mark := OnlyTails(integer, decimal, tail, p);
      assert t == integer + (point + (decimal + Tail(mark, p.exponent)));
    } else {
      point := "";
      mark := OnlyTails(integer, "", rest, p);
      assert "" + ("" + rest) == rest;
    }
  }

  /** Only texts of the grammar are read. */
  lemma OnlySpellings(text: string, p: Parts)
    requires Tokenize(text) == Some(p)
    ensures Spells(text, p)
  {
    TokensWellFormed(text);
    var plus := if text != "" && text[0] == '+' then "+" else "";
    var t := if plus == "+" then text[1..] else text;
    var point, mark := OnlyNumbers(t, p);
    assert text == plus + t;
    assert IsSpelling(text, p, plus, point, mark);
  }

  /** The reader finds exactly the parts of which the text is a spelling. */
  lemma Tokenized(text: string, p: Parts)
    ensures Tokenize(text) == Some(p) <==> Spells(text, p)
  {
    if Tokenize(text) == Some(p) { OnlySpellings(text, p); }
    if Spells(text, p) {
      var plus, point, mark :| IsSpelling(text, p, plus, point, mark);
      SpellingRead(text, p, plus, point, mark);
    }
  }

  /* ---------- the value ---------- */

  /** Without leading zeros, but at least one digit. */
  function Stripped(s: string): string {
    if |s| > 1 && s[0] == '0' then Stripped(s[1..]) else s
  }

  lemma {:induction false} StrippedValue(s: string)
    requires AllDigits(s)
    ensures AllDigits(Stripped(s)) && ValueOf(Stripped(s)) == ValueOf(s) && |Stripped(s)| <= |s|
  {
    if |s| > 1 && s[0] == '0' {
      StrippedValue(s[1..]);
      ValueOfPadded(1, s[1..]);
      assert s == Zeros(1) + s[1..];
    }
  }

  lemma {:induction false} ValueShifted(s: string, n: nat)
    requires AllDigits(s)
    ensures AllDigits(s + Zeros(n)) && ValueOf(s + Zeros(n)) == ValueOf(s) * Pow10(n)
  {
    if n > 0 {
      ValueShifted(s, n - 1);
      assert s + Zeros(n) == s + Zeros(n - 1) + ['0'];
      ValueAppend(s + Zeros(n - 1), '0');
      assert 10 * (ValueOf(s) * Pow10(n - 1)) == ValueOf(s) * (10 * Pow10(n - 1));
    } else {
      assert s + Zeros(0) == s;
    }
  }

  function Max0(x: int): nat { if x < 0 then 0 else x }

  const NoRate := ScaledRate(0, 0)

  /** What the reader checks before it makes a number. */
  predicate WithinLimits(p: Parts)
    requires WellFormed(p)
  {
    var e, places := ExponentOf(p.exponent), |p.decimal|;
    && |p.integer| + places <= MAX_RATE_DIGITS && |p.exponent| <= 3 && -MAX_RATE_EXPONENT <= e <= MAX_RATE_EXPONENT
    && Max0(places - e) <= MAX_RATE_SCALE && |Stripped(p.integer + p.decimal)| + Max0(e - places) <= MAX_RATE_DIGITS
  }

  function RateOf(p: Parts): ScaledRate
    requires WellFormed(p)
  {
    if !WithinLimits(p) then NoRate
    else
      var e, places := ExponentOf(p.exponent), |p.decimal|;
      var digits := Stripped(p.integer + p.decimal);
      StrippedValue(p.integer + p.decimal);
      ValueShifted(digits, Max0(e - places));
      var value := ValueOf(digits + Zeros(Max0(e - places)));
      if value > 0 then ScaledRate(value, Max0(places - e)) else NoRate
  }

  function ParseScaledRate(text: string): ScaledRate {
    if text == "" || |text| > MAX_RATE_TEXT_LENGTH || Tokenize(text).None? then NoRate
    else TokensWellFormed(text); RateOf(Tokenize(text).value)
  }

  /** The rate is the number written: value / 10^scale = digits * 10^(exponent - places). */
  ghost predicate Denotes(r: ScaledRate, p: Parts)
    requires WellFormed(p)
  {
    var e, places := ExponentOf(p.exponent), |p.decimal|;
    r.value * Pow10(places) * Pow10(Max0(-e)) == ValueOf(p.integer + p.decimal) * Pow10(r.scale) * Pow10(Max0(e))
  }

  lemma {:induction false} Pow10Sum(m: nat, n: nat)
    ensures Pow10(m + n) == Pow10(m) * Pow10(n)
    decreases n
  {
    if n > 0 {
      Pow10Sum(m, n - 1);
      assert 10 * (Pow10(m) * Pow10(n - 1)) == Pow10(m) * (10 * Pow10(n - 1));
    }
  }

  /** Shift and scale together move the point by exactly the exponent. */
  lemma ShiftAndScale(v: nat, places: nat, e: int)
    ensures v * Pow10(Max0(e - places)) * Pow10(places) * Pow10(Max0(-e)) == v * Pow10(Max0(places - e)) * Pow10(Max0(e))
  {
    var a, b, c, d, f := Max0(e - places), places, Max0(-e), Max0(places - e), Max0(e);
    assert a + b + c == d + f;
    Pow10Sum(a, b);
    Pow10Sum(a + b, c);
    Pow10Sum(d, f);
    Regroup(v, Pow10(a), Pow10(b), Pow10(c));
    Regroup(v, Pow10(d), Pow10(f), 1);
  }

  lemma Regroup(v: int, x: int, y: int, z: int)
    ensures v * x * y * z == v * (x * y * z)
  {
  }

  /**
   A number that can be taken for a rate: not zero, at most 36 digits written, an exponent of at
   most three characters up to 36, at most 18 places, and below 10^36 once the point is gone.
   */
  predicate Usable(p: Parts)
    requires WellFormed(p)
  {
    var e, places, v := ExponentOf(p.exponent), |p.decimal|, ValueOf(p.integer + p.decimal);
    && v > 0 && |p.integer| + places <= 36 && |p.exponent| <= 3 && -36 <= e <= 36
    && places - e <= 18 && v * Pow10(Max0(e - places)) < Pow10(36)
  }

  lemma {:induction false} StrippedShape(s: string)
    requires AllDigits(s) && s != ""
    ensures NoLeadingZero(Stripped(s))
  {
    if |s| > 1 && s[0] == '0' { StrippedShape(s[1..]); }
  }

  lemma {:induction false} Pow10Grows(m: nat, n: nat)
    requires m <= n
    ensures Pow10(m) <= Pow10(n)
  {
    if m < n { Pow10Grows(m, n - 1); }
  }

  /** The digits that are left of a number tell how large it is. */
  lemma DigitsTell(s: string, k: nat)
    requires AllDigits(s) && s != "" && k > 0
    ensures |Stripped(s)| <= k <==> ValueOf(s) < Pow10(k)
  {
    StrippedValue(s);
    StrippedShape(s);
    NumeralOfValue(Stripped(s));
    ValueBound(Stripped(s));
    if |Stripped(s)| <= k { Pow10Grows(|Stripped(s)|, k); } else if ValueOf(s) < Pow10(k) { NumeralFits(ValueOf(s), k); }
  }

  lemma ScaledBelow(v: nat, x: nat, y: nat)
    requires x > 0
    ensures v * x < y * x <==> v < y
  {
    if v < y { AtLeastOnce(y - v, x); } else { NonnegativeProduct(v - y, x); }
    assert (y - v) * x == y * x - v * x;
  }

  /** With so many zeros to come, the digits fit just when the whole number is below 10^36. */
  lemma ShiftedFits(s: string, shift: nat)
    requires AllDigits(s) && s != "" && ValueOf(s) > 0
    ensures |Stripped(s)| + shift <= 36 <==> ValueOf(s) * Pow10(shift) < Pow10(36)
  {
    StrippedShape(s);
    if shift < 36 {
      DigitsTell(s, 36 - shift);
      Pow10Sum(36 - shift, shift);
      ScaledBelow(ValueOf(s), Pow10(shift), Pow10(36 - shift));
    } else {
      Pow10Grows(36, shift);
      AtLeastOnce(ValueOf(s), Pow10(shift));
    }
  }

  lemma LimitsAgree(p: Parts)
    requires WellFormed(p)
    ensures WithinLimits(p) && ValueOf(p.integer + p.decimal) > 0 <==> Usable(p)
  {
    if ValueOf(p.integer + p.decimal) > 0 { ShiftedFits(p.integer + p.decimal, Max0(ExponentOf(p.exponent) - |p.decimal|)); }
  }

  /** `text` is a short enough spelling of a usable number. */
  ghost predicate IsRate(text: string) {
    0 < |text| <= 96 && exists p :: Spells(text, p) && WellFormed(p) && Usable(p)
  }

  /**
   A rate is read if and only if its text is in the grammar, short enough, within the limits
   and not zero, and then it is the number that any spelling of the text denotes.
   */
  lemma RateIsExact(text: string)
    ensures ParseScaledRate(text).value > 0 <==> IsRate(text)
    ensures ParseScaledRate(text).value > 0 ==> ParseScaledRate(text).scale <= 18
    ensures forall p :: ParseScaledRate(text).value > 0 && Spells(text, p) ==> WellFormed(p) && Denotes(ParseScaledRate(text), p)
    ensures ParseScaledRate(text).value == 0 ==> ParseScaledRate(text) == NoRate
  {
    forall p ensures Tokenize(text) == Some(p) <==> Spells(text, p) { Tokenized(text, p); }
    if Tokenize(text).Some? {
      TokensWellFormed(text);
      RateOfParts(Tokenize(text).value);
      LimitsAgree(Tokenize(text).value);
      assert Spells(text, Tokenize(text).value);
    }
  }

  lemma RateOfParts(p: Parts)
    requires WellFormed(p)
    ensures RateOf(p).value > 0 <==> WithinLimits(p) && ValueOf(p.integer + p.decimal) > 0
    ensures RateOf(p).value > 0 ==> RateOf(p).scale <= MAX_RATE_SCALE && Denotes(RateOf(p), p)
    ensures RateOf(p).value == 0 ==> RateOf(p) == NoRate
  {
    var e, places, all := ExponentOf(p.exponent), |p.decimal|, p.integer + p.decimal;
    StrippedValue(all);
    ValueShifted(Stripped(all), Max0(e - places));
    ShiftAndScale(ValueOf(all), places, e);
    PositiveProduct(ValueOf(all), Pow10(Max0(e - places)));
  }

  /** A plain decimal numeral that is not zero, of at most 36 digits with at most 18 places, is read digit for digit. */
  lemma PlainRateRead(integer: string, point: string, decimal: string)
    requires integer != "" && AllDigits(integer) && AllDigits(decimal) && |integer| + |decimal| <= 36 && |decimal| <= 18
    requires point in {"", "."} && (point == "" ==> decimal == "") && ValueOf(integer + decimal) > 0
    ensures ParseScaledRate(integer + point + decimal) == ScaledRate(ValueOf(integer + decimal), |decimal|)
  {
    var text, p := integer + point + decimal, Parts(integer, decimal, "0");
    PlainSpelling(p, point);
    SpellingRead(text, p, "", point, "");
    PlainRateOf(p);
  }

  lemma PlainSpelling(p: Parts, point: string)
    requires WellFormed(p) && p.exponent == "0" && point in {"", "."} && (point == "" ==> p.decimal == "")
    ensures IsSpelling(p.integer + point + p.decimal, p, "", point, "")
  {
    var tail := point + (p.decimal + "");
    assert p.decimal + "" == p.decimal;
    assert p.integer + point + p.decimal == p.integer + tail;
    assert "" + (p.integer + tail) == p.integer + tail;
  }

  lemma PlainRateOf(p: Parts)
    requires WellFormed(p) && p.exponent == "0" && |p.integer| + |p.decimal| <= 36 && |p.decimal| <= 18
    requires ValueOf(p.integer + p.decimal) > 0
    ensures RateOf(p) == ScaledRate(ValueOf(p.integer + p.decimal), |p.decimal|)
  {
    assert ExponentOf("0") == 0 by { SingleDigit("0"); }
    StrippedValue(p.integer + p.decimal);
    assert Stripped(p.integer + p.decimal) + Zeros(0) == Stripped(p.integer + p.decimal);
  }

  lemma PositiveProduct(v: nat, x: nat)
    requires x > 0
    ensures v * x > 0 <==> v > 0
  {
    if v > 0 { AtLeastOnce(v, x); }
  }
}
