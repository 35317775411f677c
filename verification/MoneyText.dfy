/** Amounts as decimal texts: printing with two places and the two parsers, both exact. */
module MoneyText {
  import opened Wrappers
  import opened Decimal

  const POSTGRES_BIGINT_MAX := 9_223_372_036_854_775_807
  const POSTGRES_BIGINT_MIN := -9_223_372_036_854_775_808

  function Magnitude(x: int): nat { if x < 0 then -x else x }

  /* ---------- printing ---------- */

  function PrintUnsigned(cents: nat): string {
    Numeral(cents / 100) + "." + PadStart(Numeral(cents % 100), 2)
  }

  function MoneyCentsToMajorUnits(cents: int): string {
    if cents < 0 then "-" + PrintUnsigned(-cents) else PrintUnsigned(cents)
  }

  /** None is an amount outside the range of the database column. */
  function CentsToDecimalString(cents: int): Option<string> {
    if POSTGRES_BIGINT_MIN <= cents <= POSTGRES_BIGINT_MAX then Some(MoneyCentsToMajorUnits(cents)) else None
  }

  /* ---------- parsing ---------- */

  /** The digits a text begins with. */
  function DigitsOf(s: string): (r: string)
    ensures |r| <= |s| && r == s[..|r|] && AllDigits(r) && (|r| < |s| ==> !IsDigit(s[|r|]))
  {
    if s == "" || !IsDigit(s[0]) then "" else [s[0]] + DigitsOf(s[1..])
  }

  function PadEnd(s: string, width: nat): string {
    if |s| < width then s + Zeros(width - |s|) else s
  }

  /** Digits, then optionally one of the separators with one or two digits. */
  function ParseUnsigned(text: string, separators: string): Option<nat> {
    ParseParts(DigitsOf(text), text[|DigitsOf(text)|..], separators)
  }

  function ParseParts(whole: string, rest: string, separators: string): Option<nat>
    requires AllDigits(whole)
  {
    if whole == "" then None
    else if rest == "" then Some(ValueOf(whole) * 100)
    else if rest[0] !in separators || !(2 <= |rest| <= 3) || !AllDigits(rest[1..]) then None
    else
      ZerosAreDigits(rest[1..], 2);
      Some(ValueOf(whole) * 100 + ValueOf(PadEnd(rest[1..], 2)))
  }

  lemma ZerosAreDigits(s: string, width: nat)
    requires AllDigits(s)
    ensures AllDigits(PadEnd(s, width))
  {
  }

  /** The form field: an optional sign, a point or a comma. */
  function MajorUnitsToMoneyCents(text: string): Option<int> {
    if text == "" then None
    else if text[0] == '-' then
      var r := ParseUnsigned(text[1..], ".,");
      if r.None? then None else var n: int := r.value; Some(-n)
    else if text[0] == '+' then ParseUnsigned(text[1..], ".,")
    else ParseUnsigned(text, ".,")
  }

  /** The server: no sign, a point, and an upper bound. */
  function MoneyToCents(text: string): Option<nat> {
    var r := ParseUnsigned(text, ".");
    if r.Some? && r.value <= POSTGRES_BIGINT_MAX then r else None
  }

  /* ---------- reading a text in its parts ---------- */

  lemma {:induction false} DigitsOfParts(whole: string, rest: string)
    requires AllDigits(whole) && (rest != "" ==> !IsDigit(rest[0]))
    ensures DigitsOf(whole + rest) == whole
  {
    if whole == "" {
      assert whole + rest == rest;
    } else {
      assert (whole + rest)[1..] == whole[1..] + rest;
      DigitsOfParts(whole[1..], rest);
    }
  }

  /** One place counts tens of cents. */
  function CentsIn(fraction: string): nat
    requires AllDigits(fraction)
  {
    if |fraction| == 1 then 10 * ValueOf(fraction) else ValueOf(fraction)
  }

  lemma FractionValue(fraction: string)
    requires AllDigits(fraction) && 1 <= |fraction| <= 2
    ensures AllDigits(PadEnd(fraction, 2))
    ensures ValueOf(PadEnd(fraction, 2)) == CentsIn(fraction)
  {
    if |fraction| == 1 {
      assert PadEnd(fraction, 2) == fraction + ['0'];
      ValueAppend(fraction, '0');
    }
  }

  lemma PartsFound(whole: string, separator: char, fraction: string)
    requires AllDigits(whole) && !IsDigit(separator)
    ensures var text := whole + [separator] + fraction;
      DigitsOf(text) == whole && text[|whole|..] == [separator] + fraction
  {
    assert whole + [separator] + fraction == whole + ([separator] + fraction);
    DigitsOfParts(whole, [separator] + fraction);
  }

  /** What a text with a fraction amounts to. */
  lemma ParsedParts(whole: string, separator: char, fraction: string, separators: string)
    requires whole != "" && AllDigits(whole) && AllDigits(fraction) && 1 <= |fraction| <= 2
    requires separator in separators && !IsDigit(separator)
    ensures ParseUnsigned(whole + [separator] + fraction, separators) ==
            Some(ValueOf(whole) * 100 + CentsIn(fraction))
  {
    PartsFound(whole, separator, fraction);
    PartsParsed(whole, [separator] + fraction, fraction, separators);
  }

  lemma PartsParsed(whole: string, rest: string, fraction: string, separators: string)
    requires whole != "" && AllDigits(whole) && AllDigits(fraction) && 1 <= |fraction| <= 2
    requires |rest| == |fraction| + 1 && rest[1..] == fraction && rest[0] in separators
    ensures ParseParts(whole, rest, separators) == Some(ValueOf(whole) * 100 + CentsIn(fraction))
  {
    FractionValue(fraction);
  }

  /** A text without a fraction is whole units. */
  lemma ParsedWhole(whole: string, separators: string)
    requires whole != "" && AllDigits(whole)
    ensures ParseUnsigned(whole, separators) == Some(ValueOf(whole) * 100)
  {
    DigitsOfParts(whole, "");
    assert whole + "" == whole;
  }

  /** `text` is digits worth `n` cents, in whole units or with one or two places. */
  ghost predicate ReadsAs(text: string, separators: string, n: nat) {
    exists whole: string, tail: string :: IsReading(text, separators, n, whole, tail)
  }

  predicate IsReading(text: string, separators: string, n: nat, whole: string, tail: string) {
    && text == whole + tail && whole != "" && AllDigits(whole)
    && if tail == "" then n == ValueOf(whole) * 100
       else
         && tail[0] in separators && 2 <= |tail| <= 3 && AllDigits(tail[1..])
         && n == ValueOf(whole) * 100 + CentsIn(tail[1..])
  }

  /** A text is read as an amount if and only if it is a numeral with at most two places of just that value. */
  lemma ParsedExactly(text: string, separators: string, n: nat)
    requires forall c :: c in separators ==> !IsDigit(c)
    ensures ParseUnsigned(text, separators) == Some(n) <==> ReadsAs(text, separators, n)
  {
    if ParseUnsigned(text, separators) == Some(n) {
      var whole := DigitsOf(text);
      var rest := text[|whole|..];
      if rest != "" { FractionValue(rest[1..]); }
      assert IsReading(text, separators, n, whole, rest);
    }
    if ReadsAs(text, separators, n) {
      var whole, tail :| IsReading(text, separators, n, whole, tail);
      if tail == "" {
        assert text == whole;
        ParsedWhole(whole, separators);
      } else {
        assert text == whole + [tail[0]] + tail[1..];
        ParsedParts(whole, tail[0], tail[1..], separators);
      }
    }
  }

  /** The server reads exactly the unsigned numerals with a point that fit its column, at their value. */
  lemma ServerReads(text: string, n: nat)
    ensures MoneyToCents(text) == Some(n) <==> ReadsAs(text, ".", n) && n <= 9_223_372_036_854_775_807
  {
    ParsedExactly(text, ".", n);
  }

  /** `text` is a numeral worth `n` cents, perhaps after a sign. */
  ghost predicate SpellsAmount(text: string, n: int) {
    exists sign: string, body: string, m: nat :: IsAmount(text, n, sign, body, m)
  }

  ghost predicate IsAmount(text: string, n: int, sign: string, body: string, m: nat) {
    && text == sign + body && sign in {"", "+", "-"} && ReadsAs(body, ".,", m)
    && n == (if sign == "-" then 0 - m else m)
  }

  /** The form field is read exactly if it is such a numeral, with a point or a comma, and then as that amount. */
  lemma FormReads(text: string, n: int)
    ensures MajorUnitsToMoneyCents(text) == Some(n) <==> SpellsAmount(text, n)
  {
    if MajorUnitsToMoneyCents(text) == Some(n) { FormReadsOnly(text, n); }
    if SpellsAmount(text, n) {
      var sign: string, body: string, m: nat :| IsAmount(text, n, sign, body, m);
      ReadingBegins(body, m);
      SignedRead(text, sign, body, m);
    }
  }

  lemma ReadingBegins(body: string, m: nat)
    requires ReadsAs(body, ".,", m)
    ensures body != "" && IsDigit(body[0]) && ParseUnsigned(body, ".,") == Some(m)
  {
    var whole, tail :| IsReading(body, ".,", m, whole, tail);
    assert body[0] == whole[0];
    ParsedExactly(body, ".,", m);
  }

  lemma SignedRead(text: string, sign: string, body: string, m: nat)
    requires text == sign + body && sign in {"", "+", "-"} && body != "" && IsDigit(body[0]) && ParseUnsigned(body, ".,") == Some(m)
    ensures MajorUnitsToMoneyCents(text) == Some(if sign == "-" then 0 - m else m)
  {
    assert text[|sign|..] == body;
  }

  lemma FormReadsOnly(text: string, n: int)
    requires MajorUnitsToMoneyCents(text) == Some(n)
    ensures SpellsAmount(text, n)
  {
    var signed := text[0] == '-' || text[0] == '+';
    var sign := if signed then [text[0]] else "";
    var body := text[|sign|..];
    ParsedExactly(body, ".,", Magnitude(n));
    assert text == sign + body;
    assert IsAmount(text, n, sign, body, Magnitude(n));
  }

  /* ---------- the parsers undo the printers ---------- */

  lemma PrintedParses(cents: nat, separators: string)
    requires '.' in separators
    ensures ParseUnsigned(PrintUnsigned(cents), separators) == Some(cents)
  {
    var fraction := PadStart(Numeral(cents % 100), 2);
    assert Pow10(2) == 100;
    PaddedNumeral(cents % 100, 2);
    NumeralValue(cents / 100);
    ParsedParts(Numeral(cents / 100), '.', fraction, separators);
    assert [('.')] == ".";
  }

  lemma SignedParses(p: string, n: int)
    requires p != "" && IsDigit(p[0]) && ParseUnsigned(p, ".,") == Some(n)
    ensures MajorUnitsToMoneyCents(p) == Some(n) && MajorUnitsToMoneyCents("-" + p) == Some(-n)
  {
    assert ("-" + p)[1..] == p;
  }

  /** Every amount, of either sign, survives the way through its text. */
  lemma MajorUnitsRoundTrip(cents: int)
    ensures MajorUnitsToMoneyCents(MoneyCentsToMajorUnits(cents)) == Some(cents)
  {
    var p := PrintUnsigned(Magnitude(cents));
    PrintedParses(Magnitude(cents), ".,");
    assert p[0] == Numeral(Magnitude(cents) / 100)[0];
    SignedParses(p, Magnitude(cents));
  }

  /**
   The server reads back what it printed exactly for amounts that are not negative: a
   negative amount prints with a sign that the parser refuses.
   */
  lemma DecimalStringRoundTrip(cents: int)
    ensures CentsToDecimalString(cents).Some? <==> -9_223_372_036_854_775_808 <= cents <= 9_223_372_036_854_775_807
    ensures CentsToDecimalString(cents).Some? ==>
      && (cents >= 0 <==> MoneyToCents(CentsToDecimalString(cents).value) == Some(cents))
      && (cents < 0 ==> MoneyToCents(CentsToDecimalString(cents).value) == None)
  {
    if cents >= 0 {
      PrintedParses(cents, ".");
    } else {
      var text := "-" + PrintUnsigned(-cents);
      assert text[0] == '-';
      assert DigitsOf(text) == "";
    }
  }

  lemma NegativeExample()
    ensures CentsToDecimalString(-5) == Some("-0.05") && MoneyToCents("-0.05") == None
  {
    assert Numeral(0) == "0" && Numeral(5) == "5";
    assert PadStart("5", 2) == "05";
    assert PrintUnsigned(5) == "0.05";
    assert "-" + "0.05" == "-0.05";
    DecimalStringRoundTrip(-5);
  }

  /** The texts the printer makes: no leading zero, a point, two places. */
  predicate Canonical(text: string) {
    && |text| >= 4 && text[|text| - 3] == '.' && AllDigits(text[..|text| - 3]) && AllDigits(text[|text| - 2..])
    && NoLeadingZero(text[..|text| - 3])
  }

  /** Printing undoes parsing of exactly the canonical texts. */
  lemma ParsedPrints(text: string)
    requires MoneyToCents(text).Some?
    ensures Canonical(text) <==> CentsToDecimalString(MoneyToCents(text).value) == Some(text)
  {
    var n := MoneyToCents(text).value;
    PrintedCanonical(n);
    if Canonical(text) {
      var whole, fraction := text[..|text| - 3], text[|text| - 2..];
      assert text == whole + ['.'] + fraction;
      ParsedParts(whole, '.', fraction, ".");
      ValueBound(fraction);
      assert Pow10(2) == 100;
      assert n / 100 == ValueOf(whole) && n % 100 == ValueOf(fraction);
      NumeralOfValue(whole);
      PaddedNumeral(n % 100, 2);
      ValueDetermines(PadStart(Numeral(n % 100), 2), fraction);
    }
  }

  lemma PrintedCanonical(n: nat)
    ensures Canonical(PrintUnsigned(n))
  {
    var text, whole, fraction := PrintUnsigned(n), Numeral(n / 100), PadStart(Numeral(n % 100), 2);
    assert Pow10(2) == 100;
    PaddedNumeral(n % 100, 2);
    NumeralShape(n / 100);
    assert text[..|text| - 3] == whole && text[|text| - 2..] == fraction;
  }
}
