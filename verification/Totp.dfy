/**
 One-time codes: the truncation of section 5.3 of RFC 4226, its digits, and the search for
 the counter of a submitted code.  The keyed hash is a parameter.
 */
module Totp {
  import opened Wrappers
  import opened Base32
  import opened Base32Codec
  import Decimal

  const TOTP_PERIOD_SECONDS := 30
  const TOTP_DIGITS := 6
  const TOTP_ALLOWED_DRIFT_STEPS := 1
  const MAX_SAFE_INTEGER := 0x1F_FFFF_FFFF_FFFF

  type Digest = d: seq<Byte> | |d| == 20 witness seq(20, _ => 0)

  /** HMAC-SHA-1 of a counter under a key. */
  type Mac = (seq<Byte>, nat) -> Digest

  /* ---------- truncation ---------- */

  function Offset(d: Digest): nat { d[|d| - 1] % 16 }

  /** The big-endian word at the offset. */
  function Word(d: Digest): int {
    var o := Offset(d);
    var a: int, b: int, c: int, e: int := d[o], d[o + 1], d[o + 2], d[o + 3];
    a * 0x100_0000 + b * 0x1_0000 + c * 0x100 + e
  }

  /** The four bytes at the offset, joined by 32-bit shifts with the top bit masked off. */
  function BinCode(d: Digest): int {
    var o := Offset(d);
    ShiftLeft(d[o] % 128, 24) + ShiftLeft(d[o + 1], 16) + ShiftLeft(d[o + 2], 8) + d[o + 3]
  }

  lemma Doubled16And24(x: int)
    ensures Doubled(x, 16) == 0x1_0000 * x && Doubled(x, 24) == 0x100_0000 * x
  {
    Doubled5And8(x);
    Doubled5And8(256 * x);
    Doubled5And8(0x1_0000 * x);
    DoubledTwice(x, 8, 8);
    DoubledTwice(x, 16, 8);
  }

  lemma {:induction false} DoubledTwice(x: int, m: nat, n: nat)
    ensures Doubled(Doubled(x, m), n) == Doubled(x, m + n)
    decreases m
  {
    if m > 0 { DoubledTwice(2 * x, m - 1, n); }
  }

  lemma SmallUnwrapped(x: int)
    requires 0 <= x < 0x8000_0000
    ensures ToInt32(x) == x
  {
  }

  /** The parts do not overlap and the sign bit stays clear: the low 31 bits of the word at the low four bits of the last byte. */
  lemma Truncation(d: Digest)
    ensures BinCode(d) == Word(d) % 0x8000_0000
    ensures var o: nat := d[19] % 16;
      BinCode(d) == ((d[o] as int) * 0x100_0000 + (d[o + 1] as int) * 0x1_0000 + (d[o + 2] as int) * 0x100 + (d[o + 3] as int)) % 0x8000_0000
    ensures 0 <= BinCode(d) < 0x8000_0000
  {
    var o := Offset(d);
    var h: int, b: int, c: int, e: int := d[o], d[o + 1], d[o + 2], d[o + 3];
    var a: int := h % 128;
    Doubled16And24(a);
    Doubled16And24(b);
    Doubled5And8(c);
    SmallUnwrapped(0x100_0000 * a);
    SmallUnwrapped(0x1_0000 * b);
    SmallUnwrapped(0x100 * c);
    LowWord(h / 128, a * 0x100_0000 + b * 0x1_0000 + c * 0x100 + e);
  }

  lemma LowWord(q: int, r: int)
    requires 0 <= r < 0x8000_0000
    ensures (q * 0x8000_0000 + r) % 0x8000_0000 == r
  {
  }

  /* ---------- the digits of a code ---------- */

  function CodeOf(d: Digest, digits: nat): string
    requires BinCode(d) >= 0
  {
    Decimal.PadStart(Decimal.Numeral(BinCode(d) % Decimal.Pow10(digits)), digits)
  }

  /** The code for a counter. */
  function HotpAt(mac: Mac, key: seq<Byte>, counter: nat): string {
    Truncation(mac(key, counter));
    CodeOf(mac(key, counter), TOTP_DIGITS)
  }

  predicate IsCode(code: string) { |code| == TOTP_DIGITS && Decimal.AllDigits(code) }

  /** A code is six digits, and two codes agree exactly when their truncated values do, modulo a million. */
  lemma CodesAreValues(mac: Mac, key: seq<Byte>, c: nat, code: string)
    requires IsCode(code)
    ensures IsCode(HotpAt(mac, key, c))
    ensures BinCode(mac(key, c)) >= 0
    ensures HotpAt(mac, key, c) == code <==> BinCode(mac(key, c)) % 1_000_000 == Decimal.ValueOf(code)
  {
    Truncation(mac(key, c));
    assert Decimal.Pow10(6) == 1_000_000;
    Decimal.PaddedNumeral(BinCode(mac(key, c)) % 1_000_000, 6);
    if Decimal.ValueOf(HotpAt(mac, key, c)) == Decimal.ValueOf(code) {
      Decimal.ValueDetermines(HotpAt(mac, key, c), code);
    }
  }

  /* ---------- matching a submitted code ---------- */

  datatype Match = NoMatch | Matched(counter: nat) | Throws

  predicate TimeOk(atTimeMs: int) {
    0 <= atTimeMs && CounterAt(atTimeMs) <= MAX_SAFE_INTEGER
  }

  function CounterAt(atTimeMs: int): int { atTimeMs / 1_000 / TOTP_PERIOD_SECONDS }

  /** The counter is the number of whole thirty-second steps since the epoch. */
  lemma CounterCountsSteps(atTimeMs: int)
    ensures TimeOk(atTimeMs) <==> 0 <= atTimeMs < 30_000 * 0x20_0000_0000_0000
    ensures TimeOk(atTimeMs) ==> 30_000 * CounterAt(atTimeMs) <= atTimeMs < 30_000 * (CounterAt(atTimeMs) + 1)
  {
  }

  /** The present step is preferred, then the step before, then the step after. */
  function Choose(fits: int -> bool, now: int): Match {
    if fits(now) && now >= 0 then Matched(now)
    else if now >= 1 && fits(now - 1) then Matched(now - 1)
    else if now >= -1 && fits(now + 1) then Matched(now + 1)
    else NoMatch
  }

  function Fits(mac: Mac, key: seq<Byte>, code: string): int -> bool {
    counter => counter >= 0 && HotpAt(mac, key, counter) == code
  }

  function Answer(mac: Mac, key: seq<Byte>, code: string, now: nat): Match {
    if now + 1 > MAX_SAFE_INTEGER then Throws else Choose(Fits(mac, key, code), now)
  }

  lemma ChooseIsNearby(fits: int -> bool, now: nat, c: nat)
    ensures Choose(fits, now).Matched? ==>
      now - 1 <= Choose(fits, now).counter <= now + 1 && fits(Choose(fits, now).counter)
    ensures now - 1 <= c <= now + 1 && fits(c) ==> Choose(fits, now).Matched?
  {
    assert now - 1 <= c <= now + 1 ==> c == now - 1 || c == now || c == now + 1;
  }

  /** Exactly the codes of the three steps around now are matched, each with its own counter. */
  lemma AnswerIsNearby(mac: Mac, key: seq<Byte>, code: string, now: nat, c: nat)
    requires now < MAX_SAFE_INTEGER
    ensures var a := Answer(mac, key, code, now);
      a.Matched? ==> now - 1 <= a.counter <= now + 1 && HotpAt(mac, key, a.counter) == code
    ensures now - 1 <= c <= now + 1 && HotpAt(mac, key, c) == code ==> Answer(mac, key, code, now).Matched?
  {
    ChooseIsNearby(Fits(mac, key, code), now, c);
  }

  /** What the first `i` offsets have settled. */
  function Settled(fits: int -> bool, now: int, i: nat): Match {
    if i == 0 then NoMatch
    else
      var before := Settled(fits, now, i - 1);
      var candidate := now + (if i == 1 then 0 else if i == 2 then -1 else 1);
      if before.NoMatch? && candidate >= 0 && fits(candidate) then Matched(candidate) else before
  }

  lemma SettledIsChoice(fits: int -> bool, now: nat)
    ensures Settled(fits, now, 3) == Choose(fits, now)
  {
    assert Settled(fits, now, 1) == if fits(now) then Matched(now) else NoMatch;
    assert Settled(fits, now, 2) == if fits(now) then Matched(now) else if now >= 1 && fits(now - 1) then Matched(now - 1) else NoMatch;
  }

  lemma OneMoreOffset(fits: int -> bool, now: int, i: nat, candidate: int)
    requires i < 3 && candidate == now + [0, -TOTP_ALLOWED_DRIFT_STEPS, TOTP_ALLOWED_DRIFT_STEPS][i]
    ensures Settled(fits, now, i + 1) ==
      var before := Settled(fits, now, i);
      if before.NoMatch? && candidate >= 0 && fits(candidate) then Matched(candidate) else before
  {
  }

  method SearchCounters(mac: Mac, key: seq<Byte>, code: string, current: nat) returns (result: Match)
    requires current <= MAX_SAFE_INTEGER
    ensures result == Answer(mac, key, code, current)
  {
    ghost var fits := Fits(mac, key, code);
    var offsets := [0, -TOTP_ALLOWED_DRIFT_STEPS, TOTP_ALLOWED_DRIFT_STEPS];
    result := NoMatch;
    for i := 0 to |offsets|
      invariant result == Settled(fits, current, i) && (i == 3 ==> current < MAX_SAFE_INTEGER)
    {
      var candidate := current + offsets[i];
      OneMoreOffset(fits, current, i, candidate);
      if candidate < 0 { continue; }
      if candidate > MAX_SAFE_INTEGER { return Throws; }
      var expected := HotpAt(mac, key, candidate);
      assert fits(candidate) == (expected == code);
      if expected == code && result == NoMatch { result := Matched(candidate); }
    }
    SettledIsChoice(fits, current);
  }

  /** The key that a stored secret stands for. */
  ghost predicate KeyOf(secret: string, key: seq<Byte>) { key != [] && Acceptable(secret, key) }

  /** What the search promises of its answer for one key. */
  predicate AnsweredFor(found: Match, mac: Mac, key: seq<Byte>, code: string, atTimeMs: int) {
    if IsCode(code) && TimeOk(atTimeMs) then found == Answer(mac, key, code, CounterAt(atTimeMs)) else found == NoMatch
  }

  /** `Throws` only when the step after now is no safe integer. */
  method MatchTotpCounter(mac: Mac, secret: string, code: string, atTimeMs: int) returns (result: Match)
    ensures !IsCode(code) || !TimeOk(atTimeMs) ==> result == NoMatch
    ensures forall key :: KeyOf(secret, key) ==> AnsweredFor(result, mac, key, code, atTimeMs)
    ensures (forall key :: !KeyOf(secret, key)) ==> result == NoMatch
  {
    if !IsCode(code) { return NoMatch; }
    var decoded := Base32DecodeStrict(secret);
    if decoded.None? || !TimeOk(atTimeMs) { return NoMatch; }
    assert KeyOf(secret, decoded.value);
    forall k | KeyOf(secret, k) ensures k == decoded.value { AcceptedOnce(secret, k, decoded.value); }
    result := SearchCounters(mac, decoded.value, code, CounterAt(atTimeMs));
  }
}
