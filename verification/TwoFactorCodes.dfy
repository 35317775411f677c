/** Submitted texts, the clock and the accepted counters together: what a one-time code is good for. */
module TwoFactorCodes {
  import opened Wrappers
  import opened Base32
  import opened Totp
  import opened TwoFactor
  import opened TwoFactorProofs

  /**
   `code` is what the checks make of `text`, compared with `secret` at that time.  Six digits are never taken for a
   backup code.  A search that throws rolls the transaction back and is no submission.
   */
  ghost predicate Submitted(code: Code, mac: Mac, secret: Secret, text: string, atTimeMs: int) {
    && (IsCode(text) ==> !code.backupShaped)
    && (!IsCode(text) || !TimeOk(atTimeMs) ==> code.counter.None?)
    && ((forall key :: !KeyOf(secret, key)) ==> code.counter.None?)
    && (IsCode(text) && TimeOk(atTimeMs) ==>
          forall key :: KeyOf(secret, key) ==> Found(Answer(mac, key, text, CounterAt(atTimeMs)), code.counter))
  }

  predicate Found(m: Match, counter: Option<nat>) {
    match m
    case Matched(c) => counter == Some(c)
    case NoMatch => counter.None?
    case Throws => false
  }

  lemma ThrowsAtTheEnd(found: Match, mac: Mac, key: seq<Byte>, text: string, atTimeMs: int)
    requires AnsweredFor(found, mac, key, text, atTimeMs)
    ensures found.Throws? ==> IsCode(text) && CounterAt(atTimeMs) == MAX_SAFE_INTEGER
  {
  }

  lemma FoundIsSubmitted(found: Match, code: Code, mac: Mac, secret: Secret, text: string, atTimeMs: int)
    requires forall key :: KeyOf(secret, key) ==> AnsweredFor(found, mac, key, text, atTimeMs)
    requires (forall key :: !KeyOf(secret, key)) ==> found == NoMatch
    requires !IsCode(text) || !TimeOk(atTimeMs) ==> found == NoMatch
    requires Found(found, code.counter) && (IsCode(text) ==> !code.backupShaped)
    ensures Submitted(code, mac, secret, text, atTimeMs)
  {
  }

  /** The checks of the source, one text at a time; None when the search throws. */
  method ReadCode(mac: Mac, secret: Secret, text: string, atTimeMs: int, backupShaped: bool, agrees: set<nat>)
    returns (r: Option<Code>)
    requires IsCode(text) ==> !backupShaped
    ensures r.Some? ==> Submitted(r.value, mac, secret, text, atTimeMs)
    ensures r.Some? ==> r.value.backupShaped == backupShaped && r.value.agrees == agrees
    ensures r.None? ==> IsCode(text) && CounterAt(atTimeMs) == MAX_SAFE_INTEGER
  {
    var found := MatchTotpCounter(mac, secret, text, atTimeMs);
    if found == Throws {
      ghost var key :| KeyOf(secret, key);
      ThrowsAtTheEnd(found, mac, key, text, atTimeMs);
      return None;
    }
    var code := Code(if found.Matched? then Some(found.counter) else None, backupShaped, agrees);
    FoundIsSubmitted(found, code, mac, secret, text, atTimeMs);
    return Some(code);
  }

  predicate HasActive(a: Account) { a.row.Some? && a.row.value.active.Some? }

  function Active(a: Account): Secret
    requires HasActive(a)
  {
    a.row.value.active.value.secret
  }

  /** The text is the code of a counter after `floor` that is not beyond the step after the present one. */
  predicate CodeOfLaterStep(mac: Mac, key: seq<Byte>, text: string, floor: nat, atTimeMs: int, counter: nat) {
    && CounterAt(atTimeMs) - 1 <= counter <= CounterAt(atTimeMs) + 1
    && floor < counter && HotpAt(mac, key, counter) == text
  }

  /** A one-time code that is accepted is the code of its counter, and that counter is within one step of now. */
  lemma AcceptedIsForNow(a: Account, code: Code, mac: Mac, text: string, atTimeMs: int, key: seq<Byte>)
    requires HasActive(a) && KeyOf(Active(a), key) && Submitted(code, mac, Active(a), text, atTimeMs)
    requires VerdictOn(a, code).ByTotp?
    ensures IsCode(text) && TimeOk(atTimeMs)
    ensures code.counter.Some? && VerdictOn(a, code) == ByTotp(Active(a), code.counter.value)
    ensures HotpAt(mac, key, code.counter.value) == text
    ensures CounterAt(atTimeMs) - 1 <= code.counter.value <= CounterAt(atTimeMs) + 1
  {
    AnswerIsNearby(mac, key, text, CounterAt(atTimeMs), 0);
  }

  /**
   After a code was accepted for a counter, at a login, a reauthentication or a confirmation, at any later point of the
   run the same six digits are refused under that secret, unless they are also the code of a later step around the time
   of the second attempt; then they are accepted for that step alone.
   */
  lemma SpentCodeRefused(s: State, k: nat, code: Code, mac: Mac, text: string, atTimeMs: int, key: seq<Byte>)
    requires Reachable(s) && k < |s.log| && s.log[k].TotpAccepted?
    requires HasActive(s.account) && Active(s.account) == s.log[k].secret && KeyOf(s.log[k].secret, key)
    requires IsCode(text) && Submitted(code, mac, Active(s.account), text, atTimeMs)
    ensures !VerdictOn(s.account, code).Denied? ==>
      && VerdictOn(s.account, code).ByTotp?
      && CodeOfLaterStep(mac, key, text, s.log[k].counter, atTimeMs, VerdictOn(s.account, code).counter)
    ensures (forall d: nat :: !CodeOfLaterStep(mac, key, text, s.log[k].counter, atTimeMs, d)) ==>
      VerdictOn(s.account, code) == Denied
  {
    if VerdictOn(s.account, code).ByTotp? {
      AcceptedIsForNow(s.account, code, mac, text, atTimeMs, key);
      AcceptedIffNewer(s, code, 0);
      assert CodeOfLaterStep(mac, key, text, s.log[k].counter, atTimeMs, code.counter.value);
    }
  }

  lemma PresentStepFirst(mac: Mac, key: seq<Byte>, now: nat)
    requires now < MAX_SAFE_INTEGER
    ensures IsCode(HotpAt(mac, key, now))
    ensures Answer(mac, key, HotpAt(mac, key, now), now) == Matched(now)
  {
    CodesAreValues(mac, key, now, "000000");
    assert Fits(mac, key, HotpAt(mac, key, now))(now);
  }

  /**
   Conversely the code of the present step is accepted by an account that has accepted nothing from this step on,
   whatever happened before: clocks that agree are enough to sign in.
   */
  lemma PresentCodeAccepted(s: State, code: Code, mac: Mac, atTimeMs: int, key: seq<Byte>)
    requires HasActive(s.account) && KeyOf(Active(s.account), key) && TimeOk(atTimeMs) && CounterAt(atTimeMs) < MAX_SAFE_INTEGER
    requires Submitted(code, mac, Active(s.account), HotpAt(mac, key, CounterAt(atTimeMs)), atTimeMs)
    ensures !VerdictOn(s.account, code).Denied? <==> Newer(s.account.row.value.lastAcceptedCounter, CounterAt(atTimeMs))
    ensures Reachable(s) && (exists k :: 0 <= k < |s.log| && UnderActive(s, k)) ==>
      (!VerdictOn(s.account, code).Denied? <==>
         forall k :: 0 <= k < |s.log| && UnderActive(s, k) ==> s.log[k].counter < CounterAt(atTimeMs))
  {
    var now := CounterAt(atTimeMs);
    PresentStepFirst(mac, key, now);
    assert code.counter == Some(now);
    if Reachable(s) { AcceptedIffNewer(s, code, 0); }
  }
}
