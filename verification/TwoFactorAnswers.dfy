/** What each transaction asks for and what it gives, in terms of what a login would accept. */
module TwoFactorAnswers {
  import opened Wrappers
  import opened TwoFactor
  import opened TwoFactorProofs

  /** A login with this code would be accepted in this state. */
  predicate LoginAccepts(s: State, code: Code) {
    Next(s, Verify(code, 0)).log != s.log
  }

  /** The password is right, or the code is one that a login would accept. */
  predicate Proven(s: State, r: Reauthentication) {
    r.passwordOk || (r.totpCode.Some? && LoginAccepts(s, r.totpCode.value))
  }

  predicate Protected(step: Step) { step.Setup? || step.Regenerate? || step.Disable? }

  /** The same account, but for a code that has been spent and a secret encrypted again. */
  predicate OnlySpent(a: Account, a': Account) {
    && a'.twoFactorEnabled == a.twoFactorEnabled && a'.sessionVersion == a.sessionVersion
    && FactorOf(a') == FactorOf(a) && (a.row.Some? <==> a'.row.Some?)
    && (a.row.Some? ==> a'.row.value.pending == a.row.value.pending && a'.row.value.confirmed == a.row.value.confirmed)
  }

  lemma ConsumedOnlySpends(a: Account, code: Code, key: nat)
    ensures OnlySpent(a, Consumed(a, code, key))
  {
    ConsumedKeepsFactor(a, code, key);
  }

  lemma AcceptsIsVerdict(s: State, code: Code)
    ensures LoginAccepts(s, code) <==> !VerdictOn(s.account, code).Denied?
  {
    var e := EventOf(VerdictOn(s.account, code));
    assert |s.log + e| == |s.log| + |e|;
    assert s.log + [] == s.log;
  }

  /** On an account with the factor on, none of the protected transactions does anything without a proof. */
  lemma NothingUnproven(s: State, step: Step)
    requires Enabled(s, step) && Protected(step) && s.account.twoFactorEnabled && !Proven(s, step.reauth)
    ensures var t := Next(s, step); t.account == s.account && t.log == s.log && t.nextId == s.nextId
  {
    if step.reauth.totpCode.Some? { AcceptsIsVerdict(s, step.reauth.totpCode.value); }
  }

  /** With a proof the factor goes off, whole. */
  lemma ProvenDisables(s: State, r: Reauthentication, key: nat)
    requires s.account.twoFactorEnabled && Proven(s, r)
    ensures Next(s, Disable(r, key)).account == Account(false, s.account.sessionVersion + 1, None, [])
  {
    if r.totpCode.Some? { AcceptsIsVerdict(s, r.totpCode.value); }
  }

  /** With a proof, or where the factor is off, a new secret waits for its confirmation; the factor in use stays. */
  lemma ProvenSetsUp(s: State, secret: Secret, r: Reauthentication, now: int, key: nat)
    requires Enabled(s, Setup(secret, r, now, key)) && (s.account.twoFactorEnabled ==> Proven(s, r))
    ensures var a := Next(s, Setup(secret, r, now, key)).account;
      && a.row.Some? && a.row.value.pending == Some(Sealed(secret, key)) && a.row.value.pendingCreatedAt == now
      && FactorOf(a) == FactorOf(s.account) && a.sessionVersion == s.account.sessionVersion
  {
    if r.totpCode.Some? {
      AcceptsIsVerdict(s, r.totpCode.value);
      ConsumedOnlySpends(s.account, r.totpCode.value, key);
    }
  }

  /** With a proof ten new codes, none of them used, replace the old ones under the same secret. */
  lemma ProvenRegenerates(s: State, r: Reauthentication, key: nat)
    requires s.account.twoFactorEnabled && Proven(s, r) && s.account.row.Some? && s.account.row.value.active.Some?
    ensures var t := Next(s, Regenerate(r, key));
      && |t.account.backupCodes| == 10 && t.nextId == s.nextId + 10
      && (forall k :: 0 <= k < 10 ==> t.account.backupCodes[k] == BackupCode(s.nextId + k, false))
      && InUse(t.account.row) == InUse(s.account.row) && t.account.twoFactorEnabled
      && t.account.sessionVersion == s.account.sessionVersion + 1
  {
    if r.totpCode.Some? {
      AcceptsIsVerdict(s, r.totpCode.value);
      ConsumedOnlySpends(s.account, r.totpCode.value, key);
    }
  }

  /** With the right password no code is spent, even if one is presented. */
  lemma PasswordSpendsNothing(s: State, step: Step)
    requires Enabled(s, step) && Protected(step) && step.reauth.passwordOk
    ensures var t := Next(s, step);
      && (!step.Regenerate? ==> t.log == s.log)
      && (t.log == s.log || t.log == s.log + [CodesIssued(s.nextId)])
      && (step.Setup? ==> t.account.backupCodes == s.account.backupCodes)
      && (!step.Disable? && s.account.row.Some? ==>
            t.account.row.Some? && t.account.row.value.lastAcceptedCounter == s.account.row.value.lastAcceptedCounter)
  {
    assert s.log + [] == s.log;
  }

  /** Where the factor is off, there is nothing to regenerate or disable, whatever is presented. */
  lemma NothingToChange(s: State, step: Step)
    requires Enabled(s, step) && (step.Regenerate? || step.Disable?) && !s.account.twoFactorEnabled
    ensures Next(s, step) == s
  {
  }

  /* ---------- confirmation ---------- */

  /** A secret waits that is not older than twenty minutes, and the code is one of it. */
  predicate Confirmable(s: State, code: Code, now: int) {
    && s.account.row.Some? && s.account.row.value.pending.Some? && code.counter.Some?
    && now - s.account.row.value.pendingCreatedAt <= 1_200_000
  }

  /**
   A confirmation puts the waiting secret into use exactly when it is fresh and the code is right, with ten new backup
   codes and the code itself spent; otherwise the factor in use stays as it is, and a secret that waited too long goes.
   */
  lemma ConfirmsExactly(s: State, code: Code, now: int, key: nat)
    requires Enabled(s, Confirm(code, now, key))
    ensures var t := Next(s, Confirm(code, now, key)); var a := t.account;
      if Confirmable(s, code, now) then
        && a.twoFactorEnabled && a.row.Some? && a.row.value.active == Some(Sealed(s.account.row.value.pending.value.secret, key))
        && a.row.value.pending.None? && a.row.value.legacy.None? && a.row.value.confirmed
        && a.row.value.lastAcceptedCounter == code.counter
        && |a.backupCodes| == 10 && (forall k :: 0 <= k < 10 ==> a.backupCodes[k] == BackupCode(s.nextId + k, false))
        && a.sessionVersion == s.account.sessionVersion + 1 && t.nextId == s.nextId + 10
      else
        && FactorOf(a) == FactorOf(s.account) && a.backupCodes == s.account.backupCodes && t.log == s.log
        && a.sessionVersion == s.account.sessionVersion
        && (if HasPending(s.account) && now - s.account.row.value.pendingCreatedAt > 1_200_000
            then a == s.account.(row := Some(s.account.row.value.(pending := None, pendingCreatedAt := 0)))
            else a == s.account)
  {
  }

  /** The code that confirmed a setup does not sign in as well, nor does an older one. */
  lemma ConfirmingCodeIsSpent(s: State, code: Code, now: int, key: nat, again: Code)
    requires Enabled(s, Confirm(code, now, key)) && Confirmable(s, code, now)
    requires again.counter.Some? && again.counter.value <= code.counter.value
    ensures !LoginAccepts(Next(s, Confirm(code, now, key)), again)
  {
    AcceptsIsVerdict(Next(s, Confirm(code, now, key)), again);
  }

  /* ---------- what a login spends ---------- */

  /** A text that matches no counter and is not shaped like a backup code is refused, as is any without an active secret. */
  lemma OtherTextsRefused(s: State, code: Code, key: nat)
    requires (code.counter.None? && !code.backupShaped) || s.account.row.None? || s.account.row.value.active.None?
    ensures !LoginAccepts(s, code) && Next(s, Verify(code, key)) == s
  {
    AcceptsIsVerdict(s, code);
    assert s.log + [] == s.log;
  }

  /** A login changes at most the replay counter, one mark and the key version: whatever is accepted is spent at once. */
  lemma AcceptedIsSpent(s: State, code: Code, key: nat)
    requires LoginAccepts(s, code) && code.counter.Some?
    ensures var t := Next(s, Verify(code, key));
      && OnlySpent(s.account, t.account) && t.account.backupCodes == s.account.backupCodes
      && (forall again: Code :: again.counter == code.counter ==> !LoginAccepts(t, again))
      && (forall later: Code :: later.counter.Some? && code.counter.value < later.counter.value ==> LoginAccepts(t, later))
      && t.account.row.value.active.value.keyVersion == key
  {
    AcceptsIsVerdict(s, code);
    ConsumedOnlySpends(s.account, code, key);
    var t := Next(s, Verify(code, key));
    forall c: Code ensures LoginAccepts(t, c) <==> !VerdictOn(t.account, c).Denied? { AcceptsIsVerdict(t, c); }
  }
}
