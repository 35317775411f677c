/** The transactions as methods on the account's rows, proved against their specifications. */
module TwoFactorService {
  import opened Wrappers
  import opened TwoFactor

  lemma {:induction false} FirstUsableFrom(codes: seq<BackupCode>, agrees: set<nat>, k: nat)
    requires k < |codes| && !codes[k].used && codes[k].id in agrees
    requires forall j :: 0 <= j < k ==> codes[j].used || codes[j].id !in agrees
    ensures FirstUsable(codes, agrees) == Some(k)
  {
    if k > 0 {
      assert forall j :: 0 <= j < |codes| - 1 ==> codes[1..][j] == codes[j + 1];
      FirstUsableFrom(codes[1..], agrees, k - 1);
    }
  }

  /** The password is right, or the code is one that a login would be let in with. */
  predicate Shown(a: Account, r: Reauthentication) {
    r.passwordOk || (r.totpCode.Some? && !VerdictOn(a, r.totpCode.value).Denied?)
  }

  class TwoFactorAccount {
    var twoFactorEnabled: bool
    var sessionVersion: nat
    var row: Option<Method>
    var backupCodes: seq<BackupCode>

    ghost function View(): Account
      reads this
    {
      Account(twoFactorEnabled, sessionVersion, row, backupCodes)
    }

    constructor ()
      ensures View() == Account(false, 0, None, [])
    {
      twoFactorEnabled, sessionVersion, row, backupCodes := false, 0, None, [];
    }

    method PersistRotatedActiveSecret(key: nat)
      requires row.Some? && row.value.active.Some?
      modifies this`row
      ensures row == Some(Resealed(old(row).value, key))
    {
      if row.value.active.value.keyVersion != key {
        row := Some(row.value.(active := Some(Sealed(row.value.active.value.secret, key))));
      }
    }

    method ConsumeTwoFactorCode(code: Code, key: nat) returns (ok: bool)
      modifies this`row, this`backupCodes
      ensures View() == Consumed(old(View()), code, key)
      ensures ok == !VerdictOn(old(View()), code).Denied?
    {
      if row.None? || row.value.active.None? { return false; }
      if code.counter.Some? {
        if row.value.lastAcceptedCounter.Some? && code.counter.value <= row.value.lastAcceptedCounter.value { return false; }
        row := Some(row.value.(lastAcceptedCounter := code.counter));
        PersistRotatedActiveSecret(key);
        return true;
      }
      if !code.backupShaped { return false; }
      ok := ConsumeBackupCode(code, key);
    }

    method ConsumeBackupCode(code: Code, key: nat) returns (ok: bool)
      requires row.Some? && row.value.active.Some? && code.counter.None? && code.backupShaped
      modifies this`row, this`backupCodes
      ensures View() == Consumed(old(View()), code, key)
      ensures ok == !VerdictOn(old(View()), code).Denied?
    {
      for i := 0 to |backupCodes|
        invariant View() == old(View())
        invariant forall j :: 0 <= j < i ==> backupCodes[j].used || backupCodes[j].id !in code.agrees
      {
        if backupCodes[i].used || backupCodes[i].id !in code.agrees { continue; }
        FirstUsableFrom(backupCodes, code.agrees, i);
        backupCodes := backupCodes[i := backupCodes[i].(used := true)];
        PersistRotatedActiveSecret(key);
        return true;
      }
      return false;
    }

    method RequireReauthentication(r: Reauthentication, key: nat) returns (ok: bool)
      modifies this`row, this`backupCodes
      ensures ok == Reauthenticated(old(View()), r)
      ensures View() == AfterReauth(old(View()), r, key)
    {
      if r.passwordOk { return true; }
      if r.totpCode.Some? && twoFactorEnabled {
        ok := ConsumeTwoFactorCode(r.totpCode.value, key);
        return;
      }
      return false;
    }

    method CreateBackupCodes(first: nat)
      modifies this`backupCodes
      ensures backupCodes == FreshCodes(first, BACKUP_CODE_COUNT)
    {
      backupCodes := [];
      for i := 0 to BACKUP_CODE_COUNT
        invariant backupCodes == FreshCodes(first, i)
      {
        backupCodes := backupCodes + [BackupCode(first + i, false)];
      }
    }

    method SetupTwoFactor(secret: Secret, r: Reauthentication, now: int, key: nat) returns (ok: bool)
      modifies this`row, this`backupCodes
      ensures View() == SetUp(old(View()), secret, r, now, key)
      ensures ok <==> old(twoFactorEnabled ==> Shown(View(), r))
      ensures if ok then row.Some? && row.value.pending == Some(Sealed(secret, key)) && row.value.pendingCreatedAt == now
              else View() == old(View())
    {
      if twoFactorEnabled {
        ok := RequireReauthentication(r, key);
        if !ok { return; }
      }
      if row.None? { row := Some(Method(None, false, now, None, None, None, 0)); }
      row := Some(row.value.(pending := Some(Sealed(secret, key)), pendingCreatedAt := now));
      return true;
    }

    method ConfirmTwoFactor(code: Code, now: int, key: nat, first: nat) returns (ok: bool)
      modifies this
      ensures View() == Confirmed(old(View()), code, now, key, first)
      ensures ok <==> old(HasPending(View()) && now - row.value.pendingCreatedAt <= 1_200_000) && code.counter.Some?
      ensures ok ==> twoFactorEnabled && |backupCodes| == 10 && sessionVersion == old(sessionVersion) + 1
      ensures !ok ==> twoFactorEnabled == old(twoFactorEnabled) && backupCodes == old(backupCodes) && sessionVersion == old(sessionVersion)
    {
      if row.None? || row.value.pending.None? { return false; }
      if now - row.value.pendingCreatedAt > PENDING_SECRET_TTL_MS {
        row := Some(row.value.(pending := None, pendingCreatedAt := 0));
        return false;
      }
      if code.counter.None? { return false; }
      CreateBackupCodes(first);
      var secret := row.value.pending.value.secret;
      row := Some(row.value.(legacy := None, active := Some(Sealed(secret, key)), lastAcceptedCounter := code.counter,
                             pending := None, pendingCreatedAt := 0, confirmed := true));
      twoFactorEnabled := true;
      sessionVersion := sessionVersion + 1;
      return true;
    }

    method RegenerateBackupCodes(r: Reauthentication, key: nat, first: nat) returns (ok: bool)
      modifies this
      ensures View() == Regenerated(old(View()), r, key, first)
      ensures ok <==> old(twoFactorEnabled && Shown(View(), r) && row.Some? && row.value.active.Some?)
      ensures if ok then |backupCodes| == 10 && sessionVersion == old(sessionVersion) + 1 else View() == old(View())
    {
      if !twoFactorEnabled { return false; }
      var was, codes := row, backupCodes;
      ok := RequireReauthentication(r, key);
      if !ok || row.None? || row.value.active.None? {
        // The transaction rolls back.
        row, backupCodes := was, codes;
        return false;
      }
      CreateBackupCodes(first);
      sessionVersion := sessionVersion + 1;
    }

    method DisableTwoFactor(r: Reauthentication, key: nat) returns (ok: bool)
      modifies this
      ensures ok <==> old(twoFactorEnabled && Shown(View(), r))
      ensures View() == Disabled(old(View()), r)
      ensures View() == if ok then Account(false, old(sessionVersion) + 1, None, []) else old(View())
    {
      if !twoFactorEnabled { return false; }
      var was, codes := row, backupCodes;
      ok := RequireReauthentication(r, key);
      if !ok {
        row, backupCodes := was, codes;
        return;
      }
      backupCodes, row, twoFactorEnabled := [], None, false;
      sessionVersion := sessionVersion + 1;
    }

    /**
     Afterwards no secret is in the clear, so that a second call finds nothing to do.  A confirmed one is the active
     secret under the present key, an unconfirmed one waits as from the day its row was made; codes already accepted
     stay spent.
     */
    method MigrateLegacySecret(key: nat)
      modifies this`row
      ensures View() == Migrated(old(View()), key)
      ensures row.Some? ==> row.value.legacy.None?
      ensures old(row.None? || row.value.legacy.None?) ==> row == old(row)
      ensures row.Some? == old(row.Some?)
      ensures row.Some? ==>
        row.value.lastAcceptedCounter == old(row).value.lastAcceptedCounter && row.value.confirmed == old(row).value.confirmed
      ensures old(row.Some? && row.value.legacy.Some?) ==>
        var sealed := Some(Sealed(old(row).value.legacy.value, key));
        if row.value.confirmed then row.value.active == sealed && row.value.pending == old(row).value.pending
        else row.value.pending == sealed && row.value.pendingCreatedAt == row.value.createdAt && row.value.active == old(row).value.active
    {
      if row.None? || row.value.legacy.None? { return; }
      var sealed := Some(Sealed(row.value.legacy.value, key));
      if row.value.confirmed {
        row := Some(row.value.(legacy := None, active := sealed));
      } else {
        row := Some(row.value.(legacy := None, pending := sealed, pendingCreatedAt := row.value.createdAt));
      }
    }
  }
}
