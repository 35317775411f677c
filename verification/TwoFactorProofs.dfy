/** What two-factor authentication promises over every run of transactions. */
module TwoFactorProofs {
  import opened Wrappers
  import opened TwoFactor

  /* ---------- invariant ---------- */

  /** An accepted counter is covered by the replay counter of its secret, or the secret is out of use. */
  ghost predicate CountersCovered(row: Option<Method>, drawn: set<Secret>, log: seq<Event>) {
    forall k :: 0 <= k < |log| && log[k].TotpAccepted? ==> Covered(row, drawn, log[k].secret, log[k].counter)
  }

  ghost predicate Covered(row: Option<Method>, drawn: set<Secret>, secret: Secret, counter: nat) {
    && secret in drawn
    && (row.Some? ==>
          var m := row.value;
          && (m.legacy.Some? ==> m.legacy.value != secret)
          && (m.pending.Some? ==> m.pending.value.secret != secret)
          && (m.active.Some? && m.active.value.secret == secret ==>
                m.lastAcceptedCounter.Some? && counter <= m.lastAcceptedCounter.value))
  }

  /** The replay counter of a secret that has been used in the history is one of its accepted counters. */
  ghost predicate LastIsLogged(row: Option<Method>, log: seq<Event>) {
    row.Some? && row.value.active.Some? ==>
      var secret, last := row.value.active.value.secret, row.value.lastAcceptedCounter;
      forall k :: 0 <= k < |log| && log[k].TotpAccepted? && log[k].secret == secret ==>
        last.Some? && TotpAccepted(secret, last.value) in log
  }

  ghost predicate CountersRise(log: seq<Event>) {
    forall i, j :: 0 <= i < j < |log| && log[i].TotpAccepted? && log[j].TotpAccepted? && log[i].secret == log[j].secret ==>
      log[i].counter < log[j].counter
  }

  /** A used code is marked, or its batch is gone; a batch only has numbers from its first on. */
  ghost predicate UsesMarked(codes: seq<BackupCode>, nextId: nat, log: seq<Event>) {
    && (forall k :: 0 <= k < |log| && log[k].BackupUsed? ==> log[k].id < nextId)
    && (forall k, c :: 0 <= k < |log| && log[k].BackupUsed? && 0 <= c < |codes| && codes[c].id == log[k].id ==> codes[c].used)
    && (forall k, c :: 0 <= k < |log| && log[k].CodesIssued? && 0 <= c < |codes| ==> log[k].first <= codes[c].id)
  }

  predicate Spent(log: seq<Event>, id: nat) { BackupUsed(id) in log }

  /** Once a batch has been issued, a code that is marked was used. */
  ghost predicate MarksAreUses(codes: seq<BackupCode>, log: seq<Event>) {
    forall k, c :: 0 <= k < |log| && log[k].CodesIssued? && 0 <= c < |codes| && codes[c].used ==> Spent(log, codes[c].id)
  }

  ghost predicate UsesOnce(log: seq<Event>) {
    && (forall i, j :: 0 <= i < j < |log| && log[i].BackupUsed? && log[j].BackupUsed? ==> log[i].id != log[j].id)
    && (forall i, j :: 0 <= i < j < |log| && log[i].CodesIssued? && log[j].BackupUsed? ==> log[i].first <= log[j].id)
  }

  ghost predicate Inv(a: Account, nextId: nat, drawn: set<Secret>, log: seq<Event>) {
    && SecretsOk(a.row, drawn) && CodesOk(a.backupCodes, nextId)
    && CountersCovered(a.row, drawn, log) && CountersRise(log) && LastIsLogged(a.row, log)
    && UsesMarked(a.backupCodes, nextId, log) && UsesOnce(log) && MarksAreUses(a.backupCodes, log)
    && (forall k :: 0 <= k < |log| && log[k].CodesIssued? ==> log[k].first < nextId)
  }

  ghost predicate StateInv(s: State) { Inv(s.account, s.nextId, s.drawn, s.log) }

  /* ---------- what one acceptance does ---------- */

  lemma TotpCounters(a: Account, drawn: set<Secret>, log: seq<Event>, code: Code, key: nat)
    requires SecretsOk(a.row, drawn) && CountersCovered(a.row, drawn, log) && CountersRise(log)
    requires VerdictOn(a, code).ByTotp?
    ensures var log' := log + EventOf(VerdictOn(a, code));
      CountersCovered(Consumed(a, code, key).row, drawn, log') && CountersRise(log')
  {
    var s := a.row.value.active.value.secret;
    forall k | 0 <= k < |log| && log[k].TotpAccepted?
      ensures Covered(Consumed(a, code, key).row, drawn, log[k].secret, log[k].counter)
      ensures log[k].secret == s ==> log[k].counter < code.counter.value
    {
      assert Covered(a.row, drawn, log[k].secret, log[k].counter);
    }
  }

  lemma TotpStep(a: Account, nextId: nat, drawn: set<Secret>, log: seq<Event>, code: Code, key: nat)
    requires Inv(a, nextId, drawn, log) && VerdictOn(a, code).ByTotp?
    ensures Inv(Consumed(a, code, key), nextId, drawn, log + EventOf(VerdictOn(a, code)))
  {
    TotpCounters(a, drawn, log, code, key);
    SameUses(a.backupCodes, nextId, log, VerdictOn(a, code).secret, code.counter.value);
  }

  lemma SameUses(codes: seq<BackupCode>, nextId: nat, log: seq<Event>, secret: Secret, counter: nat)
    requires UsesMarked(codes, nextId, log) && UsesOnce(log) && MarksAreUses(codes, log)
    ensures var log' := log + [TotpAccepted(secret, counter)];
      UsesMarked(codes, nextId, log') && UsesOnce(log') && MarksAreUses(codes, log')
  {
  }

  lemma SameCounters(row: Option<Method>, row': Option<Method>, drawn: set<Secret>, log: seq<Event>, id: nat, key: nat)
    requires CountersCovered(row, drawn, log) && CountersRise(log) && LastIsLogged(row, log)
    requires row.Some? && row.value.active.Some? && row' == Some(Resealed(row.value, key))
    ensures var log' := log + [BackupUsed(id)];
      CountersCovered(row', drawn, log') && CountersRise(log') && LastIsLogged(row', log')
  {
  }

  lemma MarkCode(codes: seq<BackupCode>, codes': seq<BackupCode>, nextId: nat, log: seq<Event>, k: nat)
    requires UsesMarked(codes, nextId, log) && UsesOnce(log) && MarksAreUses(codes, log) && CodesOk(codes, nextId)
    requires k < |codes| && !codes[k].used && codes' == codes[k := codes[k].(used := true)]
    ensures var log' := log + [BackupUsed(codes[k].id)];
      UsesMarked(codes', nextId, log') && UsesOnce(log') && MarksAreUses(codes', log') && CodesOk(codes', nextId)
  {
  }

  lemma BackupStep(a: Account, nextId: nat, drawn: set<Secret>, log: seq<Event>, code: Code, key: nat)
    requires Inv(a, nextId, drawn, log) && VerdictOn(a, code).ByBackup?
    ensures Inv(Consumed(a, code, key), nextId, drawn, log + EventOf(VerdictOn(a, code)))
  {
    var k := FirstUsable(a.backupCodes, code.agrees).value;
    var a' := Consumed(a, code, key);
    SameCounters(a.row, a'.row, drawn, log, a.backupCodes[k].id, key);
    MarkCode(a.backupCodes, a'.backupCodes, nextId, log, k);
  }

  lemma ConsumeStep(a: Account, nextId: nat, drawn: set<Secret>, log: seq<Event>, code: Code, key: nat)
    requires Inv(a, nextId, drawn, log)
    ensures Inv(Consumed(a, code, key), nextId, drawn, log + EventOf(VerdictOn(a, code)))
  {
    match VerdictOn(a, code)
    case Denied => assert log + [] == log;
    case ByTotp(_, _) => TotpStep(a, nextId, drawn, log, code, key);
    case ByBackup(_) => BackupStep(a, nextId, drawn, log, code, key);
  }

  lemma ReauthStep(a: Account, nextId: nat, drawn: set<Secret>, log: seq<Event>, r: Reauthentication, key: nat)
    requires Inv(a, nextId, drawn, log)
    ensures Inv(AfterReauth(a, r, key), nextId, drawn, log + EventOf(ReauthVerdict(a, r)))
  {
    if ReauthTakesCode(a, r) {
      ConsumeStep(a, nextId, drawn, log, r.totpCode.value, key);
    } else {
      assert log + [] == log;
    }
  }

  lemma PendingStep(a: Account, nextId: nat, drawn: set<Secret>, log: seq<Event>, sealed: Sealed, now: int)
    requires Inv(a, nextId, drawn, log) && sealed.secret !in drawn
    ensures Inv(WithPending(a, sealed, now), nextId, drawn + {sealed.secret}, log)
  {
  }

  lemma DrawnMore(a: Account, nextId: nat, drawn: set<Secret>, log: seq<Event>, secret: Secret)
    requires Inv(a, nextId, drawn, log)
    ensures Inv(a, nextId, drawn + {secret}, log)
  {
  }

  lemma CodesStep(a: Account, nextId: nat, drawn: set<Secret>, log: seq<Event>)
    requires Inv(a, nextId, drawn, log)
    ensures Inv(WithCodes(a, nextId), nextId + BACKUP_CODE_COUNT, drawn, log + [CodesIssued(nextId)])
  {
  }

  lemma ActivateStep(a: Account, nextId: nat, drawn: set<Secret>, log: seq<Event>, counter: nat, key: nat, enabled: Account)
    requires Inv(a, nextId, drawn, log) && HasPending(a)
    requires enabled.backupCodes == a.backupCodes
    requires var m := a.row.value;
      enabled.row == Some(m.(legacy := None, active := Some(Sealed(m.pending.value.secret, key)), lastAcceptedCounter := Some(counter),
                             pending := None, pendingCreatedAt := 0, confirmed := true))
    ensures Inv(enabled, nextId, drawn, log + [TotpAccepted(a.row.value.pending.value.secret, counter)])
  {
  }

  lemma MigrateStep(a: Account, nextId: nat, drawn: set<Secret>, log: seq<Event>, key: nat)
    requires Inv(a, nextId, drawn, log)
    ensures Inv(Migrated(a, key), nextId, drawn, log)
  {
  }

  lemma DisableStep(a: Account, nextId: nat, drawn: set<Secret>, log: seq<Event>, version: nat)
    requires Inv(a, nextId, drawn, log)
    ensures Inv(Account(false, version, None, []), nextId, drawn, log)
  {
  }

  /* ---------- every transaction keeps the invariant ---------- */

  lemma ConfirmInv(s: State, step: Step)
    requires StateInv(s) && Enabled(s, step) && step.Confirm?
    ensures StateInv(Next(s, step))
  {
    var a := s.account;
    if Confirms(a, step.code, step.now) {
      CodesStep(a, s.nextId, s.drawn, s.log);
      ActivateStep(WithCodes(a, s.nextId), s.nextId + BACKUP_CODE_COUNT, s.drawn, s.log + [CodesIssued(s.nextId)],
                   step.code.counter.value, step.key, Next(s, step).account);
      assert s.log + [CodesIssued(s.nextId)] + [TotpAccepted(a.row.value.pending.value.secret, step.code.counter.value)]
          == Next(s, step).log;
    }
  }

  lemma SetupInv(s: State, step: Step)
    requires StateInv(s) && Enabled(s, step) && step.Setup?
    ensures StateInv(Next(s, step))
  {
    var a := s.account;
    if !SetupAllowed(a, step.reauth) {
      DrawnMore(a, s.nextId, s.drawn, s.log, step.secret);
    } else if a.twoFactorEnabled {
      ReauthStep(a, s.nextId, s.drawn, s.log, step.reauth, step.key);
      PendingStep(AfterReauth(a, step.reauth, step.key), s.nextId, s.drawn, Next(s, step).log, Sealed(step.secret, step.key), step.now);
    } else {
      PendingStep(a, s.nextId, s.drawn, s.log, Sealed(step.secret, step.key), step.now);
    }
  }

  lemma StepInv(s: State, step: Step)
    requires StateInv(s) && Enabled(s, step)
    ensures StateInv(Next(s, step))
  {
    var a := s.account;
    match step
    case Verify(code, key) => ConsumeStep(a, s.nextId, s.drawn, s.log, code, key);
    case Setup(_, _, _, _) => SetupInv(s, step);
    case Confirm(_, _, _) => ConfirmInv(s, step);
    case Regenerate(r, key) =>
      if Regenerates(a, r) {
        ReauthStep(a, s.nextId, s.drawn, s.log, r, key);
        CodesStep(AfterReauth(a, r, key), s.nextId, s.drawn, s.log + EventOf(ReauthVerdict(a, r)));
      }
    case Disable(r, key) =>
      if Disables(a, r) {
        ReauthStep(a, s.nextId, s.drawn, s.log, r, key);
        DisableStep(AfterReauth(a, r, key), s.nextId, s.drawn, s.log + EventOf(ReauthVerdict(a, r)), a.sessionVersion + 1);
      }
    case Migrate(key) => MigrateStep(a, s.nextId, s.drawn, s.log, key);
  }

  lemma {:induction false} RunInv(s: State, steps: seq<Step>)
    requires StateInv(s) && CanRun(s, steps)
    ensures StateInv(Run(s, steps))
    decreases |steps|
  {
    if steps != [] {
      StepInv(s, steps[0]);
      RunInv(Next(s, steps[0]), steps[1..]);
    }
  }

  lemma ReachableInv(s: State)
    requires Reachable(s)
    ensures StateInv(s)
  {
    var s0: State, steps: seq<Step> :| Init(s0) && CanRun(s0, steps) && Run(s0, steps) == s;
    RunInv(s0, steps);
  }

  /* ---------- the promises ---------- */

  /** Under one secret the accepted counters strictly increase, the confirming code included: no code works twice. */
  lemma NoReplay(s: State, i: nat, j: nat)
    requires Reachable(s) && i < j < |s.log| && s.log[i].TotpAccepted? && s.log[j].TotpAccepted?
    requires s.log[i].secret == s.log[j].secret
    ensures s.log[i].counter < s.log[j].counter
  {
    ReachableInv(s);
  }

  /** A backup code is used at most once, and not at all once a newer batch has been issued. */
  lemma BackupCodeOnce(s: State, i: nat, j: nat)
    requires Reachable(s) && i < j < |s.log| && s.log[j].BackupUsed?
    ensures s.log[i].BackupUsed? ==> s.log[i].id != s.log[j].id
    ensures s.log[i].CodesIssued? ==> s.log[i].first <= s.log[j].id
  {
    ReachableInv(s);
  }

  /**
   A counter is accepted exactly when it is above the replay counter, and then it is above all accepted before.  For a
   secret that has been used in the history, that is all it takes.
   */
  lemma AcceptedIffNewer(s: State, code: Code, key: nat)
    requires Reachable(s) && code.counter.Some? && s.account.row.Some? && s.account.row.value.active.Some?
    ensures !VerdictOn(s.account, code).Denied? ==>
      forall k :: 0 <= k < |s.log| && s.log[k].TotpAccepted? && s.log[k].secret == s.account.row.value.active.value.secret ==>
        s.log[k].counter < code.counter.value
    ensures Newer(s.account.row.value.lastAcceptedCounter, code.counter.value) <==>
      Next(s, Verify(code, key)).log == s.log + [TotpAccepted(s.account.row.value.active.value.secret, code.counter.value)]
    ensures (exists k :: 0 <= k < |s.log| && UnderActive(s, k)) ==>
      (!VerdictOn(s.account, code).Denied? <==>
         forall k :: 0 <= k < |s.log| && UnderActive(s, k) ==> s.log[k].counter < code.counter.value)
  {
    ReachableInv(s);
    forall k | 0 <= k < |s.log| && s.log[k].TotpAccepted? ensures Covered(s.account.row, s.drawn, s.log[k].secret, s.log[k].counter) {}
    if k :| 0 <= k < |s.log| && UnderActive(s, k) {
      var m := s.account.row.value;
      var last :| 0 <= last < |s.log| && s.log[last] == TotpAccepted(m.active.value.secret, m.lastAcceptedCounter.value);
      assert UnderActive(s, last);
    }
  }

  predicate UnderActive(s: State, k: nat)
    requires k < |s.log| && s.account.row.Some? && s.account.row.value.active.Some?
  {
    s.log[k].TotpAccepted? && s.log[k].secret == s.account.row.value.active.value.secret
  }

  /** The stored codes that would do for what was submitted. */
  predicate Usable(a: Account, code: Code, k: nat) {
    k < |a.backupCodes| && !a.backupCodes[k].used && a.backupCodes[k].id in code.agrees
  }

  /**
   With no matching counter, a text shaped like a backup code is accepted exactly when it agrees with an unused code,
   whatever else it agrees with.  Then the first such code is marked, and no other.
   */
  lemma UnusedCodeAccepted(a: Account, code: Code, key: nat)
    requires a.row.Some? && a.row.value.active.Some? && code.counter.None? && code.backupShaped
    ensures VerdictOn(a, code).Denied? <==> forall k: nat :: !Usable(a, code, k)
    ensures VerdictOn(a, code).Denied? ==> Consumed(a, code, key) == a
    ensures !VerdictOn(a, code).Denied? ==>
      exists k: nat ::
        && Usable(a, code, k) && (forall j: nat :: j < k ==> !Usable(a, code, j))
        && VerdictOn(a, code) == ByBackup(a.backupCodes[k].id)
        && Consumed(a, code, key).backupCodes == a.backupCodes[k := BackupCode(a.backupCodes[k].id, true)]
  {
    var first := FirstUsable(a.backupCodes, code.agrees);
    if first.Some? {
      var k := first.value;
      FirstUsableIsFirst(a.backupCodes, code.agrees);
      assert Usable(a, code, k);
    } else {
      forall k: nat ensures !Usable(a, code, k) {}
    }
  }

  lemma {:induction false} FirstUsableIsFirst(codes: seq<BackupCode>, agrees: set<nat>)
    ensures var r := FirstUsable(codes, agrees);
      r.Some? ==> forall j :: 0 <= j < r.value ==> codes[j].used || codes[j].id !in agrees
  {
    if codes != [] {
      FirstUsableIsFirst(codes[1..], agrees);
      assert forall j :: 1 <= j < |codes| ==> codes[j] == codes[1..][j - 1];
    }
  }

  /** A stored code of a batch issued in the run is good exactly as long as the history does not show its use. */
  lemma CodeGoodUntilUsed(s: State, k: nat, issued: nat)
    requires Reachable(s) && s.account.row.Some? && s.account.row.value.active.Some?
    requires k < |s.account.backupCodes| && issued < |s.log| && s.log[issued].CodesIssued?
    ensures var id := s.account.backupCodes[k].id;
      VerdictOn(s.account, Code(None, true, {id})) == if Spent(s.log, id) then Denied else ByBackup(id)
  {
    ReachableInv(s);
    var id := s.account.backupCodes[k].id;
    UnusedCodeAccepted(s.account, Code(None, true, {id}), 0);
    if Spent(s.log, id) {
      var u :| 0 <= u < |s.log| && s.log[u] == BackupUsed(id);
      assert s.account.backupCodes[k].used;
    } else {
      assert Usable(s.account, Code(None, true, {id}), k);
    }
  }

  /* ---------- the session version follows the factor ---------- */

  /** The secret that codes are checked against, or will be once the row has been migrated. */
  function InUse(row: Option<Method>): Option<Secret> {
    if row.None? then None
    else if row.value.active.Some? then Some(row.value.active.value.secret)
    else if row.value.confirmed then row.value.legacy
    else None
  }

  function Ids(codes: seq<BackupCode>): seq<nat> { seq(|codes|, k requires 0 <= k < |codes| => codes[k].id) }

  /** The second factor of an account: whether it is asked for, under which secret, with which batch of codes. */
  datatype Factor = Factor(enabled: bool, secret: Option<Secret>, batch: seq<nat>)

  function FactorOf(a: Account): Factor { Factor(a.twoFactorEnabled, InUse(a.row), Ids(a.backupCodes)) }

  lemma ConsumedKeepsFactor(a: Account, code: Code, key: nat)
    ensures FactorOf(Consumed(a, code, key)) == FactorOf(a)
    ensures Consumed(a, code, key).sessionVersion == a.sessionVersion
  {
  }

  lemma NewBatchDiffers(a: Account, nextId: nat)
    requires CodesOk(a.backupCodes, nextId)
    ensures Ids(FreshCodes(nextId, BACKUP_CODE_COUNT)) != Ids(a.backupCodes)
  {
    var batch := Ids(FreshCodes(nextId, BACKUP_CODE_COUNT));
    assert batch[0] == nextId;
    assert a.backupCodes == [] || Ids(a.backupCodes)[0] == a.backupCodes[0].id < nextId;
  }

  /** Each transaction raises the session version by one if it changes the factor, and leaves it alone otherwise. */
  lemma BumpsExactlyOnChange(s: State, step: Step)
    requires StateInv(s) && Enabled(s, step)
    ensures var t := Next(s, step);
      t.account.sessionVersion == s.account.sessionVersion + if FactorOf(t.account) != FactorOf(s.account) then 1 else 0
  {
    var a := s.account;
    match step
    case Verify(code, key) => ConsumedKeepsFactor(a, code, key);
    case Setup(_, r, _, key) =>
      if ReauthTakesCode(a, r) { ConsumedKeepsFactor(a, r.totpCode.value, key); }
    case Confirm(_, _, _) => NewBatchDiffers(a, s.nextId);
    case Regenerate(r, key) =>
      if ReauthTakesCode(a, r) { ConsumedKeepsFactor(a, r.totpCode.value, key); }
      NewBatchDiffers(a, s.nextId);
    case Disable(_, _) =>
    case Migrate(_) =>
  }

  /** The number of transactions of a run that change the factor. */
  function FactorChanges(s: State, steps: seq<Step>): nat
    requires CanRun(s, steps)
    decreases |steps|
  {
    if steps == [] then 0
    else
      var t := Next(s, steps[0]);
      FactorChanges(t, steps[1..]) + if FactorOf(t.account) != FactorOf(s.account) then 1 else 0
  }

  /** Over any run the session version rises by exactly the number of factor changes. */
  lemma {:induction false} VersionCountsChanges(s: State, steps: seq<Step>)
    requires StateInv(s) && CanRun(s, steps)
    ensures Run(s, steps).account.sessionVersion == s.account.sessionVersion + FactorChanges(s, steps)
    decreases |steps|
  {
    if steps != [] {
      BumpsExactlyOnChange(s, steps[0]);
      StepInv(s, steps[0]);
      VersionCountsChanges(Next(s, steps[0]), steps[1..]);
    }
  }

  lemma {:induction false} NoChangeSameFactor(s: State, steps: seq<Step>)
    requires CanRun(s, steps) && FactorChanges(s, steps) == 0
    ensures FactorOf(Run(s, steps).account) == FactorOf(s.account)
    decreases |steps|
  {
    if steps != [] {
      NoChangeSameFactor(Next(s, steps[0]), steps[1..]);
    }
  }

  /** So all sessions issued under one session version were issued under one and the same factor. */
  lemma SameVersionSameFactor(s: State, steps: seq<Step>)
    requires Reachable(s) && CanRun(s, steps)
    ensures Run(s, steps).account.sessionVersion == s.account.sessionVersion + FactorChanges(s, steps)
    ensures Run(s, steps).account.sessionVersion == s.account.sessionVersion ==>
      FactorOf(Run(s, steps).account) == FactorOf(s.account)
  {
    ReachableInv(s);
    VersionCountsChanges(s, steps);
    if FactorChanges(s, steps) == 0 {
      NoChangeSameFactor(s, steps);
    }
  }

  /* ---------- migration ---------- */

  /**
   Migration changes neither the factor nor what is accepted before, leaves nothing in the clear, and is idempotent: a
   second one, under whatever key, finds nothing to do.
   */
  lemma MigrationKeepsFactor(a: Account, drawn: set<Secret>, key: nat, code: Code, again: nat)
    requires SecretsOk(a.row, drawn)
    ensures FactorOf(Migrated(a, key)) == FactorOf(a)
    ensures !VerdictOn(a, code).Denied? ==> VerdictOn(Migrated(a, key), code) == VerdictOn(a, code)
    ensures Migrated(a, key).row.Some? ==> Migrated(a, key).row.value.legacy.None?
    ensures Migrated(a, key).row.Some? ==> Migrated(a, key).row.value.lastAcceptedCounter == a.row.value.lastAcceptedCounter
    ensures Migrated(Migrated(a, key), again) == Migrated(a, key)
    ensures a.row.Some? && a.row.value.legacy.Some? ==>
      var m, m' := a.row.value, Migrated(a, key).row.value; var sealed := Some(Sealed(m.legacy.value, key));
      if m.confirmed then m'.active == sealed && m'.pending == m.pending
      else m'.pending == sealed && m'.pendingCreatedAt == m.createdAt && m'.active == m.active
  {
  }

  /* ---------- an account without a factor ---------- */

  /** No secret is in use or waiting in the clear. */
  predicate WithoutFactor(a: Account) {
    a.row.Some? ==> a.row.value.active.None? && a.row.value.legacy.None?
  }

  lemma LogGrows(s: State, step: Step)
    requires Enabled(s, step)
    ensures s.log <= Next(s, step).log
  {
  }

  lemma {:induction false} HistoryGrows(s: State, steps: seq<Step>)
    requires CanRun(s, steps)
    ensures s.log <= Run(s, steps).log
    decreases |steps|
  {
    if steps != [] {
      LogGrows(s, steps[0]);
      HistoryGrows(Next(s, steps[0]), steps[1..]);
    }
  }

  /** The two entries that a confirmation leaves in the history. */
  predicate ConfirmedAt(log: seq<Event>, k: nat) {
    k + 1 < |log| && log[k].CodesIssued? && log[k + 1].TotpAccepted?
  }

  /** Without a secret in use no code is accepted: the first thing to happen is the confirmation of a setup. */
  lemma {:induction false} NothingWithoutFactor(s: State, steps: seq<Step>)
    requires WithoutFactor(s.account) && CanRun(s, steps)
    ensures s.log <= Run(s, steps).log
    ensures Run(s, steps).log != s.log ==> ConfirmedAt(Run(s, steps).log, |s.log|)
    decreases |steps|
  {
    HistoryGrows(s, steps);
    if steps != [] {
      var t := Next(s, steps[0]);
      if steps[0].Confirm? && Confirms(s.account, steps[0].code, steps[0].now) {
        HistoryGrows(t, steps[1..]);
        assert ConfirmedAt(t.log, |s.log|);
      } else {
        assert WithoutFactor(t.account) && t.log == s.log;
        NothingWithoutFactor(t, steps[1..]);
      }
    }
  }

  /** Once disabled, whatever is attempted afterwards, no code is accepted before a new setup has been confirmed. */
  lemma NothingAfterDisable(s: State, r: Reauthentication, key: nat, steps: seq<Step>)
    requires Disables(s.account, r) && CanRun(Next(s, Disable(r, key)), steps)
    ensures var t := Next(s, Disable(r, key));
      Run(t, steps).log != t.log ==> ConfirmedAt(Run(t, steps).log, |t.log|)
  {
    NothingWithoutFactor(Next(s, Disable(r, key)), steps);
  }
}
