/**
 Two-factor authentication of one account: the method row with its active and pending
 secrets and its replay counter, the backup codes, and the transactions on them.  A
 transaction that throws leaves the account as it was.
 */
module TwoFactor {
  import opened Wrappers

  /** A shared secret, as the Base32 text that the authenticator is given. */
  type Secret = string

  const BACKUP_CODE_COUNT := 10
  const PENDING_SECRET_TTL_MS := 20 * 60 * 1000

  /** A secret encrypted under the key of that version. */
  datatype Sealed = Sealed(secret: Secret, keyVersion: nat)

  datatype Method = Method(
    legacy: Option<Secret>,
    confirmed: bool,
    createdAt: int,
    active: Option<Sealed>,
    lastAcceptedCounter: Option<nat>,
    pending: Option<Sealed>,
    pendingCreatedAt: int)

  datatype BackupCode = BackupCode(id: nat, used: bool)

  datatype Account = Account(
    twoFactorEnabled: bool,
    sessionVersion: nat,
    row: Option<Method>,
    backupCodes: seq<BackupCode>)

  /**
   What the pure checks make of a submitted code: the counter it matches under the secret
   it is checked against, whether it is shaped like a backup code, and the stored hashes it
   agrees with.
   */
  datatype Code = Code(counter: Option<nat>, backupShaped: bool, agrees: set<nat>)

  datatype Verdict = Denied | ByTotp(secret: Secret, counter: nat) | ByBackup(id: nat)

  /* ---------- consumeTwoFactorCode ---------- */

  /** The first unused code that agrees with what was submitted. */
  function FirstUsable(codes: seq<BackupCode>, agrees: set<nat>): (r: Option<nat>)
    ensures r.Some? ==> r.value < |codes| && !codes[r.value].used && codes[r.value].id in agrees
    ensures r.None? ==> forall k :: 0 <= k < |codes| && codes[k].id in agrees ==> codes[k].used
  {
    if codes == [] then None
    else if !codes[0].used && codes[0].id in agrees then Some(0)
    else
      var r := FirstUsable(codes[1..], agrees);
      assert forall k :: 1 <= k < |codes| ==> codes[k] == codes[1..][k - 1];
      if r.Some? then Some(r.value + 1) else None
  }

  predicate Newer(last: Option<nat>, counter: nat) { last.Some? ==> last.value < counter }

  function VerdictOn(a: Account, code: Code): Verdict {
    if a.row.None? || a.row.value.active.None? then Denied
    else if code.counter.Some? then
      if Newer(a.row.value.lastAcceptedCounter, code.counter.value)
      then ByTotp(a.row.value.active.value.secret, code.counter.value) else Denied
    else if !code.backupShaped then Denied
    else
      var k := FirstUsable(a.backupCodes, code.agrees);
      if k.Some? then ByBackup(a.backupCodes[k.value].id) else Denied
  }

  /** Encrypted again when the key has moved on. */
  function Resealed(m: Method, key: nat): Method
    requires m.active.Some?
  {
    if m.active.value.keyVersion != key then m.(active := Some(Sealed(m.active.value.secret, key))) else m
  }

  function Consumed(a: Account, code: Code, key: nat): Account {
    if VerdictOn(a, code).Denied? then a
    else
      var m := a.row.value;
      if code.counter.Some? then a.(row := Some(Resealed(m.(lastAcceptedCounter := code.counter), key)))
      else
        var k := FirstUsable(a.backupCodes, code.agrees).value;
        a.(backupCodes := a.backupCodes[k := a.backupCodes[k].(used := true)], row := Some(Resealed(m, key)))
  }

  /* ---------- reauthentication ---------- */

  datatype Reauthentication = Reauthentication(passwordOk: bool, totpCode: Option<Code>)

  predicate ReauthTakesCode(a: Account, r: Reauthentication) {
    !r.passwordOk && r.totpCode.Some? && a.twoFactorEnabled
  }

  function ReauthVerdict(a: Account, r: Reauthentication): Verdict {
    if ReauthTakesCode(a, r) then VerdictOn(a, r.totpCode.value) else Denied
  }

  predicate Reauthenticated(a: Account, r: Reauthentication) {
    r.passwordOk || !ReauthVerdict(a, r).Denied?
  }

  function AfterReauth(a: Account, r: Reauthentication, key: nat): Account {
    if ReauthTakesCode(a, r) then Consumed(a, r.totpCode.value, key) else a
  }

  /* ---------- the transactions ---------- */

  function FreshCodes(first: nat, n: nat): seq<BackupCode> {
    seq(n, k requires 0 <= k => BackupCode(first + k, false))
  }

  function WithCodes(a: Account, first: nat): Account {
    a.(backupCodes := FreshCodes(first, BACKUP_CODE_COUNT), sessionVersion := a.sessionVersion + 1)
  }

  function WithPending(a: Account, sealed: Sealed, now: int): Account {
    var m := if a.row.Some? then a.row.value else Method(None, false, now, None, None, None, 0);
    a.(row := Some(m.(pending := Some(sealed), pendingCreatedAt := now)))
  }

  predicate SetupAllowed(a: Account, r: Reauthentication) {
    a.twoFactorEnabled ==> Reauthenticated(a, r)
  }

  function SetUp(a: Account, secret: Secret, r: Reauthentication, now: int, key: nat): Account {
    if !SetupAllowed(a, r) then a
    else WithPending(if a.twoFactorEnabled then AfterReauth(a, r, key) else a, Sealed(secret, key), now)
  }

  predicate HasPending(a: Account) { a.row.Some? && a.row.value.pending.Some? }

  predicate PendingExpired(a: Account, now: int)
    requires HasPending(a)
  {
    now - a.row.value.pendingCreatedAt > PENDING_SECRET_TTL_MS
  }

  predicate Confirms(a: Account, code: Code, now: int) {
    HasPending(a) && !PendingExpired(a, now) && code.counter.Some?
  }

  function Confirmed(a: Account, code: Code, now: int, key: nat, first: nat): Account {
    if !HasPending(a) then a
    else if PendingExpired(a, now) then a.(row := Some(a.row.value.(pending := None, pendingCreatedAt := 0)))
    else if code.counter.None? then a
    else
      var m := a.row.value;
      WithCodes(a, first).(
        twoFactorEnabled := true,
        row := Some(m.(legacy := None, active := Some(Sealed(m.pending.value.secret, key)), lastAcceptedCounter := code.counter,
                       pending := None, pendingCreatedAt := 0, confirmed := true)))
  }

  predicate Regenerates(a: Account, r: Reauthentication) {
    a.twoFactorEnabled && Reauthenticated(a, r) && a.row.Some? && a.row.value.active.Some?
  }

  function Regenerated(a: Account, r: Reauthentication, key: nat, first: nat): Account {
    if Regenerates(a, r) then WithCodes(AfterReauth(a, r, key), first) else a
  }

  predicate Disables(a: Account, r: Reauthentication) {
    a.twoFactorEnabled && Reauthenticated(a, r)
  }

  function Disabled(a: Account, r: Reauthentication): Account {
    if Disables(a, r) then Account(false, a.sessionVersion + 1, None, []) else a
  }

  /** A secret left in the clear by the previous schema is encrypted where it belongs. */
  function Migrated(a: Account, key: nat): Account {
    if a.row.None? || a.row.value.legacy.None? then a
    else
      var m := a.row.value;
      var sealed := Some(Sealed(m.legacy.value, key));
      a.(row := Some(
        if m.confirmed then m.(legacy := None, active := sealed)
        else m.(legacy := None, pending := sealed, pendingCreatedAt := m.createdAt)))
  }

  /* ---------- runs ---------- */

  datatype Event =
    | TotpAccepted(secret: Secret, counter: nat)
    | BackupUsed(id: nat)
    | CodesIssued(first: nat)

  /** `drawn` and `log` are history: the secrets ever generated and what has been accepted. */
  datatype State = State(account: Account, nextId: nat, drawn: set<Secret>, log: seq<Event>)

  datatype Step =
    | Verify(code: Code, key: nat)
    | Setup(secret: Secret, reauth: Reauthentication, now: int, key: nat)
    | Confirm(code: Code, now: int, key: nat)
    | Regenerate(reauth: Reauthentication, key: nat)
    | Disable(reauth: Reauthentication, key: nat)
    | Migrate(key: nat)

  predicate Enabled(s: State, step: Step) {
    step.Setup? ==> step.secret !in s.drawn
  }

  function EventOf(v: Verdict): seq<Event> {
    match v
    case Denied => []
    case ByTotp(secret, counter) => [TotpAccepted(secret, counter)]
    case ByBackup(id) => [BackupUsed(id)]
  }

  function Next(s: State, step: Step): State
    requires Enabled(s, step)
  {
    var a := s.account;
    match step
    case Verify(code, key) =>
      s.(account := Consumed(a, code, key), log := s.log + EventOf(VerdictOn(a, code)))
    case Setup(secret, r, now, key) =>
      s.(account := SetUp(a, secret, r, now, key), drawn := s.drawn + {secret},
         log := if SetupAllowed(a, r) && a.twoFactorEnabled then s.log + EventOf(ReauthVerdict(a, r)) else s.log)
    case Confirm(code, now, key) =>
      if Confirms(a, code, now)
      then s.(account := Confirmed(a, code, now, key, s.nextId), nextId := s.nextId + BACKUP_CODE_COUNT,
              log := s.log + [CodesIssued(s.nextId), TotpAccepted(a.row.value.pending.value.secret, code.counter.value)])
      else s.(account := Confirmed(a, code, now, key, s.nextId))
    case Regenerate(r, key) =>
      if Regenerates(a, r)
      then s.(account := Regenerated(a, r, key, s.nextId), nextId := s.nextId + BACKUP_CODE_COUNT,
              log := s.log + EventOf(ReauthVerdict(a, r)) + [CodesIssued(s.nextId)])
      else s
    case Disable(r, key) =>
      if Disables(a, r)
      then s.(account := Disabled(a, r), log := s.log + EventOf(ReauthVerdict(a, r)))
      else s
    case Migrate(key) => s.(account := Migrated(a, key))
  }

  /** The secrets of a row are distinct; one in the clear is not yet in use. */
  predicate SecretsOk(row: Option<Method>, drawn: set<Secret>) {
    row.Some? ==>
      var m := row.value;
      && (m.legacy.Some? ==> m.legacy.value in drawn && m.active.None?)
      && (m.active.Some? ==> m.active.value.secret in drawn)
      && (m.pending.Some? ==> m.pending.value.secret in drawn)
      && (m.active.Some? && m.pending.Some? ==> m.active.value.secret != m.pending.value.secret)
      && (m.legacy.Some? && m.pending.Some? ==> m.legacy.value != m.pending.value.secret)
  }

  predicate CodesOk(codes: seq<BackupCode>, nextId: nat) {
    && (forall k :: 0 <= k < |codes| ==> codes[k].id < nextId)
    && (forall j, k :: 0 <= j < k < |codes| ==> codes[j].id != codes[k].id)
  }

  /** Any account as it stands when the history begins. */
  predicate Init(s: State) {
    s.log == [] && SecretsOk(s.account.row, s.drawn) && CodesOk(s.account.backupCodes, s.nextId)
  }

  predicate CanRun(s: State, steps: seq<Step>)
    decreases |steps|
  {
    steps == [] || (Enabled(s, steps[0]) && CanRun(Next(s, steps[0]), steps[1..]))
  }

  function Run(s: State, steps: seq<Step>): State
    requires CanRun(s, steps)
    decreases |steps|
  {
    if steps == [] then s else Run(Next(s, steps[0]), steps[1..])
  }

  ghost predicate Reachable(s: State) {
    exists s0: State, steps: seq<Step> :: Init(s0) && CanRun(s0, steps) && Run(s0, steps) == s
  }
}
