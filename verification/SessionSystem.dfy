/**
 Whole runs of the session service: the clock, the users' session versions, the Redis
 store, the requests in flight, and the history that the theorems speak about.

 A request reads, signs and only later reaches Redis, so preparing a script and running
 it are separate steps; a prepared rotation may run any number of times (a lost reply is
 retried with the same arguments), a prepared issue runs at most once.
 */
module SessionSystem {
  import opened Wrappers
  import opened SessionStore

  datatype AccessToken = AccessToken(user: User, family: Hash, version: nat, expiresAt: int)

  /** The account and the session version under which a family was begun. */
  datatype Origin = Origin(user: User, version: nat)

  /** What was signed, read, prepared and committed so far. */
  datatype History = History(
    tokens: map<Jti, AccessToken>,
    minted: set<Hash>,
    issues: set<IssueArgs>,
    observed: set<(Hash, RefreshRecord)>,
    rotations: set<RotateArgs>,
    established: map<Hash, User>,
    memberOf: map<Hash, Hash>,
    successor: map<Hash, Hash>,
    rotatedAt: map<Hash, int>,
    begun: map<Hash, Origin>)

  const EmptyHistory := History(map[], {}, {}, {}, {}, map[], map[], map[], map[], map[])

  datatype System = System(now: int, versions: map<User, nat>, store: Store, hist: History)

  predicate Init(s: System) {
    s.store == EmptyStore && s.hist == EmptyHistory
  }

  datatype Step =
    | Tick(seconds: nat)
    | Register(user: User)
    | BumpVersion(user: User)
    | PrepareIssue(issue: IssueArgs)
    | RunIssue(issue: IssueArgs)
    | ReadRecord(hash: Hash)
    | PrepareRotate(rotation: RotateArgs)
    | RunRotate(rotation: RotateArgs)
    | RunLogout(logout: LogoutArgs)
    | RunRevokeAll(user: User, except: Option<Jti>)

  predicate Enabled(s: System, step: Step) {
    match step
    case Tick(_) => true
    case Register(u) => u !in s.versions
    case BumpVersion(u) => u in s.versions
    case PrepareIssue(a) =>
      && a.user in s.versions && s.versions[a.user] == a.version
      && CanSign(s.hist, a.jti, a.hash) && a.signedAt == s.now <= a.nodeNow
    case RunIssue(a) => a in s.hist.issues && a.nodeNow <= s.now
    case ReadRecord(h) => Has(s.store.refresh, h, s.now)
    case PrepareRotate(a) =>
      && (a.presented, a.record) in s.hist.observed
      && a.record.user in s.versions && s.versions[a.record.user] == a.version == a.record.version
      && CanSign(s.hist, a.jti, a.newHash) && a.signedAt == s.now <= a.nodeNow
    case RunRotate(a) => a in s.hist.rotations && a.nodeNow <= s.now
    case RunLogout(a) =>
      && a.nodeNow <= s.now
      && (a.access.Some? ==> PresentsSignedToken(s.hist, a.access.value, a.nodeNow))
    case RunRevokeAll(u, except) => except.Some? ==> SignedFor(s.hist.tokens, except.value, u)
  }

  /** Session ids and refresh tokens are drawn at random and never repeat. */
  predicate CanSign(hist: History, j: Jti, h: Hash) {
    j !in hist.tokens && h !in hist.minted
  }

  predicate SignedFor(tokens: map<Jti, AccessToken>, j: Jti, u: User) {
    j in tokens && tokens[j].user == u
  }

  /** The identity comes from a signed token of a family that was really issued. */
  predicate PresentsSignedToken(hist: History, id: AccessIdentity, nodeNow: int) {
    && id.jti in hist.tokens
    && hist.tokens[id.jti].user == id.user
    && hist.tokens[id.jti].family == id.family
    && id.family in hist.established
    && id.mayRevokeFamily == (nodeNow < hist.tokens[id.jti].expiresAt)
  }

  function IssuePrepared(hist: History, a: IssueArgs, cfg: Config): History {
    hist.(
    tokens := hist.tokens[a.jti := AccessToken(a.user, a.hash, a.version, a.signedAt + cfg.accessTtl)],
    minted := hist.minted + {a.hash},
    begun := hist.begun[a.hash := Origin(a.user, a.version)],
    issues := hist.issues + {a})
  }

  function IssueRan(hist: History, a: IssueArgs): History {
    hist.(
    issues := hist.issues - {a},
    established := hist.established[a.hash := a.user],
    memberOf := hist.memberOf[a.hash := a.hash])
  }

  function RotationPrepared(hist: History, a: RotateArgs, cfg: Config): History {
    hist.(
    tokens := hist.tokens[a.jti := AccessToken(a.record.user, a.record.family, a.version, a.signedAt + cfg.accessTtl)],
    minted := hist.minted + {a.newHash},
    rotations := hist.rotations + {a})
  }

  function RotationRan(hist: History, st: Store, a: RotateArgs, now: int): History {
    if Installs(st, a, now) then hist.(
      memberOf := hist.memberOf[a.newHash := a.record.family],
      successor := hist.successor[a.presented := a.newHash],
      rotatedAt := hist.rotatedAt[a.presented := now])
    else hist
  }

  function Next(s: System, step: Step, cfg: Config): System
    requires Enabled(s, step)
  {
    match step
    case Tick(seconds) => s.(now := s.now + seconds)
    case Register(u) => s.(versions := s.versions[u := 1])
    case BumpVersion(u) => s.(versions := s.versions[u := s.versions[u] + 1])
    case PrepareIssue(a) => s.(hist := IssuePrepared(s.hist, a, cfg))
    case RunIssue(a) => s.(store := Issue(s.store, a, cfg, s.now), hist := IssueRan(s.hist, a))
    case ReadRecord(h) =>
      s.(hist := s.hist.(observed := s.hist.observed + {(h, s.store.refresh[h].value)}))
    case PrepareRotate(a) => s.(hist := RotationPrepared(s.hist, a, cfg))
    case RunRotate(a) =>
      s.(store := Rotate(s.store, a, cfg, s.now), hist := RotationRan(s.hist, s.store, a, s.now))
    case RunLogout(a) => s.(store := Logout(s.store, a, cfg, s.now))
    case RunRevokeAll(u, except) => s.(store := RevokeAll(s.store, u, except, cfg, s.now))
  }

  /** A run is given by the steps it takes; `Run` is the state it ends in. */
  predicate CanRun(s: System, steps: seq<Step>, cfg: Config)
    decreases |steps|
  {
    steps == [] || (Enabled(s, steps[0]) && CanRun(Next(s, steps[0], cfg), steps[1..], cfg))
  }

  function Run(s: System, steps: seq<Step>, cfg: Config): System
    requires CanRun(s, steps, cfg)
    decreases |steps|
  {
    if steps == [] then s else Run(Next(s, steps[0], cfg), steps[1..], cfg)
  }

  ghost predicate Reachable(s: System, cfg: Config) {
    exists s0, steps :: Init(s0) && CanRun(s0, steps, cfg) && Run(s0, steps, cfg) == s
  }

  /* ---------- what the middleware accepts ---------- */

  predicate ActiveFamily(st: Store, f: Hash, now: int) {
    Has(st.families, f, now) && st.families[f].value.active
  }

  /** `isSessionRevoked` for a signed token, read in one transaction. */
  predicate SessionRevoked(st: Store, j: Jti, t: AccessToken, now: int) {
    || !Has(st.sessions, j, now)
    || Has(st.tombstones, j, now)
    || Get(st.families, t.family, now) != Some(Family(true, t.user))
  }

  /** Everything `authenticate` asks of a token except the ban flag. */
  predicate Accepted(s: System, j: Jti) {
    && j in s.hist.tokens
    && s.now < s.hist.tokens[j].expiresAt
    && !SessionRevoked(s.store, j, s.hist.tokens[j], s.now)
    && s.hist.tokens[j].user in s.versions
    && s.hist.tokens[j].version == s.versions[s.hist.tokens[j].user]
  }

  /** A family that was issued and is no longer active. */
  predicate Dead(s: System, f: Hash) {
    f in s.hist.established && !ActiveFamily(s.store, f, s.now)
  }

  /* ---------- the invariant: each index agrees with the keys it indexes ---------- */

  predicate Indexed<K, T>(m: map<K, Keyed<set<T>>>, k: K, x: T, until: int) {
    k in m && x in m[k].value && until <= m[k].until
  }

  /** The record's family is active and outlives it; it is in both token indexes. */
  predicate RecordIndexed(families: map<Hash, Keyed<Family>>, familyTokens: map<Hash, Keyed<set<Hash>>>,
                          userRefresh: map<User, Keyed<set<Hash>>>, h: Hash, r: Keyed<RefreshRecord>, bound: int)
  {
    && r.value.family in families
    && families[r.value.family].value == Family(true, r.value.user)
    && r.until <= families[r.value.family].until
    && Indexed(familyTokens, r.value.family, h, r.until)
    && Indexed(userRefresh, r.value.user, h, r.until)
    && r.until <= bound
  }

  ghost predicate RecordsIndexed(refresh: map<Hash, Keyed<RefreshRecord>>, families: map<Hash, Keyed<Family>>,
                                 familyTokens: map<Hash, Keyed<set<Hash>>>, userRefresh: map<User, Keyed<set<Hash>>>,
                                 now: int, ttl: int)
  {
    forall h :: Has(refresh, h, now) ==>
      RecordIndexed(families, familyTokens, userRefresh, h, refresh[h], now + ttl)
  }

  /** A live family was issued to its account; an active one is in that account's index. */
  predicate FamilyIndexed(userFamilies: map<User, Keyed<set<Hash>>>, established: map<Hash, User>, f: Hash,
                          k: Keyed<Family>, bound: int)
  {
    && f in established && established[f] == k.value.user
    && k.until <= bound
    && (k.value.active ==> Indexed(userFamilies, k.value.user, f, k.until))
  }

  ghost predicate FamiliesIndexed(families: map<Hash, Keyed<Family>>, userFamilies: map<User, Keyed<set<Hash>>>,
                                  established: map<Hash, User>, now: int, ttl: int)
  {
    forall f :: Has(families, f, now) ==> FamilyIndexed(userFamilies, established, f, families[f], now + ttl)
  }

  /** Unexpired token, live session key, active family of the same account. */
  predicate Usable(sessions: map<Jti, Keyed<User>>, families: map<Hash, Keyed<Family>>,
                   tokens: map<Jti, AccessToken>, now: int, j: Jti)
  {
    && j in tokens
    && now < tokens[j].expiresAt
    && Has(sessions, j, now)
    && Has(families, tokens[j].family, now)
    && families[tokens[j].family].value == Family(true, tokens[j].user)
  }

  /** In the family's index, scored no earlier than the token expires, for as long as the family lives. */
  predicate ScoreIndexed(familySessions: map<Hash, Keyed<map<Jti, int>>>, j: Jti, t: AccessToken, until: int) {
    && t.family in familySessions
    && until <= familySessions[t.family].until
    && j in familySessions[t.family].value
    && t.expiresAt <= familySessions[t.family].value[j]
  }

  predicate AccountIndexed(userSessions: map<User, SessionIndex>, j: Jti, u: User, until: int) {
    && u in userSessions
    && j in userSessions[u].ids
    && (userSessions[u].until.Some? ==> until <= userSessions[u].until.value)
  }

  /** Every usable access token is in its family's index and in its account's. */
  ghost predicate SessionsIndexed(sessions: map<Jti, Keyed<User>>, families: map<Hash, Keyed<Family>>,
                                  familySessions: map<Hash, Keyed<map<Jti, int>>>,
                                  userSessions: map<User, SessionIndex>,
                                  tokens: map<Jti, AccessToken>, now: int)
  {
    forall j :: Usable(sessions, families, tokens, now, j) ==>
      && ScoreIndexed(familySessions, j, tokens[j], families[tokens[j].family].until)
      && AccountIndexed(userSessions, j, tokens[j].user, families[tokens[j].family].until)
  }

  /* ---------- the invariant: the indexes hold nothing foreign ---------- */

  ghost predicate SessionsSigned(sessions: map<Jti, Keyed<User>>, tokens: map<Jti, AccessToken>,
                                 established: map<Hash, User>)
  {
    forall j :: j in sessions ==> j in tokens && tokens[j].family in established
  }

  ghost predicate RecordsOwned(refresh: map<Hash, Keyed<RefreshRecord>>, memberOf: map<Hash, Hash>,
                               established: map<Hash, User>) {
    forall h :: h in refresh ==> Owns(memberOf, established, h, refresh[h].value.family, refresh[h].value.user)
  }

  /** `h` is a token of family `f`, which belongs to `u`. */
  predicate Owns(memberOf: map<Hash, Hash>, established: map<Hash, User>, h: Hash, f: Hash, u: User) {
    && h in memberOf && memberOf[h] == f
    && f in established && established[f] == u
  }

  ghost predicate FamilyTokensOwned(familyTokens: map<Hash, Keyed<set<Hash>>>, memberOf: map<Hash, Hash>) {
    forall f, h :: f in familyTokens && h in familyTokens[f].value ==> h in memberOf && memberOf[h] == f
  }

  ghost predicate FamilySessionsOwned(familySessions: map<Hash, Keyed<map<Jti, int>>>,
                                      tokens: map<Jti, AccessToken>, established: map<Hash, User>) {
    && (forall f :: f in familySessions ==> f in established)
    && (forall f, j :: f in familySessions && j in familySessions[f].value ==>
         j in tokens && tokens[j].family == f)
  }

  /** No family index outgrows the cap. */
  ghost predicate FamilySessionsCapped(familySessions: map<Hash, Keyed<map<Jti, int>>>) {
    forall f :: f in familySessions ==> |familySessions[f].value.Keys| <= MAX_REFRESH_FAMILY_SESSIONS
  }

  ghost predicate UserRefreshOwned(userRefresh: map<User, Keyed<set<Hash>>>, memberOf: map<Hash, Hash>,
                                   established: map<Hash, User>) {
    forall u, h :: u in userRefresh && h in userRefresh[u].value ==>
      h in memberOf && Owns(memberOf, established, h, memberOf[h], u)
  }

  /** An account's session index names only its own tokens. */
  ghost predicate UserSessionsOwned(userSessions: map<User, SessionIndex>, tokens: map<Jti, AccessToken>) {
    forall u, j :: u in userSessions && j in userSessions[u].ids ==> SignedFor(tokens, j, u)
  }

  /** A tombstone stands for a token of a family that was issued. */
  ghost predicate TombstonesOwned(tombstones: map<Jti, Keyed<bool>>, tokens: map<Jti, AccessToken>,
                                  established: map<Hash, User>) {
    forall j :: j in tombstones ==> j in tokens && tokens[j].family in established
  }

  ghost predicate UserFamiliesOwned(userFamilies: map<User, Keyed<set<Hash>>>, established: map<Hash, User>) {
    forall u, f :: u in userFamilies && f in userFamilies[u].value ==> f in established && established[f] == u
  }

  /** An alias leads to its token's family, and stays for its TTL after a rotation. */
  ghost predicate AliasesOwned(aliases: map<Hash, Keyed<Hash>>, memberOf: map<Hash, Hash>, rotatedAt: map<Hash, int>) {
    && (forall h :: h in aliases ==> h in memberOf && memberOf[h] == aliases[h].value)
    && (forall h :: h in rotatedAt ==>
         h in aliases && rotatedAt[h] + REFRESH_FAMILY_ALIAS_TTL_SECONDS <= aliases[h].until)
  }

  ghost predicate LogoutReceiptsOwned(receipts: map<Hash, Keyed<LogoutReceipt>>, memberOf: map<Hash, Hash>,
                                      established: map<Hash, User>) {
    forall h :: h in receipts ==> Owns(memberOf, established, h, receipts[h].value.family, receipts[h].value.user)
  }

  /* ---------- the invariant: the history ---------- */

  ghost predicate FamiliesKnown(hist: History) {
    && (forall h :: h in hist.memberOf ==> h in hist.minted && hist.memberOf[h] in hist.established)
    && (forall f :: f in hist.established ==> f in hist.memberOf && hist.memberOf[f] == f)
    && (forall h :: h in hist.successor ==> h in hist.memberOf)
  }

  predicate TokenSound(hist: History, t: AccessToken) {
    && t.family in hist.minted
    && (t.family in hist.established ==> hist.established[t.family] == t.user)
    && (forall a :: a in hist.issues && a.hash == t.family ==> a.user == t.user)
  }

  ghost predicate TokensSound(hist: History) {
    forall j :: j in hist.tokens ==> TokenSound(hist, hist.tokens[j])
  }

  ghost predicate ObservedSound(hist: History) {
    forall p :: p in hist.observed ==> Owns(hist.memberOf, hist.established, p.0, p.1.family, p.1.user)
  }

  predicate IssueSound(hist: History, a: IssueArgs, cfg: Config) {
    && a.hash in hist.minted && a.hash !in hist.memberOf
    && a.signedAt <= a.nodeNow
    && a.jti in hist.tokens
    && hist.tokens[a.jti] == AccessToken(a.user, a.hash, a.version, a.signedAt + cfg.accessTtl)
  }

  ghost predicate IssuesSound(hist: History, cfg: Config) {
    && (forall a :: a in hist.issues ==> IssueSound(hist, a, cfg))
    && (forall a, b :: a in hist.issues && b in hist.issues && a.hash == b.hash ==> a == b)
    && (forall a, b :: a in hist.issues && b in hist.rotations ==> a.hash != b.newHash)
  }

  predicate RotationSound(hist: History, a: RotateArgs, cfg: Config) {
    && Owns(hist.memberOf, hist.established, a.presented, a.record.family, a.record.user)
    && a.newHash in hist.minted && a.newHash !in hist.established && a.newHash != a.presented
    && (a.newHash in hist.memberOf ==> hist.memberOf[a.newHash] == a.record.family && a.presented in hist.successor)
    && a.signedAt <= a.nodeNow
    && a.jti in hist.tokens
    && hist.tokens[a.jti] == AccessToken(a.record.user, a.record.family, a.version, a.signedAt + cfg.accessTtl)
  }

  ghost predicate RotationsSound(hist: History, cfg: Config) {
    && (forall a :: a in hist.rotations ==> RotationSound(hist, a, cfg))
    && (forall a, b :: a in hist.rotations && b in hist.rotations && a.newHash == b.newHash ==> a == b)
  }

  /** With rotation on: a rotated token is spent for ever, and a family has one live token. */
  ghost predicate RotationLinear(refresh: map<Hash, Keyed<RefreshRecord>>, receipts: map<Hash, Keyed<Hash>>,
                                 successor: map<Hash, Hash>, now: int)
  {
    && (forall h :: h in successor ==> !Has(refresh, h, now))
    && (forall h, k | Has(refresh, h, now) && Has(refresh, k, now) ::
         refresh[h].value.family == refresh[k].value.family ==> h == k)
    && (forall h :: h in receipts ==> h in successor && receipts[h].value == successor[h])
  }

  ghost predicate HistoryInv(hist: History, cfg: Config) {
    && FamiliesKnown(hist)
    && TokensSound(hist)
    && ObservedSound(hist)
    && IssuesSound(hist, cfg)
    && RotationsSound(hist, cfg)
  }

  ghost predicate OwnershipInv(st: Store, hist: History) {
    && SessionsSigned(st.sessions, hist.tokens, hist.established)
    && RecordsOwned(st.refresh, hist.memberOf, hist.established)
    && FamilyTokensOwned(st.familyTokens, hist.memberOf)
    && FamilySessionsOwned(st.familySessions, hist.tokens, hist.established)
    && UserRefreshOwned(st.userRefresh, hist.memberOf, hist.established)
    && UserFamiliesOwned(st.userFamilies, hist.established)
    && UserSessionsOwned(st.userSessions, hist.tokens)
    && TombstonesOwned(st.tombstones, hist.tokens, hist.established)
    && AliasesOwned(st.aliases, hist.memberOf, hist.rotatedAt)
    && LogoutReceiptsOwned(st.logoutReceipts, hist.memberOf, hist.established)
  }

  ghost predicate IndexInv(st: Store, hist: History, now: int, cfg: Config) {
    && RecordsIndexed(st.refresh, st.families, st.familyTokens, st.userRefresh, now, cfg.refreshTtl)
    && FamiliesIndexed(st.families, st.userFamilies, hist.established, now, cfg.refreshTtl)
    && SessionsIndexed(st.sessions, st.families, st.familySessions, st.userSessions, hist.tokens, now)
  }

  /** The part of the invariant that speaks about the store. */
  ghost predicate StoreInv(st: Store, hist: History, now: int, cfg: Config) {
    && OwnershipInv(st, hist)
    && IndexInv(st, hist, now, cfg)
    && FamilySessionsCapped(st.familySessions)
    && (cfg.rotation ==> RotationLinear(st.refresh, st.rotationReceipts, hist.successor, now))
  }

  ghost predicate Inv(s: System, cfg: Config) {
    HistoryInv(s.hist, cfg) && StoreInv(s.store, s.hist, s.now, cfg)
  }
}
