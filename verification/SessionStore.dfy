/**
 The Redis keys of the session service and what each atomic script makes of them.

 Every key carries the instant at which it expires; a script that runs at `now` sees a
 key exactly when `now` is before that instant.  The functions below are the
 specifications of the scripts: `SessionRedis` runs them command by command.
 */
module SessionStore {
  import opened Wrappers

  type User(==, !new)
  type Jti(==, !new)
  /** A refresh-token hash.  A family is named by the hash of its first token. */
  type Hash(==, !new)

  datatype Keyed<+T> = Keyed(value: T, until: int)

  /** `until == None` is a key without a TTL. */
  datatype SessionIndex = SessionIndex(ids: set<Jti>, until: Option<int>)

  datatype RefreshRecord = RefreshRecord(user: User, version: nat, family: Hash)
  datatype Family = Family(active: bool, user: User)
  datatype LogoutReceipt = LogoutReceipt(user: User, family: Hash)

  datatype Store = Store(
    sessions: map<Jti, Keyed<User>>,
    refresh: map<Hash, Keyed<RefreshRecord>>,
    families: map<Hash, Keyed<Family>>,
    aliases: map<Hash, Keyed<Hash>>,
    familySessions: map<Hash, Keyed<map<Jti, int>>>,
    familyTokens: map<Hash, Keyed<set<Hash>>>,
    userSessions: map<User, SessionIndex>,
    userRefresh: map<User, Keyed<set<Hash>>>,
    userFamilies: map<User, Keyed<set<Hash>>>,
    rotationReceipts: map<Hash, Keyed<Hash>>,
    logoutReceipts: map<Hash, Keyed<LogoutReceipt>>,
    tombstones: map<Jti, Keyed<bool>>)

  const EmptyStore := Store(map[], map[], map[], map[], map[], map[], map[], map[], map[], map[], map[], map[])

  const REFRESH_FAMILY_ALIAS_TTL_SECONDS := 5 * 60
  const REFRESH_ROTATION_RECEIPT_TTL_SECONDS := 5 * 60
  const LOGOUT_RECEIPT_TTL_SECONDS := 8 * 24 * 60 * 60
  const MAX_REFRESH_FAMILY_SESSIONS := 512

  datatype Config = Config(accessTtl: int, refreshTtl: int, rotation: bool) {
    predicate Valid() { 0 < accessTtl && 0 < refreshTtl }
  }

  /* ---------- reading and writing expiring keys ---------- */

  predicate Has<K, T>(m: map<K, Keyed<T>>, k: K, now: int) {
    k in m && now < m[k].until
  }

  function Get<K, T>(m: map<K, Keyed<T>>, k: K, now: int): Option<T> {
    if Has(m, k, now) then Some(m[k].value) else None
  }

  function Members<K, T>(m: map<K, Keyed<set<T>>>, k: K, now: int): set<T> {
    if Has(m, k, now) then m[k].value else {}
  }

  /** SADD followed by EXPIRE. */
  function Add<K, T>(m: map<K, Keyed<set<T>>>, k: K, x: T, now: int, ttl: int): map<K, Keyed<set<T>>> {
    m[k := Keyed(Members(m, k, now) + {x}, now + ttl)]
  }

  /** SREM of every element of `xs`; the TTL stays. */
  function Remove<K, T>(m: map<K, Keyed<set<T>>>, k: K, xs: set<T>, now: int): map<K, Keyed<set<T>>> {
    if Has(m, k, now) then m[k := m[k].(value := m[k].value - xs)] else m
  }

  /** SET of the same value under each of `ks`. */
  function PutAll<K, T>(m: map<K, T>, ks: set<K>, v: T): map<K, T> {
    m + map k | k in ks :: v
  }

  predicate HasSessions(m: map<User, SessionIndex>, u: User, now: int) {
    u in m && (m[u].until.Some? ==> now < m[u].until.value)
  }

  function SessionMembers(m: map<User, SessionIndex>, u: User, now: int): set<Jti> {
    if HasSessions(m, u, now) then m[u].ids else {}
  }

  function AddSession(m: map<User, SessionIndex>, u: User, j: Jti, now: int, ttl: int): map<User, SessionIndex> {
    m[u := SessionIndex(SessionMembers(m, u, now) + {j}, Some(now + ttl))]
  }

  function RemoveSessions(m: map<User, SessionIndex>, u: User, js: set<Jti>, now: int): map<User, SessionIndex> {
    if HasSessions(m, u, now) then m[u := m[u].(ids := m[u].ids - js)] else m
  }

  function Scores(m: map<Hash, Keyed<map<Jti, int>>>, f: Hash, now: int): map<Jti, int> {
    if Has(m, f, now) then m[f].value else map[]
  }

  function ScoresUpTo(z: map<Jti, int>, bound: int): set<Jti> {
    set j | j in z && z[j] <= bound
  }

  function ScoresFrom(z: map<Jti, int>, bound: int): set<Jti> {
    set j | j in z && bound <= z[j]
  }

  /** ZADD followed by EXPIRE. */
  function Score(m: map<Hash, Keyed<map<Jti, int>>>, f: Hash, j: Jti, score: int, now: int, ttl: int):
    map<Hash, Keyed<map<Jti, int>>>
  {
    m[f := Keyed(Scores(m, f, now)[j := score], now + ttl)]
  }

  /** ZREMRANGEBYSCORE from minus infinity; the TTL stays. */
  function DropScores(m: map<Hash, Keyed<map<Jti, int>>>, f: Hash, bound: int, now: int):
    map<Hash, Keyed<map<Jti, int>>>
  {
    if Has(m, f, now) then m[f := m[f].(value := m[f].value - ScoresUpTo(m[f].value, bound))] else m
  }

  /* ---------- issueSession: one MULTI ---------- */

  /** `nodeNow` is the wall clock the application read before it sent the command. */
  datatype IssueArgs = IssueArgs(user: User, version: nat, jti: Jti, hash: Hash, signedAt: int, nodeNow: int)

  function Issue(st: Store, a: IssueArgs, cfg: Config, now: int): Store {
    st.(
    sessions := st.sessions[a.jti := Keyed(a.user, now + cfg.accessTtl)],
    refresh := st.refresh[a.hash := Keyed(RefreshRecord(a.user, a.version, a.hash), now + cfg.refreshTtl)],
    families := st.families[a.hash := Keyed(Family(true, a.user), now + cfg.refreshTtl)],
    aliases := st.aliases[a.hash := Keyed(a.hash, now + REFRESH_FAMILY_ALIAS_TTL_SECONDS)],
    familySessions := Score(st.familySessions, a.hash, a.jti, a.nodeNow + cfg.accessTtl, now, cfg.refreshTtl),
    familyTokens := Add(st.familyTokens, a.hash, a.hash, now, cfg.refreshTtl),
    userSessions := AddSession(st.userSessions, a.user, a.jti, now, cfg.refreshTtl),
    userRefresh := Add(st.userRefresh, a.user, a.hash, now, cfg.refreshTtl),
    userFamilies := Add(st.userFamilies, a.user, a.hash, now, cfg.refreshTtl))
  }

  /* ---------- ROTATE_REFRESH_SESSION_SCRIPT ---------- */

  /** `record` is the raw record that the refresh route read under `presented`. */
  datatype RotateArgs = RotateArgs(presented: Hash, record: RefreshRecord, version: nat, jti: Jti, newHash: Hash,
                                   signedAt: int, nodeNow: int) {
    function Successor(): RefreshRecord { RefreshRecord(record.user, version, record.family) }
  }

  datatype RotateResult = Refused | Committed | OverCapacity

  predicate PresentedRecordLive(st: Store, a: RotateArgs, now: int) {
    Get(st.refresh, a.presented, now) == Some(a.record)
  }

  /** The branch taken when the presented record is gone: was this very rotation committed before? */
  predicate AlreadyRotated(st: Store, a: RotateArgs, now: int) {
    && Get(st.rotationReceipts, a.presented, now) == Some(a.newHash)
    && Get(st.families, a.record.family, now) == Some(Family(true, a.record.user))
    && Get(st.refresh, a.newHash, now) == Some(a.Successor())
    && Get(st.sessions, a.jti, now) == Some(a.record.user)
  }

  predicate FamilyForbids(st: Store, a: RotateArgs, now: int) {
    Get(st.families, a.record.family, now) !in {None, Some(Family(true, a.record.user))}
  }

  /** Drop the access sessions whose score has passed from the family and user indexes. */
  function Prune(st: Store, a: RotateArgs, now: int): Store {
    var f := a.record.family;
    var expired := ScoresUpTo(Scores(st.familySessions, f, now), a.nodeNow);
    st.(
    userSessions := RemoveSessions(st.userSessions, a.record.user, expired, now),
    familySessions := DropScores(st.familySessions, f, a.nodeNow, now))
  }

  predicate HasCapacity(st: Store, a: RotateArgs, now: int) {
    var z := Scores(st.familySessions, a.record.family, now);
    |z.Keys| + (if a.jti in z then 0 else 1) <= MAX_REFRESH_FAMILY_SESSIONS
  }

  function Commit(st: Store, a: RotateArgs, cfg: Config, now: int): Store {
    var f, u := a.record.family, a.record.user;
    var spent := if cfg.rotation then {a.presented} else {};
    var tokens := Add(st.familyTokens, f, a.newHash, now, cfg.refreshTtl);
    var owned := Add(st.userRefresh, u, a.newHash, now, cfg.refreshTtl);
    st.(
    families := st.families[f := Keyed(Family(true, u), now + cfg.refreshTtl)],
    sessions := st.sessions[a.jti := Keyed(u, now + cfg.accessTtl)],
    refresh := st.refresh[a.newHash := Keyed(a.Successor(), now + cfg.refreshTtl)] - spent,
    aliases := st.aliases[a.presented := Keyed(f, now + REFRESH_FAMILY_ALIAS_TTL_SECONDS)],
    familySessions := Score(st.familySessions, f, a.jti, a.nodeNow + cfg.accessTtl, now, cfg.refreshTtl),
    userSessions := AddSession(st.userSessions, u, a.jti, now, cfg.refreshTtl),
    familyTokens := Remove(tokens, f, spent, now),
    userRefresh := Remove(owned, u, spent, now),
    userFamilies := Add(st.userFamilies, u, f, now, cfg.refreshTtl),
    rotationReceipts := st.rotationReceipts[a.presented := Keyed(a.newHash, now + REFRESH_ROTATION_RECEIPT_TTL_SECONDS)])
  }

  function RotateOutcome(st: Store, a: RotateArgs, now: int): RotateResult {
    if !PresentedRecordLive(st, a, now) then (if AlreadyRotated(st, a, now) then Committed else Refused)
    else if FamilyForbids(st, a, now) then Refused
    else if HasCapacity(Prune(st, a, now), a, now) then Committed
    else OverCapacity
  }

  /** Did this execution install the successor (rather than recognise an earlier one)? */
  predicate Installs(st: Store, a: RotateArgs, now: int) {
    PresentedRecordLive(st, a, now) && RotateOutcome(st, a, now).Committed?
  }

  function Rotate(st: Store, a: RotateArgs, cfg: Config, now: int): Store {
    if !PresentedRecordLive(st, a, now) || FamilyForbids(st, a, now) then st
    else
      var pruned := Prune(st, a, now);
      if HasCapacity(pruned, a, now) then Commit(pruned, a, cfg, now) else pruned
  }

  /* ---------- REVOKE_PRESENTED_SESSION_SCRIPT ---------- */

  datatype AccessIdentity = AccessIdentity(user: User, jti: Jti, family: Hash, mayRevokeFamily: bool)

  datatype LogoutArgs = LogoutArgs(access: Option<AccessIdentity>, refreshHash: Option<Hash>, nodeNow: int)

  /** The account a family fence is written for: the family's own, else the caller's fallback. */
  function FamilyUser(st: Store, f: Hash, fallback: Option<User>, now: int): Option<User> {
    if Has(st.families, f, now) then Some(st.families[f].value.user) else fallback
  }

  function FenceFamily(st: Store, f: Hash, u: User, nodeNow: int, cfg: Config, now: int): Store {
    var ids := ScoresFrom(Scores(st.familySessions, f, now), nodeNow);
    var tokens := Members(st.familyTokens, f, now);
    st.(
    families := st.families[f := Keyed(Family(false, u), now + cfg.refreshTtl)],
    sessions := st.sessions - ids,
    userSessions := RemoveSessions(st.userSessions, u, ids, now),
    tombstones := PutAll(st.tombstones, ids, Keyed(true, now + cfg.refreshTtl)),
    familySessions := st.familySessions - {f},
    logoutReceipts := PutAll(st.logoutReceipts, tokens, Keyed(LogoutReceipt(u, f), now + LOGOUT_RECEIPT_TTL_SECONDS)),
    refresh := st.refresh - tokens,
    userRefresh := Remove(st.userRefresh, u, tokens, now),
    familyTokens := st.familyTokens - {f},
    userFamilies := Remove(st.userFamilies, u, {f}, now))
  }

  /** The script's `revokeFamily`, for a family it has not visited yet in this run. */
  function RevokeFamily(st: Store, f: Hash, fallback: Option<User>, nodeNow: int, cfg: Config, now: int): Store {
    match FamilyUser(st, f, fallback, now)
    case None => st
    case Some(u) => FenceFamily(st, f, u, nodeNow, cfg, now)
  }

  function AccessFamily(a: LogoutArgs): Option<Hash> {
    if a.access.Some? && a.access.value.mayRevokeFamily then Some(a.access.value.family) else None
  }

  /** The account that the presented refresh token names, by its record or by its receipt. */
  function PresentedUser(st: Store, h: Hash, now: int): Option<User> {
    if Has(st.refresh, h, now) then Some(st.refresh[h].value.user)
    else if Has(st.logoutReceipts, h, now) then Some(st.logoutReceipts[h].value.user)
    else None
  }

  /** The family that the presented refresh token names: alias, else record, else receipt. */
  function PresentedFamily(st: Store, h: Hash, now: int): Option<Hash> {
    if Has(st.aliases, h, now) then Some(st.aliases[h].value)
    else if Has(st.refresh, h, now) then Some(st.refresh[h].value.family)
    else if Has(st.logoutReceipts, h, now) then Some(st.logoutReceipts[h].value.family)
    else None
  }

  function ForgetPresented(st: Store, h: Hash, f: Option<Hash>, presented: Option<User>, resolved: Option<User>, now: int): Store {
    st.(
    logoutReceipts := if f.Some? && resolved.Some?
      then st.logoutReceipts[h := Keyed(LogoutReceipt(resolved.value, f.value), now + LOGOUT_RECEIPT_TTL_SECONDS)]
      else st.logoutReceipts,
    refresh := st.refresh - {h},
    userRefresh := if presented.Some? then Remove(st.userRefresh, presented.value, {h}, now) else st.userRefresh)
  }

  function RevokePresentedRefresh(st: Store, h: Hash, visited: Option<Hash>, nodeNow: int, cfg: Config, now: int): Store {
    var u := PresentedUser(st, h, now);
    var f := PresentedFamily(st, h, now);
    if f.None? then ForgetPresented(st, h, f, u, None, now)
    else
      var resolved := FamilyUser(st, f.value, u, now);
      var fenced := if visited == f then st else RevokeFamily(st, f.value, u, nodeNow, cfg, now);
      ForgetPresented(fenced, h, f, u, resolved, now)
  }

  function RevokeAccessSession(st: Store, j: Jti, u: User, cfg: Config, now: int): Store {
    st.(
    sessions := st.sessions - {j},
    userSessions := RemoveSessions(st.userSessions, u, {j}, now),
    tombstones := st.tombstones[j := Keyed(true, now + cfg.refreshTtl)])
  }

  function LogoutFamilies(st: Store, a: LogoutArgs, cfg: Config, now: int): Store {
    match AccessFamily(a)
    case None => st
    case Some(f) => RevokeFamily(st, f, Some(a.access.value.user), a.nodeNow, cfg, now)
  }

  function LogoutRefresh(st: Store, a: LogoutArgs, cfg: Config, now: int): Store {
    match a.refreshHash
    case None => st
    case Some(h) => RevokePresentedRefresh(st, h, AccessFamily(a), a.nodeNow, cfg, now)
  }

  function Logout(st: Store, a: LogoutArgs, cfg: Config, now: int): Store {
    var st' := LogoutRefresh(LogoutFamilies(st, a, cfg, now), a, cfg, now);
    match a.access
    case None => st'
    case Some(id) => RevokeAccessSession(st', id.jti, id.user, cfg, now)
  }

  /* ---------- REVOKE_ALL_USER_SESSIONS_SCRIPT ---------- */

  function RevokeAll(st: Store, u: User, except: Option<Jti>, cfg: Config, now: int): Store {
    var spared := if except.Some? then {except.value} else {};
    var st1 := st.(
      sessions := st.sessions - (SessionMembers(st.userSessions, u, now) - spared),
      refresh := st.refresh - Members(st.userRefresh, u, now),
      userRefresh := st.userRefresh - {u});
    if except.Some? then
      st1.(userSessions := st.userSessions[u := SessionIndex({except.value}, None)])
    else
      var fs := Members(st.userFamilies, u, now);
      st1.(
      families := PutAll(st.families, fs, Keyed(Family(false, u), now + cfg.refreshTtl)),
      familySessions := st.familySessions - fs,
      familyTokens := st.familyTokens - fs,
      userSessions := st.userSessions - {u},
      userFamilies := st.userFamilies - {u})
  }
}
