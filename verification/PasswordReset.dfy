/**
 Password-reset links: a generation counter in the users table and, in Redis, the record of
 each link and one active pointer per user.

 Issuers bump the generation, store the link, re-read the row and then deliver or withdraw
 the link; consumers take the link from Redis and commit to the users table later.  Every
 script and every statement on the users table is one step, and steps interleave freely.
 */
module PasswordReset {
  import opened Wrappers

  type User(==, !new)
  /** A normalised email address. */
  type Email(==, !new)
  type Hash(==, !new)

  const PASSWORD_RESET_TTL_MS := 60 * 60 * 1000

  datatype Keyed<+T> = Keyed(value: T, until: int)

  datatype Row = Row(email: Email, emailGeneration: nat, passwordGeneration: nat, sessionVersion: nat)

  /** What a link says about its user: the identity read when its generation was drawn. */
  datatype Claim = Claim(user: User, email: Email, emailGeneration: nat, passwordGeneration: nat)
  datatype Record = Record(claim: Claim, expiresAt: int)

  /** `Bare` is the pointer of releases that did not rank issuers. */
  datatype Pointer = Ranked(generation: nat, hash: Hash) | Bare(hash: Hash)

  datatype Links = Links(tokens: map<Hash, Keyed<Record>>, active: map<User, Keyed<Pointer>>)

  predicate Has<K, T>(m: map<K, Keyed<T>>, k: K, now: int) {
    k in m && now < m[k].until
  }

  function Rank(p: Pointer): nat {
    if p.Ranked? then p.generation else 0
  }

  /* ---------- the scripts ---------- */

  datatype StoreOutcome = Taken | Superseded | StoredOk

  function OutcomeOfStore(l: Links, c: Claim, hash: Hash, now: int): StoreOutcome {
    if Has(l.tokens, hash, now) then Taken
    else if Has(l.active, c.user, now) && c.passwordGeneration <= Rank(l.active[c.user].value) then Superseded
    else StoredOk
  }

  function StoreLink(l: Links, r: Record, hash: Hash, now: int): Links {
    if OutcomeOfStore(l, r.claim, hash, now) != StoredOk then l else
      var u := r.claim.user;
      var kept := if Has(l.active, u, now) then l.tokens - {l.active[u].value.hash} else l.tokens;
      Links(
        kept[hash := Keyed(r, now + PASSWORD_RESET_TTL_MS)],
        l.active[u := Keyed(Ranked(r.claim.passwordGeneration, hash), now + PASSWORD_RESET_TTL_MS)])
  }

  predicate Names(p: Pointer, c: Claim, hash: Hash) {
    p == Bare(hash) || p == Ranked(c.passwordGeneration, hash)
  }

  predicate IsActive(l: Links, c: Claim, hash: Hash, now: int) {
    Has(l.active, c.user, now) && Names(l.active[c.user].value, c, hash)
  }

  function ConsumeLink(l: Links, hash: Hash, now: int): Links {
    if !Has(l.tokens, hash, now) then l else
      var c := l.tokens[hash].value.claim;
      Links(l.tokens - {hash}, if IsActive(l, c, hash, now) then l.active - {c.user} else l.active)
  }

  /** `nodeNow` is the wall clock the application read before it sent the command. */
  function Consumed(l: Links, hash: Hash, nodeNow: int, now: int): Option<Claim> {
    if !Has(l.tokens, hash, now) then None else
      var r := l.tokens[hash].value;
      if nodeNow < r.expiresAt && IsActive(l, r.claim, hash, now) then Some(r.claim) else None
  }

  function WithdrawLink(l: Links, c: Claim, hash: Hash, now: int): Links {
    Links(
      l.tokens - {hash},
      if Has(l.active, c.user, now) && l.active[c.user].value == Ranked(c.passwordGeneration, hash)
      then l.active - {c.user} else l.active)
  }

  /* ---------- the system ---------- */

  datatype Issuer =
    | Prepared(claim: Claim, attempts: nat)
    | Stored(claim: Claim, hash: Hash)
    | Withdrawing(claim: Claim, hash: Hash)
    | Delivered(claim: Claim, hash: Hash)
    | Failed

  datatype Consumer = Hashing(claim: Claim, hash: Hash) | Finished

  /** What happened to a user's identity, in order. */
  datatype Event =
    | Issued(user: User, generation: nat)
    | Committed(user: User, generation: nat, hash: Hash)
    | EmailChanged(user: User)
    | PasswordChanged(user: User)

  /** `drawn` and `log` are history: the link each stored hash stood for and the events so far. */
  datatype State = State(
    now: int,
    users: map<User, Row>,
    links: Links,
    issuers: map<nat, Issuer>,
    consumers: map<nat, Consumer>,
    drawn: map<Hash, Claim>,
    log: seq<Event>)

  predicate Init(s: State) {
    s.links == Links(map[], map[]) && s.issuers == map[] && s.consumers == map[] && s.drawn == map[] && s.log == []
  }

  datatype Step =
    | Tick(ms: nat)
    | Begin(i: nat, user: User, expected: Option<Email>)
    | Store(i: nat, hash: Hash, stamp: int)
    | Recheck(i: nat)
    | Withdraw(i: nat)
    | Abandon(i: nat)
    | Consume(c: nat, hash: Hash, nodeNow: int)
    | Commit(c: nat)
    | ChangeEmail(user: User, email: Email)
    | ChangePassword(user: User)

  predicate Enabled(s: State, step: Step) {
    match step
    case Tick(_) => true
    case Begin(i, u, expected) =>
      i !in s.issuers && u in s.users && (expected.Some? ==> s.users[u].email == expected.value)
    // A drawn token is new, unless it happens to hit a live one.
    case Store(i, h, stamp) =>
      && i in s.issuers && s.issuers[i].Prepared? && s.issuers[i].attempts < 2 && stamp <= s.now
      && (h in s.drawn ==> Has(s.links.tokens, h, s.now))
    case Recheck(i) => i in s.issuers && s.issuers[i].Stored?
    case Withdraw(i) => i in s.issuers && s.issuers[i].Withdrawing?
    case Abandon(i) => i in s.issuers
    case Consume(c, _, _) => c !in s.consumers
    case Commit(c) => c in s.consumers && s.consumers[c].Hashing?
    case ChangeEmail(u, _) => u in s.users
    case ChangePassword(u) => u in s.users
  }

  function ClaimOn(u: User, row: Row): Claim {
    Claim(u, row.email, row.emailGeneration, row.passwordGeneration)
  }

  /** The row still carries the identity the claim was made for. */
  predicate Current(users: map<User, Row>, c: Claim) {
    c.user in users && ClaimOn(c.user, users[c.user]) == c
  }

  function Bumped(row: Row): Row {
    row.(passwordGeneration := row.passwordGeneration + 1)
  }

  function AfterStore(issuer: Issuer, outcome: StoreOutcome, h: Hash): Issuer
    requires issuer.Prepared?
  {
    match outcome
    case StoredOk => Stored(issuer.claim, h)
    case Superseded => Failed
    case Taken => if issuer.attempts == 0 then Prepared(issuer.claim, 1) else Failed
  }

  function Next(s: State, step: Step): State
    requires Enabled(s, step)
  {
    match step
    case Tick(ms) => s.(now := s.now + ms)
    case Begin(i, u, _) =>
      var row := Bumped(s.users[u]);
      s.(users := s.users[u := row], issuers := s.issuers[i := Prepared(ClaimOn(u, row), 0)],
         log := s.log + [Issued(u, row.passwordGeneration)])
    case Store(i, h, stamp) =>
      var c := s.issuers[i].claim;
      var outcome := OutcomeOfStore(s.links, c, h, s.now);
      s.(links := StoreLink(s.links, Record(c, stamp + PASSWORD_RESET_TTL_MS), h, s.now),
         issuers := s.issuers[i := AfterStore(s.issuers[i], outcome, h)],
         drawn := if outcome == StoredOk then s.drawn[h := c] else s.drawn)
    case Recheck(i) =>
      var c, h := s.issuers[i].claim, s.issuers[i].hash;
      s.(issuers := s.issuers[i := if Current(s.users, c) then Delivered(c, h) else Withdrawing(c, h)])
    case Withdraw(i) =>
      var c, h := s.issuers[i].claim, s.issuers[i].hash;
      s.(links := WithdrawLink(s.links, c, h, s.now), issuers := s.issuers[i := Failed])
    case Abandon(i) => s.(issuers := s.issuers[i := Failed])
    case Consume(c, h, nodeNow) =>
      var got := Consumed(s.links, h, nodeNow, s.now);
      s.(links := ConsumeLink(s.links, h, s.now),
         consumers := s.consumers[c := if got.Some? then Hashing(got.value, h) else Finished])
    case Commit(k) =>
      var c, h := s.consumers[k].claim, s.consumers[k].hash;
      if Current(s.users, c)
      then
        s.(users := s.users[c.user := Bumped(s.users[c.user]).(sessionVersion := s.users[c.user].sessionVersion + 1)],
           consumers := s.consumers[k := Finished], log := s.log + [Committed(c.user, c.passwordGeneration, h)])
      else s.(consumers := s.consumers[k := Finished])
    case ChangeEmail(u, email) =>
      var row := s.users[u];
      s.(users := s.users[u := row.(email := email, emailGeneration := row.emailGeneration + 1,
                                    sessionVersion := row.sessionVersion + 1)],
         log := s.log + [EmailChanged(u)])
    case ChangePassword(u) =>
      s.(users := s.users[u := Bumped(s.users[u]).(sessionVersion := s.users[u].sessionVersion + 1)],
         log := s.log + [PasswordChanged(u)])
  }

  predicate CanRun(s: State, steps: seq<Step>)
    decreases |steps|
  {
    steps == [] || (Enabled(s, steps[0]) && CanRun(Next(s, steps[0]), steps[1..]))
  }

  function Run(s: State, steps: seq<Step>): State
    requires CanRun(s, steps)
    decreases |steps|
  {
    if steps == [] then s else Run(Next(s, steps[0]), steps[1..])
  }

  ghost predicate Reachable(s: State) {
    exists s0: State, steps: seq<Step> :: Init(s0) && CanRun(s0, steps) && Run(s0, steps) == s
  }
}
