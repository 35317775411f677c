/** What holds of reset links and of the users table through every interleaving. */
module PasswordResetProofs {
  import opened Wrappers
  import opened PasswordReset

  /* ---------- invariant ---------- */

  function LastOf(log: seq<Event>, u: User): Option<Event> {
    if log == [] then None
    else if log[|log| - 1].user == u then Some(log[|log| - 1])
    else LastOf(log[..|log| - 1], u)
  }

  /** A claim is never ahead of its row; while it is level, nothing happened since its issue. */
  ghost predicate ClaimOk(users: map<User, Row>, log: seq<Event>, c: Claim) {
    && c.user in users
    && var row := users[c.user];
    && c.passwordGeneration <= row.passwordGeneration && c.emailGeneration <= row.emailGeneration
    && (c.emailGeneration == row.emailGeneration ==> c.email == row.email)
    && (c == ClaimOn(c.user, row) ==> LastOf(log, c.user) == Some(Issued(c.user, c.passwordGeneration)))
  }

  ghost predicate DrawnOk(users: map<User, Row>, log: seq<Event>, drawn: map<Hash, Claim>) {
    forall h :: h in drawn ==> ClaimOk(users, log, drawn[h])
  }

  ghost predicate IssuersOk(users: map<User, Row>, log: seq<Event>, issuers: map<nat, Issuer>) {
    forall i :: i in issuers && !issuers[i].Failed? ==> ClaimOk(users, log, issuers[i].claim)
  }

  /** Every live record is the one its user's live pointer names, with the same generation and expiry. */
  ghost predicate RecordsNamed(l: Links, now: int) {
    forall h :: Has(l.tokens, h, now) ==>
      var c := l.tokens[h].value.claim;
      c.user in l.active && l.active[c.user] == Keyed(Ranked(c.passwordGeneration, h), l.tokens[h].until)
  }

  /** Every live pointer names a live record of its user. */
  ghost predicate PointersLead(l: Links, now: int) {
    forall u :: Has(l.active, u, now) ==>
      var h := l.active[u].value.hash;
      Has(l.tokens, h, now) && l.tokens[h].value.claim.user == u
  }

  ghost predicate LinksAgree(l: Links, now: int) {
    RecordsNamed(l, now) && PointersLead(l, now)
  }

  /* A hash stands for one link: records, issuers, consumers and the log agree on which. */

  ghost predicate TokensDrawn(tokens: map<Hash, Keyed<Record>>, drawn: map<Hash, Claim>) {
    forall h :: h in tokens ==> h in drawn && tokens[h].value.claim == drawn[h]
  }

  predicate HasLink(i: Issuer) { i.Stored? || i.Withdrawing? || i.Delivered? }

  ghost predicate IssuersDrawn(issuers: map<nat, Issuer>, drawn: map<Hash, Claim>) {
    forall i :: i in issuers && HasLink(issuers[i]) ==> issuers[i].hash in drawn && drawn[issuers[i].hash] == issuers[i].claim
  }

  ghost predicate ConsumersDrawn(consumers: map<nat, Consumer>, drawn: map<Hash, Claim>) {
    forall k :: k in consumers && consumers[k].Hashing? ==>
      consumers[k].hash in drawn && drawn[consumers[k].hash] == consumers[k].claim
  }

  ghost predicate CommitsDrawn(log: seq<Event>, drawn: map<Hash, Claim>) {
    forall k :: 0 <= k < |log| && log[k].Committed? ==>
      && log[k].hash in drawn && drawn[log[k].hash].user == log[k].user
      && drawn[log[k].hash].passwordGeneration == log[k].generation
  }

  predicate SameIssue(c: Claim, d: Claim) {
    c.user == d.user && c.passwordGeneration == d.passwordGeneration
  }

  /** An issue makes at most one link. */
  ghost predicate DrawnOnce(drawn: map<Hash, Claim>) {
    forall h, g :: h in drawn && g in drawn && SameIssue(drawn[h], drawn[g]) ==> h == g
  }

  /** An issuer that has not stored its link is alone with its generation. */
  ghost predicate PreparedAlone(issuers: map<nat, Issuer>, drawn: map<Hash, Claim>) {
    forall i :: i in issuers && issuers[i].Prepared? ==>
      && (forall h :: h in drawn ==> !SameIssue(drawn[h], issuers[i].claim))
      && (forall j :: j in issuers && issuers[j].Prepared? && SameIssue(issuers[j].claim, issuers[i].claim) ==> j == i)
  }

  /** A consumed link has left Redis. */
  ghost predicate SpentGone(consumers: map<nat, Consumer>, tokens: map<Hash, Keyed<Record>>) {
    forall k :: k in consumers && consumers[k].Hashing? ==> consumers[k].hash !in tokens
  }

  ghost predicate WithdrawnOutdated(users: map<User, Row>, issuers: map<nat, Issuer>) {
    forall i :: i in issuers && issuers[i].Withdrawing? ==> !Current(users, issuers[i].claim)
  }

  predicate Generational(e: Event) { e.Issued? || e.Committed? }

  /** Each issue has a higher generation than all that happened to its user before. */
  ghost predicate LogRises(users: map<User, Row>, log: seq<Event>) {
    && (forall k :: 0 <= k < |log| && Generational(log[k]) ==>
          log[k].user in users && log[k].generation <= users[log[k].user].passwordGeneration)
    && (forall k, m :: 0 <= k < m < |log| && Generational(log[k]) && log[m].Issued? && log[k].user == log[m].user ==>
          log[k].generation < log[m].generation)
  }

  /** Each commit comes right after the issue of its link, in the events of its user. */
  ghost predicate CommitsAnswer(log: seq<Event>) {
    forall k :: 0 <= k < |log| && log[k].Committed? ==>
      LastOf(log[..k], log[k].user) == Some(Issued(log[k].user, log[k].generation))
  }

  ghost predicate ClaimsInv(s: State) {
    && DrawnOk(s.users, s.log, s.drawn) && IssuersOk(s.users, s.log, s.issuers)
    && WithdrawnOutdated(s.users, s.issuers)
  }

  ghost predicate OwnersInv(s: State) {
    && TokensDrawn(s.links.tokens, s.drawn) && IssuersDrawn(s.issuers, s.drawn) && ConsumersDrawn(s.consumers, s.drawn)
    && CommitsDrawn(s.log, s.drawn)
    && DrawnOnce(s.drawn) && PreparedAlone(s.issuers, s.drawn) && SpentGone(s.consumers, s.links.tokens)
  }

  ghost predicate LogInv(s: State) {
    LogRises(s.users, s.log) && CommitsAnswer(s.log)
  }

  ghost predicate Inv(s: State) {
    ClaimsInv(s) && OwnersInv(s) && LinksAgree(s.links, s.now) && LogInv(s)
  }

  lemma InitInv(s: State)
    requires Init(s)
    ensures Inv(s)
  {
  }

  /* ---------- claims through a change of one row ---------- */

  lemma LastAfter(log: seq<Event>, e: Event, u: User)
    ensures LastOf(log + [e], u) == if e.user == u then Some(e) else LastOf(log, u)
  {
    assert (log + [e])[..|log|] == log;
  }

  /** An update of one row that raises one of its generations. */
  ghost predicate RowMoved(users: map<User, Row>, users': map<User, Row>, e: Event) {
    && e.user in users && e.user in users' && users' == users[e.user := users'[e.user]]
    && var row, row' := users[e.user], users'[e.user];
    && row.passwordGeneration <= row'.passwordGeneration && row.emailGeneration <= row'.emailGeneration
    && (row.passwordGeneration < row'.passwordGeneration || row.emailGeneration < row'.emailGeneration)
    && (row.emailGeneration == row'.emailGeneration ==> row.email == row'.email)
  }

  lemma ClaimKept(users: map<User, Row>, users': map<User, Row>, log: seq<Event>, e: Event, c: Claim)
    requires ClaimOk(users, log, c) && RowMoved(users, users', e)
    ensures ClaimOk(users', log + [e], c)
    ensures !Current(users, c) ==> !Current(users', c)
  {
    LastAfter(log, e, c.user);
  }

  lemma ClaimsKept(s: State, users': map<User, Row>, e: Event)
    requires ClaimsInv(s) && RowMoved(s.users, users', e)
    ensures ClaimsInv(s.(users := users', log := s.log + [e]))
  {
    forall c: Claim | ClaimOk(s.users, s.log, c)
      ensures ClaimOk(users', s.log + [e], c) && (!Current(s.users, c) ==> !Current(users', c))
    {
      ClaimKept(s.users, users', s.log, e, c);
    }
  }

  lemma FreshClaim(users: map<User, Row>, log: seq<Event>, u: User)
    requires u in users
    ensures var c := ClaimOn(u, users[u]); ClaimOk(users, log + [Issued(u, c.passwordGeneration)], c)
  {
    LastAfter(log, Issued(u, users[u].passwordGeneration), u);
  }

  /* ---------- the scripts keep records and pointers in agreement ---------- */

  lemma TimeKeepsAgreement(l: Links, now: int, ms: nat)
    requires LinksAgree(l, now)
    ensures LinksAgree(l, now + ms)
  {
    forall u | Has(l.active, u, now + ms)
      ensures var h := l.active[u].value.hash; Has(l.tokens, h, now + ms) && l.tokens[h].value.claim.user == u
    {
      assert Has(l.active, u, now) && Has(l.tokens, l.active[u].value.hash, now);
    }
    forall h | Has(l.tokens, h, now + ms) ensures Has(l.tokens, h, now) {}
  }

  lemma StoreKeepsAgreement(l: Links, r: Record, hash: Hash, now: int)
    requires LinksAgree(l, now) && (hash in l.tokens ==> Has(l.tokens, hash, now))
    ensures LinksAgree(StoreLink(l, r, hash, now), now)
  {
    var l' := StoreLink(l, r, hash, now);
    if OutcomeOfStore(l, r.claim, hash, now) == StoredOk {
      StoreKeepsRecords(l, r, hash, now, l');
      StoreKeepsPointers(l, r, hash, now, l');
    }
  }

  lemma StoreKeepsRecords(l: Links, r: Record, hash: Hash, now: int, l': Links)
    requires LinksAgree(l, now) && hash !in l.tokens && l' == StoreLink(l, r, hash, now)
    requires OutcomeOfStore(l, r.claim, hash, now) == StoredOk
    ensures RecordsNamed(l', now)
  {
    forall h | Has(l'.tokens, h, now) && h != hash
      ensures Has(l.tokens, h, now) && l'.tokens[h] == l.tokens[h] && l.tokens[h].value.claim.user != r.claim.user
    {
      assert Has(l.tokens, h, now);
    }
  }

  lemma StoreKeepsPointers(l: Links, r: Record, hash: Hash, now: int, l': Links)
    requires LinksAgree(l, now) && hash !in l.tokens && l' == StoreLink(l, r, hash, now)
    requires OutcomeOfStore(l, r.claim, hash, now) == StoredOk
    ensures PointersLead(l', now)
  {
    forall u | Has(l'.active, u, now) && u != r.claim.user
      ensures var h := l'.active[u].value.hash; Has(l'.tokens, h, now) && l'.tokens[h].value.claim.user == u
    {
      assert Has(l.active, u, now) && Has(l.tokens, l.active[u].value.hash, now);
    }
  }

  lemma ConsumeKeepsAgreement(l: Links, hash: Hash, now: int)
    requires LinksAgree(l, now)
    ensures LinksAgree(ConsumeLink(l, hash, now), now)
  {
    if Has(l.tokens, hash, now) {
      var c := l.tokens[hash].value.claim;
      assert IsActive(l, c, hash, now);
      RemovalKeepsAgreement(l, hash, c.user, now);
    }
  }

  lemma WithdrawKeepsAgreement(l: Links, c: Claim, hash: Hash, now: int)
    requires LinksAgree(l, now) && (hash in l.tokens ==> l.tokens[hash].value.claim == c)
    ensures LinksAgree(WithdrawLink(l, c, hash, now), now)
  {
    if Has(l.tokens, hash, now) {
      RemovalKeepsAgreement(l, hash, c.user, now);
    } else {
      assert WithdrawLink(l, c, hash, now).active == l.active;
      assert forall h :: Has(l.tokens, h, now) <==> Has(l.tokens - {hash}, h, now);
    }
  }

  /** A live record goes together with the pointer of its user. */
  lemma RemovalKeepsAgreement(l: Links, hash: Hash, u: User, now: int)
    requires LinksAgree(l, now) && Has(l.tokens, hash, now) && l.tokens[hash].value.claim.user == u
    ensures LinksAgree(Links(l.tokens - {hash}, l.active - {u}), now)
  {
    var l' := Links(l.tokens - {hash}, l.active - {u});
    forall h | Has(l'.tokens, h, now)
      ensures Has(l.tokens, h, now) && l.tokens[h].value.claim.user != u
    {
      assert Has(l.tokens, h, now);
    }
    forall v | Has(l'.active, v, now)
      ensures var h := l'.active[v].value.hash; Has(l'.tokens, h, now) && l'.tokens[h].value.claim.user == v
    {
      assert Has(l.active, v, now) && Has(l.tokens, l.active[v].value.hash, now);
    }
  }

  /* ---------- every step keeps the invariant ---------- */

  lemma StepClaims(s: State, step: Step)
    requires Inv(s) && Enabled(s, step)
    ensures ClaimsInv(Next(s, step))
  {
    var t := Next(s, step);
    if step.Begin? || step.Commit? || step.ChangeEmail? || step.ChangePassword? {
      if t.log != s.log {
        ClaimsKept(s, t.users, t.log[|s.log|]);
        if step.Begin? { FreshClaim(t.users, s.log, step.user); }
      }
    }
  }

  /** Another event at the end of a log in order. */
  lemma LogAppended(users: map<User, Row>, users': map<User, Row>, log: seq<Event>, e: Event)
    requires LogRises(users, log) && CommitsAnswer(log) && RowMoved(users, users', e)
    requires e.Committed? ==> e.generation <= users[e.user].passwordGeneration && LastOf(log, e.user) == Some(Issued(e.user, e.generation))
    requires e.Issued? ==> users[e.user].passwordGeneration < e.generation == users'[e.user].passwordGeneration
    ensures LogRises(users', log + [e]) && CommitsAnswer(log + [e])
  {
    assert (log + [e])[..|log|] == log;
    forall k | 0 <= k < |log| ensures (log + [e])[..k] == log[..k] && (log + [e])[k] == log[k] {}
  }

  lemma StepLog(s: State, step: Step)
    requires Inv(s) && Enabled(s, step)
    ensures LogInv(Next(s, step))
  {
    var t := Next(s, step);
    if step.Begin? || step.ChangeEmail? || step.ChangePassword? {
      LogAppended(s.users, t.users, s.log, t.log[|s.log|]);
    } else if step.Commit? && t.log != s.log {
      assert ClaimOk(s.users, s.log, s.consumers[step.c].claim);
      LogAppended(s.users, t.users, s.log, t.log[|s.log|]);
    }
  }

  lemma StepLinks(s: State, step: Step)
    requires Inv(s) && Enabled(s, step)
    ensures LinksAgree(Next(s, step).links, Next(s, step).now)
  {
    match step
    case Tick(ms) => TimeKeepsAgreement(s.links, s.now, ms);
    case Store(i, h, stamp) =>
      StoreKeepsAgreement(s.links, Record(s.issuers[i].claim, stamp + PASSWORD_RESET_TTL_MS), h, s.now);
    case Consume(_, h, _) => ConsumeKeepsAgreement(s.links, h, s.now);
    case Withdraw(i) => WithdrawKeepsAgreement(s.links, s.issuers[i].claim, s.issuers[i].hash, s.now);
    case _ =>
  }

  lemma StoreOwners(s: State, step: Step)
    requires Inv(s) && Enabled(s, step) && step.Store?
    ensures OwnersInv(Next(s, step))
  {
  }

  lemma BeginOwners(s: State, step: Step)
    requires Inv(s) && Enabled(s, step) && step.Begin?
    ensures OwnersInv(Next(s, step))
  {
  }

  lemma ConsumeOwners(s: State, step: Step)
    requires Inv(s) && Enabled(s, step) && (step.Consume? || step.Commit?)
    ensures OwnersInv(Next(s, step))
  {
  }

  lemma StepOwners(s: State, step: Step)
    requires Inv(s) && Enabled(s, step)
    ensures OwnersInv(Next(s, step))
  {
    match step
    case Store(_, _, _) => StoreOwners(s, step);
    case Begin(_, _, _) => BeginOwners(s, step);
    case Consume(_, _, _) => ConsumeOwners(s, step);
    case Commit(_) => ConsumeOwners(s, step);
    case _ =>
  }

  lemma StepInv(s: State, step: Step)
    requires Inv(s) && Enabled(s, step)
    ensures Inv(Next(s, step))
  {
    StepClaims(s, step);
    StepOwners(s, step);
    StepLinks(s, step);
    StepLog(s, step);
  }

  lemma {:induction false} RunInv(s: State, steps: seq<Step>)
    requires Inv(s) && CanRun(s, steps)
    ensures Inv(Run(s, steps))
    decreases |steps|
  {
    if steps != [] {
      StepInv(s, steps[0]);
      RunInv(Next(s, steps[0]), steps[1..]);
    }
  }

  lemma ReachableInv(s: State)
    requires Reachable(s)
    ensures Inv(s)
  {
    var s0: State, steps: seq<Step> :| Init(s0) && CanRun(s0, steps) && Run(s0, steps) == s;
    InitInv(s0);
    RunInv(s0, steps);
  }
}
