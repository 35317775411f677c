/** What the reset protocol promises, over every run from an empty Redis. */
module PasswordResetTheorems {
  import opened Wrappers
  import opened PasswordReset
  import opened PasswordResetProofs

  /* ---------- only the newest link commits, and once ---------- */

  lemma {:induction false} LastOfIsLast(log: seq<Event>, u: User, e: Event) returns (j: nat)
    requires LastOf(log, u) == Some(e)
    ensures j < |log| && log[j] == e && e.user == u
    ensures forall m :: j < m < |log| ==> log[m].user != u
    decreases |log|
  {
    var n := |log| - 1;
    if log[n].user == u {
      j := n;
    } else {
      j := LastOfIsLast(log[..n], u, e);
      assert forall m :: j < m < n ==> log[m] == log[..n][m];
    }
  }

  /**
   Every commit goes back to an issue of its own generation, and between the two nothing
   happened to that user: no newer issue, no other commit, no email or password change.
   */
  lemma CommitIsOfTheNewestIssue(s: State, k: nat) returns (j: nat)
    requires Reachable(s) && k < |s.log| && s.log[k].Committed?
    ensures j < k && s.log[j] == Issued(s.log[k].user, s.log[k].generation)
    ensures forall m :: j < m < k ==> s.log[m].user != s.log[k].user
  {
    ReachableInv(s);
    var log := s.log;
    var e := Issued(log[k].user, log[k].generation);
    assert LastOf(log[..k], log[k].user) == Some(e);
    j := LastOfIsLast(log[..k], log[k].user, e);
    assert forall m :: 0 <= m < k ==> log[m] == log[..k][m];
  }

  /** The commits of a user are for ever later issues. */
  lemma CommitsRise(s: State, k: nat, m: nat)
    requires Reachable(s) && k < m < |s.log| && s.log[k].Committed? && s.log[m].Committed?
    requires s.log[k].user == s.log[m].user
    ensures s.log[k].generation < s.log[m].generation
  {
    ReachableInv(s);
    var j := CommitIsOfTheNewestIssue(s, m);
    assert k < j && LogRises(s.users, s.log);
  }

  /** A link commits at most once. */
  lemma LinkCommitsOnce(s: State, k: nat, m: nat)
    requires Reachable(s) && k < m < |s.log| && s.log[k].Committed? && s.log[m].Committed?
    ensures s.log[k].hash != s.log[m].hash
  {
    ReachableInv(s);
    if s.log[k].user == s.log[m].user { CommitsRise(s, k, m); }
  }

  /* ---------- the counters of a row account for its history ---------- */

  /** How often each counter of `u` was raised: by issues, commits, email and password changes. */
  function Raises(log: seq<Event>, u: User): (nat, nat, nat) {
    if log == [] then (0, 0, 0)
    else
      var r, e := Raises(log[..|log| - 1], u), log[|log| - 1];
      if e.user != u then r
      else match e
        case Issued(_, _) => (r.0 + 1, r.1, r.2)
        case Committed(_, _, _) => (r.0 + 1, r.1, r.2 + 1)
        case EmailChanged(_) => (r.0, r.1 + 1, r.2 + 1)
        case PasswordChanged(_) => (r.0 + 1, r.1, r.2 + 1)
  }

  /** `row` is `first` plus what the log has added. */
  predicate Accounted(first: Row, row: Row, log: seq<Event>, u: User) {
    var r := Raises(log, u);
    && row.passwordGeneration == first.passwordGeneration + r.0
    && row.emailGeneration == first.emailGeneration + r.1
    && row.sessionVersion == first.sessionVersion + r.2
  }

  /** What an event does to the counters of its user. */
  predicate RaisedBy(row: Row, row': Row, e: Event) {
    && row'.passwordGeneration == row.passwordGeneration + (if e.EmailChanged? then 0 else 1)
    && row'.emailGeneration == row.emailGeneration + (if e.EmailChanged? then 1 else 0)
    && row'.sessionVersion == row.sessionVersion + (if e.Issued? then 0 else 1)
  }

  lemma AccountedAfter(first: Row, row: Row, row': Row, log: seq<Event>, e: Event, u: User)
    requires Accounted(first, row, log, u) && (if e.user == u then RaisedBy(row, row', e) else row' == row)
    ensures Accounted(first, row', log + [e], u)
  {
    assert (log + [e])[..|log|] == log;
  }

  lemma StepRaises(s: State, step: Step)
    requires Enabled(s, step)
    ensures var t := Next(s, step);
      || (t.log == s.log && t.users == s.users)
      || exists e: Event :: t.log == s.log + [e] && e.user in s.users && e.user in t.users
           && t.users == s.users[e.user := t.users[e.user]] && RaisedBy(s.users[e.user], t.users[e.user], e)
  {
    var t := Next(s, step);
    if |t.log| > |s.log| {
      var e := t.log[|s.log|];
      assert t.log == s.log + [e] && t.users == s.users[e.user := t.users[e.user]];
    }
  }

  lemma StepAccounts(s: State, step: Step, u: User, first: Row)
    requires Enabled(s, step) && u in s.users && Accounted(first, s.users[u], s.log, u)
    ensures u in Next(s, step).users && Accounted(first, Next(s, step).users[u], Next(s, step).log, u)
  {
    var t := Next(s, step);
    StepRaises(s, step);
    if t.log != s.log {
      var e: Event :| t.log == s.log + [e] && e.user in s.users && e.user in t.users
        && t.users == s.users[e.user := t.users[e.user]] && RaisedBy(s.users[e.user], t.users[e.user], e);
      AccountedAfter(first, s.users[u], t.users[u], s.log, e, u);
    }
  }

  lemma {:induction false} RunAccounts(s: State, steps: seq<Step>, u: User, first: Row)
    requires CanRun(s, steps) && u in s.users && Accounted(first, s.users[u], s.log, u)
    ensures u in Run(s, steps).users && Accounted(first, Run(s, steps).users[u], Run(s, steps).log, u)
    decreases |steps|
  {
    if steps != [] {
      StepAccounts(s, steps[0], u, first);
      RunAccounts(Next(s, steps[0]), steps[1..], u, first);
    }
  }

  /**
   Over any run the password generation rises by one with each issue, commit and password
   change, the email generation with each email change, and the session version with each
   commit, email and password change: every commit ends all sessions.
   */
  lemma CountersAccountForHistory(s: State, steps: seq<Step>, u: User)
    requires Init(s) && CanRun(s, steps) && u in s.users
    ensures u in Run(s, steps).users && Accounted(s.users[u], Run(s, steps).users[u], Run(s, steps).log, u)
  {
    RunAccounts(s, steps, u, s.users[u]);
  }

  /* ---------- records, pointers and issuers ---------- */

  /** A record is live exactly when its user's live pointer names it, by hash and by generation. */
  lemma PointerDecides(s: State, u: User, h: Hash)
    requires Reachable(s)
    ensures Has(s.links.tokens, h, s.now) && s.links.tokens[h].value.claim.user == u
            <==> Has(s.links.active, u, s.now) && s.links.active[u].value.hash == h
    ensures Has(s.links.tokens, h, s.now) && s.links.tokens[h].value.claim.user == u ==>
              s.links.active[u].value == Ranked(s.links.tokens[h].value.claim.passwordGeneration, h)
  {
    ReachableInv(s);
    if Has(s.links.active, u, s.now) { assert Has(s.links.tokens, s.links.active[u].value.hash, s.now); }
  }

  /** A delayed issuer leaves everything as it is when a newer link of its user is live. */
  lemma OlderIssuerYields(s: State, step: Step, h: Hash)
    requires Reachable(s) && Enabled(s, step) && step.Store?
    requires Has(s.links.tokens, h, s.now) && s.links.tokens[h].value.claim.user == s.issuers[step.i].claim.user
    requires s.issuers[step.i].claim.passwordGeneration <= s.links.tokens[h].value.claim.passwordGeneration
    ensures Next(s, step).links == s.links && !HasLink(Next(s, step).issuers[step.i])
  {
    ReachableInv(s);
  }

  /** A newer issuer replaces the link of its user, and no other. */
  lemma NewerIssuerReplaces(s: State, step: Step, h: Hash)
    requires Reachable(s) && Enabled(s, step) && step.Store? && step.hash !in s.links.tokens && h != step.hash
    requires Has(s.links.active, s.issuers[step.i].claim.user, s.now) ==>
      Rank(s.links.active[s.issuers[step.i].claim.user].value) < s.issuers[step.i].claim.passwordGeneration
    ensures var t, c := Next(s, step), s.issuers[step.i].claim;
      && t.issuers[step.i] == Stored(c, step.hash) && IsActive(t.links, c, step.hash, s.now)
      && (Has(t.links.tokens, h, s.now) <==> Has(s.links.tokens, h, s.now) && s.links.tokens[h].value.claim.user != c.user)
  {
    ReachableInv(s);
    var c := s.issuers[step.i].claim;
    if Has(s.links.active, c.user, s.now) { assert Has(s.links.tokens, s.links.active[c.user].value.hash, s.now); }
  }

  /** Withdrawing a link touches no other link and no pointer to one. */
  lemma WithdrawSparesOthers(s: State, i: nat, h: Hash)
    requires Reachable(s) && Enabled(s, Withdraw(i)) && h != s.issuers[i].hash && Has(s.links.tokens, h, s.now)
    ensures var t := Next(s, Withdraw(i));
      && t.links.tokens[h] == s.links.tokens[h]
      && IsActive(t.links, s.links.tokens[h].value.claim, h, s.now)
  {
    ReachableInv(s);
    assert IsActive(s.links, s.links.tokens[h].value.claim, h, s.now);
  }

  /* ---------- the newest link stays good ---------- */

  /** The link is live and its user's row has not moved since its issue. */
  ghost predicate Usable(s: State, h: Hash, r: Record, until: int) {
    s.now < until && h in s.links.tokens && s.links.tokens[h] == Keyed(r, until) && Current(s.users, r.claim)
  }

  /** The step is not a new issue or an account change of `u`, and does not consume `h`. */
  predicate Bystander(step: Step, u: User, h: Hash) {
    match step
    case Begin(_, v, _) => v != u
    case ChangeEmail(v, _) => v != u
    case ChangePassword(v) => v != u
    case Consume(_, g, _) => g != h
    case _ => true
  }

  lemma OthersCommitStale(s: State, k: nat, h: Hash, r: Record, until: int)
    requires Inv(s) && Usable(s, h, r, until) && Enabled(s, Commit(k)) && s.consumers[k].claim.user == r.claim.user
    ensures !Current(s.users, s.consumers[k].claim)
  {
    var d, g := s.consumers[k].claim, s.consumers[k].hash;
    assert g != h && s.drawn[g] == d && s.drawn[h] == r.claim;
    assert !SameIssue(d, r.claim);
  }

  lemma StoreKeepsToken(s: State, step: Step, h: Hash)
    requires Inv(s) && Enabled(s, step) && step.Store? && Has(s.links.tokens, h, s.now)
    requires Current(s.users, s.links.tokens[h].value.claim)
    ensures h in Next(s, step).links.tokens && Next(s, step).links.tokens[h] == s.links.tokens[h]
  {
    var d := s.issuers[step.i].claim;
    assert ClaimOk(s.users, s.log, d);
    if Has(s.links.active, d.user, s.now) { assert Has(s.links.tokens, s.links.active[d.user].value.hash, s.now); }
  }

  lemma StepKeepsUsable(s: State, step: Step, h: Hash, r: Record, until: int)
    requires Inv(s) && Usable(s, h, r, until) && Enabled(s, step) && Bystander(step, r.claim.user, h)
    requires Next(s, step).now < until
    ensures Usable(Next(s, step), h, r, until)
  {
    match step
    case Commit(k) => if s.consumers[k].claim.user == r.claim.user { OthersCommitStale(s, k, h, r, until); }
    case Store(i, g, _) => StoreKeepsToken(s, step, h);
    case Withdraw(i) => assert s.drawn[h] == r.claim;
    case _ =>
  }

  lemma {:induction false} TimeRuns(s: State, steps: seq<Step>)
    requires CanRun(s, steps)
    ensures s.now <= Run(s, steps).now
    decreases |steps|
  {
    if steps != [] { TimeRuns(Next(s, steps[0]), steps[1..]); }
  }

  lemma {:induction false} RunKeepsUsable(s: State, steps: seq<Step>, h: Hash, r: Record, until: int)
    requires Inv(s) && Usable(s, h, r, until) && CanRun(s, steps) && Run(s, steps).now < until
    requires forall k :: 0 <= k < |steps| ==> Bystander(steps[k], r.claim.user, h)
    ensures Inv(Run(s, steps)) && Usable(Run(s, steps), h, r, until)
    decreases |steps|
  {
    if steps != [] {
      var t := Next(s, steps[0]);
      assert Bystander(steps[0], r.claim.user, h);
      TimeRuns(t, steps[1..]);
      StepInv(s, steps[0]);
      StepKeepsUsable(s, steps[0], h, r, until);
      assert forall k :: 0 <= k < |steps| - 1 ==> steps[1..][k] == steps[k + 1];
      RunKeepsUsable(t, steps[1..], h, r, until);
    }
  }

  lemma NewestStoreIsUsable(s: State, step: Step)
    requires Inv(s) && Enabled(s, step) && step.Store? && step.hash !in s.drawn
    requires Current(s.users, s.issuers[step.i].claim)
    ensures Usable(Next(s, step), step.hash, Record(s.issuers[step.i].claim, step.stamp + 3_600_000),
                   s.now + 3_600_000)
  {
    var c := s.issuers[step.i].claim;
    if Has(s.links.active, c.user, s.now) {
      var g := s.links.active[c.user].value.hash;
      assert Has(s.links.tokens, g, s.now) && s.drawn[g] == s.links.tokens[g].value.claim;
      assert ClaimOk(s.users, s.log, s.drawn[g]) && !SameIssue(s.drawn[g], c);
    }
  }

  /**
   The newest link works: once its issuer has stored it, and whatever other issuers,
   consumers and users do before it expires (delayed older issuers of the same user,
   withdrawals and commits of older links included), consuming it and committing succeeds.
   */
  lemma NewestLinkWorks(s: State, store: Step, after: seq<Step>, k: nat, nodeNow: int)
    requires Reachable(s) && Enabled(s, store) && store.Store? && store.hash !in s.drawn
    requires Current(s.users, s.issuers[store.i].claim)
    requires CanRun(Next(s, store), after) && Run(Next(s, store), after).now < s.now + 3_600_000
    requires forall m :: 0 <= m < |after| ==> Bystander(after[m], s.issuers[store.i].claim.user, store.hash)
    requires k !in Run(Next(s, store), after).consumers && nodeNow < store.stamp + 3_600_000
    ensures var c := s.issuers[store.i].claim;
      var t := Next(Run(Next(s, store), after), Consume(k, store.hash, nodeNow));
      && Enabled(t, Commit(k))
      && Next(t, Commit(k)).log == t.log + [Committed(c.user, c.passwordGeneration, store.hash)]
  {
    ReachableInv(s);
    NewestStoreIsUsable(s, store);
    StepInv(s, store);
    UsableWorks(Next(s, store), after, store.hash, Record(s.issuers[store.i].claim, store.stamp + 3_600_000),
                s.now + 3_600_000, k, nodeNow);
  }

  lemma UsableWorks(s: State, after: seq<Step>, h: Hash, r: Record, until: int, k: nat, nodeNow: int)
    requires Inv(s) && Usable(s, h, r, until) && CanRun(s, after) && Run(s, after).now < until
    requires forall m :: 0 <= m < |after| ==> Bystander(after[m], r.claim.user, h)
    requires k !in Run(s, after).consumers && nodeNow < r.expiresAt
    ensures var t := Next(Run(s, after), Consume(k, h, nodeNow));
      && Enabled(t, Commit(k))
      && Next(t, Commit(k)).log == t.log + [Committed(r.claim.user, r.claim.passwordGeneration, h)]
  {
    RunKeepsUsable(s, after, h, r, until);
    var e := Run(s, after);
    assert Has(e.links.tokens, h, e.now);
    assert Consumed(e.links, h, nodeNow, e.now) == Some(r.claim);
  }

  /* ---------- which links are delivered ---------- */

  /** The last thing that happened to the user is the issue of this claim. */
  predicate Newest(log: seq<Event>, c: Claim) {
    LastOf(log, c.user) == Some(Issued(c.user, c.passwordGeneration))
  }

  /** A claim to which nothing has happened since its issue is current. */
  ghost predicate NewestCurrent(users: map<User, Row>, log: seq<Event>, issuers: map<nat, Issuer>) {
    forall i :: i in issuers && !issuers[i].Failed? && Newest(log, issuers[i].claim) ==> Current(users, issuers[i].claim)
  }

  /** The event `e` of its user changes the row of that user alone. */
  lemma EventNewest(s: State, e: Event, users': map<User, Row>)
    requires IssuersOk(s.users, s.log, s.issuers) && NewestCurrent(s.users, s.log, s.issuers)
    requires forall u :: u in s.users && u != e.user ==> u in users' && users'[u] == s.users[u]
    requires e.Issued? ==> e.user in s.users && s.users[e.user].passwordGeneration < e.generation
    ensures NewestCurrent(users', s.log + [e], s.issuers)
  {
    forall i | i in s.issuers && !s.issuers[i].Failed? && Newest(s.log + [e], s.issuers[i].claim)
      ensures Current(users', s.issuers[i].claim)
    {
      var c := s.issuers[i].claim;
      LastAfter(s.log, e, c.user);
      assert ClaimOk(s.users, s.log, c);
    }
  }

  lemma StepNewest(s: State, step: Step)
    requires IssuersOk(s.users, s.log, s.issuers) && NewestCurrent(s.users, s.log, s.issuers) && Enabled(s, step)
    ensures NewestCurrent(Next(s, step).users, Next(s, step).log, Next(s, step).issuers)
  {
    var t := Next(s, step);
    match step
    case Begin(i, u, _) => EventNewest(s, Issued(u, t.users[u].passwordGeneration), t.users);
    case Commit(k) =>
      var c := s.consumers[k].claim;
      if Current(s.users, c) { EventNewest(s, Committed(c.user, c.passwordGeneration, s.consumers[k].hash), t.users); }
    case ChangeEmail(u, _) => EventNewest(s, EmailChanged(u), t.users);
    case ChangePassword(u) => EventNewest(s, PasswordChanged(u), t.users);
    case _ =>
  }

  lemma {:induction false} RunNewest(s: State, steps: seq<Step>)
    requires Inv(s) && NewestCurrent(s.users, s.log, s.issuers) && CanRun(s, steps)
    ensures var t := Run(s, steps); NewestCurrent(t.users, t.log, t.issuers)
    decreases |steps|
  {
    if steps != [] {
      StepInv(s, steps[0]);
      StepNewest(s, steps[0]);
      RunNewest(Next(s, steps[0]), steps[1..]);
    }
  }

  lemma ReachableNewest(s: State)
    requires Reachable(s)
    ensures Inv(s) && NewestCurrent(s.users, s.log, s.issuers)
  {
    var s0: State, steps: seq<Step> :| Init(s0) && CanRun(s0, steps) && Run(s0, steps) == s;
    InitInv(s0);
    assert NewestCurrent(s0.users, s0.log, s0.issuers);
    RunNewest(s0, steps);
    ReachableInv(s);
  }

  /**
   A stored link is delivered if and only if nothing has happened to its user since its issue: no newer issue, no commit,
   no change of email or password.  Any other is withdrawn, and then it can be redeemed at no time.
   */
  lemma DeliveredIffNewest(s: State, i: nat)
    requires Reachable(s) && Enabled(s, Recheck(i))
    ensures var t, c, h := Next(s, Recheck(i)), s.issuers[i].claim, s.issuers[i].hash;
      && t.issuers[i] == (if Newest(s.log, c) then Delivered(c, h) else Withdrawing(c, h))
      && (!Newest(s.log, c) ==>
            Enabled(t, Withdraw(i)) && forall nodeNow: int :: Consumed(Next(t, Withdraw(i)).links, h, nodeNow, s.now).None?)
      && t.links == s.links && t.users == s.users && t.log == s.log
  {
    ReachableNewest(s);
    assert ClaimOk(s.users, s.log, s.issuers[i].claim);
  }

  /* ---------- what storing a link answers ---------- */

  /** An issuer gets its link exactly if the hash is not in use and no link of its user at least as new is live; a hash in use may be drawn once more. */
  lemma StoreAnswers(s: State, step: Step)
    requires Reachable(s) && Enabled(s, step) && step.Store?
    ensures var before, after := s.issuers[step.i], Next(s, step).issuers[step.i];
      var taken := Has(s.links.tokens, step.hash, s.now);
      var superseded := exists h :: Has(s.links.tokens, h, s.now) && Outranks(s.links.tokens[h].value.claim, before.claim);
      && (after == Stored(before.claim, step.hash) <==> !taken && !superseded)
      && (after.Prepared? <==> taken && before.attempts == 0)
      && (after.Prepared? ==> after == Prepared(before.claim, 1))
      && (after.Stored? || after.Prepared? || after.Failed?)
      && (!after.Stored? ==> Next(s, step).links == s.links)
  {
    ReachableInv(s);
    var c := s.issuers[step.i].claim;
    if Has(s.links.active, c.user, s.now) {
      var g := s.links.active[c.user].value.hash;
      assert Has(s.links.tokens, g, s.now) && s.links.tokens[g].value.claim.user == c.user;
    }
  }

  predicate Outranks(c: Claim, than: Claim) { c.user == than.user && than.passwordGeneration <= c.passwordGeneration }

  /** An issue asked for at one address draws a new generation for just that address, or does not take place. */
  lemma IssueIsForTheAddress(s: State, i: nat, u: User, email: Email)
    ensures Enabled(s, Begin(i, u, Some(email))) ==>
      var t := Next(s, Begin(i, u, Some(email)));
      && t.issuers[i].Prepared? && t.issuers[i].claim.email == email && t.issuers[i].claim.user == u
      && t.issuers[i].claim.passwordGeneration == s.users[u].passwordGeneration + 1 && Current(t.users, t.issuers[i].claim)
    ensures u in s.users && s.users[u].email != email ==> !Enabled(s, Begin(i, u, Some(email)))
  {
  }

  /* ---------- links end ---------- */

  /** No record is kept for more than an hour from now. */
  ghost predicate Brief(s: State) {
    forall h :: h in s.links.tokens ==> s.links.tokens[h].until <= s.now + 3_600_000
  }

  lemma StepBrief(s: State, step: Step)
    requires Brief(s) && Enabled(s, step)
    ensures Brief(Next(s, step)) && s.now <= Next(s, step).now
  {
  }

  lemma {:induction false} RunBrief(s: State, steps: seq<Step>)
    requires Brief(s) && CanRun(s, steps)
    ensures Brief(Run(s, steps)) && s.now <= Run(s, steps).now
    decreases |steps|
  {
    if steps != [] {
      StepBrief(s, steps[0]);
      RunBrief(Next(s, steps[0]), steps[1..]);
    }
  }

  lemma {:induction false} KeptUntil(s: State, steps: seq<Step>, h: Hash, until: int)
    requires CanRun(s, steps) && (h in s.links.tokens ==> s.links.tokens[h].until <= until)
    requires forall k :: 0 <= k < |steps| ==> !(steps[k].Store? && steps[k].hash == h)
    ensures var t := Run(s, steps); h in t.links.tokens ==> t.links.tokens[h].until <= until
    decreases |steps|
  {
    if steps != [] {
      assert !(steps[0].Store? && steps[0].hash == h);
      assert forall k :: 0 <= k < |steps| - 1 ==> steps[1..][k] == steps[k + 1];
      KeptUntil(Next(s, steps[0]), steps[1..], h, until);
    }
  }

  /** An hour after any point of a run no link that existed then can be redeemed. */
  lemma LinkLapses(s: State, steps: seq<Step>, h: Hash, nodeNow: int)
    requires Reachable(s) && CanRun(s, steps) && s.now + 3_600_000 <= Run(s, steps).now
    requires forall k :: 0 <= k < |steps| ==> !(steps[k].Store? && steps[k].hash == h)
    ensures Consumed(Run(s, steps).links, h, nodeNow, Run(s, steps).now).None?
  {
    var s0: State, before: seq<Step> :| Init(s0) && CanRun(s0, before) && Run(s0, before) == s;
    RunBrief(s0, before);
    KeptUntil(s, steps, h, s.now + 3_600_000);
  }
}
