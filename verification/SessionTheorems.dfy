/** What holds of the session service over whole runs. */
module SessionTheorems {
  import opened Wrappers
  import opened SessionStore
  import opened SessionSystem
  import opened SessionProofs
  import opened SessionIssueProof
  import opened SessionRotateProof
  import opened SessionRevokeProof

  /* ---------- the invariant holds in every reachable state ---------- */

  /** The invariant does not speak of the session versions. */
  lemma VersionsInv(s: System, versions: map<User, nat>, cfg: Config)
    requires Inv(s, cfg)
    ensures Inv(s.(versions := versions), cfg)
  {
  }

  predicate IsScript(step: Step) {
    step.RunIssue? || step.RunRotate? || step.RunLogout? || step.RunRevokeAll?
  }

  lemma ScriptInv(s: System, step: Step, cfg: Config)
    requires cfg.Valid() && Inv(s, cfg) && Enabled(s, step) && IsScript(step)
    ensures Inv(Next(s, step, cfg), cfg)
  {
    match step
    case RunIssue(a) => IssueInv(s, a, cfg);
    case RunRotate(a) => RotateInv(s, a, cfg);
    case RunLogout(a) => LogoutInv(s, a, cfg);
    case RunRevokeAll(u, except) => RevokeAllInv(s, u, except, cfg);
  }

  /** Reading a record and signing for a request. */
  lemma RequestInv(s: System, step: Step, cfg: Config)
    requires Inv(s, cfg) && Enabled(s, step) && (step.PrepareIssue? || step.ReadRecord? || step.PrepareRotate?)
    ensures Inv(Next(s, step, cfg), cfg)
  {
    match step
    case PrepareIssue(a) => PrepareIssueInv(s, a, cfg);
    case ReadRecord(h) => ReadRecordInv(s, h, cfg);
    case PrepareRotate(a) => PrepareRotateInv(s, a, cfg);
  }

  lemma StepInv(s: System, step: Step, cfg: Config)
    requires cfg.Valid() && Inv(s, cfg) && Enabled(s, step)
    ensures Inv(Next(s, step, cfg), cfg)
  {
    match step
    case Tick(seconds) => TickInv(s, seconds, cfg);
    case Register(u) => VersionsInv(s, s.versions[u := 1], cfg);
    case BumpVersion(u) => VersionsInv(s, s.versions[u := s.versions[u] + 1], cfg);
    case _ => if IsScript(step) { ScriptInv(s, step, cfg); } else { RequestInv(s, step, cfg); }
  }

  lemma {:induction false} RunKeepsInv(s: System, steps: seq<Step>, cfg: Config)
    requires cfg.Valid() && Inv(s, cfg) && CanRun(s, steps, cfg)
    ensures Inv(Run(s, steps, cfg), cfg)
    decreases |steps|
  {
    if steps != [] {
      StepInv(s, steps[0], cfg);
      RunKeepsInv(Next(s, steps[0], cfg), steps[1..], cfg);
    }
  }

  lemma ReachableInv(s: System, cfg: Config)
    requires cfg.Valid() && Reachable(s, cfg)
    ensures Inv(s, cfg)
  {
    var s0, steps :| Init(s0) && CanRun(s0, steps, cfg) && Run(s0, steps, cfg) == s;
    InitInv(s0, cfg);
    RunKeepsInv(s0, steps, cfg);
  }

  /** In every reachable state each accepted access token is in its family's index, scored no earlier than it expires. */
  lemma AcceptedTokensIndexed(s: System, j: Jti, cfg: Config)
    requires cfg.Valid() && Reachable(s, cfg) && Accepted(s, j)
    ensures var t := s.hist.tokens[j];
            && j in Scores(s.store.familySessions, t.family, s.now)
            && t.expiresAt <= Scores(s.store.familySessions, t.family, s.now)[j]
            && j in SessionMembers(s.store.userSessions, t.user, s.now)
  {
    ReachableInv(s, cfg);
    assert Usable(s.store.sessions, s.store.families, s.hist.tokens, s.now, j);
  }

  /** In every reachable state each live refresh record is in every index and its family is active. */
  lemma LiveRecordsIndexed(s: System, h: Hash, cfg: Config)
    requires cfg.Valid() && Reachable(s, cfg) && Has(s.store.refresh, h, s.now)
    ensures var r := s.store.refresh[h].value;
            && h in Members(s.store.familyTokens, r.family, s.now)
            && h in Members(s.store.userRefresh, r.user, s.now)
            && r.family in Members(s.store.userFamilies, r.user, s.now)
            && Get(s.store.families, r.family, s.now) == Some(Family(true, r.user))
  {
    ReachableInv(s, cfg);
    LiveRecordIndexed(s, h, cfg);
  }

  lemma ScoresBounded(m: map<Hash, Keyed<map<Jti, int>>>, tokens: map<Jti, AccessToken>, established: map<Hash, User>,
                      f: Hash, now: int)
    requires FamilySessionsCapped(m) && FamilySessionsOwned(m, tokens, established)
    ensures |Scores(m, f, now).Keys| <= MAX_REFRESH_FAMILY_SESSIONS
    ensures forall j :: j in Scores(m, f, now) ==> j in tokens && tokens[j].family == f
  {
  }

  /** In every reachable state no family index exceeds the cap, and it names only the family's own tokens. */
  lemma FamilyIndexBounded(s: System, f: Hash, cfg: Config)
    requires cfg.Valid() && Reachable(s, cfg)
    ensures |Scores(s.store.familySessions, f, s.now).Keys| <= 512
    ensures forall j :: j in Scores(s.store.familySessions, f, s.now) ==> j in s.hist.tokens && s.hist.tokens[j].family == f
  {
    ReachableInv(s, cfg);
    ScoresBounded(s.store.familySessions, s.hist.tokens, s.hist.established, f, s.now);
  }

  lemma LiveRecordIndexed(s: System, h: Hash, cfg: Config)
    requires IndexInv(s.store, s.hist, s.now, cfg) && Has(s.store.refresh, h, s.now)
    ensures var r := s.store.refresh[h].value;
            && h in Members(s.store.familyTokens, r.family, s.now)
            && h in Members(s.store.userRefresh, r.user, s.now)
            && r.family in Members(s.store.userFamilies, r.user, s.now)
            && Get(s.store.families, r.family, s.now) == Some(Family(true, r.user))
  {
    var k := s.store.refresh[h];
    assert RecordIndexed(s.store.families, s.store.familyTokens, s.store.userRefresh, h, k, s.now + cfg.refreshTtl);
    assert Has(s.store.families, k.value.family, s.now);
    assert FamilyIndexed(s.store.userFamilies, s.hist.established, k.value.family, s.store.families[k.value.family],
                         s.now + cfg.refreshTtl);
  }

  /* ---------- a dead family stays dead ---------- */

  /** A rotation of an inactive family finds no record to rotate. */
  lemma NothingToRotate(st: Store, a: RotateArgs, cfg: Config, now: int)
    requires RecordsIndexed(st.refresh, st.families, st.familyTokens, st.userRefresh, now, cfg.refreshTtl)
    requires !ActiveFamily(st, a.record.family, now)
    ensures !PresentedRecordLive(st, a, now)
    ensures RotateOutcome(st, a, now) == Refused && Rotate(st, a, cfg, now) == st
  {
    if PresentedRecordLive(st, a, now) { PresentedContinues(st, a, cfg, now); }
  }

  lemma RotateElsewhere(st: Store, a: RotateArgs, f: Hash, cfg: Config, now: int)
    requires a.record.family != f
    ensures ActiveFamily(Rotate(st, a, cfg, now), f, now) == ActiveFamily(st, f, now)
  {
    RotateWrites(st, a, cfg, now);
  }

  lemma RotateNeedsLife(st: Store, a: RotateArgs, f: Hash, cfg: Config, now: int)
    requires RecordsIndexed(st.refresh, st.families, st.familyTokens, st.userRefresh, now, cfg.refreshTtl)
    requires !ActiveFamily(st, f, now)
    ensures !ActiveFamily(Rotate(st, a, cfg, now), f, now)
    ensures a.record.family == f ==> RotateOutcome(st, a, now) == Refused && Rotate(st, a, cfg, now) == st
  {
    if a.record.family == f { NothingToRotate(st, a, cfg, now); } else { RotateElsewhere(st, a, f, cfg, now); }
  }

  lemma FenceKeepsDead(st: Store, f: Hash, g: Hash, fallback: Option<User>, nodeNow: int, cfg: Config, now: int)
    requires !ActiveFamily(st, f, now)
    ensures !ActiveFamily(RevokeFamily(st, g, fallback, nodeNow, cfg, now), f, now)
  {
  }

  lemma PresentedKeepsDead(st: Store, f: Hash, h: Hash, visited: Option<Hash>, nodeNow: int, cfg: Config, now: int)
    requires !ActiveFamily(st, f, now)
    ensures !ActiveFamily(RevokePresentedRefresh(st, h, visited, nodeNow, cfg, now), f, now)
  {
    var g, u := PresentedFamily(st, h, now), PresentedUser(st, h, now);
    if g.Some? { FenceKeepsDead(st, f, g.value, u, nodeNow, cfg, now); }
  }

  /** The rest of the logout script, after the access family. */
  lemma LogoutTail(st: Store, a: LogoutArgs, f: Hash, cfg: Config, now: int)
    requires !ActiveFamily(LogoutRefresh(LogoutFamilies(st, a, cfg, now), a, cfg, now), f, now)
    ensures !ActiveFamily(Logout(st, a, cfg, now), f, now)
  {
  }

  lemma RefreshKeepsDead(st: Store, a: LogoutArgs, f: Hash, cfg: Config, now: int)
    requires !ActiveFamily(st, f, now)
    ensures !ActiveFamily(LogoutRefresh(st, a, cfg, now), f, now)
  {
    if a.refreshHash.Some? {
      PresentedKeepsDead(st, f, a.refreshHash.value, AccessFamily(a), a.nodeNow, cfg, now);
    }
  }

  lemma LogoutKeepsDead(st: Store, f: Hash, a: LogoutArgs, cfg: Config, now: int)
    requires !ActiveFamily(st, f, now)
    ensures !ActiveFamily(Logout(st, a, cfg, now), f, now)
  {
    if AccessFamily(a).Some? {
      FenceKeepsDead(st, f, AccessFamily(a).value, Some(a.access.value.user), a.nodeNow, cfg, now);
    }
    RefreshKeepsDead(LogoutFamilies(st, a, cfg, now), a, f, cfg, now);
    LogoutTail(st, a, f, cfg, now);
  }

  lemma IssueKeepsDead(st: Store, f: Hash, a: IssueArgs, cfg: Config, now: int)
    requires !ActiveFamily(st, f, now) && a.hash != f
    ensures !ActiveFamily(Issue(st, a, cfg, now), f, now)
  {
  }

  lemma RevokeAllKeepsDead(st: Store, f: Hash, u: User, except: Option<Jti>, cfg: Config, now: int)
    requires !ActiveFamily(st, f, now)
    ensures !ActiveFamily(RevokeAll(st, u, except, cfg, now), f, now)
  {
  }

  /** What every script leaves of the families. */
  lemma ScriptKeepsDead(s: System, step: Step, f: Hash, cfg: Config)
    requires Inv(s, cfg) && Enabled(s, step) && Dead(s, f)
    ensures !ActiveFamily(Next(s, step, cfg).store, f, s.now)
  {
    match step
    case RunIssue(a) =>
      assert IssueSound(s.hist, a, cfg);
      IssueKeepsDead(s.store, f, a, cfg, s.now);
    case RunRotate(a) => RotateNeedsLife(s.store, a, f, cfg, s.now);
    case RunLogout(a) => LogoutKeepsDead(s.store, f, a, cfg, s.now);
    case RunRevokeAll(u, except) => RevokeAllKeepsDead(s.store, f, u, except, cfg, s.now);
    case _ => assert Next(s, step, cfg).store == s.store;
  }

  lemma EstablishedStays(s: System, step: Step, f: Hash, cfg: Config)
    requires Enabled(s, step) && f in s.hist.established
    ensures f in Next(s, step, cfg).hist.established && s.now <= Next(s, step, cfg).now
  {
  }

  lemma StepKeepsDead(s: System, step: Step, f: Hash, cfg: Config)
    requires Inv(s, cfg) && Enabled(s, step) && Dead(s, f)
    ensures Dead(Next(s, step, cfg), f)
  {
    ScriptKeepsDead(s, step, f, cfg);
    EstablishedStays(s, step, f, cfg);
  }

  lemma {:induction false} RunKeepsDead(s: System, steps: seq<Step>, f: Hash, cfg: Config)
    requires cfg.Valid() && Inv(s, cfg) && CanRun(s, steps, cfg) && Dead(s, f)
    ensures Inv(Run(s, steps, cfg), cfg) && Dead(Run(s, steps, cfg), f)
    decreases |steps|
  {
    if steps != [] {
      StepInv(s, steps[0], cfg);
      StepKeepsDead(s, steps[0], f, cfg);
      RunKeepsDead(Next(s, steps[0], cfg), steps[1..], f, cfg);
    }
  }

  /**
   Once a family is fenced, no later step of any run (retried rotations, new logins, expiring
   keys and tombstones included) lets a rotation of the family commit or change anything, or
   lets one of its access tokens pass.
   */
  lemma FencedForever(s: System, steps: seq<Step>, f: Hash, cfg: Config)
    requires cfg.Valid() && Inv(s, cfg) && CanRun(s, steps, cfg) && Dead(s, f)
    ensures var t := Run(s, steps, cfg);
            && (forall a: RotateArgs :: a.record.family == f ==>
                 RotateOutcome(t.store, a, t.now) == Refused && Rotate(t.store, a, cfg, t.now) == t.store)
            && (forall j, k: AccessToken :: k.family == f ==> SessionRevoked(t.store, j, k, t.now))
            && (forall h :: Has(t.store.refresh, h, t.now) ==> t.store.refresh[h].value.family != f)
  {
    var t := Run(s, steps, cfg);
    RunKeepsDead(s, steps, f, cfg);
    forall a: RotateArgs | a.record.family == f
      ensures RotateOutcome(t.store, a, t.now) == Refused && Rotate(t.store, a, cfg, t.now) == t.store
    {
      RotateNeedsLife(t.store, a, f, cfg, t.now);
    }
    forall h | Has(t.store.refresh, h, t.now) ensures t.store.refresh[h].value.family != f {
      LiveRecordIndexed(t, h, cfg);
    }
  }

  /* ---------- what a logout fences ---------- */

  lemma RevokeFamilyFences(st: Store, f: Hash, fallback: Option<User>, nodeNow: int, cfg: Config, now: int)
    ensures !ActiveFamily(RevokeFamily(st, f, fallback, nodeNow, cfg, now), f, now)
  {
  }

  lemma PresentedRefreshFences(st: Store, h: Hash, visited: Option<Hash>, nodeNow: int, cfg: Config, now: int)
    requires visited.Some? ==> !ActiveFamily(st, visited.value, now)
    ensures PresentedFamily(st, h, now).Some? ==>
              !ActiveFamily(RevokePresentedRefresh(st, h, visited, nodeNow, cfg, now), PresentedFamily(st, h, now).value, now)
  {
    var f := PresentedFamily(st, h, now);
    if f.Some? { RevokeFamilyFences(st, f.value, PresentedUser(st, h, now), nodeNow, cfg, now); }
  }

  /** Fencing one family leaves the aliases alone. */
  lemma FamiliesKeepAliases(st: Store, a: LogoutArgs, cfg: Config, now: int)
    ensures LogoutFamilies(st, a, cfg, now).aliases == st.aliases
  {
  }

  /** After a logout the family of an unexpired access token is dead. */
  lemma LogoutFencesAccess(s: System, a: LogoutArgs, cfg: Config)
    requires Inv(s, cfg) && Enabled(s, RunLogout(a)) && AccessFamily(a).Some?
    ensures Dead(Next(s, RunLogout(a), cfg), AccessFamily(a).value)
  {
    var f := AccessFamily(a).value;
    RevokeFamilyFences(s.store, f, Some(a.access.value.user), a.nodeNow, cfg, s.now);
    RefreshKeepsDead(LogoutFamilies(s.store, a, cfg, s.now), a, f, cfg, s.now);
    LogoutTail(s.store, a, f, cfg, s.now);
  }

  /** A refresh token by which a logout can find the family: live, or rotated away within the alias TTL. */
  predicate NamesFamily(s: System, h: Hash) {
    || Has(s.store.refresh, h, s.now)
    || (h in s.hist.rotatedAt && s.now < s.hist.rotatedAt[h] + 300)
  }

  /** The family half of the script leaves the token's name in place or fences its family. */
  lemma NameSurvives(s: System, a: LogoutArgs, h: Hash, cfg: Config)
    requires Inv(s, cfg) && Enabled(s, RunLogout(a)) && PresentedFamily(s.store, h, s.now).Some?
    ensures h in s.hist.memberOf
    ensures var st1 := LogoutFamilies(s.store, a, cfg, s.now);
            || PresentedFamily(st1, h, s.now) == Some(s.hist.memberOf[h])
            || !ActiveFamily(st1, s.hist.memberOf[h], s.now)
  {
    var st1 := LogoutFamilies(s.store, a, cfg, s.now);
    PresentedOwned(s.store, s.hist, h, s.now);
    LogoutFamiliesKeeps(s.store, s.hist, a, cfg, s.now);
    FamiliesKeepAliases(s.store, a, cfg, s.now);
    PresentedOwned(st1, s.hist, h, s.now);
    if Has(s.store.refresh, h, s.now) && !Has(st1.refresh, h, s.now) {
      RecordGoneOnlyByFence(s, a, h, cfg);
    }
  }

  /**
   A logout presenting a refresh token that is live, or that was rotated away within the
   alias TTL, kills the whole family of that token.
   */
  lemma LogoutFencesRefresh(s: System, a: LogoutArgs, h: Hash, cfg: Config)
    requires Inv(s, cfg) && Enabled(s, RunLogout(a)) && a.refreshHash == Some(h) && NamesFamily(s, h)
    ensures h in s.hist.memberOf && Dead(Next(s, RunLogout(a), cfg), s.hist.memberOf[h])
  {
    LogoutFencesNamed(s, a, h, cfg);
  }

  /** More generally: whenever alias, record or receipt of the presented token names a family. */
  lemma LogoutFencesNamed(s: System, a: LogoutArgs, h: Hash, cfg: Config)
    requires Inv(s, cfg) && Enabled(s, RunLogout(a)) && a.refreshHash == Some(h) && PresentedFamily(s.store, h, s.now).Some?
    ensures h in s.hist.memberOf && PresentedFamily(s.store, h, s.now) == Some(s.hist.memberOf[h])
    ensures Dead(Next(s, RunLogout(a), cfg), s.hist.memberOf[h])
  {
    PresentedOwned(s.store, s.hist, h, s.now);
    NameSurvives(s, a, h, cfg);
    var f := s.hist.memberOf[h];
    var st1 := LogoutFamilies(s.store, a, cfg, s.now);
    if !ActiveFamily(st1, f, s.now) {
      RefreshKeepsDead(st1, a, f, cfg, s.now);
    } else {
      if AccessFamily(a).Some? {
        RevokeFamilyFences(s.store, AccessFamily(a).value, Some(a.access.value.user), a.nodeNow, cfg, s.now);
      }
      PresentedRefreshFences(st1, h, AccessFamily(a), a.nodeNow, cfg, s.now);
    }
    LogoutTail(s.store, a, f, cfg, s.now);
  }

  /** The first half of a logout deletes a live record only with its family. */
  lemma RecordGoneOnlyByFence(s: System, a: LogoutArgs, h: Hash, cfg: Config)
    requires Inv(s, cfg) && Enabled(s, RunLogout(a)) && Has(s.store.refresh, h, s.now)
    requires !Has(LogoutFamilies(s.store, a, cfg, s.now).refresh, h, s.now)
    ensures h in s.hist.memberOf && !ActiveFamily(LogoutFamilies(s.store, a, cfg, s.now), s.hist.memberOf[h], s.now)
  {
    var f := AccessFamily(a).value;
    assert h in Members(s.store.familyTokens, f, s.now);
    RevokeFamilyFences(s.store, f, Some(a.access.value.user), a.nodeNow, cfg, s.now);
  }

  /* ---------- what a logout spares ---------- */

  /** Fencing one family names no token of another. */
  lemma NamedElsewhere(st: Store, g: Hash, fallback: Option<User>, h: Hash, f: Hash, nodeNow: int, cfg: Config, now: int)
    requires g != f && PresentedFamily(st, h, now) != Some(f)
    ensures PresentedFamily(RevokeFamily(st, g, fallback, nodeNow, cfg, now), h, now) != Some(f)
  {
  }

  lemma FenceSparesRecords(st: Store, hist: History, f: Hash, fallback: Option<User>, g: Hash, nodeNow: int, cfg: Config, now: int)
    requires FamilyTokensOwned(st.familyTokens, hist.memberOf) && RecordsOwned(st.refresh, hist.memberOf, hist.established) && f != g
    ensures var refresh' := RevokeFamily(st, f, fallback, nodeNow, cfg, now).refresh;
            forall h :: h in st.refresh && st.refresh[h].value.family == g ==> h in refresh' && refresh'[h] == st.refresh[h]
  {
  }

  lemma FenceSparesSessions(st: Store, hist: History, f: Hash, fallback: Option<User>, g: Hash, nodeNow: int, cfg: Config, now: int)
    requires FamilySessionsOwned(st.familySessions, hist.tokens, hist.established) && f != g
    requires SessionsSigned(st.sessions, hist.tokens, hist.established)
    ensures var sessions' := RevokeFamily(st, f, fallback, nodeNow, cfg, now).sessions;
            forall j :: j in st.sessions && hist.tokens[j].family == g ==> j in sessions' && sessions'[j] == st.sessions[j]
  {
  }

  lemma FenceSparesOthers(st: Store, hist: History, f: Hash, fallback: Option<User>, g: Hash, nodeNow: int, cfg: Config, now: int)
    requires OwnershipInv(st, hist) && f != g
    ensures var st' := RevokeFamily(st, f, fallback, nodeNow, cfg, now);
            && (ActiveFamily(st', g, now) <==> ActiveFamily(st, g, now))
            && (forall h :: h in st.refresh && st.refresh[h].value.family == g ==> h in st'.refresh && st'.refresh[h] == st.refresh[h])
            && (forall j :: j in st.sessions && hist.tokens[j].family == g ==> j in st'.sessions && st'.sessions[j] == st.sessions[j])
  {
    FenceSparesRecords(st, hist, f, fallback, g, nodeNow, cfg, now);
    FenceSparesSessions(st, hist, f, fallback, g, nodeNow, cfg, now);
  }

  /** Records and sessions only go, receipts stay. */
  ghost predicate Shrinks(st: Store, st': Store) {
    && st'.rotationReceipts == st.rotationReceipts
    && (forall h :: h in st'.refresh ==> h in st.refresh && st'.refresh[h] == st.refresh[h])
    && (forall j :: j in st'.sessions ==> j in st.sessions && st'.sessions[j] == st.sessions[j])
  }

  lemma FenceShrinks(st: Store, f: Hash, fallback: Option<User>, nodeNow: int, cfg: Config, now: int)
    ensures Shrinks(st, RevokeFamily(st, f, fallback, nodeNow, cfg, now))
  {
  }

  lemma PresentedShrinks(st: Store, h: Hash, visited: Option<Hash>, nodeNow: int, cfg: Config, now: int)
    ensures Shrinks(st, RevokePresentedRefresh(st, h, visited, nodeNow, cfg, now))
  {
    var f, u := PresentedFamily(st, h, now), PresentedUser(st, h, now);
    if f.Some? { FenceShrinks(st, f.value, u, nodeNow, cfg, now); }
  }

  lemma ShrinksAgain(st: Store, st1: Store, st2: Store)
    requires Shrinks(st, st1) && Shrinks(st1, st2)
    ensures Shrinks(st, st2)
  {
  }

  lemma AccessShrinks(st: Store, j: Jti, u: User, cfg: Config, now: int)
    ensures Shrinks(st, RevokeAccessSession(st, j, u, cfg, now))
  {
  }

  /** A logout writes no refresh record and no session. */
  lemma LogoutShrinks(st: Store, l: LogoutArgs, cfg: Config, now: int)
    ensures Shrinks(st, Logout(st, l, cfg, now))
  {
    var st1 := LogoutFamilies(st, l, cfg, now);
    if AccessFamily(l).Some? {
      FenceShrinks(st, AccessFamily(l).value, Some(l.access.value.user), l.nodeNow, cfg, now);
    }
    if l.refreshHash.Some? { PresentedShrinks(st1, l.refreshHash.value, AccessFamily(l), l.nodeNow, cfg, now); }
    var st2 := LogoutRefresh(st1, l, cfg, now);
    ShrinksAgain(st, st1, st2);
    if l.access.Some? {
      AccessShrinks(st2, l.access.value.jti, l.access.value.user, cfg, now);
      ShrinksAgain(st, st2, RevokeAccessSession(st2, l.access.value.jti, l.access.value.user, cfg, now));
    }
  }

  lemma RevokeAllShrinks(st: Store, u: User, except: Option<Jti>, cfg: Config, now: int)
    ensures Shrinks(st, RevokeAll(st, u, except, cfg, now))
  {
  }

  /* ---------- what a revoke-all spares ---------- */

  lemma OthersSessions(st: Store, hist: History, u: User, v: User, except: Option<Jti>, cfg: Config, now: int)
    requires UserSessionsOwned(st.userSessions, hist.tokens) && u != v
    requires SessionsSigned(st.sessions, hist.tokens, hist.established)
    ensures var sessions' := RevokeAll(st, u, except, cfg, now).sessions;
            forall j :: j in st.sessions && hist.tokens[j].user == v ==> j in sessions' && sessions'[j] == st.sessions[j]
  {
    assert forall j :: j in SessionMembers(st.userSessions, u, now) ==> SignedFor(hist.tokens, j, u);
  }

  lemma OthersRecords(st: Store, hist: History, u: User, v: User, except: Option<Jti>, cfg: Config, now: int)
    requires UserRefreshOwned(st.userRefresh, hist.memberOf, hist.established) && u != v
    requires RecordsOwned(st.refresh, hist.memberOf, hist.established)
    ensures var refresh' := RevokeAll(st, u, except, cfg, now).refresh;
            forall h :: h in st.refresh && st.refresh[h].value.user == v ==> h in refresh' && refresh'[h] == st.refresh[h]
  {
    assert forall h :: h in Members(st.userRefresh, u, now) ==>
        h in hist.memberOf && Owns(hist.memberOf, hist.established, h, hist.memberOf[h], u);
  }

  lemma OthersFamilies(st: Store, hist: History, u: User, v: User, except: Option<Jti>, cfg: Config, now: int)
    requires UserFamiliesOwned(st.userFamilies, hist.established) && u != v
    ensures var families' := RevokeAll(st, u, except, cfg, now).families;
            forall f :: f in hist.established && hist.established[f] == v ==>
              (f in families' <==> f in st.families) && (f in st.families ==> families'[f] == st.families[f])
  {
  }

  /** The scripts' view: sessions, records and families of another account are not touched. */
  lemma OthersUntouched(st: Store, hist: History, u: User, v: User, except: Option<Jti>, cfg: Config, now: int)
    requires OwnershipInv(st, hist) && u != v
    ensures var st' := RevokeAll(st, u, except, cfg, now);
            && (forall j :: j in st.sessions && hist.tokens[j].user == v ==> j in st'.sessions && st'.sessions[j] == st.sessions[j])
            && (forall h :: h in st.refresh && st.refresh[h].value.user == v ==> h in st'.refresh && st'.refresh[h] == st.refresh[h])
            && (forall f :: f in hist.established && hist.established[f] == v ==>
                 (f in st'.families <==> f in st.families) && (f in st.families ==> st'.families[f] == st.families[f]))
  {
    OthersSessions(st, hist, u, v, except, cfg, now);
    OthersRecords(st, hist, u, v, except, cfg, now);
    OthersFamilies(st, hist, u, v, except, cfg, now);
  }

  /** Revoking one account changes nothing for another: the same tokens pass, the same records are live. */
  lemma RevokeAllSparesOthers(s: System, u: User, v: User, except: Option<Jti>, cfg: Config)
    requires cfg.Valid() && Reachable(s, cfg) && Enabled(s, RunRevokeAll(u, except)) && u != v
    ensures var t := Next(s, RunRevokeAll(u, except), cfg);
            && (forall j :: j in s.hist.tokens && s.hist.tokens[j].user == v ==> (Accepted(t, j) <==> Accepted(s, j)))
            && (forall h, r: RefreshRecord :: r.user == v ==>
                 (Get(t.store.refresh, h, t.now) == Some(r) <==> Get(s.store.refresh, h, s.now) == Some(r)))
            && (forall f :: f in s.hist.established && s.hist.established[f] == v ==> (Dead(t, f) <==> Dead(s, f)))
  {
    ReachableInv(s, cfg);
    var t := Next(s, RunRevokeAll(u, except), cfg);
    OthersFamilies(s.store, s.hist, u, v, except, cfg, s.now);
    SameRecords(s.store, s.hist, u, v, except, cfg, s.now);
    forall j | j in s.hist.tokens && s.hist.tokens[j].user == v ensures Accepted(t, j) <==> Accepted(s, j) {
      SameVerdict(s, u, except, j, cfg);
    }
  }

  lemma SameRecords(st: Store, hist: History, u: User, v: User, except: Option<Jti>, cfg: Config, now: int)
    requires UserRefreshOwned(st.userRefresh, hist.memberOf, hist.established) && u != v
    requires RecordsOwned(st.refresh, hist.memberOf, hist.established)
    ensures var refresh' := RevokeAll(st, u, except, cfg, now).refresh;
            forall h, r: RefreshRecord :: r.user == v ==> (Get(refresh', h, now) == Some(r) <==> Get(st.refresh, h, now) == Some(r))
  {
    var refresh' := RevokeAll(st, u, except, cfg, now).refresh;
    RevokeAllShrinks(st, u, except, cfg, now);
    OthersRecords(st, hist, u, v, except, cfg, now);
  }

  lemma SameVerdict(s: System, u: User, except: Option<Jti>, j: Jti, cfg: Config)
    requires Inv(s, cfg) && Enabled(s, RunRevokeAll(u, except)) && j in s.hist.tokens && s.hist.tokens[j].user != u
    ensures Accepted(Next(s, RunRevokeAll(u, except), cfg), j) <==> Accepted(s, j)
  {
    var t := s.hist.tokens[j];
    assert TokenSound(s.hist, t);
    var st' := RevokeAll(s.store, u, except, cfg, s.now);
    assert st'.tombstones == s.store.tombstones;
    OthersSessions(s.store, s.hist, u, t.user, except, cfg, s.now);
    assert j in st'.sessions ==> j in s.store.sessions;
    if t.family in s.hist.established {
      OthersFamilies(s.store, s.hist, u, t.user, except, cfg, s.now);
    } else {
      assert j !in s.store.sessions;
    }
  }
}
