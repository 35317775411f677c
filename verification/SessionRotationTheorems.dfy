/** One successor per refresh token, harmless retries, and revocations that leave nothing behind. */
module SessionRotationTheorems {
  import opened Wrappers
  import opened SessionStore
  import opened SessionSystem
  import opened SessionProofs
  import opened SessionRotateProof
  import opened SessionRevokeProof
  import opened SessionTheorems

  /* ---------- what a run never takes back ---------- */

  /** Tokens, members and prepared rotations are only added to. */
  ghost predicate Grows(hist: History, hist': History) {
    && (forall j :: j in hist.tokens ==> j in hist'.tokens && hist'.tokens[j] == hist.tokens[j])
    && (forall h :: h in hist.memberOf ==> h in hist'.memberOf && hist'.memberOf[h] == hist.memberOf[h])
    && hist.rotations <= hist'.rotations
  }

  ghost predicate BegunGrows(begun: map<Hash, Origin>, begun': map<Hash, Origin>) {
    forall f :: f in begun ==> f in begun' && begun'[f] == begun[f]
  }

  ghost predicate VersionsGrow(v: map<User, nat>, v': map<User, nat>) {
    forall u :: u in v ==> u in v' && v[u] <= v'[u]
  }

  /** Rotation times lie in the past and only move forward. */
  ghost predicate TimesGrow(t: map<Hash, int>, t': map<Hash, int>) {
    forall h :: h in t ==> h in t' && t[h] <= t'[h]
  }

  ghost predicate TimesPast(t: map<Hash, int>, now: int) {
    forall h :: h in t ==> t[h] <= now
  }

  /** Every family was begun under a version its account has had. */
  ghost predicate BegunUnder(begun: map<Hash, Origin>, v: map<User, nat>) {
    forall f :: f in begun ==> begun[f].user in v && begun[f].version <= v[begun[f].user]
  }

  ghost predicate Timely(s: System) {
    TimesPast(s.hist.rotatedAt, s.now) && BegunUnder(s.hist.begun, s.versions) && Faithful(s.hist, s.store.refresh)
  }

  lemma StepGrows(s: System, step: Step, cfg: Config)
    requires HistoryInv(s.hist, cfg) && Enabled(s, step)
    ensures Grows(s.hist, Next(s, step, cfg).hist)
    ensures s.now <= Next(s, step, cfg).now
  {
    match step
    case PrepareIssue(a) =>
      assert Next(s, step, cfg).hist == IssuePrepared(s.hist, a, cfg);
    case PrepareRotate(a) =>
      assert Next(s, step, cfg).hist == RotationPrepared(s.hist, a, cfg);
    case RunIssue(a) =>
      assert IssueSound(s.hist, a, cfg);
      assert Next(s, step, cfg).hist == IssueRan(s.hist, a);
    case RunRotate(a) =>
      assert RotationSound(s.hist, a, cfg);
    case _ =>
  }

  lemma StepVersionsGrow(s: System, step: Step, cfg: Config)
    requires Enabled(s, step)
    ensures VersionsGrow(s.versions, Next(s, step, cfg).versions)
  {
  }

  lemma StepTimesGrow(s: System, step: Step, cfg: Config)
    requires Enabled(s, step) && TimesPast(s.hist.rotatedAt, s.now)
    ensures TimesGrow(s.hist.rotatedAt, Next(s, step, cfg).hist.rotatedAt)
    ensures TimesPast(Next(s, step, cfg).hist.rotatedAt, Next(s, step, cfg).now)
  {
  }

  lemma StepBegunUnder(s: System, step: Step, cfg: Config)
    requires Enabled(s, step) && BegunUnder(s.hist.begun, s.versions)
    ensures BegunUnder(Next(s, step, cfg).hist.begun, Next(s, step, cfg).versions)
  {
  }

  lemma StepBegunGrows(s: System, step: Step, cfg: Config)
    requires Enabled(s, step) && RequestsFaithful(s.hist)
    ensures BegunGrows(s.hist.begun, Next(s, step, cfg).hist.begun)
  {
  }

  /* ---------- account and version are constant along a family ---------- */

  predicate OfOrigin(begun: map<Hash, Origin>, f: Hash, u: User, version: nat) {
    f in begun && begun[f] == Origin(u, version)
  }

  ghost predicate TokensFaithful(tokens: map<Jti, AccessToken>, begun: map<Hash, Origin>) {
    forall j :: j in tokens ==> OfOrigin(begun, tokens[j].family, tokens[j].user, tokens[j].version)
  }

  ghost predicate RecordsFaithful(refresh: map<Hash, Keyed<RefreshRecord>>, begun: map<Hash, Origin>) {
    forall h :: h in refresh ==>
      OfOrigin(begun, refresh[h].value.family, refresh[h].value.user, refresh[h].value.version)
  }

  ghost predicate RequestsFaithful(hist: History) {
    && (forall p :: p in hist.observed ==> OfOrigin(hist.begun, p.1.family, p.1.user, p.1.version))
    && (forall a :: a in hist.rotations ==>
         OfOrigin(hist.begun, a.record.family, a.record.user, a.record.version) && a.version == a.record.version)
    && (forall a :: a in hist.issues ==> OfOrigin(hist.begun, a.hash, a.user, a.version))
    && (forall f :: f in hist.begun ==> f in hist.minted)
  }

  /** Tokens, records and requests carry the account and the version their family was begun with. */
  ghost predicate Faithful(hist: History, refresh: map<Hash, Keyed<RefreshRecord>>) {
    TokensFaithful(hist.tokens, hist.begun) && RecordsFaithful(refresh, hist.begun) && RequestsFaithful(hist)
  }

  lemma RotateFaithful(st: Store, hist: History, a: RotateArgs, cfg: Config, now: int)
    requires RecordsFaithful(st.refresh, hist.begun) && RequestsFaithful(hist) && a in hist.rotations
    ensures RecordsFaithful(Rotate(st, a, cfg, now).refresh, hist.begun)
  {
    RotateWrites(st, a, cfg, now);
  }

  lemma ShrinksFaithful(st: Store, st': Store, begun: map<Hash, Origin>)
    requires RecordsFaithful(st.refresh, begun) && Shrinks(st, st')
    ensures RecordsFaithful(st'.refresh, begun)
  {
  }

  lemma ScriptFaithful(s: System, step: Step, cfg: Config)
    requires Enabled(s, step) && Faithful(s.hist, s.store.refresh) && IsScript(step)
    ensures RecordsFaithful(Next(s, step, cfg).store.refresh, s.hist.begun)
  {
    match step
    case RunIssue(a) =>
    case RunRotate(a) => RotateFaithful(s.store, s.hist, a, cfg, s.now);
    case RunLogout(a) =>
      LogoutShrinks(s.store, a, cfg, s.now);
      ShrinksFaithful(s.store, Logout(s.store, a, cfg, s.now), s.hist.begun);
    case RunRevokeAll(u, except) =>
      RevokeAllShrinks(s.store, u, except, cfg, s.now);
      ShrinksFaithful(s.store, RevokeAll(s.store, u, except, cfg, s.now), s.hist.begun);
  }

  lemma StepFaithful(s: System, step: Step, cfg: Config)
    requires Enabled(s, step) && Faithful(s.hist, s.store.refresh)
    ensures Faithful(Next(s, step, cfg).hist, Next(s, step, cfg).store.refresh)
  {
    if IsScript(step) {
      ScriptFaithful(s, step, cfg);
      assert Next(s, step, cfg).hist.begun == s.hist.begun;
    }
  }

  lemma {:induction false} RunGrows(s: System, steps: seq<Step>, cfg: Config)
    requires cfg.Valid() && Inv(s, cfg) && CanRun(s, steps, cfg) && Timely(s)
    ensures var t := Run(s, steps, cfg);
            && Inv(t, cfg)
            && Grows(s.hist, t.hist) && BegunGrows(s.hist.begun, t.hist.begun) && s.now <= t.now
            && VersionsGrow(s.versions, t.versions)
            && TimesGrow(s.hist.rotatedAt, t.hist.rotatedAt)
            && Timely(t)
    decreases |steps|
  {
    if steps != [] {
      var n := Next(s, steps[0], cfg);
      StepInv(s, steps[0], cfg);
      StepGrows(s, steps[0], cfg);
      StepVersionsGrow(s, steps[0], cfg);
      StepTimesGrow(s, steps[0], cfg);
      StepBegunUnder(s, steps[0], cfg);
      StepBegunGrows(s, steps[0], cfg);
      StepFaithful(s, steps[0], cfg);
      RunGrows(n, steps[1..], cfg);
    }
  }

  lemma ReachableTimely(s: System, cfg: Config)
    requires cfg.Valid() && Reachable(s, cfg)
    ensures Inv(s, cfg) && Timely(s)
  {
    var s0, steps :| Init(s0) && CanRun(s0, steps, cfg) && Run(s0, steps, cfg) == s;
    InitInv(s0, cfg);
    RunGrows(s0, steps, cfg);
  }

  /* ---------- at most one successor ---------- */

  /** A rotation that reports success is the one recorded as its token's successor. */
  lemma CommittedIsSuccessor(s: System, a: RotateArgs, cfg: Config)
    requires cfg.rotation && Inv(s, cfg) && Enabled(s, RunRotate(a)) && RotateOutcome(s.store, a, s.now) == Committed
    ensures var t := Next(s, RunRotate(a), cfg);
            a.presented in t.hist.successor && t.hist.successor[a.presented] == a.newHash
  {
  }

  lemma StepKeepsSuccessors(s: System, step: Step, h: Hash, cfg: Config)
    requires cfg.rotation && Inv(s, cfg) && Enabled(s, step) && h in s.hist.successor
    ensures h in Next(s, step, cfg).hist.successor
    ensures Next(s, step, cfg).hist.successor[h] == s.hist.successor[h]
  {
  }

  lemma {:induction false} RunKeepsSuccessors(s: System, steps: seq<Step>, h: Hash, cfg: Config)
    requires cfg.Valid() && cfg.rotation && Inv(s, cfg) && CanRun(s, steps, cfg) && h in s.hist.successor
    ensures Inv(Run(s, steps, cfg), cfg)
    ensures h in Run(s, steps, cfg).hist.successor
    ensures Run(s, steps, cfg).hist.successor[h] == s.hist.successor[h]
    decreases |steps|
  {
    if steps != [] {
      StepInv(s, steps[0], cfg);
      StepKeepsSuccessors(s, steps[0], h, cfg);
      RunKeepsSuccessors(Next(s, steps[0], cfg), steps[1..], h, cfg);
    }
  }

  /**
   With rotation enabled, two rotations of one refresh token that both report success, at
   any two points of a run, are the same rotation: a token has at most one successor.
   */
  lemma OneSuccessor(s: System, a: RotateArgs, steps: seq<Step>, b: RotateArgs, cfg: Config)
    requires cfg.Valid() && cfg.rotation && Reachable(s, cfg)
    requires Enabled(s, RunRotate(a)) && RotateOutcome(s.store, a, s.now) == Committed
    requires CanRun(Next(s, RunRotate(a), cfg), steps, cfg)
    requires var t := Run(Next(s, RunRotate(a), cfg), steps, cfg);
             Enabled(t, RunRotate(b)) && RotateOutcome(t.store, b, t.now) == Committed
    requires a.presented == b.presented
    ensures a == b
  {
    ReachableTimely(s, cfg);
    var s1 := Next(s, RunRotate(a), cfg);
    StepInv(s, RunRotate(a), cfg);
    StepTimesGrow(s, RunRotate(a), cfg);
    StepBegunUnder(s, RunRotate(a), cfg);
    StepFaithful(s, RunRotate(a), cfg);
    CommittedIsSuccessor(s, a, cfg);
    RunKeepsSuccessors(s1, steps, a.presented, cfg);
    RunGrows(s1, steps, cfg);
    var t := Run(s1, steps, cfg);
    CommittedIsSuccessor(t, b, cfg);
    StepKeepsSuccessors(t, RunRotate(b), a.presented, cfg);
    assert a in s.hist.rotations && a in t.hist.rotations && b in t.hist.rotations;
  }

  /** With rotation enabled every family has at most one live refresh token in every reachable state. */
  lemma OneLiveToken(s: System, h: Hash, k: Hash, cfg: Config)
    requires cfg.Valid() && cfg.rotation && Reachable(s, cfg)
    requires Has(s.store.refresh, h, s.now) && Has(s.store.refresh, k, s.now)
    requires s.store.refresh[h].value.family == s.store.refresh[k].value.family
    ensures h == k
  {
    ReachableInv(s, cfg);
  }

  /* ---------- ancestors ---------- */

  /**
   Rotate first, log out later with the token that was rotated away, within the alias TTL:
   the whole family dies, so neither the successor nor any later credential works again.
   */
  lemma LogoutWithAncestor(s: System, a: RotateArgs, steps: seq<Step>, l: LogoutArgs, cfg: Config)
    requires cfg.Valid() && Reachable(s, cfg)
    requires Enabled(s, RunRotate(a)) && Installs(s.store, a, s.now)
    requires CanRun(Next(s, RunRotate(a), cfg), steps, cfg)
    requires var t := Run(Next(s, RunRotate(a), cfg), steps, cfg);
             && t.now < s.now + 300
             && Enabled(t, RunLogout(l)) && l.refreshHash == Some(a.presented)
    ensures var t := Run(Next(s, RunRotate(a), cfg), steps, cfg);
            Inv(Next(t, RunLogout(l), cfg), cfg) && Dead(Next(t, RunLogout(l), cfg), a.record.family)
  {
    ReachableTimely(s, cfg);
    var s1 := Next(s, RunRotate(a), cfg);
    StepInv(s, RunRotate(a), cfg);
    StepTimesGrow(s, RunRotate(a), cfg);
    StepBegunUnder(s, RunRotate(a), cfg);
    StepFaithful(s, RunRotate(a), cfg);
    StepGrows(s, RunRotate(a), cfg);
    RunGrows(s1, steps, cfg);
    var t := Run(s1, steps, cfg);
    assert RotationSound(s.hist, a, cfg);
    assert s1.hist.rotatedAt[a.presented] == s.now;
    LogoutFencesRefresh(t, l, a.presented, cfg);
    StepInv(t, RunLogout(l), cfg);
  }

  /** Log out first: a rotation of the presented token, in flight or retried, is refused ever after. */
  lemma RotateAfterLogout(s: System, l: LogoutArgs, h: Hash, steps: seq<Step>, a: RotateArgs, cfg: Config)
    requires cfg.Valid() && Reachable(s, cfg) && Enabled(s, RunLogout(l)) && l.refreshHash == Some(h) && NamesFamily(s, h)
    requires CanRun(Next(s, RunLogout(l), cfg), steps, cfg)
    requires h in s.hist.memberOf && a.record.family == s.hist.memberOf[h]
    ensures var t := Run(Next(s, RunLogout(l), cfg), steps, cfg);
            RotateOutcome(t.store, a, t.now) == Refused
  {
    ReachableInv(s, cfg);
    LogoutFencesRefresh(s, l, h, cfg);
    StepInv(s, RunLogout(l), cfg);
    FencedForever(Next(s, RunLogout(l), cfg), steps, s.hist.memberOf[h], cfg);
  }

  /**
   Logged out for good: after a logout that presents an unexpired access token of a family,
   or a refresh token that is live or was rotated away within the alias TTL, no continuation
   of the run lets a rotation of the family succeed or an access token of it pass.
   */
  lemma LoggedOutForGood(s: System, l: LogoutArgs, f: Hash, steps: seq<Step>, cfg: Config)
    requires cfg.Valid() && Reachable(s, cfg) && Enabled(s, RunLogout(l))
    requires || AccessFamily(l) == Some(f)
             || (l.refreshHash.Some? && NamesFamily(s, l.refreshHash.value)
                 && l.refreshHash.value in s.hist.memberOf && s.hist.memberOf[l.refreshHash.value] == f)
    requires CanRun(Next(s, RunLogout(l), cfg), steps, cfg)
    ensures var t := Run(Next(s, RunLogout(l), cfg), steps, cfg);
            && (forall a: RotateArgs :: a.record.family == f ==>
                 RotateOutcome(t.store, a, t.now) == Refused && Rotate(t.store, a, cfg, t.now) == t.store)
            && (forall j :: j in t.hist.tokens && t.hist.tokens[j].family == f ==> !Accepted(t, j))
  {
    ReachableInv(s, cfg);
    if AccessFamily(l) == Some(f) { LogoutFencesAccess(s, l, cfg); } else { LogoutFencesRefresh(s, l, l.refreshHash.value, cfg); }
    StepInv(s, RunLogout(l), cfg);
    FencedForever(Next(s, RunLogout(l), cfg), steps, f, cfg);
  }

  /* ---------- everything of one account ---------- */

  /**
   A full revoke-all leaves the account no accepted access token, no live refresh record and
   no active family; one that spares a session leaves at most that session accepted.
   */
  lemma RevokeAllLeavesNothing(s: System, u: User, except: Option<Jti>, cfg: Config)
    requires cfg.Valid() && Reachable(s, cfg) && Enabled(s, RunRevokeAll(u, except))
    ensures var t := Next(s, RunRevokeAll(u, except), cfg);
            && (forall j :: Accepted(t, j) && t.hist.tokens[j].user == u ==> Some(j) == except)
            && (forall h :: Has(t.store.refresh, h, t.now) ==> t.store.refresh[h].value.user != u)
            && (except.None? ==> forall f :: f in t.hist.established && t.hist.established[f] == u ==> Dead(t, f))
  {
    var t := Next(s, RunRevokeAll(u, except), cfg);
    ReachableInv(s, cfg);
    AllRecords(s.store, t.store, s.hist, u, except, cfg, s.now);
    AllFamilies(s.store, t.store, s.hist.established, u, except, cfg, s.now);
    AllSessions(s.store, t.store, s.hist, u, except, cfg, s.now);
    forall j | Accepted(t, j) && t.hist.tokens[j].user == u ensures Some(j) == except {
      assert Usable(t.store.sessions, t.store.families, t.hist.tokens, t.now, j);
    }
  }

  /**
   Bumping the session version ends every family begun before it, whatever Redis does later:
   a token that is ever accepted afterwards belongs to a family begun after the bump, so no
   token, refresh record or request in flight from before leads to it.
   */
  lemma BumpKillsOldFamilies(s: System, u: User, steps: seq<Step>, j: Jti, cfg: Config)
    requires cfg.Valid() && Reachable(s, cfg)
    requires Enabled(s, BumpVersion(u)) && CanRun(Next(s, BumpVersion(u), cfg), steps, cfg)
    requires var t := Run(Next(s, BumpVersion(u), cfg), steps, cfg); Accepted(t, j) && t.hist.tokens[j].user == u
    ensures j !in s.hist.tokens
    ensures var f := Run(Next(s, BumpVersion(u), cfg), steps, cfg).hist.tokens[j].family;
            && (forall k :: k in s.hist.tokens ==> s.hist.tokens[k].family != f)
            && (forall h :: h in s.store.refresh ==> s.store.refresh[h].value.family != f)
            && (forall a :: a in s.hist.rotations ==> a.record.family != f)
            && (forall a :: a in s.hist.issues ==> a.hash != f)
  {
    ReachableTimely(s, cfg);
    var s1 := Next(s, BumpVersion(u), cfg);
    StepInv(s, BumpVersion(u), cfg);
    StepBegunUnder(s, BumpVersion(u), cfg);
    RunGrows(s1, steps, cfg);
    var t := Run(s1, steps, cfg);
    var k := t.hist.tokens[j];
    assert OfOrigin(t.hist.begun, k.family, k.user, k.version);
    assert s.versions[u] < s1.versions[u] <= t.versions[u] == k.version;
    assert k.family !in s.hist.begun;
    OnlyBegun(s.hist, s.store.refresh, k.family);
  }

  lemma OnlyBegun(hist: History, refresh: map<Hash, Keyed<RefreshRecord>>, f: Hash)
    requires Faithful(hist, refresh) && f !in hist.begun
    ensures forall k :: k in hist.tokens ==> hist.tokens[k].family != f
    ensures forall h :: h in refresh ==> refresh[h].value.family != f
    ensures forall a :: a in hist.rotations ==> a.record.family != f
    ensures forall a :: a in hist.issues ==> a.hash != f
  {
  }

  /* ---------- what a login and a rotation give ---------- */

  /**
   A login takes hold: the new token passes exactly while it is unexpired and its version is
   current, the new refresh token is live, and nothing changes for anybody else.
   */
  lemma IssueTakesHold(s: System, a: IssueArgs, cfg: Config)
    requires cfg.Valid() && Reachable(s, cfg) && Enabled(s, RunIssue(a))
    ensures var t := Next(s, RunIssue(a), cfg);
            && a.user in s.versions && a.jti in s.hist.tokens
            && (Accepted(t, a.jti) <==> s.now < a.signedAt + cfg.accessTtl && s.versions[a.user] == a.version)
            && Get(t.store.refresh, a.hash, t.now) == Some(RefreshRecord(a.user, a.version, a.hash))
            && (forall j :: j in s.hist.tokens && j != a.jti ==> (Accepted(t, j) <==> Accepted(s, j)))
            && (forall h :: h != a.hash ==> Get(t.store.refresh, h, t.now) == Get(s.store.refresh, h, s.now))
  {
    ReachableTimely(s, cfg);
    assert IssueSound(s.hist, a, cfg) && a.hash !in s.hist.established;
    assert OfOrigin(s.hist.begun, a.hash, a.user, a.version);
    assert a.jti !in s.store.tombstones;
    IssuedTakesHold(s, Issue(s.store, a, cfg, s.now), a, cfg);
    IssuedRecords(s.store, a, cfg, s.now);
    SameAcceptance(s.(store := Issue(s.store, a, cfg, s.now)), Next(s, RunIssue(a), cfg));
  }

  lemma IssuedRecords(st: Store, a: IssueArgs, cfg: Config, now: int)
    requires cfg.Valid()
    ensures var refresh' := Issue(st, a, cfg, now).refresh;
            && Get(refresh', a.hash, now) == Some(RefreshRecord(a.user, a.version, a.hash))
            && (forall h :: h != a.hash ==> Get(refresh', h, now) == Get(st.refresh, h, now))
  {
  }

  /** What an issue writes among the keys by which credentials are judged. */
  predicate IssueWrote(st: Store, st': Store, a: IssueArgs, cfg: Config, now: int) {
    && st'.families == st.families[a.hash := Keyed(Family(true, a.user), now + cfg.refreshTtl)]
    && st'.sessions == st.sessions[a.jti := Keyed(a.user, now + cfg.accessTtl)]
    && st'.tombstones == st.tombstones
  }

  lemma IssuedTakesHold(s: System, st': Store, a: IssueArgs, cfg: Config)
    requires cfg.Valid() && IssueWrote(s.store, st', a, cfg, s.now) && a.user in s.versions
    requires SessionsSigned(s.store.sessions, s.hist.tokens, s.hist.established)
    requires IssueSound(s.hist, a, cfg) && a.hash !in s.hist.established && a.jti !in s.store.tombstones
    ensures var t := s.(store := st');
            && (Accepted(t, a.jti) <==> s.now < a.signedAt + cfg.accessTtl && s.versions[a.user] == a.version)
            && (forall j :: j in s.hist.tokens && j != a.jti ==> (Accepted(t, j) <==> Accepted(s, j)))
  {
  }

  /** Acceptance looks at tokens, versions, clock and store only. */
  lemma SameAcceptance(s: System, t: System)
    requires s.store == t.store && s.now == t.now && s.versions == t.versions && s.hist.tokens == t.hist.tokens
    ensures forall j :: Accepted(t, j) <==> Accepted(s, j)
  {
  }

  /**
   A rotation that commits takes hold in the same way, unless its token was already logged
   out; with rotation on the presented refresh token is spent.
   */
  lemma RotationTakesHold(s: System, a: RotateArgs, cfg: Config)
    requires cfg.Valid() && Reachable(s, cfg) && Enabled(s, RunRotate(a)) && Installs(s.store, a, s.now)
    ensures var t := Next(s, RunRotate(a), cfg); var u := a.record.user;
            && u in s.versions && a.jti in s.hist.tokens
            && (Accepted(t, a.jti) <==>
                  && s.now < a.signedAt + cfg.accessTtl && s.versions[u] == a.version
                  && !Has(s.store.tombstones, a.jti, s.now))
            && Get(t.store.refresh, a.newHash, t.now) == Some(a.Successor())
            && (cfg.rotation ==> !Has(t.store.refresh, a.presented, t.now))
            && (forall j :: j in s.hist.tokens && j != a.jti ==> (Accepted(t, j) <==> Accepted(s, j)))
            && (forall h :: h !in {a.presented, a.newHash} ==> Get(t.store.refresh, h, t.now) == Get(s.store.refresh, h, s.now))
  {
    ReachableTimely(s, cfg);
    assert RotationSound(s.hist, a, cfg);
    assert OfOrigin(s.hist.begun, a.record.family, a.record.user, a.record.version);
    PresentedContinues(s.store, a, cfg, s.now);
    RotateWrites(s.store, a, cfg, s.now);
    InstalledTakesHold(s, Rotate(s.store, a, cfg, s.now), a, cfg);
    InstalledRecords(s.store, Rotate(s.store, a, cfg, s.now), a, cfg, s.now);
    SameAcceptance(s.(store := Rotate(s.store, a, cfg, s.now)), Next(s, RunRotate(a), cfg));
  }

  lemma InstalledRecords(st: Store, st': Store, a: RotateArgs, cfg: Config, now: int)
    requires cfg.Valid() && Installed(st, st', a, cfg, now) && a.newHash != a.presented
    ensures Get(st'.refresh, a.newHash, now) == Some(a.Successor())
    ensures cfg.rotation ==> !Has(st'.refresh, a.presented, now)
    ensures forall h :: h !in {a.presented, a.newHash} ==> Get(st'.refresh, h, now) == Get(st.refresh, h, now)
  {
  }

  lemma InstalledTakesHold(s: System, st': Store, a: RotateArgs, cfg: Config)
    requires cfg.Valid() && Installed(s.store, st', a, cfg, s.now) && Continues(s.store, a, s.now)
    requires RotationSound(s.hist, a, cfg) && a.record.user in s.versions
    ensures var t := s.(store := st');
            && (Accepted(t, a.jti) <==>
                  && s.now < a.signedAt + cfg.accessTtl && s.versions[a.record.user] == a.version
                  && !Has(s.store.tombstones, a.jti, s.now))
            && (forall j :: j in s.hist.tokens && j != a.jti ==> (Accepted(t, j) <==> Accepted(s, j)))
  {
  }
}
