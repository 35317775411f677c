/** The indexes and aliases after each script: nothing that has ended stays listed, and names last for five minutes. */
module SessionHousekeeping {
  import opened Wrappers
  import opened SessionStore
  import opened SessionSystem
  import opened SessionRotateProof
  import opened SessionTheorems
  import opened SessionAnswers

  /* ---------- logins and rotations ---------- */

  /** For five minutes from `now`, and no longer, the token leads to its family by name. */
  predicate NamedFor(aliases: map<Hash, Keyed<Hash>>, h: Hash, f: Hash, now: int) {
    h in aliases && aliases[h] == Keyed(f, now + 300)
  }

  /** A login names its token and touches no other name. */
  lemma LoginNames(st: Store, a: IssueArgs, cfg: Config, now: int)
    ensures NamedFor(Issue(st, a, cfg, now).aliases, a.hash, a.hash, now)
    ensures forall h :: h != a.hash ==> Same(st.aliases, Issue(st, a, cfg, now).aliases, h)
  {
  }

  /** A rotation that commits names the token it was given; no other name is touched. */
  lemma RotationNames(st: Store, a: RotateArgs, cfg: Config, now: int)
    ensures Installs(st, a, now) ==> NamedFor(Rotate(st, a, cfg, now).aliases, a.presented, a.record.family, now)
    ensures !Installs(st, a, now) ==> Rotate(st, a, cfg, now).aliases == st.aliases
    ensures forall h :: h != a.presented ==> Same(st.aliases, Rotate(st, a, cfg, now).aliases, h)
  {
    RotateAliases(st, a, cfg, now);
  }

  lemma RotateAliases(st: Store, a: RotateArgs, cfg: Config, now: int)
    ensures Rotate(st, a, cfg, now).aliases ==
      if Installs(st, a, now) then st.aliases[a.presented := Keyed(a.record.family, now + 300)] else st.aliases
  {
    if PresentedRecordLive(st, a, now) && !FamilyForbids(st, a, now) {
      var pruned := Prune(st, a, now);
      assert pruned.aliases == st.aliases;
      CommitAliases(pruned, a, cfg, now);
    }
  }

  lemma CommitAliases(st: Store, a: RotateArgs, cfg: Config, now: int)
    ensures Commit(st, a, cfg, now).aliases == st.aliases[a.presented := Keyed(a.record.family, now + 300)]
  {
  }

  /** Whether it commits or not, a rotation of a live token takes the sessions that have run out off both indexes. */
  lemma RotationPrunes(s: System, a: RotateArgs, cfg: Config, j: Jti)
    requires cfg.Valid() && Reachable(s, cfg) && Enabled(s, RunRotate(a)) && j != a.jti
    requires Get(s.store.refresh, a.presented, s.now) == Some(a.record)
    requires j in Scores(s.store.familySessions, a.record.family, s.now)
    ensures var t := Next(s, RunRotate(a), cfg); var over := Scores(s.store.familySessions, a.record.family, s.now)[j] <= a.nodeNow;
      && (j in Scores(t.store.familySessions, a.record.family, s.now) <==> !over)
      && (over ==> j !in SessionMembers(t.store.userSessions, a.record.user, s.now))
  {
    ReachableInv(s, cfg);
    PresentedContinues(s.store, a, cfg, s.now);
    PruneTakesOff(s.store, a, s.now, j);
    CommitAddsOne(Prune(s.store, a, s.now), a, cfg, s.now, j);
    RotatePrunesFirst(s.store, a, cfg, s.now);
  }

  lemma RotatePrunesFirst(st: Store, a: RotateArgs, cfg: Config, now: int)
    requires PresentedRecordLive(st, a, now) && !FamilyForbids(st, a, now)
    ensures Rotate(st, a, cfg, now) in {Prune(st, a, now), Commit(Prune(st, a, now), a, cfg, now)}
  {
  }

  lemma PruneTakesOff(st: Store, a: RotateArgs, now: int, j: Jti)
    requires j in Scores(st.familySessions, a.record.family, now)
    ensures var over := Scores(st.familySessions, a.record.family, now)[j] <= a.nodeNow; var st' := Prune(st, a, now);
      && (j in Scores(st'.familySessions, a.record.family, now) <==> !over)
      && (over ==> j !in SessionMembers(st'.userSessions, a.record.user, now))
  {
  }

  lemma CommitAddsOne(st: Store, a: RotateArgs, cfg: Config, now: int, j: Jti)
    requires cfg.Valid() && j != a.jti
    ensures var st' := Commit(st, a, cfg, now);
      && (j in Scores(st'.familySessions, a.record.family, now) <==> j in Scores(st.familySessions, a.record.family, now))
      && (j in SessionMembers(st'.userSessions, a.record.user, now) ==> j in SessionMembers(st.userSessions, a.record.user, now))
  {
  }

  /** A live record whose family is fenced or another account's is not rotated, and nothing changes. */
  lemma ForeignFamilyRefused(st: Store, a: RotateArgs, cfg: Config, now: int)
    requires Get(st.refresh, a.presented, now) == Some(a.record)
    requires Has(st.families, a.record.family, now) && st.families[a.record.family].value != Family(true, a.record.user)
    ensures RotateOutcome(st, a, now) == Refused && Rotate(st, a, cfg, now) == st
  {
  }

  /* ---------- logouts ---------- */

  /** Neither the family, nor these sessions and tokens, are in any index of the account `u`. */
  predicate Unlisted(st: Store, f: Hash, u: User, js: set<Jti>, hs: set<Hash>, now: int) {
    && f !in st.familySessions && f !in st.familyTokens && f !in Members(st.userFamilies, u, now)
    && js !! SessionMembers(st.userSessions, u, now) && hs !! Members(st.userRefresh, u, now)
  }

  /** No index gains an entry. */
  ghost predicate ListsShrink(st: Store, st': Store, now: int) {
    && st'.familySessions.Keys <= st.familySessions.Keys && st'.familyTokens.Keys <= st.familyTokens.Keys
    && (forall u :: Members(st'.userFamilies, u, now) <= Members(st.userFamilies, u, now))
    && (forall u :: SessionMembers(st'.userSessions, u, now) <= SessionMembers(st.userSessions, u, now))
    && (forall u :: Members(st'.userRefresh, u, now) <= Members(st.userRefresh, u, now))
  }

  lemma StaysUnlisted(st: Store, st': Store, f: Hash, u: User, js: set<Jti>, hs: set<Hash>, now: int)
    requires Unlisted(st, f, u, js, hs, now) && ListsShrink(st, st', now)
    ensures Unlisted(st', f, u, js, hs, now)
  {
  }

  lemma ShrinkTwice(st: Store, st1: Store, st2: Store, now: int)
    requires ListsShrink(st, st1, now) && ListsShrink(st1, st2, now)
    ensures ListsShrink(st, st2, now)
  {
  }

  lemma RemoveShrinks<K, T>(m: map<K, Keyed<set<T>>>, k: K, xs: set<T>, now: int)
    ensures forall i :: Members(Remove(m, k, xs, now), i, now) == if i == k then Members(m, i, now) - xs else Members(m, i, now)
  {
  }

  lemma RemoveSessionsShrinks(m: map<User, SessionIndex>, u: User, js: set<Jti>, now: int)
    ensures forall v :: SessionMembers(RemoveSessions(m, u, js, now), v, now) == SessionMembers(m, v, now) - (if v == u then js else {})
  {
  }

  lemma FenceListsShrink(st: Store, f: Hash, u: User, nodeNow: int, cfg: Config, now: int)
    ensures ListsShrink(st, FenceFamily(st, f, u, nodeNow, cfg, now), now)
    ensures Unlisted(FenceFamily(st, f, u, nodeNow, cfg, now), f, u, ScoresFrom(Scores(st.familySessions, f, now), nodeNow),
                     Members(st.familyTokens, f, now), now)
  {
    RemoveShrinks(st.userFamilies, u, {f}, now);
    RemoveShrinks(st.userRefresh, u, Members(st.familyTokens, f, now), now);
    RemoveSessionsShrinks(st.userSessions, u, ScoresFrom(Scores(st.familySessions, f, now), nodeNow), now);
  }

  lemma RevokeListsShrink(st: Store, f: Hash, fallback: Option<User>, nodeNow: int, cfg: Config, now: int)
    ensures ListsShrink(st, RevokeFamily(st, f, fallback, nodeNow, cfg, now), now)
  {
    var u := FamilyUser(st, f, fallback, now);
    if u.Some? { FenceListsShrink(st, f, u.value, nodeNow, cfg, now); }
  }

  lemma ForgetListsShrink(st: Store, h: Hash, f: Option<Hash>, u: Option<User>, resolved: Option<User>, now: int)
    ensures ListsShrink(st, ForgetPresented(st, h, f, u, resolved, now), now)
    ensures u.Some? ==> h !in Members(ForgetPresented(st, h, f, u, resolved, now).userRefresh, u.value, now)
  {
    if u.Some? { RemoveShrinks(st.userRefresh, u.value, {h}, now); }
  }

  lemma PresentedListsShrink(st: Store, h: Hash, visited: Option<Hash>, nodeNow: int, cfg: Config, now: int)
    ensures ListsShrink(st, RevokePresentedRefresh(st, h, visited, nodeNow, cfg, now), now)
    ensures PresentedUser(st, h, now).Some? ==>
      h !in Members(RevokePresentedRefresh(st, h, visited, nodeNow, cfg, now).userRefresh, PresentedUser(st, h, now).value, now)
  {
    var f, u := PresentedFamily(st, h, now), PresentedUser(st, h, now);
    if f.None? {
      ForgetListsShrink(st, h, f, u, None, now);
    } else {
      var fenced := if visited == f then st else RevokeFamily(st, f.value, u, nodeNow, cfg, now);
      RevokeListsShrink(st, f.value, u, nodeNow, cfg, now);
      ForgetListsShrink(fenced, h, f, u, FamilyUser(st, f.value, u, now), now);
      ShrinkTwice(st, fenced, ForgetPresented(fenced, h, f, u, FamilyUser(st, f.value, u, now), now), now);
    }
  }

  lemma AccessListsShrink(st: Store, j: Jti, u: User, cfg: Config, now: int)
    ensures ListsShrink(st, RevokeAccessSession(st, j, u, cfg, now), now)
    ensures j !in SessionMembers(RevokeAccessSession(st, j, u, cfg, now).userSessions, u, now)
  {
    RemoveSessionsShrinks(st.userSessions, u, {j}, now);
  }

  lemma LogoutListsShrink(st: Store, l: LogoutArgs, cfg: Config, now: int)
    ensures var st1 := LogoutFamilies(st, l, cfg, now); var st2 := LogoutRefresh(st1, l, cfg, now);
      ListsShrink(st, st1, now) && ListsShrink(st1, st2, now) && ListsShrink(st2, Logout(st, l, cfg, now), now)
  {
    var st1 := LogoutFamilies(st, l, cfg, now);
    if AccessFamily(l).Some? { RevokeListsShrink(st, AccessFamily(l).value, Some(l.access.value.user), l.nodeNow, cfg, now); }
    if l.refreshHash.Some? { PresentedListsShrink(st1, l.refreshHash.value, AccessFamily(l), l.nodeNow, cfg, now); }
    if l.access.Some? { AccessListsShrink(LogoutRefresh(st1, l, cfg, now), l.access.value.jti, l.access.value.user, cfg, now); }
  }

  lemma FenceUnlists(st: Store, f: Hash, u: User, fallback: Option<User>, nodeNow: int, cfg: Config, now: int)
    requires Get(st.families, f, now) == Some(Family(true, u))
    ensures Unlisted(RevokeFamily(st, f, fallback, nodeNow, cfg, now), f, u, ScoresFrom(Scores(st.familySessions, f, now), nodeNow),
                     Members(st.familyTokens, f, now), now)
  {
    FenceListsShrink(st, f, u, nodeNow, cfg, now);
  }

  lemma PresentedUnlists(st: Store, h: Hash, visited: Option<Hash>, f: Hash, u: User, nodeNow: int, cfg: Config, now: int)
    requires PresentedFamily(st, h, now) == Some(f) && visited != Some(f) && Get(st.families, f, now) == Some(Family(true, u))
    ensures Unlisted(RevokePresentedRefresh(st, h, visited, nodeNow, cfg, now), f, u,
                     ScoresFrom(Scores(st.familySessions, f, now), nodeNow), Members(st.familyTokens, f, now), now)
  {
    var v := PresentedUser(st, h, now);
    var fenced := RevokeFamily(st, f, v, nodeNow, cfg, now);
    FenceUnlists(st, f, u, v, nodeNow, cfg, now);
    ForgetListsShrink(fenced, h, Some(f), v, FamilyUser(st, f, v, now), now);
    StaysUnlisted(fenced, RevokePresentedRefresh(st, h, visited, nodeNow, cfg, now), f, u,
                  ScoresFrom(Scores(st.familySessions, f, now), nodeNow), Members(st.familyTokens, f, now), now);
  }

  /** A logout takes every active family it names off all indexes of its account, with its running sessions and its tokens. */
  lemma LogoutUnlists(s: System, l: LogoutArgs, f: Hash, u: User, cfg: Config)
    requires cfg.Valid() && Reachable(s, cfg) && Enabled(s, RunLogout(l)) && Named(s, l, f)
    requires Get(s.store.families, f, s.now) == Some(Family(true, u))
    ensures Unlisted(Next(s, RunLogout(l), cfg).store, f, u, ScoresFrom(Scores(s.store.familySessions, f, s.now), l.nodeNow),
                     Members(s.store.familyTokens, f, s.now), s.now)
  {
    ReachableInv(s, cfg);
    var st, now := s.store, s.now;
    var js, hs := ScoresFrom(Scores(st.familySessions, f, now), l.nodeNow), Members(st.familyTokens, f, now);
    var st1 := LogoutFamilies(st, l, cfg, now);
    var st2 := LogoutRefresh(st1, l, cfg, now);
    LogoutListsShrink(st, l, cfg, now);
    if AccessFamily(l) == Some(f) {
      FenceUnlists(st, f, u, Some(l.access.value.user), l.nodeNow, cfg, now);
      StaysUnlisted(st1, st2, f, u, js, hs, now);
    } else {
      NamedSurvives(s, l, f, cfg);
      PresentedUnlists(st1, l.refreshHash.value, AccessFamily(l), f, u, l.nodeNow, cfg, now);
    }
    StaysUnlisted(st2, Logout(st, l, cfg, now), f, u, js, hs, now);
  }

  /** The presented session and the presented refresh token themselves are off their account's indexes in any case. */
  lemma PresentedUnlisted(st: Store, l: LogoutArgs, cfg: Config, now: int)
    ensures l.access.Some? ==>
      l.access.value.jti !in SessionMembers(Logout(st, l, cfg, now).userSessions, l.access.value.user, now)
    ensures l.refreshHash.Some? && Has(st.refresh, l.refreshHash.value, now) && AccessFamily(l).None? ==>
      l.refreshHash.value !in Members(Logout(st, l, cfg, now).userRefresh, st.refresh[l.refreshHash.value].value.user, now)
  {
    var st1 := LogoutFamilies(st, l, cfg, now);
    LogoutListsShrink(st, l, cfg, now);
    if l.refreshHash.Some? { PresentedListsShrink(st1, l.refreshHash.value, AccessFamily(l), l.nodeNow, cfg, now); }
    if l.access.Some? { AccessListsShrink(LogoutRefresh(st1, l, cfg, now), l.access.value.jti, l.access.value.user, cfg, now); }
  }

  /* ---------- revoke-all ---------- */

  /** A revoke-all empties the account's indexes, but for the spared session; a full one also those of its families. */
  lemma RevokeAllUnlists(st: Store, u: User, except: Option<Jti>, cfg: Config, now: int)
    ensures var st' := RevokeAll(st, u, except, cfg, now);
      && Members(st'.userRefresh, u, now) == {}
      && SessionMembers(st'.userSessions, u, now) == (if except.Some? then {except.value} else {})
      && (except.None? ==>
            && Members(st'.userFamilies, u, now) == {}
            && forall f :: f in Members(st.userFamilies, u, now) ==> f !in st'.familySessions && f !in st'.familyTokens)
      && (except.Some? ==> st'.userFamilies == st.userFamilies)
      && (forall v :: v != u ==>
            && Members(st'.userRefresh, v, now) == Members(st.userRefresh, v, now)
            && SessionMembers(st'.userSessions, v, now) == SessionMembers(st.userSessions, v, now)
            && Members(st'.userFamilies, v, now) == Members(st.userFamilies, v, now))
  {
  }
}
