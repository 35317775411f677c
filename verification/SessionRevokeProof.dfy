/** Logging out and revoking everything keep the session invariant. */
module SessionRevokeProof {
  import opened Wrappers
  import opened SessionStore
  import opened SessionSystem
  import opened SessionIndexes

  lemma FewerRecords(refresh: map<Hash, Keyed<RefreshRecord>>, receipts: map<Hash, Keyed<Hash>>, gone: set<Hash>,
                     hist: History, now: int)
    requires RecordsOwned(refresh, hist.memberOf, hist.established)
    ensures RecordsOwned(refresh - gone, hist.memberOf, hist.established)
    ensures RotationLinear(refresh, receipts, hist.successor, now) ==>
              RotationLinear(refresh - gone, receipts, hist.successor, now)
  {
  }

  lemma FewerSessions(sessions: map<Jti, Keyed<User>>, gone: set<Jti>, hist: History)
    requires SessionsSigned(sessions, hist.tokens, hist.established)
    ensures SessionsSigned(sessions - gone, hist.tokens, hist.established)
  {
  }

  lemma FewerIndexes(st: Store, gone: set<Hash>, hist: History)
    requires FamilyTokensOwned(st.familyTokens, hist.memberOf)
    requires FamilySessionsOwned(st.familySessions, hist.tokens, hist.established)
    requires FamilySessionsCapped(st.familySessions)
    ensures FamilyTokensOwned(st.familyTokens - gone, hist.memberOf)
    ensures FamilySessionsOwned(st.familySessions - gone, hist.tokens, hist.established)
    ensures FamilySessionsCapped(st.familySessions - gone)
  {
  }

  /* ---------- fencing one family ---------- */

  lemma FenceReceipts(st: Store, hist: History, f: Hash, u: User, nodeNow: int, cfg: Config, now: int)
    requires f in hist.established && hist.established[f] == u
    requires FamilyTokensOwned(st.familyTokens, hist.memberOf)
    requires LogoutReceiptsOwned(st.logoutReceipts, hist.memberOf, hist.established)
    ensures LogoutReceiptsOwned(FenceFamily(st, f, u, nodeNow, cfg, now).logoutReceipts, hist.memberOf, hist.established)
  {
  }

  lemma FenceTombstones(st: Store, hist: History, f: Hash, u: User, nodeNow: int, cfg: Config, now: int)
    requires FamilySessionsOwned(st.familySessions, hist.tokens, hist.established)
    requires TombstonesOwned(st.tombstones, hist.tokens, hist.established)
    ensures TombstonesOwned(FenceFamily(st, f, u, nodeNow, cfg, now).tombstones, hist.tokens, hist.established)
  {
  }

  lemma FenceOwnership(st: Store, hist: History, f: Hash, u: User, nodeNow: int, cfg: Config, now: int)
    requires f in hist.established && hist.established[f] == u
    requires OwnershipInv(st, hist) && FamilySessionsCapped(st.familySessions)
    ensures OwnershipInv(FenceFamily(st, f, u, nodeNow, cfg, now), hist)
    ensures FamilySessionsCapped(FenceFamily(st, f, u, nodeNow, cfg, now).familySessions)
  {
    var ids := ScoresFrom(Scores(st.familySessions, f, now), nodeNow);
    var tokens := Members(st.familyTokens, f, now);
    FewerSessions(st.sessions, ids, hist);
    RemoveSessionsOwned(st.userSessions, hist.tokens, u, ids, now);
    FenceTombstones(st, hist, f, u, nodeNow, cfg, now);
    FewerRecords(st.refresh, st.rotationReceipts, tokens, hist, now);
    FewerIndexes(st, {f}, hist);
    RemoveRefreshOwned(st.userRefresh, hist.memberOf, hist.established, u, tokens, now);
    RemoveFamilyOwned(st.userFamilies, hist.established, u, {f}, now);
    FenceReceipts(st, hist, f, u, nodeNow, cfg, now);
  }

  lemma FenceRecords(st: Store, st': Store, f: Hash, u: User, nodeNow: int, cfg: Config, now: int)
    requires st' == FenceFamily(st, f, u, nodeNow, cfg, now)
    requires RecordsIndexed(st.refresh, st.families, st.familyTokens, st.userRefresh, now, cfg.refreshTtl)
    ensures RecordsIndexed(st'.refresh, st'.families, st'.familyTokens, st'.userRefresh, now, cfg.refreshTtl)
  {
    var tokens := Members(st.familyTokens, f, now);
    forall h | Has(st'.refresh, h, now)
      ensures RecordIndexed(st'.families, st'.familyTokens, st'.userRefresh, h, st'.refresh[h], now + cfg.refreshTtl)
    {
      var r := st.refresh[h];
      assert Has(st.refresh, h, now) && h !in tokens;
      assert RecordIndexed(st.families, st.familyTokens, st.userRefresh, h, r, now + cfg.refreshTtl);
      assert r.value.family != f;
      RemoveKeeps(st.userRefresh, u, tokens, now, r.value.user, h, r.until);
    }
  }

  lemma FenceFamilies(st: Store, st': Store, established: map<Hash, User>, f: Hash, u: User, nodeNow: int, cfg: Config, now: int)
    requires st' == FenceFamily(st, f, u, nodeNow, cfg, now)
    requires f in established && established[f] == u
    requires FamiliesIndexed(st.families, st.userFamilies, established, now, cfg.refreshTtl)
    ensures FamiliesIndexed(st'.families, st'.userFamilies, established, now, cfg.refreshTtl)
  {
    forall g | Has(st'.families, g, now)
      ensures FamilyIndexed(st'.userFamilies, established, g, st'.families[g], now + cfg.refreshTtl)
    {
      if g != f {
        var k := st.families[g];
        assert FamilyIndexed(st.userFamilies, established, g, k, now + cfg.refreshTtl);
        if k.value.active { RemoveKeeps(st.userFamilies, u, {f}, now, k.value.user, g, k.until); }
      }
    }
  }

  lemma FenceSessions(st: Store, st': Store, tokens: map<Jti, AccessToken>, f: Hash, u: User, nodeNow: int, cfg: Config, now: int)
    requires st' == FenceFamily(st, f, u, nodeNow, cfg, now)
    requires SessionsIndexed(st.sessions, st.families, st.familySessions, st.userSessions, tokens, now)
    ensures SessionsIndexed(st'.sessions, st'.families, st'.familySessions, st'.userSessions, tokens, now)
  {
    var ids := ScoresFrom(Scores(st.familySessions, f, now), nodeNow);
    forall j | Usable(st'.sessions, st'.families, tokens, now, j)
      ensures ScoreIndexed(st'.familySessions, j, tokens[j], st'.families[tokens[j].family].until)
      ensures AccountIndexed(st'.userSessions, j, tokens[j].user, st'.families[tokens[j].family].until)
    {
      var t := tokens[j];
      assert t.family != f && j !in ids && Usable(st.sessions, st.families, tokens, now, j);
      RemoveSessionsKeeps(st.userSessions, u, ids, now, j, t.user, st.families[t.family].until);
    }
  }

  lemma FenceKeeps(st: Store, hist: History, f: Hash, u: User, nodeNow: int, cfg: Config, now: int)
    requires StoreInv(st, hist, now, cfg) && f in hist.established && hist.established[f] == u
    ensures StoreInv(FenceFamily(st, f, u, nodeNow, cfg, now), hist, now, cfg)
  {
    var st' := FenceFamily(st, f, u, nodeNow, cfg, now);
    FenceOwnership(st, hist, f, u, nodeNow, cfg, now);
    FenceRecords(st, st', f, u, nodeNow, cfg, now);
    FenceFamilies(st, st', hist.established, f, u, nodeNow, cfg, now);
    FenceSessions(st, st', hist.tokens, f, u, nodeNow, cfg, now);
    FewerRecords(st.refresh, st.rotationReceipts, Members(st.familyTokens, f, now), hist, now);
  }

  /** A fallback account, if one is needed, is the family's own. */
  lemma RevokeFamilyKeeps(st: Store, hist: History, f: Hash, fallback: Option<User>, nodeNow: int, cfg: Config, now: int)
    requires StoreInv(st, hist, now, cfg) && f in hist.established
    requires fallback.Some? ==> fallback.value == hist.established[f]
    ensures StoreInv(RevokeFamily(st, f, fallback, nodeNow, cfg, now), hist, now, cfg)
    ensures FamilyUser(st, f, fallback, now) in {None, Some(hist.established[f])}
  {
    if Has(st.families, f, now) {
      assert FamilyIndexed(st.userFamilies, hist.established, f, st.families[f], now + cfg.refreshTtl);
    }
    if FamilyUser(st, f, fallback, now).Some? {
      FenceKeeps(st, hist, f, hist.established[f], nodeNow, cfg, now);
    }
  }

  /* ---------- the presented credentials ---------- */

  lemma ForgetRecords(st: Store, st': Store, h: Hash, f: Option<Hash>, u: Option<User>, resolved: Option<User>, ttl: int, now: int)
    requires st' == ForgetPresented(st, h, f, u, resolved, now)
    requires RecordsIndexed(st.refresh, st.families, st.familyTokens, st.userRefresh, now, ttl)
    ensures RecordsIndexed(st'.refresh, st'.families, st'.familyTokens, st'.userRefresh, now, ttl)
  {
    forall k | Has(st'.refresh, k, now)
      ensures RecordIndexed(st'.families, st'.familyTokens, st'.userRefresh, k, st'.refresh[k], now + ttl)
    {
      var r := st.refresh[k];
      assert k != h && Has(st.refresh, k, now);
      assert RecordIndexed(st.families, st.familyTokens, st.userRefresh, k, r, now + ttl);
      if u.Some? { RemoveKeeps(st.userRefresh, u.value, {h}, now, r.value.user, k, r.until); }
    }
  }

  lemma ForgetReceipts(st: Store, hist: History, h: Hash, f: Option<Hash>, u: Option<User>, resolved: Option<User>, now: int)
    requires f.Some? && resolved.Some? ==> Owns(hist.memberOf, hist.established, h, f.value, resolved.value)
    requires LogoutReceiptsOwned(st.logoutReceipts, hist.memberOf, hist.established)
    ensures LogoutReceiptsOwned(ForgetPresented(st, h, f, u, resolved, now).logoutReceipts, hist.memberOf, hist.established)
  {
  }

  lemma ForgetKeeps(st: Store, hist: History, h: Hash, f: Option<Hash>, u: Option<User>, resolved: Option<User>, cfg: Config, now: int)
    requires StoreInv(st, hist, now, cfg)
    requires f.Some? && resolved.Some? ==> Owns(hist.memberOf, hist.established, h, f.value, resolved.value)
    ensures StoreInv(ForgetPresented(st, h, f, u, resolved, now), hist, now, cfg)
  {
    FewerRecords(st.refresh, st.rotationReceipts, {h}, hist, now);
    ForgetReceipts(st, hist, h, f, u, resolved, now);
    ForgetRecords(st, ForgetPresented(st, h, f, u, resolved, now), h, f, u, resolved, cfg.refreshTtl, now);
    if u.Some? { RemoveRefreshOwned(st.userRefresh, hist.memberOf, hist.established, u.value, {h}, now); }
  }

  /** Alias, record and receipt of a token name its own family and its own account. */
  lemma PresentedOwned(st: Store, hist: History, h: Hash, now: int)
    requires OwnershipInv(st, hist)
    requires FamiliesKnown(hist)
    ensures var f, u := PresentedFamily(st, h, now), PresentedUser(st, h, now);
            && (f.Some? ==> h in hist.memberOf && hist.memberOf[h] == f.value && f.value in hist.established)
            && (u.Some? ==> f.Some? && hist.established[f.value] == u.value)
  {
  }

  lemma PresentedKeeps(st: Store, hist: History, h: Hash, visited: Option<Hash>, nodeNow: int, cfg: Config, now: int)
    requires StoreInv(st, hist, now, cfg) && FamiliesKnown(hist)
    ensures StoreInv(RevokePresentedRefresh(st, h, visited, nodeNow, cfg, now), hist, now, cfg)
  {
    var u, f := PresentedUser(st, h, now), PresentedFamily(st, h, now);
    PresentedOwned(st, hist, h, now);
    if f.None? {
      ForgetKeeps(st, hist, h, f, u, None, cfg, now);
    } else {
      RevokeFamilyKeeps(st, hist, f.value, u, nodeNow, cfg, now);
      var fenced := if visited == f then st else RevokeFamily(st, f.value, u, nodeNow, cfg, now);
      ForgetKeeps(fenced, hist, h, f, u, FamilyUser(st, f.value, u, now), cfg, now);
    }
  }

  lemma AccessSessionKeeps(st: Store, hist: History, j: Jti, u: User, cfg: Config, now: int)
    requires StoreInv(st, hist, now, cfg) && j in hist.tokens && hist.tokens[j].family in hist.established
    ensures StoreInv(RevokeAccessSession(st, j, u, cfg, now), hist, now, cfg)
  {
    var st' := RevokeAccessSession(st, j, u, cfg, now);
    FewerSessions(st.sessions, {j}, hist);
    RemoveSessionsOwned(st.userSessions, hist.tokens, u, {j}, now);
    AccessSessions(st, st', hist.tokens, j, u, cfg, now);
  }

  lemma AccessSessions(st: Store, st': Store, tokens: map<Jti, AccessToken>, j: Jti, u: User, cfg: Config, now: int)
    requires st' == RevokeAccessSession(st, j, u, cfg, now)
    requires SessionsIndexed(st.sessions, st.families, st.familySessions, st.userSessions, tokens, now)
    ensures SessionsIndexed(st'.sessions, st'.families, st'.familySessions, st'.userSessions, tokens, now)
  {
    forall k | Usable(st'.sessions, st'.families, tokens, now, k)
      ensures ScoreIndexed(st'.familySessions, k, tokens[k], st'.families[tokens[k].family].until)
      ensures AccountIndexed(st'.userSessions, k, tokens[k].user, st'.families[tokens[k].family].until)
    {
      assert k != j && Usable(st.sessions, st.families, tokens, now, k);
      RemoveSessionsKeeps(st.userSessions, u, {j}, now, k, tokens[k].user, st.families[tokens[k].family].until);
    }
  }

  lemma LogoutFamiliesKeeps(st: Store, hist: History, a: LogoutArgs, cfg: Config, now: int)
    requires StoreInv(st, hist, now, cfg) && TokensSound(hist)
    requires a.access.Some? ==> PresentsSignedToken(hist, a.access.value, a.nodeNow)
    ensures StoreInv(LogoutFamilies(st, a, cfg, now), hist, now, cfg)
  {
    if AccessFamily(a).Some? {
      assert TokenSound(hist, hist.tokens[a.access.value.jti]);
      RevokeFamilyKeeps(st, hist, a.access.value.family, Some(a.access.value.user), a.nodeNow, cfg, now);
    }
  }

  lemma LogoutKeeps(st: Store, hist: History, a: LogoutArgs, cfg: Config, now: int)
    requires StoreInv(st, hist, now, cfg) && TokensSound(hist) && FamiliesKnown(hist)
    requires a.access.Some? ==> PresentsSignedToken(hist, a.access.value, a.nodeNow)
    ensures StoreInv(Logout(st, a, cfg, now), hist, now, cfg)
  {
    LogoutFamiliesKeeps(st, hist, a, cfg, now);
    var st1 := LogoutFamilies(st, a, cfg, now);
    if a.refreshHash.Some? {
      PresentedKeeps(st1, hist, a.refreshHash.value, AccessFamily(a), a.nodeNow, cfg, now);
    }
    var st2 := LogoutRefresh(st1, a, cfg, now);
    if a.access.Some? { AccessSessionKeeps(st2, hist, a.access.value.jti, a.access.value.user, cfg, now); }
  }

  lemma LogoutInv(s: System, a: LogoutArgs, cfg: Config)
    requires Inv(s, cfg) && Enabled(s, RunLogout(a))
    ensures Inv(s.(store := Logout(s.store, a, cfg, s.now)), cfg)
  {
    LogoutKeeps(s.store, s.hist, a, cfg, s.now);
  }

  /* ---------- revoking everything ---------- */

  lemma AllRecords(st: Store, st': Store, hist: History, u: User, except: Option<Jti>, cfg: Config, now: int)
    requires st' == RevokeAll(st, u, except, cfg, now)
    requires RecordsOwned(st.refresh, hist.memberOf, hist.established)
    requires UserFamiliesOwned(st.userFamilies, hist.established)
    requires RecordsIndexed(st.refresh, st.families, st.familyTokens, st.userRefresh, now, cfg.refreshTtl)
    ensures RecordsIndexed(st'.refresh, st'.families, st'.familyTokens, st'.userRefresh, now, cfg.refreshTtl)
    ensures forall h :: Has(st'.refresh, h, now) ==> st'.refresh[h].value.user != u
  {
    forall h | Has(st'.refresh, h, now)
      ensures RecordIndexed(st'.families, st'.familyTokens, st'.userRefresh, h, st'.refresh[h], now + cfg.refreshTtl)
      ensures st'.refresh[h].value.user != u
    {
      var r := st.refresh[h];
      assert Has(st.refresh, h, now) && h !in Members(st.userRefresh, u, now);
      assert RecordIndexed(st.families, st.familyTokens, st.userRefresh, h, r, now + cfg.refreshTtl);
      assert r.value.family !in Members(st.userFamilies, u, now);
    }
  }

  lemma AllFamilies(st: Store, st': Store, established: map<Hash, User>, u: User, except: Option<Jti>, cfg: Config, now: int)
    requires st' == RevokeAll(st, u, except, cfg, now)
    requires UserFamiliesOwned(st.userFamilies, established)
    requires FamiliesIndexed(st.families, st.userFamilies, established, now, cfg.refreshTtl)
    ensures FamiliesIndexed(st'.families, st'.userFamilies, established, now, cfg.refreshTtl)
    ensures except.None? ==> forall f :: f in established && established[f] == u ==> !ActiveFamily(st', f, now)
  {
    var fs := Members(st.userFamilies, u, now);
    forall g | Has(st'.families, g, now)
      ensures FamilyIndexed(st'.userFamilies, established, g, st'.families[g], now + cfg.refreshTtl)
      ensures except.None? && established[g] == u ==> !st'.families[g].value.active
    {
      if except.Some? || g !in fs {
        assert Has(st.families, g, now);
        assert FamilyIndexed(st.userFamilies, established, g, st.families[g], now + cfg.refreshTtl);
      }
    }
  }

  lemma AllSessions(st: Store, st': Store, hist: History, u: User, except: Option<Jti>, cfg: Config, now: int)
    requires st' == RevokeAll(st, u, except, cfg, now)
    requires UserFamiliesOwned(st.userFamilies, hist.established)
    requires FamiliesIndexed(st.families, st.userFamilies, hist.established, now, cfg.refreshTtl)
    requires SessionsIndexed(st.sessions, st.families, st.familySessions, st.userSessions, hist.tokens, now)
    ensures SessionsIndexed(st'.sessions, st'.families, st'.familySessions, st'.userSessions, hist.tokens, now)
    ensures forall j :: Usable(st'.sessions, st'.families, hist.tokens, now, j) && hist.tokens[j].user == u ==> Some(j) == except
  {
    var fs := Members(st.userFamilies, u, now);
    forall j | Usable(st'.sessions, st'.families, hist.tokens, now, j)
      ensures ScoreIndexed(st'.familySessions, j, hist.tokens[j], st'.families[hist.tokens[j].family].until)
      ensures AccountIndexed(st'.userSessions, j, hist.tokens[j].user, st'.families[hist.tokens[j].family].until)
      ensures hist.tokens[j].user == u ==> Some(j) == except
    {
      var t := hist.tokens[j];
      assert except.None? ==> t.family !in fs;
      assert Usable(st.sessions, st.families, hist.tokens, now, j);
      assert FamilyIndexed(st.userFamilies, hist.established, t.family, st.families[t.family], now + cfg.refreshTtl);
    }
  }

  lemma AllOwnership(st: Store, hist: History, u: User, except: Option<Jti>, cfg: Config, now: int)
    requires OwnershipInv(st, hist) && FamilySessionsCapped(st.familySessions)
    requires except.Some? ==> SignedFor(hist.tokens, except.value, u)
    ensures OwnershipInv(RevokeAll(st, u, except, cfg, now), hist)
    ensures FamilySessionsCapped(RevokeAll(st, u, except, cfg, now).familySessions)
  {
    var spared := if except.Some? then {except.value} else {};
    FewerSessions(st.sessions, SessionMembers(st.userSessions, u, now) - spared, hist);
    FewerRecords(st.refresh, st.rotationReceipts, Members(st.userRefresh, u, now), hist, now);
    if except.None? { FewerIndexes(st, Members(st.userFamilies, u, now), hist); }
    AllUserIndexes(st, hist, u);
    AllSessionIndexes(st, hist, u, except);
  }

  lemma AllUserIndexes(st: Store, hist: History, u: User)
    requires UserRefreshOwned(st.userRefresh, hist.memberOf, hist.established)
    requires UserFamiliesOwned(st.userFamilies, hist.established)
    ensures UserRefreshOwned(st.userRefresh - {u}, hist.memberOf, hist.established)
    ensures UserFamiliesOwned(st.userFamilies - {u}, hist.established)
  {
  }

  lemma AllSessionIndexes(st: Store, hist: History, u: User, except: Option<Jti>)
    requires UserSessionsOwned(st.userSessions, hist.tokens)
    requires except.Some? ==> SignedFor(hist.tokens, except.value, u)
    ensures UserSessionsOwned(st.userSessions - {u}, hist.tokens)
    ensures except.Some? ==> UserSessionsOwned(st.userSessions[u := SessionIndex({except.value}, None)], hist.tokens)
  {
  }

  lemma RevokeAllKeeps(st: Store, hist: History, u: User, except: Option<Jti>, cfg: Config, now: int)
    requires StoreInv(st, hist, now, cfg) && (except.Some? ==> SignedFor(hist.tokens, except.value, u))
    ensures StoreInv(RevokeAll(st, u, except, cfg, now), hist, now, cfg)
  {
    var st' := RevokeAll(st, u, except, cfg, now);
    AllOwnership(st, hist, u, except, cfg, now);
    AllRecords(st, st', hist, u, except, cfg, now);
    AllFamilies(st, st', hist.established, u, except, cfg, now);
    AllSessions(st, st', hist, u, except, cfg, now);
    FewerRecords(st.refresh, st.rotationReceipts, Members(st.userRefresh, u, now), hist, now);
  }
  lemma RevokeAllInv(s: System, u: User, except: Option<Jti>, cfg: Config)
    requires Inv(s, cfg) && Enabled(s, RunRevokeAll(u, except))
    ensures Inv(s.(store := RevokeAll(s.store, u, except, cfg, s.now)), cfg)
  {
    RevokeAllKeeps(s.store, s.hist, u, except, cfg, s.now);
  }
}
