/** Issuing a session keeps the session invariant. */
module SessionIssueProof {
  import opened SessionStore
  import opened SessionSystem
  import opened SessionIndexes

  lemma IssueHistory(hist: History, a: IssueArgs, cfg: Config)
    requires HistoryInv(hist, cfg) && a in hist.issues
    ensures HistoryInv(IssueRan(hist, a), cfg)
  {
    var hist' := IssueRan(hist, a);
    assert IssueSound(hist, a, cfg);
    forall j | j in hist'.tokens ensures TokenSound(hist', hist'.tokens[j]) {
      assert TokenSound(hist, hist.tokens[j]);
    }
    forall b | b in hist'.issues ensures IssueSound(hist', b, cfg) {
      assert IssueSound(hist, b, cfg);
    }
    forall b | b in hist'.rotations ensures RotationSound(hist', b, cfg) {
      assert RotationSound(hist, b, cfg);
    }
  }

  lemma IssueCapped(st: Store, hist: History, a: IssueArgs, cfg: Config, now: int)
    requires FamilySessionsCapped(st.familySessions) && a.hash !in hist.established
    requires FamilySessionsOwned(st.familySessions, hist.tokens, hist.established)
    ensures FamilySessionsCapped(Issue(st, a, cfg, now).familySessions)
  {
    assert Scores(st.familySessions, a.hash, now).Keys == {};
    ScoreCapped(st.familySessions, a.hash, a.jti, a.nodeNow + cfg.accessTtl, now, cfg.refreshTtl);
  }

  lemma IssueSessionOwners(st: Store, hist: History, hist': History, a: IssueArgs, cfg: Config, now: int)
    requires hist' == IssueRan(hist, a) && a.jti in hist.tokens && hist.tokens[a.jti].family == a.hash
    requires FamilySessionsOwned(st.familySessions, hist.tokens, hist.established)
    ensures FamilySessionsOwned(Issue(st, a, cfg, now).familySessions, hist'.tokens, hist'.established)
  {
  }

  lemma IssueUserSessions(st: Store, hist: History, a: IssueArgs, cfg: Config, now: int)
    requires a.jti in hist.tokens && hist.tokens[a.jti].user == a.user
    requires UserSessionsOwned(st.userSessions, hist.tokens)
    ensures UserSessionsOwned(Issue(st, a, cfg, now).userSessions, IssueRan(hist, a).tokens)
  {
    AddSessionOwned(st.userSessions, hist.tokens, a.user, a.jti, now, cfg.refreshTtl);
  }

  lemma IssueSigned(st: Store, hist: History, hist': History, a: IssueArgs, cfg: Config, now: int)
    requires hist' == IssueRan(hist, a) && a.jti in hist.tokens && hist.tokens[a.jti].family == a.hash
    requires SessionsSigned(st.sessions, hist.tokens, hist.established)
    ensures SessionsSigned(Issue(st, a, cfg, now).sessions, hist'.tokens, hist'.established)
  {
  }

  lemma IssueTokenOwners(st: Store, hist: History, hist': History, a: IssueArgs, cfg: Config, now: int)
    requires hist' == IssueRan(hist, a) && a.hash !in hist.memberOf && a.hash !in hist.established
    requires FamilyTokensOwned(st.familyTokens, hist.memberOf)
    requires UserRefreshOwned(st.userRefresh, hist.memberOf, hist.established)
    requires UserFamiliesOwned(st.userFamilies, hist.established)
    ensures FamilyTokensOwned(Issue(st, a, cfg, now).familyTokens, hist'.memberOf)
    ensures UserRefreshOwned(Issue(st, a, cfg, now).userRefresh, hist'.memberOf, hist'.established)
    ensures UserFamiliesOwned(Issue(st, a, cfg, now).userFamilies, hist'.established)
  {
  }

  lemma IssuePointerOwners(st: Store, hist: History, hist': History, a: IssueArgs, cfg: Config, now: int)
    requires hist' == IssueRan(hist, a) && a.hash !in hist.memberOf && a.hash !in hist.established
    requires AliasesOwned(st.aliases, hist.memberOf, hist.rotatedAt)
    requires LogoutReceiptsOwned(st.logoutReceipts, hist.memberOf, hist.established)
    requires TombstonesOwned(st.tombstones, hist.tokens, hist.established)
    ensures AliasesOwned(Issue(st, a, cfg, now).aliases, hist'.memberOf, hist'.rotatedAt)
    ensures LogoutReceiptsOwned(Issue(st, a, cfg, now).logoutReceipts, hist'.memberOf, hist'.established)
    ensures TombstonesOwned(Issue(st, a, cfg, now).tombstones, hist'.tokens, hist'.established)
  {
  }

  lemma IssueRecordOwners(st: Store, hist: History, hist': History, a: IssueArgs, cfg: Config, now: int)
    requires hist' == IssueRan(hist, a) && a.hash !in hist.memberOf && a.hash !in hist.established
    requires RecordsOwned(st.refresh, hist.memberOf, hist.established)
    ensures RecordsOwned(Issue(st, a, cfg, now).refresh, hist'.memberOf, hist'.established)
  {
  }

  lemma IssueOwnership(st: Store, hist: History, a: IssueArgs, cfg: Config, now: int)
    requires OwnershipInv(st, hist) && IssueSound(hist, a, cfg) && a.hash !in hist.established
    ensures OwnershipInv(Issue(st, a, cfg, now), IssueRan(hist, a))
  {
    IssueSessionOwners(st, hist, IssueRan(hist, a), a, cfg, now);
    IssueUserSessions(st, hist, a, cfg, now);
    IssueSigned(st, hist, IssueRan(hist, a), a, cfg, now);
    IssueRecordOwners(st, hist, IssueRan(hist, a), a, cfg, now);
    IssueTokenOwners(st, hist, IssueRan(hist, a), a, cfg, now);
    IssuePointerOwners(st, hist, IssueRan(hist, a), a, cfg, now);
  }

  lemma IssueRecords(st: Store, st': Store, established: map<Hash, User>, memberOf: map<Hash, Hash>, a: IssueArgs, cfg: Config, now: int)
    requires st' == Issue(st, a, cfg, now)
    requires RecordsIndexed(st.refresh, st.families, st.familyTokens, st.userRefresh, now, cfg.refreshTtl)
    requires RecordsOwned(st.refresh, memberOf, established) && a.hash !in established
    ensures RecordsIndexed(st'.refresh, st'.families, st'.familyTokens, st'.userRefresh, now, cfg.refreshTtl)
  {
    forall h | Has(st'.refresh, h, now)
      ensures RecordIndexed(st'.families, st'.familyTokens, st'.userRefresh, h, st'.refresh[h], now + cfg.refreshTtl)
    {
      if h != a.hash {
        var r := st.refresh[h];
        assert RecordIndexed(st.families, st.familyTokens, st.userRefresh, h, r, now + cfg.refreshTtl);
        AddKeeps(st.familyTokens, a.hash, a.hash, now, cfg.refreshTtl, r.value.family, h, r.until);
        AddKeeps(st.userRefresh, a.user, a.hash, now, cfg.refreshTtl, r.value.user, h, r.until);
      }
    }
  }

  lemma IssueFamilies(st: Store, st': Store, established: map<Hash, User>, established': map<Hash, User>, a: IssueArgs,
                      cfg: Config, now: int)
    requires st' == Issue(st, a, cfg, now) && established' == established[a.hash := a.user]
    requires FamiliesIndexed(st.families, st.userFamilies, established, now, cfg.refreshTtl)
    ensures FamiliesIndexed(st'.families, st'.userFamilies, established', now, cfg.refreshTtl)
  {
    forall f | Has(st'.families, f, now)
      ensures FamilyIndexed(st'.userFamilies, established', f, st'.families[f], now + cfg.refreshTtl)
    {
      if f != a.hash {
        var k := st.families[f];
        assert FamilyIndexed(st.userFamilies, established, f, k, now + cfg.refreshTtl);
        if k.value.active { AddKeeps(st.userFamilies, a.user, a.hash, now, cfg.refreshTtl, k.value.user, f, k.until); }
      }
    }
  }

  lemma IssueSessions(st: Store, st': Store, hist: History, a: IssueArgs, cfg: Config, now: int)
    requires st' == Issue(st, a, cfg, now)
    requires cfg.Valid() && IssueSound(hist, a, cfg) && a.hash !in hist.established
    requires FamiliesIndexed(st.families, st.userFamilies, hist.established, now, cfg.refreshTtl)
    requires SessionsSigned(st.sessions, hist.tokens, hist.established)
    requires SessionsIndexed(st.sessions, st.families, st.familySessions, st.userSessions, hist.tokens, now)
    ensures SessionsIndexed(st'.sessions, st'.families, st'.familySessions, st'.userSessions, hist.tokens, now)
  {
    forall j | Usable(st'.sessions, st'.families, hist.tokens, now, j)
      ensures ScoreIndexed(st'.familySessions, j, hist.tokens[j], st'.families[hist.tokens[j].family].until)
      ensures AccountIndexed(st'.userSessions, j, hist.tokens[j].user, st'.families[hist.tokens[j].family].until)
    {
      var t := hist.tokens[j];
      if j != a.jti {
        assert t.family != a.hash && Usable(st.sessions, st.families, hist.tokens, now, j);
        var until := st.families[t.family].until;
        ScoreKeeps(st.familySessions, a.hash, a.jti, a.nodeNow + cfg.accessTtl, now, cfg.refreshTtl, j, t, until);
        AddSessionKeeps(st.userSessions, a.user, a.jti, now, cfg.refreshTtl, j, t.user, until);
      }
    }
  }

  lemma IssueLinear(st: Store, st': Store, hist: History, a: IssueArgs, cfg: Config, now: int)
    requires st' == Issue(st, a, cfg, now)
    requires RotationLinear(st.refresh, st.rotationReceipts, hist.successor, now)
    requires RecordsOwned(st.refresh, hist.memberOf, hist.established)
    requires a.hash !in hist.successor && a.hash !in hist.established
    ensures RotationLinear(st'.refresh, st'.rotationReceipts, hist.successor, now)
  {
    forall h | h != a.hash && Has(st'.refresh, h, now) ensures Has(st.refresh, h, now) {
    }
  }

  lemma IssueInv(s: System, a: IssueArgs, cfg: Config)
    requires cfg.Valid() && Inv(s, cfg) && Enabled(s, RunIssue(a))
    ensures Inv(System(s.now, s.versions, Issue(s.store, a, cfg, s.now), IssueRan(s.hist, a)), cfg)
  {
    assert IssueSound(s.hist, a, cfg) && a.hash !in s.hist.established;
    var st', hist' := Issue(s.store, a, cfg, s.now), IssueRan(s.hist, a);
    IssueHistory(s.hist, a, cfg);
    IssueOwnership(s.store, s.hist, a, cfg, s.now);
    IssueCapped(s.store, s.hist, a, cfg, s.now);
    IssueRecords(s.store, st', s.hist.established, s.hist.memberOf, a, cfg, s.now);
    IssueFamilies(s.store, st', s.hist.established, hist'.established, a, cfg, s.now);
    IssueSessions(s.store, st', s.hist, a, cfg, s.now);
    if cfg.rotation { IssueLinear(s.store, st', s.hist, a, cfg, s.now); }
  }
}
