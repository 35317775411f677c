/** Rotating a refresh token keeps the session invariant. */
module SessionRotateProof {
  import opened SessionStore
  import opened SessionSystem
  import opened SessionIndexes

  /* ---------- pruning ---------- */

  lemma PruneSessions(st: Store, hist: History, a: RotateArgs, now: int)
    requires a.nodeNow <= now
    requires FamilySessionsOwned(st.familySessions, hist.tokens, hist.established)
    requires SessionsIndexed(st.sessions, st.families, st.familySessions, st.userSessions, hist.tokens, now)
    ensures SessionsIndexed(st.sessions, st.families, Prune(st, a, now).familySessions, Prune(st, a, now).userSessions,
                            hist.tokens, now)
  {
    var f := a.record.family;
    var expired := ScoresUpTo(Scores(st.familySessions, f, now), a.nodeNow);
    forall j | Usable(st.sessions, st.families, hist.tokens, now, j)
      ensures ScoreIndexed(Prune(st, a, now).familySessions, j, hist.tokens[j], st.families[hist.tokens[j].family].until)
      ensures AccountIndexed(Prune(st, a, now).userSessions, j, hist.tokens[j].user, st.families[hist.tokens[j].family].until)
    {
      var t := hist.tokens[j];
      var until := st.families[t.family].until;
      DropScoresKeeps(st.familySessions, f, a.nodeNow, now, j, t, until);
      RemoveSessionsKeeps(st.userSessions, a.record.user, expired, now, j, t.user, until);
    }
  }

  lemma PruneKeeps(st: Store, hist: History, a: RotateArgs, now: int, cfg: Config)
    requires a.nodeNow <= now
    requires OwnershipInv(st, hist) && IndexInv(st, hist, now, cfg) && FamilySessionsCapped(st.familySessions)
    ensures OwnershipInv(Prune(st, a, now), hist) && IndexInv(Prune(st, a, now), hist, now, cfg)
    ensures FamilySessionsCapped(Prune(st, a, now).familySessions)
  {
    DropScoresOwned(st.familySessions, hist.tokens, hist.established, a.record.family, a.nodeNow, now);
    DropScoresCapped(st.familySessions, a.record.family, a.nodeNow, now);
    RemoveSessionsOwned(st.userSessions, hist.tokens, a.record.user,
                        ScoresUpTo(Scores(st.familySessions, a.record.family, now), a.nodeNow), now);
    PruneSessions(st, hist, a, now);
  }

  /* ---------- committing: the history ---------- */

  function Rotated(hist: History, a: RotateArgs, now: int): History {
    hist.(
    memberOf := hist.memberOf[a.newHash := a.record.family],
    successor := hist.successor[a.presented := a.newHash],
    rotatedAt := hist.rotatedAt[a.presented := now])
  }

  lemma RotatedHistory(hist: History, a: RotateArgs, cfg: Config, now: int)
    requires HistoryInv(hist, cfg) && a in hist.rotations
    ensures HistoryInv(Rotated(hist, a, now), cfg)
  {
    var hist' := Rotated(hist, a, now);
    assert RotationSound(hist, a, cfg);
    forall j | j in hist'.tokens ensures TokenSound(hist', hist'.tokens[j]) {
      assert TokenSound(hist, hist.tokens[j]);
    }
    forall b | b in hist'.issues ensures IssueSound(hist', b, cfg) {
      assert IssueSound(hist, b, cfg);
    }
    forall p | p in hist'.observed ensures Owns(hist'.memberOf, hist'.established, p.0, p.1.family, p.1.user) {
      assert Owns(hist.memberOf, hist.established, p.0, p.1.family, p.1.user);
    }
    forall b | b in hist'.rotations ensures RotationSound(hist', b, cfg) {
      assert RotationSound(hist, b, cfg);
    }
  }

  /* ---------- committing: ownership ---------- */

  /** What a rotation may rely on when it commits. */
  predicate Ready(hist: History, a: RotateArgs, cfg: Config) {
    && RotationSound(hist, a, cfg)
    && (a.newHash in hist.memberOf ==> hist.memberOf[a.newHash] == a.record.family)
  }

  lemma CommitSessionOwners(st: Store, hist: History, a: RotateArgs, cfg: Config, now: int)
    requires Ready(hist, a, cfg)
    requires SessionsSigned(st.sessions, hist.tokens, hist.established)
    requires FamilySessionsOwned(st.familySessions, hist.tokens, hist.established)
    requires UserSessionsOwned(st.userSessions, hist.tokens)
    ensures SessionsSigned(Commit(st, a, cfg, now).sessions, hist.tokens, hist.established)
    ensures FamilySessionsOwned(Commit(st, a, cfg, now).familySessions, hist.tokens, hist.established)
    ensures UserSessionsOwned(Commit(st, a, cfg, now).userSessions, hist.tokens)
  {
    AddSessionOwned(st.userSessions, hist.tokens, a.record.user, a.jti, now, cfg.refreshTtl);
    ScoreOwned(st.familySessions, hist.tokens, hist.established, a.record.family, a.jti, a.nodeNow + cfg.accessTtl, now, cfg.refreshTtl);
  }

  lemma CommitFamilyTokens(st: Store, hist: History, a: RotateArgs, cfg: Config, now: int)
    requires Ready(hist, a, cfg) && FamilyTokensOwned(st.familyTokens, hist.memberOf)
    ensures FamilyTokensOwned(Commit(st, a, cfg, now).familyTokens, hist.memberOf[a.newHash := a.record.family])
  {
    var memberOf' := hist.memberOf[a.newHash := a.record.family];
    assert FamilyTokensOwned(st.familyTokens, memberOf');
    AddTokenOwned(st.familyTokens, memberOf', a.record.family, a.newHash, now, cfg.refreshTtl);
    RemoveTokenOwned(Add(st.familyTokens, a.record.family, a.newHash, now, cfg.refreshTtl), memberOf', a.record.family,
                     if cfg.rotation then {a.presented} else {}, now);
  }

  lemma CommitUserRefresh(st: Store, hist: History, a: RotateArgs, cfg: Config, now: int)
    requires Ready(hist, a, cfg) && UserRefreshOwned(st.userRefresh, hist.memberOf, hist.established)
    ensures UserRefreshOwned(Commit(st, a, cfg, now).userRefresh, hist.memberOf[a.newHash := a.record.family], hist.established)
  {
    var memberOf' := hist.memberOf[a.newHash := a.record.family];
    assert UserRefreshOwned(st.userRefresh, memberOf', hist.established);
    AddRefreshOwned(st.userRefresh, memberOf', hist.established, a.record.user, a.newHash, now, cfg.refreshTtl);
    RemoveRefreshOwned(Add(st.userRefresh, a.record.user, a.newHash, now, cfg.refreshTtl), memberOf', hist.established,
                       a.record.user, if cfg.rotation then {a.presented} else {}, now);
  }

  lemma CommitRecordOwners(st: Store, hist: History, a: RotateArgs, cfg: Config, now: int)
    requires Ready(hist, a, cfg) && RecordsOwned(st.refresh, hist.memberOf, hist.established)
    ensures RecordsOwned(Commit(st, a, cfg, now).refresh, hist.memberOf[a.newHash := a.record.family], hist.established)
  {
  }

  lemma CommitUserFamilies(st: Store, hist: History, a: RotateArgs, cfg: Config, now: int)
    requires Ready(hist, a, cfg) && UserFamiliesOwned(st.userFamilies, hist.established)
    ensures UserFamiliesOwned(Commit(st, a, cfg, now).userFamilies, hist.established)
  {
    AddFamilyOwned(st.userFamilies, hist.established, a.record.user, a.record.family, now, cfg.refreshTtl);
  }

  lemma CommitPointers(st: Store, hist: History, a: RotateArgs, cfg: Config, now: int)
    requires Ready(hist, a, cfg)
    requires AliasesOwned(st.aliases, hist.memberOf, hist.rotatedAt)
    requires LogoutReceiptsOwned(st.logoutReceipts, hist.memberOf, hist.established)
    ensures AliasesOwned(Commit(st, a, cfg, now).aliases, hist.memberOf[a.newHash := a.record.family],
                         hist.rotatedAt[a.presented := now])
    ensures LogoutReceiptsOwned(st.logoutReceipts, hist.memberOf[a.newHash := a.record.family], hist.established)
  {
  }

  lemma CommitOwnership(st: Store, hist: History, a: RotateArgs, cfg: Config, now: int)
    requires Ready(hist, a, cfg) && OwnershipInv(st, hist)
    ensures OwnershipInv(Commit(st, a, cfg, now), Rotated(hist, a, now))
  {
    CommitSessionOwners(st, hist, a, cfg, now);
    CommitFamilyTokens(st, hist, a, cfg, now);
    CommitUserRefresh(st, hist, a, cfg, now);
    CommitUserFamilies(st, hist, a, cfg, now);
    CommitRecordOwners(st, hist, a, cfg, now);
    CommitPointers(st, hist, a, cfg, now);
  }

  /* ---------- committing: the indexes ---------- */

  /** The presented record is live, so its family is active for its account. */
  predicate Continues(st: Store, a: RotateArgs, now: int) {
    && Has(st.refresh, a.presented, now) && st.refresh[a.presented].value == a.record
    && Has(st.families, a.record.family, now)
    && st.families[a.record.family].value == Family(true, a.record.user)
  }

  lemma CommitRecords(st: Store, st': Store, a: RotateArgs, cfg: Config, now: int)
    requires st' == Commit(st, a, cfg, now) && Continues(st, a, now) && a.newHash != a.presented
    requires RecordsIndexed(st.refresh, st.families, st.familyTokens, st.userRefresh, now, cfg.refreshTtl)
    ensures RecordsIndexed(st'.refresh, st'.families, st'.familyTokens, st'.userRefresh, now, cfg.refreshTtl)
  {
    var f, u := a.record.family, a.record.user;
    var spent := if cfg.rotation then {a.presented} else {};
    forall h | Has(st'.refresh, h, now)
      ensures RecordIndexed(st'.families, st'.familyTokens, st'.userRefresh, h, st'.refresh[h], now + cfg.refreshTtl)
    {
      assert h !in spent;
      var tokens := Add(st.familyTokens, f, a.newHash, now, cfg.refreshTtl);
      var owned := Add(st.userRefresh, u, a.newHash, now, cfg.refreshTtl);
      var r := st'.refresh[h];
      if h != a.newHash {
        assert RecordIndexed(st.families, st.familyTokens, st.userRefresh, h, r, now + cfg.refreshTtl);
        AddKeeps(st.familyTokens, f, a.newHash, now, cfg.refreshTtl, r.value.family, h, r.until);
        AddKeeps(st.userRefresh, u, a.newHash, now, cfg.refreshTtl, r.value.user, h, r.until);
      }
      RemoveKeeps(tokens, f, spent, now, r.value.family, h, r.until);
      RemoveKeeps(owned, u, spent, now, r.value.user, h, r.until);
    }
  }

  lemma CommitFamilies(st: Store, st': Store, established: map<Hash, User>, a: RotateArgs, cfg: Config, now: int)
    requires st' == Commit(st, a, cfg, now) && Continues(st, a, now)
    requires FamiliesIndexed(st.families, st.userFamilies, established, now, cfg.refreshTtl)
    ensures FamiliesIndexed(st'.families, st'.userFamilies, established, now, cfg.refreshTtl)
  {
    var f := a.record.family;
    assert FamilyIndexed(st.userFamilies, established, f, st.families[f], now + cfg.refreshTtl);
    forall g | Has(st'.families, g, now)
      ensures FamilyIndexed(st'.userFamilies, established, g, st'.families[g], now + cfg.refreshTtl)
    {
      if g != f {
        var k := st.families[g];
        assert FamilyIndexed(st.userFamilies, established, g, k, now + cfg.refreshTtl);
        if k.value.active { AddKeeps(st.userFamilies, a.record.user, f, now, cfg.refreshTtl, k.value.user, g, k.until); }
      }
    }
  }

  lemma CommitSessions(st: Store, st': Store, hist: History, a: RotateArgs, cfg: Config, now: int)
    requires st' == Commit(st, a, cfg, now) && Continues(st, a, now) && RotationSound(hist, a, cfg)
    requires FamiliesIndexed(st.families, st.userFamilies, hist.established, now, cfg.refreshTtl)
    requires SessionsIndexed(st.sessions, st.families, st.familySessions, st.userSessions, hist.tokens, now)
    ensures SessionsIndexed(st'.sessions, st'.families, st'.familySessions, st'.userSessions, hist.tokens, now)
  {
    var f, u := a.record.family, a.record.user;
    forall j | Usable(st'.sessions, st'.families, hist.tokens, now, j)
      ensures ScoreIndexed(st'.familySessions, j, hist.tokens[j], st'.families[hist.tokens[j].family].until)
      ensures AccountIndexed(st'.userSessions, j, hist.tokens[j].user, st'.families[hist.tokens[j].family].until)
    {
      var t := hist.tokens[j];
      if j != a.jti {
        assert Usable(st.sessions, st.families, hist.tokens, now, j);
        var until := st.families[t.family].until;
        ScoreKeeps(st.familySessions, f, a.jti, a.nodeNow + cfg.accessTtl, now, cfg.refreshTtl, j, t, until);
        if t.family == f {
          AddSessionLasts(st.userSessions, u, a.jti, now, cfg.refreshTtl, j, until);
        } else {
          AddSessionKeeps(st.userSessions, u, a.jti, now, cfg.refreshTtl, j, t.user, until);
        }
      }
    }
  }

  lemma CommitLinear(st: Store, st': Store, hist: History, a: RotateArgs, cfg: Config, now: int)
    requires st' == Commit(st, a, cfg, now) && cfg.rotation && Continues(st, a, now)
    requires a.presented !in hist.successor && a.newHash !in hist.successor && a.newHash != a.presented
    requires RotationLinear(st.refresh, st.rotationReceipts, hist.successor, now)
    ensures RotationLinear(st'.refresh, st'.rotationReceipts, hist.successor[a.presented := a.newHash], now)
  {
    forall h | Has(st'.refresh, h, now)
      ensures h != a.presented && (h != a.newHash ==> Has(st.refresh, h, now) && st'.refresh[h] == st.refresh[h])
    {
    }
  }

  lemma CommitCapped(st: Store, a: RotateArgs, cfg: Config, now: int)
    requires FamilySessionsCapped(st.familySessions) && HasCapacity(st, a, now)
    ensures FamilySessionsCapped(Commit(st, a, cfg, now).familySessions)
  {
    ScoreCapped(st.familySessions, a.record.family, a.jti, a.nodeNow + cfg.accessTtl, now, cfg.refreshTtl);
  }

  /* ---------- the script ---------- */

  lemma CommitInv(s: System, st: Store, a: RotateArgs, cfg: Config)
    requires HistoryInv(s.hist, cfg) && a in s.hist.rotations
    requires OwnershipInv(st, s.hist) && IndexInv(st, s.hist, s.now, cfg) && FamilySessionsCapped(st.familySessions)
    requires cfg.rotation ==> RotationLinear(st.refresh, st.rotationReceipts, s.hist.successor, s.now)
    requires Continues(st, a, s.now) && HasCapacity(st, a, s.now)
    ensures Inv(System(s.now, s.versions, Commit(st, a, cfg, s.now), Rotated(s.hist, a, s.now)), cfg)
  {
    var st' := Commit(st, a, cfg, s.now);
    assert RotationSound(s.hist, a, cfg);
    RotatedHistory(s.hist, a, cfg, s.now);
    CommitOwnership(st, s.hist, a, cfg, s.now);
    CommitRecords(st, st', a, cfg, s.now);
    CommitFamilies(st, st', s.hist.established, a, cfg, s.now);
    CommitSessions(st, st', s.hist, a, cfg, s.now);
    CommitCapped(st, a, cfg, s.now);
    if cfg.rotation {
      assert a.presented !in s.hist.successor && a.newHash !in s.hist.successor;
      CommitLinear(st, st', s.hist, a, cfg, s.now);
    }
  }

  lemma PresentedContinues(st: Store, a: RotateArgs, cfg: Config, now: int)
    requires RecordsIndexed(st.refresh, st.families, st.familyTokens, st.userRefresh, now, cfg.refreshTtl)
    requires PresentedRecordLive(st, a, now)
    ensures Continues(st, a, now) && !FamilyForbids(st, a, now)
  {
    assert RecordIndexed(st.families, st.familyTokens, st.userRefresh, a.presented, st.refresh[a.presented], now + cfg.refreshTtl);
  }

  /** What a committing rotation writes among the keys by which credentials are judged. */
  predicate Installed(st: Store, st': Store, a: RotateArgs, cfg: Config, now: int) {
    && st'.families == st.families[a.record.family := Keyed(Family(true, a.record.user), now + cfg.refreshTtl)]
    && st'.sessions == st.sessions[a.jti := Keyed(a.record.user, now + cfg.accessTtl)]
    && st'.refresh == st.refresh[a.newHash := Keyed(a.Successor(), now + cfg.refreshTtl)] - (if cfg.rotation then {a.presented} else {})
    && st'.rotationReceipts == st.rotationReceipts[a.presented := Keyed(a.newHash, now + REFRESH_ROTATION_RECEIPT_TTL_SECONDS)]
    && st'.tombstones == st.tombstones
  }

  /** A rotation that does not commit leaves those keys alone. */
  predicate Unmoved(st: Store, st': Store) {
    && st'.families == st.families && st'.sessions == st.sessions && st'.refresh == st.refresh
    && st'.rotationReceipts == st.rotationReceipts && st'.tombstones == st.tombstones
  }

  lemma RotateWrites(st: Store, a: RotateArgs, cfg: Config, now: int)
    ensures var st' := Rotate(st, a, cfg, now);
            if Installs(st, a, now) then Installed(st, st', a, cfg, now) else Unmoved(st, st')
  {
    var pruned := Prune(st, a, now);
    if PresentedRecordLive(st, a, now) && !FamilyForbids(st, a, now) {
      PruneMovesNothing(st, a, now);
      if HasCapacity(pruned, a, now) { CommitWrites(pruned, a, cfg, now); }
    }
  }

  lemma PruneMovesNothing(st: Store, a: RotateArgs, now: int)
    ensures Unmoved(st, Prune(st, a, now))
  {
  }

  lemma CommitWrites(st: Store, a: RotateArgs, cfg: Config, now: int)
    ensures Installed(st, Commit(st, a, cfg, now), a, cfg, now)
  {
  }

  lemma RotateInv(s: System, a: RotateArgs, cfg: Config)
    requires Inv(s, cfg) && Enabled(s, RunRotate(a))
    ensures Inv(System(s.now, s.versions, Rotate(s.store, a, cfg, s.now), RotationRan(s.hist, s.store, a, s.now)), cfg)
  {
    if PresentedRecordLive(s.store, a, s.now) {
      PresentedContinues(s.store, a, cfg, s.now);
      PruneKeeps(s.store, s.hist, a, s.now, cfg);
      var pruned := Prune(s.store, a, s.now);
      if HasCapacity(pruned, a, s.now) {
        CommitInv(s, pruned, a, cfg);
      }
    }
  }
}
