/** What exactly each script answers and changes for every credential, and how long a credential lasts. */
module SessionAnswers {
  import opened Wrappers
  import opened SessionStore
  import opened SessionSystem
  import opened SessionRotateProof
  import opened SessionRevokeProof
  import opened SessionTheorems
  import opened SessionRotationTheorems

  /* ---------- the answer of a rotation ---------- */

  /** The ids in the family's index, other than `but`, whose score is after `bound`. */
  function Crowd(st: Store, f: Hash, but: Jti, bound: int, now: int): set<Jti> {
    if f in st.familySessions && now < st.familySessions[f].until then
      set j | j in st.familySessions[f].value && j != but && bound < st.familySessions[f].value[j]
    else {}
  }

  lemma PrunedIsCrowd(st: Store, a: RotateArgs, now: int)
    ensures var z := Scores(Prune(st, a, now).familySessions, a.record.family, now);
      z.Keys - {a.jti} == Crowd(st, a.record.family, a.jti, a.nodeNow, now)
  {
  }

  lemma CapacityIsRoom(st: Store, a: RotateArgs, now: int)
    ensures HasCapacity(Prune(st, a, now), a, now) <==> |Crowd(st, a.record.family, a.jti, a.nodeNow, now)| < 512
  {
    PrunedIsCrowd(st, a, now);
    var ks := Scores(Prune(st, a, now).familySessions, a.record.family, now).Keys;
    if a.jti in ks { assert ks == (ks - {a.jti}) + {a.jti}; } else { assert ks - {a.jti} == ks; }
  }

  /**
   A live refresh token is rotated exactly when fewer than 512 other sessions of its family are still running; else the
   answer is that there are too many.  Unless it commits, a rotation changes nothing for any credential.
   */
  lemma RotationAnswer(s: System, a: RotateArgs, cfg: Config)
    requires cfg.Valid() && Reachable(s, cfg) && Enabled(s, RunRotate(a))
    ensures Get(s.store.refresh, a.presented, s.now) == Some(a.record) ==>
      RotateOutcome(s.store, a, s.now) ==
        if |Crowd(s.store, a.record.family, a.jti, a.nodeNow, s.now)| < 512 then Committed else OverCapacity
    ensures Get(s.store.refresh, a.presented, s.now) != Some(a.record) || RotateOutcome(s.store, a, s.now) != Committed ==>
      var t := Next(s, RunRotate(a), cfg);
      (forall j :: Accepted(t, j) <==> Accepted(s, j)) && t.store.refresh == s.store.refresh
  {
    ReachableInv(s, cfg);
    CapacityIsRoom(s.store, a, s.now);
    if PresentedRecordLive(s.store, a, s.now) { PresentedContinues(s.store, a, cfg, s.now); }
    RotateWrites(s.store, a, cfg, s.now);
  }

  /* ---------- what a logout leaves ---------- */

  predicate Same<K, T(==)>(m: map<K, T>, m': map<K, T>, k: K) {
    (k in m' <==> k in m) && (k in m ==> m'[k] == m[k])
  }

  /** State, sessions and live records of family `f` are as they were, but for the session `but`. */
  ghost predicate FamilyKept(st: Store, st': Store, tokens: map<Jti, AccessToken>, f: Hash, but: Option<Jti>, now: int) {
    && Same(st.families, st'.families, f)
    && (forall j :: j in tokens && tokens[j].family == f && Some(j) != but ==>
          Same(st.sessions, st'.sessions, j) && Same(st.tombstones, st'.tombstones, j))
    && (forall h :: Has(st.refresh, h, now) && st.refresh[h].value.family == f ==> Same(st.refresh, st'.refresh, h))
  }

  lemma KeptTwice(st: Store, st1: Store, st2: Store, tokens: map<Jti, AccessToken>, f: Hash, but: Option<Jti>, now: int)
    requires FamilyKept(st, st1, tokens, f, None, now) && FamilyKept(st1, st2, tokens, f, but, now)
    ensures FamilyKept(st, st2, tokens, f, but, now)
  {
  }

  lemma FenceKeepsFamily(st: Store, hist: History, g: Hash, fallback: Option<User>, f: Hash, nodeNow: int, cfg: Config, now: int)
    requires OwnershipInv(st, hist) && g != f
    ensures FamilyKept(st, RevokeFamily(st, g, fallback, nodeNow, cfg, now), hist.tokens, f, None, now)
  {
    FenceSparesRecords(st, hist, g, fallback, f, nodeNow, cfg, now);
    FenceKeepsSessions(st, hist, g, fallback, f, nodeNow, cfg, now);
    FenceAddsNoMarks(st, hist, g, fallback, f, nodeNow, cfg, now);
  }

  lemma FenceKeepsSessions(st: Store, hist: History, g: Hash, fallback: Option<User>, f: Hash, nodeNow: int, cfg: Config, now: int)
    requires FamilySessionsOwned(st.familySessions, hist.tokens, hist.established) && g != f
    ensures var st' := RevokeFamily(st, g, fallback, nodeNow, cfg, now);
      forall j :: j in hist.tokens && hist.tokens[j].family == f ==> Same(st.sessions, st'.sessions, j)
  {
    var ids := ScoresFrom(Scores(st.familySessions, g, now), nodeNow);
    assert forall j :: j in ids ==> j in hist.tokens && hist.tokens[j].family == g;
    WithoutKeepsSame(st.sessions, ids);
  }

  lemma WithoutKeepsSame<K, T>(m: map<K, T>, ks: set<K>)
    ensures forall k :: k !in ks ==> Same(m, m - ks, k)
  {
  }

  lemma FenceAddsNoMarks(st: Store, hist: History, g: Hash, fallback: Option<User>, f: Hash, nodeNow: int, cfg: Config, now: int)
    requires FamilySessionsOwned(st.familySessions, hist.tokens, hist.established) && g != f
    ensures var st' := RevokeFamily(st, g, fallback, nodeNow, cfg, now);
      forall j :: j in hist.tokens && hist.tokens[j].family == f ==> Same(st.tombstones, st'.tombstones, j)
  {
    assert forall j :: j in Scores(st.familySessions, g, now) ==> j in hist.tokens && hist.tokens[j].family == g;
  }

  lemma ForgetKeepsFamily(st: Store, hist: History, h: Hash, g: Option<Hash>, u: Option<User>, resolved: Option<User>, f: Hash, now: int)
    requires Has(st.refresh, h, now) ==> st.refresh[h].value.family != f
    ensures FamilyKept(st, ForgetPresented(st, h, g, u, resolved, now), hist.tokens, f, None, now)
  {
  }

  /** The families that a logout names: by an unexpired access token, or by its refresh token. */
  predicate Named(s: System, l: LogoutArgs, f: Hash) {
    || AccessFamily(l) == Some(f)
    || (l.refreshHash.Some? && PresentedFamily(s.store, l.refreshHash.value, s.now) == Some(f))
  }

  lemma PresentedKeepsFamily(st: Store, hist: History, h: Hash, visited: Option<Hash>, f: Hash, nodeNow: int, cfg: Config, now: int)
    requires OwnershipInv(st, hist) && FamiliesKnown(hist) && PresentedFamily(st, h, now) != Some(f)
    ensures FamilyKept(st, RevokePresentedRefresh(st, h, visited, nodeNow, cfg, now), hist.tokens, f, None, now)
  {
    var g, u := PresentedFamily(st, h, now), PresentedUser(st, h, now);
    PresentedOwned(st, hist, h, now);
    if g.None? {
      ForgetKeepsFamily(st, hist, h, g, u, None, f, now);
    } else {
      var fenced := if visited == g then st else RevokeFamily(st, g.value, u, nodeNow, cfg, now);
      if visited != g {
        FenceKeepsFamily(st, hist, g.value, u, f, nodeNow, cfg, now);
        FenceShrinks(st, g.value, u, nodeNow, cfg, now);
      }
      ForgetAfterFence(st, fenced, hist, h, g, u, FamilyUser(st, g.value, u, now), f, now);
    }
  }

  lemma ForgetAfterFence(st: Store, fenced: Store, hist: History, h: Hash, g: Option<Hash>, u: Option<User>,
                         resolved: Option<User>, f: Hash, now: int)
    requires FamilyKept(st, fenced, hist.tokens, f, None, now) && Shrinks(st, fenced)
    requires Has(st.refresh, h, now) ==> st.refresh[h].value.family != f
    ensures FamilyKept(st, ForgetPresented(fenced, h, g, u, resolved, now), hist.tokens, f, None, now)
  {
    var st' := ForgetPresented(fenced, h, g, u, resolved, now);
    ForgetKeepsFamily(fenced, hist, h, g, u, resolved, f, now);
    KeptTwice(st, fenced, st', hist.tokens, f, None, now);
  }

  lemma AccessKeepsFamily(st: Store, tokens: map<Jti, AccessToken>, j: Jti, u: User, f: Hash, cfg: Config, now: int)
    ensures FamilyKept(st, RevokeAccessSession(st, j, u, cfg, now), tokens, f, Some(j), now)
  {
  }

  function AccessId(l: LogoutArgs): Option<Jti> {
    if l.access.Some? then Some(l.access.value.jti) else None
  }

  lemma LogoutKeepsUnnamed(s: System, l: LogoutArgs, f: Hash, cfg: Config)
    requires Inv(s, cfg) && Enabled(s, RunLogout(l)) && !Named(s, l, f)
    ensures FamilyKept(s.store, Logout(s.store, l, cfg, s.now), s.hist.tokens, f, AccessId(l), s.now)
  {
    var st, tokens := s.store, s.hist.tokens;
    var st1 := LogoutFamilies(st, l, cfg, s.now);
    var st2 := LogoutRefresh(st1, l, cfg, s.now);
    FamiliesKeepUnnamed(s, l, f, cfg);
    RefreshKeepsUnnamed(st1, s.hist, l, f, cfg, s.now);
    KeptTwice(st, st1, st2, tokens, f, None, s.now);
    if l.access.Some? {
      var st3 := RevokeAccessSession(st2, l.access.value.jti, l.access.value.user, cfg, s.now);
      AccessKeepsFamily(st2, tokens, l.access.value.jti, l.access.value.user, f, cfg, s.now);
      KeptTwice(st, st2, st3, tokens, f, AccessId(l), s.now);
    }
  }

  lemma FamiliesKeepUnnamed(s: System, l: LogoutArgs, f: Hash, cfg: Config)
    requires Inv(s, cfg) && Enabled(s, RunLogout(l)) && !Named(s, l, f)
    ensures var st1 := LogoutFamilies(s.store, l, cfg, s.now);
      && OwnershipInv(st1, s.hist) && FamilyKept(s.store, st1, s.hist.tokens, f, None, s.now)
      && (l.refreshHash.Some? ==> PresentedFamily(st1, l.refreshHash.value, s.now) != Some(f))
  {
    LogoutFamiliesKeeps(s.store, s.hist, l, cfg, s.now);
    if AccessFamily(l).Some? {
      var g, u := AccessFamily(l).value, Some(l.access.value.user);
      FenceKeepsFamily(s.store, s.hist, g, u, f, l.nodeNow, cfg, s.now);
      if l.refreshHash.Some? { NamedElsewhere(s.store, g, u, l.refreshHash.value, f, l.nodeNow, cfg, s.now); }
    }
  }

  lemma RefreshKeepsUnnamed(st: Store, hist: History, l: LogoutArgs, f: Hash, cfg: Config, now: int)
    requires OwnershipInv(st, hist) && FamiliesKnown(hist)
    requires l.refreshHash.Some? ==> PresentedFamily(st, l.refreshHash.value, now) != Some(f)
    ensures FamilyKept(st, LogoutRefresh(st, l, cfg, now), hist.tokens, f, None, now)
  {
    if l.refreshHash.Some? {
      PresentedKeepsFamily(st, hist, l.refreshHash.value, AccessFamily(l), f, l.nodeNow, cfg, now);
    }
  }

  /** What the keys of its family say about a token. */
  lemma KeptVerdict(s: System, st': Store, j: Jti, but: Option<Jti>)
    requires j in s.hist.tokens && FamilyKept(s.store, st', s.hist.tokens, s.hist.tokens[j].family, but, s.now) && Some(j) != but
    ensures Accepted(s.(store := st'), j) <==> Accepted(s, j)
  {
  }

  lemma NamedDies(s: System, l: LogoutArgs, f: Hash, cfg: Config)
    requires Inv(s, cfg) && Enabled(s, RunLogout(l)) && Named(s, l, f)
    ensures Dead(Next(s, RunLogout(l), cfg), f)
  {
    if AccessFamily(l) == Some(f) { LogoutFencesAccess(s, l, cfg); } else { LogoutFencesNamed(s, l, l.refreshHash.value, cfg); }
  }

  lemma LogoutVerdict(s: System, l: LogoutArgs, j: Jti, cfg: Config)
    requires Inv(s, cfg) && Enabled(s, RunLogout(l)) && j in s.hist.tokens
    ensures Accepted(Next(s, RunLogout(l), cfg), j) <==> Accepted(s, j) && !Named(s, l, s.hist.tokens[j].family)
  {
    var f := s.hist.tokens[j].family;
    if Named(s, l, f) {
      NamedDies(s, l, f, cfg);
    } else if AccessId(l) != Some(j) {
      LogoutKeepsUnnamed(s, l, f, cfg);
      KeptVerdict(s, Logout(s.store, l, cfg, s.now), j, AccessId(l));
    }
  }

  lemma LogoutRecord(s: System, l: LogoutArgs, h: Hash, cfg: Config)
    requires cfg.Valid() && Inv(s, cfg) && Enabled(s, RunLogout(l))
    ensures var before := Get(s.store.refresh, h, s.now);
      Get(Next(s, RunLogout(l), cfg).store.refresh, h, s.now) ==
        if before.Some? && Named(s, l, before.value.family) then None else before
  {
    LogoutShrinks(s.store, l, cfg, s.now);
    if Has(s.store.refresh, h, s.now) {
      if Named(s, l, s.store.refresh[h].value.family) {
        NamedRecordGone(s, l, h, cfg);
      } else {
        UnnamedRecordStays(s, l, h, cfg);
      }
    }
  }

  lemma UnnamedRecordStays(s: System, l: LogoutArgs, h: Hash, cfg: Config)
    requires Inv(s, cfg) && Enabled(s, RunLogout(l)) && Has(s.store.refresh, h, s.now)
    requires !Named(s, l, s.store.refresh[h].value.family)
    ensures Same(s.store.refresh, Logout(s.store, l, cfg, s.now).refresh, h)
  {
    LogoutKeepsUnnamed(s, l, s.store.refresh[h].value.family, cfg);
  }

  lemma NamedRecordGone(s: System, l: LogoutArgs, h: Hash, cfg: Config)
    requires cfg.Valid() && Inv(s, cfg) && Enabled(s, RunLogout(l)) && Has(s.store.refresh, h, s.now)
    requires Named(s, l, s.store.refresh[h].value.family)
    ensures !Has(Logout(s.store, l, cfg, s.now).refresh, h, s.now)
  {
    var f := s.store.refresh[h].value.family;
    NamedDies(s, l, f, cfg);
    StepInv(s, RunLogout(l), cfg);
    LogoutShrinks(s.store, l, cfg, s.now);
    DeadHasNoRecord(Next(s, RunLogout(l), cfg), f, h, s.store.refresh[h], cfg);
  }

  lemma DeadHasNoRecord(t: System, f: Hash, h: Hash, record: Keyed<RefreshRecord>, cfg: Config)
    requires Inv(t, cfg) && Dead(t, f) && record.value.family == f
    requires h in t.store.refresh ==> t.store.refresh[h] == record
    ensures !Has(t.store.refresh, h, t.now)
  {
    if Has(t.store.refresh, h, t.now) { LiveRecordIndexed(t, h, cfg); }
  }

  /**
   The whole effect of a logout: exactly the access tokens and refresh records of the families
   it names are good no more, and all others are as good as before.
   */
  lemma LogoutExactly(s: System, l: LogoutArgs, cfg: Config)
    requires cfg.Valid() && Reachable(s, cfg) && Enabled(s, RunLogout(l))
    ensures var t := Next(s, RunLogout(l), cfg);
      && (forall j :: j in s.hist.tokens ==>
            (Accepted(t, j) <==> Accepted(s, j) && !Named(s, l, s.hist.tokens[j].family)))
      && (forall h :: Get(t.store.refresh, h, t.now) ==
            var before := Get(s.store.refresh, h, s.now);
            if before.Some? && Named(s, l, before.value.family) then None else before)
  {
    ReachableInv(s, cfg);
    forall j | j in s.hist.tokens
      ensures Accepted(Next(s, RunLogout(l), cfg), j) <==> Accepted(s, j) && !Named(s, l, s.hist.tokens[j].family)
    {
      LogoutVerdict(s, l, j, cfg);
    }
    forall h ensures Get(Next(s, RunLogout(l), cfg).store.refresh, h, s.now) ==
        var before := Get(s.store.refresh, h, s.now);
        if before.Some? && Named(s, l, before.value.family) then None else before
    {
      LogoutRecord(s, l, h, cfg);
    }
  }

  /* ---------- the marks that a logout leaves ---------- */

  /** The session is marked as revoked for as long as any refresh token can live. */
  predicate Marked(st: Store, j: Jti, cfg: Config, now: int) {
    j in st.tombstones && st.tombstones[j] == Keyed(true, now + cfg.refreshTtl)
  }

  /** For eight days the token leads back to its family and account. */
  predicate Receipted(st: Store, h: Hash, f: Hash, u: User, now: int) {
    h in st.logoutReceipts && st.logoutReceipts[h] == Keyed(LogoutReceipt(u, f), now + 691_200)
  }

  lemma FenceMarks(st: Store, f: Hash, fallback: Option<User>, nodeNow: int, cfg: Config, now: int)
    requires Has(st.families, f, now)
    ensures var st' := RevokeFamily(st, f, fallback, nodeNow, cfg, now); var u := st.families[f].value.user;
      && (forall j :: j in Scores(st.familySessions, f, now) && nodeNow <= Scores(st.familySessions, f, now)[j] ==>
            Marked(st', j, cfg, now))
      && (forall h :: h in Members(st.familyTokens, f, now) ==> Receipted(st', h, f, u, now))
      && f in st'.families && st'.families[f] == Keyed(Family(false, u), now + cfg.refreshTtl)
  {
  }

  /** A fence adds marks and moves nothing of another family's indexes. */
  lemma FenceKeepsMarks(st: Store, g: Hash, fallback: Option<User>, nodeNow: int, cfg: Config, now: int)
    ensures var st' := RevokeFamily(st, g, fallback, nodeNow, cfg, now);
      && (forall j :: Marked(st, j, cfg, now) ==> Marked(st', j, cfg, now))
      && (forall f :: f != g ==> Same(st.familySessions, st'.familySessions, f) && Same(st.familyTokens, st'.familyTokens, f)
                                 && Same(st.families, st'.families, f))
  {
  }

  /** The part of the script that deals with the refresh token keeps the marks of the part before. */
  lemma PresentedKeepsMarks(st: Store, h: Hash, visited: Option<Hash>, nodeNow: int, cfg: Config, now: int)
    ensures forall j :: Marked(st, j, cfg, now) ==> Marked(RevokePresentedRefresh(st, h, visited, nodeNow, cfg, now), j, cfg, now)
  {
    var g, u := PresentedFamily(st, h, now), PresentedUser(st, h, now);
    if g.Some? { FenceKeepsMarks(st, g.value, u, nodeNow, cfg, now); }
  }

  lemma PresentedMarks(st: Store, h: Hash, visited: Option<Hash>, f: Hash, nodeNow: int, cfg: Config, now: int)
    requires PresentedFamily(st, h, now) == Some(f) && visited != Some(f) && Has(st.families, f, now)
    ensures var st' := RevokePresentedRefresh(st, h, visited, nodeNow, cfg, now); var u := st.families[f].value.user;
      && (forall j :: j in Scores(st.familySessions, f, now) && nodeNow <= Scores(st.familySessions, f, now)[j] ==>
            Marked(st', j, cfg, now))
      && (forall k :: k in Members(st.familyTokens, f, now) ==> Receipted(st', k, f, u, now))
      && Receipted(st', h, f, u, now)
  {
    FenceMarks(st, f, PresentedUser(st, h, now), nodeNow, cfg, now);
  }

  /** A logout marks its own session, and every session of a named family that was accepted until then. */
  lemma LogoutMarks(s: System, l: LogoutArgs, cfg: Config)
    requires cfg.Valid() && Reachable(s, cfg) && Enabled(s, RunLogout(l))
    ensures var t := Next(s, RunLogout(l), cfg);
      && (l.access.Some? ==> Marked(t.store, l.access.value.jti, cfg, s.now))
      && (forall j :: Accepted(s, j) && Named(s, l, s.hist.tokens[j].family) ==> Marked(t.store, j, cfg, s.now))
  {
    ReachableInv(s, cfg);
    forall j | Accepted(s, j) && Named(s, l, s.hist.tokens[j].family)
      ensures Marked(Logout(s.store, l, cfg, s.now), j, cfg, s.now)
    {
      NamedIsMarked(s, l, j, cfg);
    }
  }

  lemma NamedIsMarked(s: System, l: LogoutArgs, j: Jti, cfg: Config)
    requires cfg.Valid() && Inv(s, cfg) && Enabled(s, RunLogout(l)) && Accepted(s, j) && Named(s, l, s.hist.tokens[j].family)
    ensures Marked(Logout(s.store, l, cfg, s.now), j, cfg, s.now)
  {
    var f := s.hist.tokens[j].family;
    var st1 := LogoutFamilies(s.store, l, cfg, s.now);
    assert Usable(s.store.sessions, s.store.families, s.hist.tokens, s.now, j);
    assert ScoreIndexed(s.store.familySessions, j, s.hist.tokens[j], s.store.families[f].until);
    if AccessFamily(l) == Some(f) {
      FenceMarks(s.store, f, Some(l.access.value.user), l.nodeNow, cfg, s.now);
      if l.refreshHash.Some? { PresentedKeepsMarks(st1, l.refreshHash.value, AccessFamily(l), l.nodeNow, cfg, s.now); }
    } else {
      NamedSurvives(s, l, f, cfg);
      PresentedMarks(st1, l.refreshHash.value, AccessFamily(l), f, l.nodeNow, cfg, s.now);
    }
    MarksSurvive(LogoutRefresh(st1, l, cfg, s.now), l, j, cfg, s.now);
  }

  lemma MarksSurvive(st: Store, l: LogoutArgs, j: Jti, cfg: Config, now: int)
    requires Marked(st, j, cfg, now)
    ensures l.access.Some? ==> Marked(RevokeAccessSession(st, l.access.value.jti, l.access.value.user, cfg, now), j, cfg, now)
  {
  }

  /** A family named by the refresh token alone is still named, with its indexes, after the access token's family is fenced. */
  lemma NamedSurvives(s: System, l: LogoutArgs, f: Hash, cfg: Config)
    requires Inv(s, cfg) && Enabled(s, RunLogout(l)) && ActiveFamily(s.store, f, s.now)
    requires AccessFamily(l) != Some(f) && Named(s, l, f)
    ensures var st, st1 := s.store, LogoutFamilies(s.store, l, cfg, s.now);
      && Same(st.familySessions, st1.familySessions, f) && Same(st.familyTokens, st1.familyTokens, f)
      && Same(st.families, st1.families, f)
      && PresentedFamily(st1, l.refreshHash.value, s.now) == Some(f)
  {
    var h := l.refreshHash.value;
    PresentedOwned(s.store, s.hist, h, s.now);
    NameSurvives(s, l, h, cfg);
    if AccessFamily(l).Some? {
      FenceKeepsMarks(s.store, AccessFamily(l).value, Some(l.access.value.user), l.nodeNow, cfg, s.now);
    }
  }

  /** Later parts of the script leave the receipt of a fenced family's token as it is. */
  lemma PresentedKeepsReceipt(st: Store, hist: History, h: Hash, k: Hash, f: Hash, u: User, nodeNow: int, cfg: Config, now: int)
    requires OwnershipInv(st, hist) && FamiliesKnown(hist)
    requires k in hist.memberOf && hist.memberOf[k] == f && Receipted(st, k, f, u, now)
    requires Has(st.families, f, now) && st.families[f].value.user == u
    ensures Receipted(RevokePresentedRefresh(st, h, Some(f), nodeNow, cfg, now), k, f, u, now)
  {
    var g, v := PresentedFamily(st, h, now), PresentedUser(st, h, now);
    PresentedOwned(st, hist, h, now);
    if g.None? {
      ForgetKeepsReceipt(st, h, g, v, None, k, f, u, now);
    } else {
      var fenced := if g == Some(f) then st else RevokeFamily(st, g.value, v, nodeNow, cfg, now);
      if g.value != f { FenceKeepsReceipt(st, hist, g.value, v, k, f, u, nodeNow, cfg, now); }
      ForgetKeepsReceipt(fenced, h, g, v, FamilyUser(st, g.value, v, now), k, f, u, now);
    }
  }

  lemma ForgetKeepsReceipt(st: Store, h: Hash, g: Option<Hash>, v: Option<User>, resolved: Option<User>, k: Hash, f: Hash, u: User,
                           now: int)
    requires Receipted(st, k, f, u, now) && (h == k && g.Some? && resolved.Some? ==> g == Some(f) && resolved == Some(u))
    ensures Receipted(ForgetPresented(st, h, g, v, resolved, now), k, f, u, now)
  {
  }

  lemma FenceKeepsReceipt(st: Store, hist: History, g: Hash, fallback: Option<User>, k: Hash, f: Hash, u: User, nodeNow: int,
                          cfg: Config, now: int)
    requires FamilyTokensOwned(st.familyTokens, hist.memberOf) && g != f
    requires k in hist.memberOf && hist.memberOf[k] == f && Receipted(st, k, f, u, now)
    ensures Receipted(RevokeFamily(st, g, fallback, nodeNow, cfg, now), k, f, u, now)
  {
    assert k !in Members(st.familyTokens, g, now);
  }

  /** Every live refresh token of a named family gets a receipt that leads back to its family and account. */
  lemma LogoutReceipts(s: System, l: LogoutArgs, h: Hash, cfg: Config)
    requires cfg.Valid() && Reachable(s, cfg) && Enabled(s, RunLogout(l))
    requires Has(s.store.refresh, h, s.now) && Named(s, l, s.store.refresh[h].value.family)
    ensures var r := s.store.refresh[h].value;
      Receipted(Next(s, RunLogout(l), cfg).store, h, r.family, r.user, s.now)
  {
    ReachableInv(s, cfg);
    LiveRecordIndexed(s, h, cfg);
    var r := s.store.refresh[h].value;
    assert Owns(s.hist.memberOf, s.hist.established, h, r.family, r.user);
    if AccessFamily(l) == Some(r.family) {
      ReceiptByAccess(s, l, h, r.family, r.user, cfg);
    } else {
      ReceiptByRefresh(s, l, h, r.family, r.user, cfg);
    }
    LastKeepsReceipts(s.store, l, cfg, s.now);
  }

  lemma LastKeepsReceipts(st: Store, l: LogoutArgs, cfg: Config, now: int)
    ensures Logout(st, l, cfg, now).logoutReceipts == LogoutRefresh(LogoutFamilies(st, l, cfg, now), l, cfg, now).logoutReceipts
  {
  }

  lemma ReceiptByRefresh(s: System, l: LogoutArgs, h: Hash, f: Hash, u: User, cfg: Config)
    requires Inv(s, cfg) && Enabled(s, RunLogout(l)) && AccessFamily(l) != Some(f) && Named(s, l, f)
    requires h in Members(s.store.familyTokens, f, s.now) && Get(s.store.families, f, s.now) == Some(Family(true, u))
    ensures Receipted(LogoutRefresh(LogoutFamilies(s.store, l, cfg, s.now), l, cfg, s.now), h, f, u, s.now)
  {
    NamedSurvives(s, l, f, cfg);
    PresentedMarks(LogoutFamilies(s.store, l, cfg, s.now), l.refreshHash.value, AccessFamily(l), f, l.nodeNow, cfg, s.now);
  }

  lemma ReceiptByAccess(s: System, l: LogoutArgs, h: Hash, f: Hash, u: User, cfg: Config)
    requires cfg.Valid() && Inv(s, cfg) && Enabled(s, RunLogout(l)) && AccessFamily(l) == Some(f)
    requires h in s.hist.memberOf && s.hist.memberOf[h] == f && h in Members(s.store.familyTokens, f, s.now)
    requires Get(s.store.families, f, s.now) == Some(Family(true, u))
    ensures Receipted(LogoutRefresh(LogoutFamilies(s.store, l, cfg, s.now), l, cfg, s.now), h, f, u, s.now)
  {
    LogoutFamiliesKeeps(s.store, s.hist, l, cfg, s.now);
    FenceMarks(s.store, f, Some(l.access.value.user), l.nodeNow, cfg, s.now);
    if l.refreshHash.Some? {
      PresentedKeepsReceipt(LogoutFamilies(s.store, l, cfg, s.now), s.hist, l.refreshHash.value, h, f, u, l.nodeNow, cfg, s.now);
    }
  }

  /* ---------- what a revoke-all leaves ---------- */

  lemma SparedStays(s: System, u: User, j: Jti, cfg: Config)
    requires Enabled(s, RunRevokeAll(u, Some(j)))
    ensures Accepted(Next(s, RunRevokeAll(u, Some(j)), cfg), j) <==> Accepted(s, j)
  {
  }

  /**
   The whole effect of a revoke-all: of the account exactly the spared session stays accepted, and no refresh record
   stays live; for everybody else nothing changes.
   */
  lemma RevokeAllExactly(s: System, u: User, except: Option<Jti>, cfg: Config)
    requires cfg.Valid() && Reachable(s, cfg) && Enabled(s, RunRevokeAll(u, except))
    ensures var t := Next(s, RunRevokeAll(u, except), cfg);
      && (forall j :: j in s.hist.tokens ==>
            (Accepted(t, j) <==> Accepted(s, j) && (s.hist.tokens[j].user == u ==> except == Some(j))))
      && (forall h :: Get(t.store.refresh, h, t.now) ==
            var before := Get(s.store.refresh, h, s.now);
            if before.Some? && before.value.user == u then None else before)
  {
    var t := Next(s, RunRevokeAll(u, except), cfg);
    ReachableInv(s, cfg);
    RevokeAllLeavesNothing(s, u, except, cfg);
    forall j | j in s.hist.tokens
      ensures Accepted(t, j) <==> Accepted(s, j) && (s.hist.tokens[j].user == u ==> except == Some(j))
    {
      if s.hist.tokens[j].user != u { SameVerdict(s, u, except, j, cfg); }
      else if except == Some(j) { SparedStays(s, u, j, cfg); }
    }
    forall h ensures Get(t.store.refresh, h, t.now) ==
        var before := Get(s.store.refresh, h, s.now); if before.Some? && before.value.user == u then None else before
    {
      RevokeAllShrinks(s.store, u, except, cfg, s.now);
      if Has(s.store.refresh, h, s.now) && s.store.refresh[h].value.user != u {
        OthersRecords(s.store, s.hist, u, s.store.refresh[h].value.user, except, cfg, s.now);
      }
    }
  }

  /* ---------- how long a credential lasts ---------- */

  /** What a login or a rotation at the instant `at` has handed out. */
  datatype Grant = Grant(jti: Jti, hash: Hash, record: RefreshRecord, at: int)

  ghost predicate TokenKeys(st: Store, g: Grant, cfg: Config, now: int) {
    && g.jti in st.sessions && g.at + cfg.accessTtl <= st.sessions[g.jti].until
    && !Has(st.tombstones, g.jti, now)
    && g.record.family in st.families && st.families[g.record.family].value == Family(true, g.record.user)
    && g.at + cfg.refreshTtl <= st.families[g.record.family].until
  }

  ghost predicate RecordKeys(st: Store, g: Grant, cfg: Config) {
    g.hash in st.refresh && st.refresh[g.hash].value == g.record && g.at + cfg.refreshTtl <= st.refresh[g.hash].until
  }

  /** The grant is of a family that was issued to its account, and its token was signed for it. */
  ghost predicate Granted(s: System, g: Grant, cfg: Config) {
    && g.jti in s.hist.tokens && g.hash in s.hist.memberOf && g.at <= s.now
    && Owns(s.hist.memberOf, s.hist.established, g.hash, g.record.family, g.record.user)
    && s.hist.tokens[g.jti].user == g.record.user && s.hist.tokens[g.jti].family == g.record.family
    && s.hist.tokens[g.jti].version == g.record.version
    && s.hist.tokens[g.jti].expiresAt <= g.at + cfg.accessTtl
    && OfOrigin(s.hist.begun, g.record.family, g.record.user, g.record.version)
  }

  /** The step logs the family out or revokes the account without sparing the session. */
  predicate EndsToken(s: System, step: Step, g: Grant) {
    match step
    case RunLogout(l) => Named(s, l, g.record.family) || AccessId(l) == Some(g.jti)
    case RunRevokeAll(u, except) => u == g.record.user && except != Some(g.jti)
    case _ => false
  }

  /** The step logs the family out, revokes the account or rotates the refresh token away. */
  predicate EndsRecord(s: System, step: Step, g: Grant, cfg: Config) {
    match step
    case RunLogout(l) => Named(s, l, g.record.family)
    case RunRevokeAll(u, _) => u == g.record.user
    case RunRotate(b) => cfg.rotation && b.presented == g.hash
    case _ => false
  }

  lemma IssueKeepsGrant(s: System, b: IssueArgs, g: Grant, cfg: Config)
    requires Inv(s, cfg) && Enabled(s, RunIssue(b)) && Granted(s, g, cfg)
    ensures TokenKeys(s.store, g, cfg, s.now) ==> TokenKeys(Issue(s.store, b, cfg, s.now), g, cfg, s.now)
    ensures RecordKeys(s.store, g, cfg) ==> RecordKeys(Issue(s.store, b, cfg, s.now), g, cfg)
  {
    assert IssueSound(s.hist, b, cfg);
    assert b.hash != g.hash && b.hash != g.record.family && b.jti != g.jti;
  }

  lemma InstallKeepsToken(s: System, st': Store, b: RotateArgs, g: Grant, cfg: Config)
    requires RotationSound(s.hist, b, cfg) && Granted(s, g, cfg) && Installed(s.store, st', b, cfg, s.now)
    requires TokenKeys(s.store, g, cfg, s.now)
    ensures TokenKeys(st', g, cfg, s.now)
  {
  }

  lemma InstallKeepsRecord(s: System, st': Store, b: RotateArgs, g: Grant, cfg: Config)
    requires RotationSound(s.hist, b, cfg) && RequestsFaithful(s.hist) && b in s.hist.rotations
    requires Granted(s, g, cfg) && Installed(s.store, st', b, cfg, s.now)
    requires RecordKeys(s.store, g, cfg) && !EndsRecord(s, RunRotate(b), g, cfg)
    ensures RecordKeys(st', g, cfg)
  {
    if b.newHash == g.hash {
      assert b.record.family == g.record.family;
      assert OfOrigin(s.hist.begun, b.record.family, b.record.user, b.record.version);
      assert b.Successor() == g.record;
    }
  }

  lemma RotateKeepsGrant(s: System, b: RotateArgs, g: Grant, cfg: Config)
    requires Inv(s, cfg) && RequestsFaithful(s.hist) && Enabled(s, RunRotate(b)) && Granted(s, g, cfg)
    ensures TokenKeys(s.store, g, cfg, s.now) ==> TokenKeys(Rotate(s.store, b, cfg, s.now), g, cfg, s.now)
    ensures RecordKeys(s.store, g, cfg) && !EndsRecord(s, RunRotate(b), g, cfg) ==>
      RecordKeys(Rotate(s.store, b, cfg, s.now), g, cfg)
  {
    var st' := Rotate(s.store, b, cfg, s.now);
    RotateWrites(s.store, b, cfg, s.now);
    assert RotationSound(s.hist, b, cfg);
    if Installs(s.store, b, s.now) {
      if TokenKeys(s.store, g, cfg, s.now) { InstallKeepsToken(s, st', b, g, cfg); }
      if RecordKeys(s.store, g, cfg) && !EndsRecord(s, RunRotate(b), g, cfg) { InstallKeepsRecord(s, st', b, g, cfg); }
    }
  }

  lemma LogoutKeepsGrant(s: System, l: LogoutArgs, g: Grant, cfg: Config)
    requires Inv(s, cfg) && Enabled(s, RunLogout(l)) && Granted(s, g, cfg) && !Named(s, l, g.record.family)
    ensures TokenKeys(s.store, g, cfg, s.now) && AccessId(l) != Some(g.jti) ==>
      TokenKeys(Logout(s.store, l, cfg, s.now), g, cfg, s.now)
    ensures RecordKeys(s.store, g, cfg) && s.now < g.at + cfg.refreshTtl ==> RecordKeys(Logout(s.store, l, cfg, s.now), g, cfg)
  {
    LogoutKeepsUnnamed(s, l, g.record.family, cfg);
    KeptKeepsGrant(s, Logout(s.store, l, cfg, s.now), AccessId(l), g, cfg);
  }

  lemma KeptKeepsGrant(s: System, st': Store, but: Option<Jti>, g: Grant, cfg: Config)
    requires FamilyKept(s.store, st', s.hist.tokens, g.record.family, but, s.now) && Granted(s, g, cfg)
    ensures TokenKeys(s.store, g, cfg, s.now) && but != Some(g.jti) ==> TokenKeys(st', g, cfg, s.now)
    ensures RecordKeys(s.store, g, cfg) && s.now < g.at + cfg.refreshTtl ==> RecordKeys(st', g, cfg)
  {
  }

  lemma RevokeAllKeepsGrant(s: System, u: User, except: Option<Jti>, g: Grant, cfg: Config)
    requires Inv(s, cfg) && Enabled(s, RunRevokeAll(u, except)) && Granted(s, g, cfg)
    ensures TokenKeys(s.store, g, cfg, s.now) && !EndsToken(s, RunRevokeAll(u, except), g) ==>
      TokenKeys(RevokeAll(s.store, u, except, cfg, s.now), g, cfg, s.now)
    ensures RecordKeys(s.store, g, cfg) && u != g.record.user ==> RecordKeys(RevokeAll(s.store, u, except, cfg, s.now), g, cfg)
  {
    if u != g.record.user { OthersUntouched(s.store, s.hist, u, g.record.user, except, cfg, s.now); }
  }

  lemma StepKeepsGrant(s: System, step: Step, g: Grant, cfg: Config)
    requires Inv(s, cfg) && RequestsFaithful(s.hist) && Enabled(s, step) && Granted(s, g, cfg)
    ensures TokenKeys(s.store, g, cfg, s.now) && !EndsToken(s, step, g) ==>
      TokenKeys(Next(s, step, cfg).store, g, cfg, s.now)
    ensures RecordKeys(s.store, g, cfg) && !EndsRecord(s, step, g, cfg) && s.now < g.at + cfg.refreshTtl ==>
      RecordKeys(Next(s, step, cfg).store, g, cfg)
  {
    match step
    case RunIssue(b) => IssueKeepsGrant(s, b, g, cfg);
    case RunRotate(b) => RotateKeepsGrant(s, b, g, cfg);
    case RunLogout(l) => if !Named(s, l, g.record.family) { LogoutKeepsGrant(s, l, g, cfg); }
    case RunRevokeAll(u, except) => RevokeAllKeepsGrant(s, u, except, g, cfg);
    case _ => assert Next(s, step, cfg).store == s.store;
  }

  lemma StepGranted(s: System, step: Step, g: Grant, cfg: Config)
    requires Inv(s, cfg) && Timely(s) && Enabled(s, step) && Granted(s, g, cfg)
    ensures Granted(Next(s, step, cfg), g, cfg)
  {
    StepGrows(s, step, cfg);
    StepBegunGrows(s, step, cfg);
    EstablishedKept(s, step, g.record.family, cfg);
  }

  lemma EstablishedKept(s: System, step: Step, f: Hash, cfg: Config)
    requires HistoryInv(s.hist, cfg) && Enabled(s, step) && f in s.hist.established
    ensures f in Next(s, step, cfg).hist.established && Next(s, step, cfg).hist.established[f] == s.hist.established[f]
  {
    if step.RunIssue? { assert IssueSound(s.hist, step.issue, cfg); }
  }

  /** None of the steps ends the token, or the record. */
  ghost predicate TokenSpared(s: System, steps: seq<Step>, g: Grant, cfg: Config)
    requires CanRun(s, steps, cfg)
    decreases |steps|
  {
    steps == [] || (!EndsToken(s, steps[0], g) && TokenSpared(Next(s, steps[0], cfg), steps[1..], g, cfg))
  }

  ghost predicate RecordSpared(s: System, steps: seq<Step>, g: Grant, cfg: Config)
    requires CanRun(s, steps, cfg)
    decreases |steps|
  {
    steps == [] || (!EndsRecord(s, steps[0], g, cfg) && RecordSpared(Next(s, steps[0], cfg), steps[1..], g, cfg))
  }

  lemma StepTimely(s: System, step: Step, cfg: Config)
    requires Enabled(s, step) && Timely(s)
    ensures Timely(Next(s, step, cfg))
  {
    StepTimesGrow(s, step, cfg);
    StepBegunUnder(s, step, cfg);
    StepFaithful(s, step, cfg);
  }

  lemma {:induction false} RunKeepsGrant(s: System, steps: seq<Step>, g: Grant, cfg: Config)
    requires cfg.Valid() && Inv(s, cfg) && Timely(s) && CanRun(s, steps, cfg) && Granted(s, g, cfg)
    ensures var t := Run(s, steps, cfg);
      && Granted(t, g, cfg) && s.now <= t.now
      && (TokenKeys(s.store, g, cfg, s.now) && TokenSpared(s, steps, g, cfg) ==> TokenKeys(t.store, g, cfg, t.now))
      && (RecordKeys(s.store, g, cfg) && RecordSpared(s, steps, g, cfg) && t.now < g.at + cfg.refreshTtl ==>
            RecordKeys(t.store, g, cfg))
    decreases |steps|
  {
    if steps != [] {
      var n := Next(s, steps[0], cfg);
      StepInv(s, steps[0], cfg);
      StepTimely(s, steps[0], cfg);
      StepGrows(s, steps[0], cfg);
      StepGranted(s, steps[0], g, cfg);
      StepKeepsGrant(s, steps[0], g, cfg);
      RunKeepsGrant(n, steps[1..], g, cfg);
    }
  }

  /** What the keys of a grant are good for. */
  lemma GrantIsGood(s: System, g: Grant, cfg: Config)
    requires Granted(s, g, cfg)
    ensures TokenKeys(s.store, g, cfg, s.now) && s.now < g.at + cfg.refreshTtl && g.record.user in s.versions ==>
      (Accepted(s, g.jti) <==> s.now < s.hist.tokens[g.jti].expiresAt && s.versions[g.record.user] == g.record.version)
    ensures RecordKeys(s.store, g, cfg) && s.now < g.at + cfg.refreshTtl ==> Get(s.store.refresh, g.hash, s.now) == Some(g.record)
  {
  }

  /** What a grant gives over any later run: good until it expires, unless a step of the run ends it. */
  ghost predicate Lasts(s: System, steps: seq<Step>, g: Grant, expiresAt: int, cfg: Config)
    requires CanRun(s, steps, cfg)
  {
    var t := Run(s, steps, cfg);
    && g.record.user in t.versions
    && (TokenSpared(s, steps, g, cfg) && t.now < g.at + cfg.refreshTtl ==>
          (Accepted(t, g.jti) <==> t.now < expiresAt && t.versions[g.record.user] == g.record.version))
    && (RecordSpared(s, steps, g, cfg) && t.now < g.at + cfg.refreshTtl ==>
          Get(t.store.refresh, g.hash, t.now) == Some(g.record))
  }

  lemma GrantLasts(s: System, steps: seq<Step>, g: Grant, cfg: Config)
    requires cfg.Valid() && Inv(s, cfg) && Timely(s) && CanRun(s, steps, cfg) && Granted(s, g, cfg)
    requires TokenKeys(s.store, g, cfg, s.now) && RecordKeys(s.store, g, cfg)
    ensures g.jti in s.hist.tokens && Lasts(s, steps, g, s.hist.tokens[g.jti].expiresAt, cfg)
  {
    RunKeepsGrant(s, steps, g, cfg);
    RunGrows(s, steps, cfg);
    var t := Run(s, steps, cfg);
    assert OfOrigin(t.hist.begun, g.record.family, g.record.user, g.record.version);
    GrantIsGood(t, g, cfg);
  }

  /**
   A login lasts: over any run after it the access token is accepted until it expires, under the version it was signed
   with, and the refresh token stays live for its TTL, unless they are logged out, revoked or rotated away.
   */
  lemma LoginLasts(s: System, a: IssueArgs, steps: seq<Step>, cfg: Config)
    requires cfg.Valid() && Reachable(s, cfg) && Enabled(s, RunIssue(a)) && CanRun(Next(s, RunIssue(a), cfg), steps, cfg)
    ensures Lasts(Next(s, RunIssue(a), cfg), steps, Grant(a.jti, a.hash, RefreshRecord(a.user, a.version, a.hash), s.now),
                  a.signedAt + cfg.accessTtl, cfg)
  {
    var n, g := Next(s, RunIssue(a), cfg), Grant(a.jti, a.hash, RefreshRecord(a.user, a.version, a.hash), s.now);
    ReachableTimely(s, cfg);
    StepInv(s, RunIssue(a), cfg);
    StepTimely(s, RunIssue(a), cfg);
    LoginGrants(s, a, g, cfg);
    GrantLasts(n, steps, g, cfg);
  }

  lemma LoginGrants(s: System, a: IssueArgs, g: Grant, cfg: Config)
    requires cfg.Valid() && Inv(s, cfg) && Timely(s) && Enabled(s, RunIssue(a))
    requires g == Grant(a.jti, a.hash, RefreshRecord(a.user, a.version, a.hash), s.now)
    ensures var n := Next(s, RunIssue(a), cfg);
      Granted(n, g, cfg) && TokenKeys(n.store, g, cfg, n.now) && RecordKeys(n.store, g, cfg)
    ensures g.jti in s.hist.tokens && s.hist.tokens[g.jti].expiresAt == a.signedAt + cfg.accessTtl
  {
    assert IssueSound(s.hist, a, cfg);
    assert OfOrigin(s.hist.begun, a.hash, a.user, a.version);
    assert a.jti !in s.store.tombstones;
  }

  /** A rotation lasts in the same way, if its token was not logged out before the rotation ran. */
  lemma RotationLasts(s: System, a: RotateArgs, steps: seq<Step>, cfg: Config)
    requires cfg.Valid() && Reachable(s, cfg) && Enabled(s, RunRotate(a)) && CanRun(Next(s, RunRotate(a), cfg), steps, cfg)
    requires Get(s.store.refresh, a.presented, s.now) == Some(a.record) && RotateOutcome(s.store, a, s.now) == Committed
    requires !Has(s.store.tombstones, a.jti, s.now)
    ensures Lasts(Next(s, RunRotate(a), cfg), steps, Grant(a.jti, a.newHash, a.Successor(), s.now), a.signedAt + cfg.accessTtl, cfg)
  {
    var n, g := Next(s, RunRotate(a), cfg), Grant(a.jti, a.newHash, a.Successor(), s.now);
    ReachableTimely(s, cfg);
    StepInv(s, RunRotate(a), cfg);
    StepTimely(s, RunRotate(a), cfg);
    RotationGrants(s, a, g, cfg);
    GrantLasts(n, steps, g, cfg);
  }

  lemma RotationGrants(s: System, a: RotateArgs, g: Grant, cfg: Config)
    requires cfg.Valid() && Inv(s, cfg) && Timely(s) && Enabled(s, RunRotate(a)) && Installs(s.store, a, s.now)
    requires !Has(s.store.tombstones, a.jti, s.now) && g == Grant(a.jti, a.newHash, a.Successor(), s.now)
    ensures var n := Next(s, RunRotate(a), cfg);
      Granted(n, g, cfg) && TokenKeys(n.store, g, cfg, n.now) && RecordKeys(n.store, g, cfg)
    ensures g.jti in s.hist.tokens && s.hist.tokens[g.jti].expiresAt == a.signedAt + cfg.accessTtl
  {
    assert RotationSound(s.hist, a, cfg);
    assert OfOrigin(s.hist.begun, a.record.family, a.record.user, a.record.version);
    RotateWrites(s.store, a, cfg, s.now);
    InstalledGrants(s.store, Rotate(s.store, a, cfg, s.now), a, g, cfg, s.now);
  }

  lemma InstalledGrants(st: Store, st': Store, a: RotateArgs, g: Grant, cfg: Config, now: int)
    requires Installed(st, st', a, cfg, now) && a.newHash != a.presented
    requires !Has(st.tombstones, a.jti, now) && g == Grant(a.jti, a.newHash, a.Successor(), now)
    ensures TokenKeys(st', g, cfg, now) && RecordKeys(st', g, cfg)
  {
  }
}
