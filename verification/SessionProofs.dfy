/** Time, the database and the requests in flight keep the session invariant. */
module SessionProofs {
  import opened SessionStore
  import opened SessionSystem

  lemma InitInv(s: System, cfg: Config)
    requires Init(s)
    ensures Inv(s, cfg)
  {
  }

  /* ---------- Tick ---------- */

  lemma TickRecords(st: Store, now: int, now': int, ttl: int)
    requires now <= now' && RecordsIndexed(st.refresh, st.families, st.familyTokens, st.userRefresh, now, ttl)
    ensures RecordsIndexed(st.refresh, st.families, st.familyTokens, st.userRefresh, now', ttl)
  {
    forall h | Has(st.refresh, h, now')
      ensures RecordIndexed(st.families, st.familyTokens, st.userRefresh, h, st.refresh[h], now' + ttl)
    {
      assert Has(st.refresh, h, now);
    }
  }

  lemma TickFamilies(st: Store, established: map<Hash, User>, now: int, now': int, ttl: int)
    requires now <= now' && FamiliesIndexed(st.families, st.userFamilies, established, now, ttl)
    ensures FamiliesIndexed(st.families, st.userFamilies, established, now', ttl)
  {
    forall f | Has(st.families, f, now')
      ensures FamilyIndexed(st.userFamilies, established, f, st.families[f], now' + ttl)
    {
      assert Has(st.families, f, now);
    }
  }

  lemma TickSessions(st: Store, tokens: map<Jti, AccessToken>, now: int, now': int)
    requires now <= now'
    requires SessionsIndexed(st.sessions, st.families, st.familySessions, st.userSessions, tokens, now)
    ensures SessionsIndexed(st.sessions, st.families, st.familySessions, st.userSessions, tokens, now')
  {
    forall j | Usable(st.sessions, st.families, tokens, now', j)
      ensures Usable(st.sessions, st.families, tokens, now, j)
    {
    }
  }

  lemma TickLinear(st: Store, successor: map<Hash, Hash>, now: int, now': int)
    requires now <= now' && RotationLinear(st.refresh, st.rotationReceipts, successor, now)
    ensures RotationLinear(st.refresh, st.rotationReceipts, successor, now')
  {
    forall h | Has(st.refresh, h, now') ensures Has(st.refresh, h, now) {
    }
  }

  lemma TickInv(s: System, seconds: nat, cfg: Config)
    requires Inv(s, cfg)
    ensures Inv(Next(s, Tick(seconds), cfg), cfg)
  {
    var now' := Next(s, Tick(seconds), cfg).now;
    TickRecords(s.store, s.now, now', cfg.refreshTtl);
    TickFamilies(s.store, s.hist.established, s.now, now', cfg.refreshTtl);
    TickSessions(s.store, s.hist.tokens, s.now, now');
    if cfg.rotation { TickLinear(s.store, s.hist.successor, s.now, now'); }
  }

  /* ---------- signing a token ---------- */

  /** A new token is not usable yet: its session key does not exist. */
  lemma SignedSessions(st: Store, tokens: map<Jti, AccessToken>, tokens': map<Jti, AccessToken>, j: Jti,
                       t: AccessToken, now: int)
    requires tokens' == tokens[j := t] && j !in st.sessions
    requires SessionsIndexed(st.sessions, st.families, st.familySessions, st.userSessions, tokens, now)
    ensures SessionsIndexed(st.sessions, st.families, st.familySessions, st.userSessions, tokens', now)
  {
    forall k | Usable(st.sessions, st.families, tokens', now, k)
      ensures Usable(st.sessions, st.families, tokens, now, k) && tokens'[k] == tokens[k]
    {
    }
  }

  lemma SignedOwned(st: Store, tokens: map<Jti, AccessToken>, tokens': map<Jti, AccessToken>,
                    established: map<Hash, User>, j: Jti, t: AccessToken)
    requires tokens' == tokens[j := t] && j !in tokens
    requires FamilySessionsOwned(st.familySessions, tokens, established)
    requires SessionsSigned(st.sessions, tokens, established) && UserSessionsOwned(st.userSessions, tokens)
    requires TombstonesOwned(st.tombstones, tokens, established)
    ensures FamilySessionsOwned(st.familySessions, tokens', established)
    ensures SessionsSigned(st.sessions, tokens', established) && UserSessionsOwned(st.userSessions, tokens')
    ensures TombstonesOwned(st.tombstones, tokens', established)
  {
  }

  lemma IssuePreparedHistory(hist: History, a: IssueArgs, cfg: Config)
    requires HistoryInv(hist, cfg) && CanSign(hist, a.jti, a.hash) && a.signedAt <= a.nodeNow
    ensures HistoryInv(IssuePrepared(hist, a, cfg), cfg)
  {
    var hist' := IssuePrepared(hist, a, cfg);
    assert a.hash !in hist.memberOf && a.hash !in hist.established;
    forall j | j in hist'.tokens ensures TokenSound(hist', hist'.tokens[j]) {
      if j != a.jti { assert TokenSound(hist, hist.tokens[j]); }
    }
    forall b | b in hist'.issues ensures IssueSound(hist', b, cfg) {
      if b != a { assert IssueSound(hist, b, cfg); }
    }
    forall b | b in hist'.rotations ensures RotationSound(hist', b, cfg) {
      assert RotationSound(hist, b, cfg);
    }
  }

  lemma PrepareIssueInv(s: System, a: IssueArgs, cfg: Config)
    requires Inv(s, cfg) && Enabled(s, PrepareIssue(a))
    ensures Inv(s.(hist := IssuePrepared(s.hist, a, cfg)), cfg)
  {
    var t := AccessToken(a.user, a.hash, a.version, a.signedAt + cfg.accessTtl);
    var hist' := IssuePrepared(s.hist, a, cfg);
    IssuePreparedHistory(s.hist, a, cfg);
    SignedOwned(s.store, s.hist.tokens, hist'.tokens, s.hist.established, a.jti, t);
    SignedSessions(s.store, s.hist.tokens, hist'.tokens, a.jti, t, s.now);
  }

  lemma RotationPreparedHistory(hist: History, a: RotateArgs, cfg: Config)
    requires HistoryInv(hist, cfg) && CanSign(hist, a.jti, a.newHash) && a.signedAt <= a.nodeNow
    requires (a.presented, a.record) in hist.observed
    ensures HistoryInv(RotationPrepared(hist, a, cfg), cfg)
  {
    var hist' := RotationPrepared(hist, a, cfg);
    assert Owns(hist.memberOf, hist.established, a.presented, a.record.family, a.record.user);
    assert a.newHash !in hist.memberOf && a.newHash !in hist.established;
    forall j | j in hist'.tokens ensures TokenSound(hist', hist'.tokens[j]) {
      if j != a.jti { assert TokenSound(hist, hist.tokens[j]); }
    }
    forall b | b in hist'.issues ensures IssueSound(hist', b, cfg) {
      assert IssueSound(hist, b, cfg);
    }
    forall b | b in hist'.rotations ensures RotationSound(hist', b, cfg) {
      if b != a { assert RotationSound(hist, b, cfg); }
    }
  }

  lemma PrepareRotateInv(s: System, a: RotateArgs, cfg: Config)
    requires Inv(s, cfg) && Enabled(s, PrepareRotate(a))
    ensures Inv(s.(hist := RotationPrepared(s.hist, a, cfg)), cfg)
  {
    var t := AccessToken(a.record.user, a.record.family, a.version, a.signedAt + cfg.accessTtl);
    var hist' := RotationPrepared(s.hist, a, cfg);
    RotationPreparedHistory(s.hist, a, cfg);
    SignedOwned(s.store, s.hist.tokens, hist'.tokens, s.hist.established, a.jti, t);
    SignedSessions(s.store, s.hist.tokens, hist'.tokens, a.jti, t, s.now);
  }

  lemma ObservedHistory(hist: History, h: Hash, r: RefreshRecord, cfg: Config)
    requires HistoryInv(hist, cfg) && Owns(hist.memberOf, hist.established, h, r.family, r.user)
    ensures HistoryInv(hist.(observed := hist.observed + {(h, r)}), cfg)
  {
    var hist' := hist.(observed := hist.observed + {(h, r)});
    forall j | j in hist'.tokens ensures TokenSound(hist', hist'.tokens[j]) {
      assert TokenSound(hist, hist.tokens[j]);
    }
    forall b | b in hist'.issues ensures IssueSound(hist', b, cfg) {
      assert IssueSound(hist, b, cfg);
    }
    forall b | b in hist'.rotations ensures RotationSound(hist', b, cfg) {
      assert RotationSound(hist, b, cfg);
    }
  }

  lemma ReadRecordInv(s: System, h: Hash, cfg: Config)
    requires Inv(s, cfg) && Enabled(s, ReadRecord(h))
    ensures Inv(Next(s, ReadRecord(h), cfg), cfg)
  {
    ObservedHistory(s.hist, h, s.store.refresh[h].value, cfg);
  }
}
