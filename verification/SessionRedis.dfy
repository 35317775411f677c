/** The session scripts, command by command on the keys they change, proved against their specifications. */
module SessionRedis {
  import opened Wrappers
  import opened SessionStore
  import SessionAnswers

  lemma RemoveTwice<K, T>(m: map<K, Keyed<set<T>>>, k: K, xs: set<T>, x: T, now: int)
    ensures Remove(Remove(m, k, xs, now), k, {x}, now) == Remove(m, k, xs + {x}, now)
  {
    if Has(m, k, now) { assert m[k].value - xs - {x} == m[k].value - (xs + {x}); }
  }

  lemma RemoveNothing<K, T>(m: map<K, Keyed<set<T>>>, k: K, now: int)
    ensures Remove(m, k, {}, now) == m
  {
    if Has(m, k, now) { assert m[k].value - {} == m[k].value; }
  }

  lemma RemoveSessionsTwice(m: map<User, SessionIndex>, u: User, xs: set<Jti>, x: Jti, now: int)
    ensures RemoveSessions(RemoveSessions(m, u, xs, now), u, {x}, now) == RemoveSessions(m, u, xs + {x}, now)
  {
    if HasSessions(m, u, now) { assert m[u].ids - xs - {x} == m[u].ids - (xs + {x}); }
  }

  lemma RemoveNoSessions(m: map<User, SessionIndex>, u: User, now: int)
    ensures RemoveSessions(m, u, {}, now) == m
  {
    if HasSessions(m, u, now) { assert m[u].ids - {} == m[u].ids; }
  }

  lemma PutOneMore<K, T>(m: map<K, T>, ks: set<K>, k: K, v: T)
    ensures PutAll(m, ks + {k}, v) == PutAll(m, ks, v)[k := v]
  {
  }

  lemma PutNothing<K, T>(m: map<K, T>, v: T)
    ensures PutAll(m, {}, v) == m
  {
  }

  lemma DropOneMore<K, T>(m: map<K, T>, ks: set<K>, k: K)
    ensures m - (ks + {k}) == m - ks - {k}
  {
  }

  /* ---------- the three loops over members, as one change each ---------- */

  function SessionsEnded(st: Store, ids: set<Jti>, u: User, ttl: int, now: int): Store {
    st.(
    sessions := st.sessions - ids,
    userSessions := RemoveSessions(st.userSessions, u, ids, now),
    tombstones := PutAll(st.tombstones, ids, Keyed(true, now + ttl)))
  }

  function TokensEnded(st: Store, tokens: set<Hash>, f: Hash, u: User, now: int): Store {
    st.(
    logoutReceipts := PutAll(st.logoutReceipts, tokens, Keyed(LogoutReceipt(u, f), now + LOGOUT_RECEIPT_TTL_SECONDS)),
    refresh := st.refresh - tokens,
    userRefresh := Remove(st.userRefresh, u, tokens, now))
  }

  function FamiliesFenced(st: Store, fs: set<Hash>, u: User, ttl: int, now: int): Store {
    st.(
    families := PutAll(st.families, fs, Keyed(Family(false, u), now + ttl)),
    familySessions := st.familySessions - fs,
    familyTokens := st.familyTokens - fs)
  }

  /** DEL, SREM and SET for one session. */
  function SessionEnded(st: Store, j: Jti, u: User, ttl: int, now: int): Store {
    st.(
    sessions := st.sessions - {j},
    userSessions := RemoveSessions(st.userSessions, u, {j}, now),
    tombstones := st.tombstones[j := Keyed(true, now + ttl)])
  }

  /** SET, DEL and SREM for one refresh token. */
  function TokenEnded(st: Store, h: Hash, f: Hash, u: User, now: int): Store {
    st.(
    logoutReceipts := st.logoutReceipts[h := Keyed(LogoutReceipt(u, f), now + LOGOUT_RECEIPT_TTL_SECONDS)],
    refresh := st.refresh - {h},
    userRefresh := Remove(st.userRefresh, u, {h}, now))
  }

  /** SET and DEL for one family. */
  function FamilyFenced(st: Store, f: Hash, u: User, ttl: int, now: int): Store {
    st.(
    families := st.families[f := Keyed(Family(false, u), now + ttl)],
    familySessions := st.familySessions - {f},
    familyTokens := st.familyTokens - {f})
  }

  lemma NoSessionEnded(st: Store, u: User, ttl: int, now: int)
    ensures SessionsEnded(st, {}, u, ttl, now) == st
  {
    RemoveNoSessions(st.userSessions, u, now);
    PutNothing(st.tombstones, Keyed(true, now + ttl));
  }

  lemma NoTokenEnded(st: Store, f: Hash, u: User, now: int)
    ensures TokensEnded(st, {}, f, u, now) == st
  {
    RemoveNothing(st.userRefresh, u, now);
  }

  lemma NoFamilyFenced(st: Store, u: User, ttl: int, now: int)
    ensures FamiliesFenced(st, {}, u, ttl, now) == st
  {
  }

  lemma OneMoreSession(st: Store, ids: set<Jti>, j: Jti, u: User, ttl: int, now: int)
    ensures SessionsEnded(st, ids + {j}, u, ttl, now) == SessionEnded(SessionsEnded(st, ids, u, ttl, now), j, u, ttl, now)
  {
    DropOneMore(st.sessions, ids, j);
    RemoveSessionsTwice(st.userSessions, u, ids, j, now);
    PutOneMore(st.tombstones, ids, j, Keyed(true, now + ttl));
  }

  lemma OneMoreToken(st: Store, tokens: set<Hash>, h: Hash, f: Hash, u: User, now: int)
    ensures TokensEnded(st, tokens + {h}, f, u, now) == TokenEnded(TokensEnded(st, tokens, f, u, now), h, f, u, now)
  {
    DropOneMore(st.refresh, tokens, h);
    RemoveTwice(st.userRefresh, u, tokens, h, now);
    PutOneMore(st.logoutReceipts, tokens, h, Keyed(LogoutReceipt(u, f), now + LOGOUT_RECEIPT_TTL_SECONDS));
  }

  lemma OneMoreFamily(st: Store, fs: set<Hash>, f: Hash, u: User, ttl: int, now: int)
    ensures FamiliesFenced(st, fs + {f}, u, ttl, now) == FamilyFenced(FamiliesFenced(st, fs, u, ttl, now), f, u, ttl, now)
  {
    DropOneMore(st.familySessions, fs, f);
    DropOneMore(st.familyTokens, fs, f);
    PutOneMore(st.families, fs, f, Keyed(Family(false, u), now + ttl));
  }

  /** The family is marked, its live sessions end and its index goes. */
  function SessionsCut(st: Store, f: Hash, u: User, nodeNow: int, cfg: Config, now: int): Store {
    var st1 := st.(families := st.families[f := Keyed(Family(false, u), now + cfg.refreshTtl)]);
    var st2 := SessionsEnded(st1, ScoresFrom(Scores(st1.familySessions, f, now), nodeNow), u, cfg.refreshTtl, now);
    st2.(familySessions := st2.familySessions - {f})
  }

  /** Its tokens end and it leaves the indexes. */
  function TokensCut(st: Store, f: Hash, u: User, now: int): Store {
    var st1 := TokensEnded(st, Members(st.familyTokens, f, now), f, u, now);
    st1.(familyTokens := st1.familyTokens - {f}, userFamilies := Remove(st1.userFamilies, u, {f}, now))
  }

  /** The order in which the script fences a family. */
  lemma FenceInOrder(st: Store, f: Hash, u: User, nodeNow: int, cfg: Config, now: int)
    ensures FenceFamily(st, f, u, nodeNow, cfg, now) == TokensCut(SessionsCut(st, f, u, nodeNow, cfg, now), f, u, now)
  {
    var st' := SessionsCut(st, f, u, nodeNow, cfg, now);
    assert st'.familyTokens == st.familyTokens && st'.userFamilies == st.userFamilies;
    assert st'.logoutReceipts == st.logoutReceipts && st'.refresh == st.refresh && st'.userRefresh == st.userRefresh;
  }

  /** The keys that a committing rotation sets. */
  function Granted(st: Store, a: RotateArgs, cfg: Config, now: int): Store {
    st.(
    families := st.families[a.record.family := Keyed(Family(true, a.record.user), now + cfg.refreshTtl)],
    sessions := st.sessions[a.jti := Keyed(a.record.user, now + cfg.accessTtl)],
    refresh := st.refresh[a.newHash := Keyed(a.Successor(), now + cfg.refreshTtl)],
    aliases := st.aliases[a.presented := Keyed(a.record.family, now + REFRESH_FAMILY_ALIAS_TTL_SECONDS)])
  }

  /** The indexes that it adds to. */
  function Registered(st: Store, a: RotateArgs, cfg: Config, now: int): Store {
    var f, u := a.record.family, a.record.user;
    st.(
    familySessions := Score(st.familySessions, f, a.jti, a.nodeNow + cfg.accessTtl, now, cfg.refreshTtl),
    userSessions := AddSession(st.userSessions, u, a.jti, now, cfg.refreshTtl),
    familyTokens := Add(st.familyTokens, f, a.newHash, now, cfg.refreshTtl),
    userRefresh := Add(st.userRefresh, u, a.newHash, now, cfg.refreshTtl),
    userFamilies := Add(st.userFamilies, u, f, now, cfg.refreshTtl))
  }

  function Spent(st: Store, a: RotateArgs, now: int): Store {
    st.(
    refresh := st.refresh - {a.presented},
    familyTokens := Remove(st.familyTokens, a.record.family, {a.presented}, now),
    userRefresh := Remove(st.userRefresh, a.record.user, {a.presented}, now))
  }

  /** The order in which the script commits. */
  lemma CommitInOrder(st: Store, a: RotateArgs, cfg: Config, now: int)
    ensures var granted := Registered(Granted(st, a, cfg, now), a, cfg, now);
            var spent := if cfg.rotation then Spent(granted, a, now) else granted;
            Commit(st, a, cfg, now) == spent.(rotationReceipts :=
              spent.rotationReceipts[a.presented := Keyed(a.newHash, now + REFRESH_ROTATION_RECEIPT_TTL_SECONDS)])
  {
    if !cfg.rotation {
      var st' := Registered(Granted(st, a, cfg, now), a, cfg, now);
      RemoveNothing(st'.familyTokens, a.record.family, now);
      RemoveNothing(st'.userRefresh, a.record.user, now);
      assert st'.refresh - {} == st'.refresh;
    }
  }

  class Redis {
    var keys: Store

    constructor ()
      ensures keys == EmptyStore
    {
      keys := EmptyStore;
    }

    /** The MULTI of `issueSession`. */
    method RunIssue(a: IssueArgs, cfg: Config, now: int)
      modifies this
      ensures keys == Issue(old(keys), a, cfg, now)
    {
      keys := keys.(sessions := keys.sessions[a.jti := Keyed(a.user, now + cfg.accessTtl)]);
      keys := keys.(refresh := keys.refresh[a.hash := Keyed(RefreshRecord(a.user, a.version, a.hash), now + cfg.refreshTtl)]);
      keys := keys.(families := keys.families[a.hash := Keyed(Family(true, a.user), now + cfg.refreshTtl)]);
      keys := keys.(aliases := keys.aliases[a.hash := Keyed(a.hash, now + REFRESH_FAMILY_ALIAS_TTL_SECONDS)]);
      keys := keys.(familySessions := Score(keys.familySessions, a.hash, a.jti, a.nodeNow + cfg.accessTtl, now, cfg.refreshTtl));
      keys := keys.(familyTokens := Add(keys.familyTokens, a.hash, a.hash, now, cfg.refreshTtl));
      keys := keys.(userSessions := AddSession(keys.userSessions, a.user, a.jti, now, cfg.refreshTtl));
      keys := keys.(userRefresh := Add(keys.userRefresh, a.user, a.hash, now, cfg.refreshTtl));
      keys := keys.(userFamilies := Add(keys.userFamilies, a.user, a.hash, now, cfg.refreshTtl));
    }

    /** SREM of each expired session from the account's index. */
    method ForgetSessions(ids: set<Jti>, u: User, now: int)
      modifies this
      ensures keys == old(keys).(userSessions := RemoveSessions(old(keys.userSessions), u, ids, now))
    {
      var todo := ids;
      RemoveNoSessions(keys.userSessions, u, now);
      assert ids - todo == {};
      while todo != {}
        invariant todo <= ids
        invariant keys == old(keys).(userSessions := RemoveSessions(old(keys.userSessions), u, ids - todo, now))
        decreases |todo|
      {
        var j :| j in todo;
        RemoveSessionsTwice(old(keys.userSessions), u, ids - todo, j, now);
        assert ids - todo + {j} == ids - (todo - {j});
        keys := keys.(userSessions := RemoveSessions(keys.userSessions, u, {j}, now));
        todo := todo - {j};
      }
      assert ids - todo == ids;
    }

    /** Was this rotation committed by an earlier run of the script? */
    method Recognise(a: RotateArgs, now: int) returns (r: RotateResult)
      ensures r == if AlreadyRotated(keys, a, now) then Committed else Refused
    {
      r := Refused;
      if Get(keys.rotationReceipts, a.presented, now) != Some(a.newHash) { return; }
      if Get(keys.families, a.record.family, now) != Some(Family(true, a.record.user)) { return; }
      if Get(keys.refresh, a.newHash, now) != Some(a.Successor()) { return; }
      if Get(keys.sessions, a.jti, now) != Some(a.record.user) { return; }
      r := Committed;
    }

    /** Drop what has expired, then commit if the family has room. */
    method RotateLive(a: RotateArgs, cfg: Config, now: int) returns (committed: bool)
      modifies this
      ensures var pruned := Prune(old(keys), a, now);
              && committed == HasCapacity(pruned, a, now)
              && keys == if committed then Commit(pruned, a, cfg, now) else pruned
    {
      var f, u := a.record.family, a.record.user;
      ForgetSessions(ScoresUpTo(Scores(keys.familySessions, f, now), a.nodeNow), u, now);
      keys := keys.(familySessions := DropScores(keys.familySessions, f, a.nodeNow, now));

      var scores := Scores(keys.familySessions, f, now);
      var projected := |scores.Keys|;
      if a.jti !in scores { projected := projected + 1; }
      committed := projected <= MAX_REFRESH_FAMILY_SESSIONS;
      if !committed { return; }

      CommitKeys(a, cfg, now);
    }

    /** The writes of a rotation that commits, in the order of the script. */
    method CommitKeys(a: RotateArgs, cfg: Config, now: int)
      modifies this
      ensures keys == Commit(old(keys), a, cfg, now)
    {
      CommitInOrder(keys, a, cfg, now);
      Install(a, cfg, now);
      Register(a, cfg, now);
      Spend(a, cfg, now);
      keys := keys.(rotationReceipts := keys.rotationReceipts[a.presented := Keyed(a.newHash, now + REFRESH_ROTATION_RECEIPT_TTL_SECONDS)]);
    }

    /** The SETs of a rotation that commits. */
    method Install(a: RotateArgs, cfg: Config, now: int)
      modifies this
      ensures keys == Granted(old(keys), a, cfg, now)
    {
      var f, u := a.record.family, a.record.user;
      keys := keys.(families := keys.families[f := Keyed(Family(true, u), now + cfg.refreshTtl)]);
      keys := keys.(sessions := keys.sessions[a.jti := Keyed(u, now + cfg.accessTtl)]);
      keys := keys.(refresh := keys.refresh[a.newHash := Keyed(a.Successor(), now + cfg.refreshTtl)]);
      keys := keys.(aliases := keys.aliases[a.presented := Keyed(f, now + REFRESH_FAMILY_ALIAS_TTL_SECONDS)]);
    }

    /** The ZADD, the SADDs and their EXPIREs. */
    method Register(a: RotateArgs, cfg: Config, now: int)
      modifies this
      ensures keys == Registered(old(keys), a, cfg, now)
    {
      var f, u := a.record.family, a.record.user;
      keys := keys.(familySessions := Score(keys.familySessions, f, a.jti, a.nodeNow + cfg.accessTtl, now, cfg.refreshTtl));
      keys := keys.(userSessions := AddSession(keys.userSessions, u, a.jti, now, cfg.refreshTtl));
      keys := keys.(familyTokens := Add(keys.familyTokens, f, a.newHash, now, cfg.refreshTtl));
      keys := keys.(userRefresh := Add(keys.userRefresh, u, a.newHash, now, cfg.refreshTtl));
      keys := keys.(userFamilies := Add(keys.userFamilies, u, f, now, cfg.refreshTtl));
    }

    /** The presented token is spent where rotation is on. */
    method Spend(a: RotateArgs, cfg: Config, now: int)
      modifies this
      ensures keys == if cfg.rotation then Spent(old(keys), a, now) else old(keys)
    {
      if cfg.rotation {
        keys := keys.(refresh := keys.refresh - {a.presented});
        keys := keys.(familyTokens := Remove(keys.familyTokens, a.record.family, {a.presented}, now));
        keys := keys.(userRefresh := Remove(keys.userRefresh, a.record.user, {a.presented}, now));
      }
    }

    /** ROTATE_REFRESH_SESSION_SCRIPT. */
    method RunRotate(a: RotateArgs, cfg: Config, now: int) returns (r: RotateResult)
      modifies this
      ensures keys == Rotate(old(keys), a, cfg, now)
      ensures r == RotateOutcome(old(keys), a, now)
      ensures (Get(old(keys.refresh), a.presented, now) == Some(a.record)
               && Get(old(keys.families), a.record.family, now) == Some(Family(true, a.record.user))) ==>
        r == if |SessionAnswers.Crowd(old(keys), a.record.family, a.jti, a.nodeNow, now)| < 512 then Committed else OverCapacity
    {
      SessionAnswers.CapacityIsRoom(keys, a, now);
      if Get(keys.refresh, a.presented, now) != Some(a.record) {
        r := Recognise(a, now);
        return;
      }
      if Has(keys.families, a.record.family, now) && keys.families[a.record.family].value != Family(true, a.record.user) {
        r := Refused;
        return;
      }
      var committed := RotateLive(a, cfg, now);
      r := if committed then Committed else OverCapacity;
    }

    method EndSession(j: Jti, u: User, ttl: int, now: int)
      modifies this
      ensures keys == SessionEnded(old(keys), j, u, ttl, now)
    {
      keys := keys.(sessions := keys.sessions - {j});
      keys := keys.(userSessions := RemoveSessions(keys.userSessions, u, {j}, now));
      keys := keys.(tombstones := keys.tombstones[j := Keyed(true, now + ttl)]);
    }

    /** For each live access session of a fenced family: delete it, unindex it, leave a tombstone. */
    method EndSessions(ids: set<Jti>, u: User, ttl: int, now: int)
      modifies this
      ensures keys == SessionsEnded(old(keys), ids, u, ttl, now)
    {
      var todo := ids;
      NoSessionEnded(keys, u, ttl, now);
      assert ids - todo == {};
      while todo != {}
        invariant todo <= ids
        invariant keys == SessionsEnded(old(keys), ids - todo, u, ttl, now)
        decreases |todo|
      {
        var j :| j in todo;
        OneMoreSession(old(keys), ids - todo, j, u, ttl, now);
        assert ids - todo + {j} == ids - (todo - {j});
        EndSession(j, u, ttl, now);
        todo := todo - {j};
      }
      assert ids - todo == ids;
    }

    method EndToken(h: Hash, f: Hash, u: User, now: int)
      modifies this
      ensures keys == TokenEnded(old(keys), h, f, u, now)
    {
      keys := keys.(logoutReceipts := keys.logoutReceipts[h := Keyed(LogoutReceipt(u, f), now + LOGOUT_RECEIPT_TTL_SECONDS)]);
      keys := keys.(refresh := keys.refresh - {h});
      keys := keys.(userRefresh := Remove(keys.userRefresh, u, {h}, now));
    }

    /** For each refresh token of a fenced family: leave a receipt, delete the record, unindex it. */
    method EndTokens(tokens: set<Hash>, f: Hash, u: User, now: int)
      modifies this
      ensures keys == TokensEnded(old(keys), tokens, f, u, now)
    {
      var todo := tokens;
      NoTokenEnded(keys, f, u, now);
      assert tokens - todo == {};
      while todo != {}
        invariant todo <= tokens
        invariant keys == TokensEnded(old(keys), tokens - todo, f, u, now)
        decreases |todo|
      {
        var h :| h in todo;
        OneMoreToken(old(keys), tokens - todo, h, f, u, now);
        assert tokens - todo + {h} == tokens - (todo - {h});
        EndToken(h, f, u, now);
        todo := todo - {h};
      }
      assert tokens - todo == tokens;
    }

    /** The script's local function `revokeFamily`, on a family it has not visited. */
    method FenceFamilyKeys(f: Hash, fallback: Option<User>, nodeNow: int, cfg: Config, now: int) returns (user: Option<User>)
      modifies this
      ensures user == FamilyUser(old(keys), f, fallback, now)
      ensures keys == RevokeFamily(old(keys), f, fallback, nodeNow, cfg, now)
    {
      user := if Has(keys.families, f, now) then Some(keys.families[f].value.user) else fallback;
      if user.None? { return; }
      var u := user.value;
      FenceInOrder(keys, f, u, nodeNow, cfg, now);
      CutSessions(f, u, nodeNow, cfg, now);
      CutTokens(f, u, now);
    }

    method CutSessions(f: Hash, u: User, nodeNow: int, cfg: Config, now: int)
      modifies this
      ensures keys == SessionsCut(old(keys), f, u, nodeNow, cfg, now)
    {
      keys := keys.(families := keys.families[f := Keyed(Family(false, u), now + cfg.refreshTtl)]);
      EndSessions(ScoresFrom(Scores(keys.familySessions, f, now), nodeNow), u, cfg.refreshTtl, now);
      keys := keys.(familySessions := keys.familySessions - {f});
    }

    method CutTokens(f: Hash, u: User, now: int)
      modifies this
      ensures keys == TokensCut(old(keys), f, u, now)
    {
      EndTokens(Members(keys.familyTokens, f, now), f, u, now);
      keys := keys.(familyTokens := keys.familyTokens - {f});
      keys := keys.(userFamilies := Remove(keys.userFamilies, u, {f}, now));
    }

    /** The refresh-token half of the logout script. */
    method EndPresented(h: Hash, visited: Option<Hash>, nodeNow: int, cfg: Config, now: int)
      modifies this
      ensures keys == RevokePresentedRefresh(old(keys), h, visited, nodeNow, cfg, now)
    {
      var u := PresentedUser(keys, h, now);
      var f := PresentedFamily(keys, h, now);
      var resolved := None;
      if f.Some? {
        if visited == f {
          resolved := FamilyUser(keys, f.value, u, now);
        } else {
          resolved := FenceFamilyKeys(f.value, u, nodeNow, cfg, now);
        }
      }
      if f.Some? && resolved.Some? {
        keys := keys.(logoutReceipts := keys.logoutReceipts[h := Keyed(LogoutReceipt(resolved.value, f.value), now + LOGOUT_RECEIPT_TTL_SECONDS)]);
      }
      keys := keys.(refresh := keys.refresh - {h});
      if u.Some? { keys := keys.(userRefresh := Remove(keys.userRefresh, u.value, {h}, now)); }
    }

    /** REVOKE_PRESENTED_SESSION_SCRIPT. */
    method RunLogout(a: LogoutArgs, cfg: Config, now: int)
      modifies this
      ensures keys == Logout(old(keys), a, cfg, now)
    {
      var f := AccessFamily(a);
      if f.Some? { var _ := FenceFamilyKeys(f.value, Some(a.access.value.user), a.nodeNow, cfg, now); }
      if a.refreshHash.Some? { EndPresented(a.refreshHash.value, f, a.nodeNow, cfg, now); }
      if a.access.Some? {
        var j, u := a.access.value.jti, a.access.value.user;
        keys := keys.(sessions := keys.sessions - {j});
        keys := keys.(userSessions := RemoveSessions(keys.userSessions, u, {j}, now));
        keys := keys.(tombstones := keys.tombstones[j := Keyed(true, now + cfg.refreshTtl)]);
      }
    }

    /** DEL of every session of the account but the spared one. */
    method DeleteSessions(ids: set<Jti>, spared: set<Jti>)
      modifies this
      ensures keys == old(keys).(sessions := old(keys.sessions) - (ids - spared))
    {
      var todo := ids;
      ghost var gone: set<Jti> := {};
      while todo != {}
        invariant todo <= ids && gone == ids - todo - spared
        invariant keys == old(keys).(sessions := old(keys.sessions) - gone)
        decreases |todo|
      {
        var j :| j in todo;
        if j !in spared {
          DropOneMore(old(keys.sessions), gone, j);
          keys := keys.(sessions := keys.sessions - {j});
          gone := gone + {j};
        }
        todo := todo - {j};
      }
      assert gone == ids - spared;
    }

    method DeleteRecords(hashes: set<Hash>)
      modifies this
      ensures keys == old(keys).(refresh := old(keys.refresh) - hashes)
    {
      var todo := hashes;
      while todo != {}
        invariant todo <= hashes
        invariant keys == old(keys).(refresh := old(keys.refresh) - (hashes - todo))
        decreases |todo|
      {
        var h :| h in todo;
        keys := keys.(refresh := keys.refresh - {h});
        todo := todo - {h};
      }
    }

    method FenceOne(f: Hash, u: User, ttl: int, now: int)
      modifies this
      ensures keys == FamilyFenced(old(keys), f, u, ttl, now)
    {
      keys := keys.(families := keys.families[f := Keyed(Family(false, u), now + ttl)]);
      keys := keys.(familySessions := keys.familySessions - {f});
      keys := keys.(familyTokens := keys.familyTokens - {f});
    }

    /** Fence every family of the account and drop its indexes. */
    method FenceAll(fs: set<Hash>, u: User, ttl: int, now: int)
      modifies this
      ensures keys == FamiliesFenced(old(keys), fs, u, ttl, now)
    {
      var todo := fs;
      NoFamilyFenced(keys, u, ttl, now);
      assert fs - todo == {};
      while todo != {}
        invariant todo <= fs
        invariant keys == FamiliesFenced(old(keys), fs - todo, u, ttl, now)
        decreases |todo|
      {
        var f :| f in todo;
        OneMoreFamily(old(keys), fs - todo, f, u, ttl, now);
        assert fs - todo + {f} == fs - (todo - {f});
        FenceOne(f, u, ttl, now);
        todo := todo - {f};
      }
      assert fs - todo == fs;
    }

    /** REVOKE_ALL_USER_SESSIONS_SCRIPT. */
    method RunRevokeAll(u: User, except: Option<Jti>, cfg: Config, now: int)
      modifies this
      ensures keys == RevokeAll(old(keys), u, except, cfg, now)
    {
      DeleteSessions(SessionMembers(keys.userSessions, u, now), if except.Some? then {except.value} else {});
      DeleteRecords(Members(keys.userRefresh, u, now));
      keys := keys.(userRefresh := keys.userRefresh - {u});
      if except.None? {
        FenceAll(Members(keys.userFamilies, u, now), u, cfg.refreshTtl, now);
        keys := keys.(userSessions := keys.userSessions - {u});
        keys := keys.(userFamilies := keys.userFamilies - {u});
      } else {
        keys := keys.(userSessions := keys.userSessions[u := SessionIndex({except.value}, None)]);
      }
    }
  }
}
