/** What adding to and removing from an expiring index does to the facts that rest on it. */
module SessionIndexes {
  import opened SessionStore
  import opened SessionSystem

  lemma AddKeeps<K, T>(m: map<K, Keyed<set<T>>>, k: K, x: T, now: int, ttl: int, k2: K, y: T, until: int)
    requires Indexed(m, k2, y, until) && now < until <= now + ttl
    ensures Indexed(Add(m, k, x, now, ttl), k2, y, until)
  {
  }

  lemma RemoveKeeps<K, T>(m: map<K, Keyed<set<T>>>, k: K, xs: set<T>, now: int, k2: K, y: T, until: int)
    requires Indexed(m, k2, y, until) && y !in xs
    ensures Indexed(Remove(m, k, xs, now), k2, y, until)
  {
  }

  lemma AddSessionKeeps(m: map<User, SessionIndex>, u: User, x: Jti, now: int, ttl: int, j: Jti, v: User, until: int)
    requires AccountIndexed(m, j, v, until) && now < until <= now + ttl
    ensures AccountIndexed(AddSession(m, u, x, now, ttl), j, v, until)
  {
  }

  lemma AddSessionLasts(m: map<User, SessionIndex>, u: User, x: Jti, now: int, ttl: int, j: Jti, until: int)
    requires AccountIndexed(m, j, u, until) && now < until
    ensures AccountIndexed(AddSession(m, u, x, now, ttl), j, u, now + ttl)
  {
  }

  lemma RemoveSessionsKeeps(m: map<User, SessionIndex>, u: User, xs: set<Jti>, now: int, j: Jti, v: User, until: int)
    requires AccountIndexed(m, j, v, until) && j !in xs
    ensures AccountIndexed(RemoveSessions(m, u, xs, now), j, v, until)
  {
  }

  /** ZADD to a family keeps every other score; in that family they now last as long as the new TTL. */
  lemma ScoreKeeps(m: map<Hash, Keyed<map<Jti, int>>>, f: Hash, x: Jti, score: int, now: int, ttl: int,
                   j: Jti, t: AccessToken, until: int)
    requires ScoreIndexed(m, j, t, until) && now < until && j != x
    ensures ScoreIndexed(Score(m, f, x, score, now, ttl), j, t, if t.family == f then now + ttl else until)
  {
  }

  lemma DropScoresKeeps(m: map<Hash, Keyed<map<Jti, int>>>, f: Hash, bound: int, now: int,
                        j: Jti, t: AccessToken, until: int)
    requires ScoreIndexed(m, j, t, until) && bound < t.expiresAt
    ensures ScoreIndexed(DropScores(m, f, bound, now), j, t, until)
  {
  }

  /* ---------- ownership ---------- */

  /** ZADD of a family's own token keeps the family indexes. */
  lemma ScoreOwned(m: map<Hash, Keyed<map<Jti, int>>>, tokens: map<Jti, AccessToken>, established: map<Hash, User>,
                   f: Hash, j: Jti, score: int, now: int, ttl: int)
    requires FamilySessionsOwned(m, tokens, established)
    requires f in established && j in tokens && tokens[j].family == f
    ensures FamilySessionsOwned(Score(m, f, j, score, now, ttl), tokens, established)
  {
  }

  lemma DropScoresOwned(m: map<Hash, Keyed<map<Jti, int>>>, tokens: map<Jti, AccessToken>,
                        established: map<Hash, User>, f: Hash, bound: int, now: int)
    requires FamilySessionsOwned(m, tokens, established)
    ensures FamilySessionsOwned(DropScores(m, f, bound, now), tokens, established)
  {
  }

  lemma ScoreCapped(m: map<Hash, Keyed<map<Jti, int>>>, f: Hash, j: Jti, score: int, now: int, ttl: int)
    requires FamilySessionsCapped(m)
    requires |Scores(m, f, now).Keys| + (if j in Scores(m, f, now) then 0 else 1) <= MAX_REFRESH_FAMILY_SESSIONS
    ensures FamilySessionsCapped(Score(m, f, j, score, now, ttl))
  {
    assert Score(m, f, j, score, now, ttl)[f].value.Keys == Scores(m, f, now).Keys + {j};
  }

  lemma DropScoresCapped(m: map<Hash, Keyed<map<Jti, int>>>, f: Hash, bound: int, now: int)
    requires FamilySessionsCapped(m)
    ensures FamilySessionsCapped(DropScores(m, f, bound, now))
  {
    if Has(m, f, now) { SubsetSize(DropScores(m, f, bound, now)[f].value.Keys, m[f].value.Keys); }
  }

  lemma SubsetSize<T>(a: set<T>, b: set<T>)
    requires a <= b
    ensures |a| <= |b|
  {
    if x :| x in b && x !in a {
      SubsetSize(a, b - {x});
    } else {
      assert a == b;
    }
  }

  lemma AddTokenOwned(m: map<Hash, Keyed<set<Hash>>>, memberOf: map<Hash, Hash>, f: Hash, h: Hash, now: int, ttl: int)
    requires FamilyTokensOwned(m, memberOf) && h in memberOf && memberOf[h] == f
    ensures FamilyTokensOwned(Add(m, f, h, now, ttl), memberOf)
  {
  }

  lemma RemoveTokenOwned(m: map<Hash, Keyed<set<Hash>>>, memberOf: map<Hash, Hash>, f: Hash, hs: set<Hash>, now: int)
    requires FamilyTokensOwned(m, memberOf)
    ensures FamilyTokensOwned(Remove(m, f, hs, now), memberOf)
  {
  }

  lemma AddRefreshOwned(m: map<User, Keyed<set<Hash>>>, memberOf: map<Hash, Hash>, established: map<Hash, User>,
                        u: User, h: Hash, now: int, ttl: int)
    requires UserRefreshOwned(m, memberOf, established) && h in memberOf && Owns(memberOf, established, h, memberOf[h], u)
    ensures UserRefreshOwned(Add(m, u, h, now, ttl), memberOf, established)
  {
  }

  lemma RemoveRefreshOwned(m: map<User, Keyed<set<Hash>>>, memberOf: map<Hash, Hash>, established: map<Hash, User>,
                           u: User, hs: set<Hash>, now: int)
    requires UserRefreshOwned(m, memberOf, established)
    ensures UserRefreshOwned(Remove(m, u, hs, now), memberOf, established)
  {
  }

  lemma AddSessionOwned(m: map<User, SessionIndex>, tokens: map<Jti, AccessToken>, u: User, j: Jti, now: int, ttl: int)
    requires UserSessionsOwned(m, tokens) && SignedFor(tokens, j, u)
    ensures UserSessionsOwned(AddSession(m, u, j, now, ttl), tokens)
  {
  }

  lemma RemoveSessionsOwned(m: map<User, SessionIndex>, tokens: map<Jti, AccessToken>, u: User, js: set<Jti>, now: int)
    requires UserSessionsOwned(m, tokens)
    ensures UserSessionsOwned(RemoveSessions(m, u, js, now), tokens)
  {
  }

  lemma AddFamilyOwned(m: map<User, Keyed<set<Hash>>>, established: map<Hash, User>, u: User, f: Hash, now: int, ttl: int)
    requires UserFamiliesOwned(m, established) && f in established && established[f] == u
    ensures UserFamiliesOwned(Add(m, u, f, now, ttl), established)
  {
  }

  lemma RemoveFamilyOwned(m: map<User, Keyed<set<Hash>>>, established: map<Hash, User>, u: User, fs: set<Hash>, now: int)
    requires UserFamiliesOwned(m, established)
    ensures UserFamiliesOwned(Remove(m, u, fs, now), established)
  {
  }
}
