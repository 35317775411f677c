/** The reset-link scripts, command by command on the keys they change, proved against their specifications. */
module PasswordResetRedis {
  import opened Wrappers
  import opened PasswordReset
  import opened PasswordResetProofs

  /** The link can be consumed by a request whose clock shows `nodeNow`. */
  predicate Redeemable(l: Links, hash: Hash, nodeNow: int, now: int) {
    Consumed(l, hash, nodeNow, now).Some?
  }

  /** Every link but those of `gone` is as redeemable as before. */
  ghost predicate SparesLinks(l: Links, l': Links, gone: set<Hash>, now: int) {
    forall h: Hash, nodeNow: int :: h !in gone ==> Consumed(l', h, nodeNow, now) == Consumed(l, h, nodeNow, now)
  }

  lemma WithdrawSpares(l: Links, c: Claim, hash: Hash, now: int)
    ensures SparesLinks(l, WithdrawLink(l, c, hash, now), {hash}, now)
    ensures forall nodeNow: int :: !Redeemable(WithdrawLink(l, c, hash, now), hash, nodeNow, now)
  {
  }

  /** What the issue script answers for any keys, a pointer without a rank counting as rank zero. */
  lemma IssueAnswers(l: Links, c: Claim, hash: Hash, now: int)
    ensures OutcomeOfStore(l, c, hash, now) == Taken <==> hash in l.tokens && now < l.tokens[hash].until
    ensures OutcomeOfStore(l, c, hash, now) == Superseded <==>
      && (hash in l.tokens ==> l.tokens[hash].until <= now) && c.user in l.active && now < l.active[c.user].until
      && (l.active[c.user].value.Bare? ==> c.passwordGeneration == 0)
      && (l.active[c.user].value.Ranked? ==> c.passwordGeneration <= l.active[c.user].value.generation)
  {
  }

  /** What the consume script answers for any keys: the claim of a live, unexpired record that its user's live pointer names. */
  lemma ConsumeAnswers(l: Links, hash: Hash, nodeNow: int, now: int, c: Claim)
    ensures Consumed(l, hash, nodeNow, now) == Some(c) <==>
      && hash in l.tokens && now < l.tokens[hash].until && l.tokens[hash].value.claim == c
      && nodeNow < l.tokens[hash].value.expiresAt
      && c.user in l.active && now < l.active[c.user].until
      && l.active[c.user].value in {Bare(hash), Ranked(c.passwordGeneration, hash)}
  {
  }

  /** Consuming a link touches no other. */
  lemma ConsumeSpares(l: Links, hash: Hash, now: int)
    ensures SparesLinks(l, ConsumeLink(l, hash, now), {hash}, now)
    ensures forall nodeNow: int :: !Redeemable(ConsumeLink(l, hash, now), hash, nodeNow, now)
  {
  }

  /** The links of the user that a new link displaces. */
  ghost function LinksOf(l: Links, u: User): iset<Hash> {
    iset h | h in l.tokens && l.tokens[h].value.claim.user == u
  }

  /** A stored link is redeemable until it expires; only links of its own user stop being so. */
  lemma StoreDisplaces(l: Links, r: Record, hash: Hash, now: int)
    requires LinksAgree(l, now) && OutcomeOfStore(l, r.claim, hash, now) == StoredOk && hash !in l.tokens
    ensures var l' := StoreLink(l, r, hash, now);
      && (forall nodeNow: int :: Consumed(l', hash, nodeNow, now) == if nodeNow < r.expiresAt then Some(r.claim) else None)
      && (forall h: Hash, nodeNow: int :: h != hash && h !in LinksOf(l, r.claim.user) ==>
            Consumed(l', h, nodeNow, now) == Consumed(l, h, nodeNow, now))
      && (forall h: Hash, nodeNow: int :: h != hash && h in LinksOf(l, r.claim.user) ==> !Redeemable(l', h, nodeNow, now))
  {
    var u := r.claim.user;
    if Has(l.active, u, now) { assert Has(l.tokens, l.active[u].value.hash, now); }
  }

  class Redis {
    var tokens: map<Hash, Keyed<Record>>
    var active: map<User, Keyed<Pointer>>

    ghost function Contents(): Links
      reads this
    {
      Links(tokens, active)
    }

    constructor ()
      ensures Contents() == Links(map[], map[]) && forall now: int :: LinksAgree(Contents(), now)
    {
      tokens, active := map[], map[];
    }

    /** Returns 0, -1 or 1 as the script does; a new hash is not that of a record that has expired. */
    method RunIssue(record: Record, hash: Hash, now: int) returns (code: int)
      modifies this
      ensures Contents() == StoreLink(old(Contents()), record, hash, now)
      ensures code == match OutcomeOfStore(old(Contents()), record.claim, hash, now)
        case Taken => 0
        case Superseded => -1
        case StoredOk => 1
      ensures code == 1 ==> forall nodeNow: int ::
        Consumed(Contents(), hash, nodeNow, now) == if nodeNow < record.expiresAt then Some(record.claim) else None
      ensures code != 1 ==> Contents() == old(Contents())
      ensures old(LinksAgree(Contents(), now)) && (hash in old(tokens) ==> Has(old(tokens), hash, now)) ==>
        LinksAgree(Contents(), now)
    {
      ghost var l := Contents();
      if LinksAgree(l, now) && (hash in tokens ==> Has(tokens, hash, now)) { StoreKeepsAgreement(l, record, hash, now); }
      if Has(tokens, hash, now) { return 0; }
      var user, generation := record.claim.user, record.claim.passwordGeneration;
      if Has(active, user, now) {
        var previous := active[user].value;
        var previousGeneration := 0;
        if previous.Ranked? { previousGeneration := previous.generation; }
        if previousGeneration >= generation { return -1; }
        tokens := tokens - {previous.hash};
      }
      tokens := tokens[hash := Keyed(record, now + PASSWORD_RESET_TTL_MS)];
      active := active[user := Keyed(Ranked(generation, hash), now + PASSWORD_RESET_TTL_MS)];
      return 1;
    }

    /** A second request with the same link gets nothing, and no other link is touched. */
    method RunConsume(hash: Hash, nodeNow: int, now: int) returns (claim: Option<Claim>)
      modifies this
      ensures Contents() == ConsumeLink(old(Contents()), hash, now)
      ensures claim == Consumed(old(Contents()), hash, nodeNow, now)
      ensures SparesLinks(old(Contents()), Contents(), {hash}, now)
      ensures forall later: int :: !Redeemable(Contents(), hash, later, now)
      ensures old(LinksAgree(Contents(), now)) ==> LinksAgree(Contents(), now)
    {
      ghost var l := Contents();
      ConsumeSpares(l, hash, now);
      if LinksAgree(l, now) { ConsumeKeepsAgreement(l, hash, now); }
      if !Has(tokens, hash, now) { return None; }
      var record := tokens[hash].value;
      var user := record.claim.user;
      var isActive := false;
      if Has(active, user, now) {
        isActive := active[user].value == Bare(hash) || active[user].value == Ranked(record.claim.passwordGeneration, hash);
      }
      if record.expiresAt <= nodeNow {
        tokens := tokens - {hash};
        if isActive { active := active - {user}; }
        return None;
      }
      if !isActive {
        tokens := tokens - {hash};
        return None;
      }
      tokens := tokens - {hash};
      active := active - {user};
      return Some(record.claim);
    }

    /** The cancelled link is good for nothing any more, and every other link is as good as before. */
    method RunCancel(claim: Claim, hash: Hash, now: int)
      modifies this
      ensures Contents() == WithdrawLink(old(Contents()), claim, hash, now)
      ensures SparesLinks(old(Contents()), Contents(), {hash}, now)
      ensures forall nodeNow: int :: !Redeemable(Contents(), hash, nodeNow, now)
      ensures old(LinksAgree(Contents(), now)) && (hash in old(tokens) ==> old(tokens)[hash].value.claim == claim) ==>
        LinksAgree(Contents(), now)
    {
      ghost var l := Contents();
      WithdrawSpares(l, claim, hash, now);
      if LinksAgree(l, now) && (hash in tokens ==> tokens[hash].value.claim == claim) {
        WithdrawKeepsAgreement(l, claim, hash, now);
      }
      tokens := tokens - {hash};
      if Has(active, claim.user, now) && active[claim.user].value == Ranked(claim.passwordGeneration, hash) {
        active := active - {claim.user};
      }
    }
  }
}
