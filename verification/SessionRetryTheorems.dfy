/** When a rotation whose reply was lost can be retried: exactly until somebody undoes what it left behind. */
module SessionRetryTheorems {
  import opened Wrappers
  import opened SessionStore
  import opened SessionSystem
  import opened SessionRotateProof
  import opened SessionRevokeProof
  import opened SessionTheorems
  import opened SessionRotationTheorems

  /** When the first of the keys that a retry looks at expires, for a rotation committed at `at`. */
  function Deadline(at: int, cfg: Config): int {
    var ttl := if cfg.accessTtl < cfg.refreshTtl then cfg.accessTtl else cfg.refreshTtl;
    at + if 300 < ttl then 300 else ttl
  }

  predicate Holds<K, T(==)>(m: map<K, Keyed<T>>, k: K, value: T, until: int) {
    k in m && m[k] == Keyed(value, until)
  }

  /** Receipt, family, successor record and session are as the rotation committed at `at` wrote them. */
  predicate InPlace(st: Store, a: RotateArgs, at: int, cfg: Config) {
    && Holds(st.rotationReceipts, a.presented, a.newHash, at + REFRESH_ROTATION_RECEIPT_TTL_SECONDS)
    && Holds(st.families, a.record.family, Family(true, a.record.user), at + cfg.refreshTtl)
    && Holds(st.refresh, a.newHash, a.Successor(), at + cfg.refreshTtl)
    && Holds(st.sessions, a.jti, a.record.user, at + cfg.accessTtl)
  }

  /** One of the keys without which a retry cannot succeed is gone or expired. */
  predicate Missing(st: Store, a: RotateArgs, now: int) {
    || !Has(st.rotationReceipts, a.presented, now)
    || !Has(st.refresh, a.newHash, now)
    || !Has(st.sessions, a.jti, now)
  }

  /** The rotation has run and its successor is on record. */
  ghost predicate OnRecord(hist: History, a: RotateArgs) {
    a in hist.rotations && a.presented in hist.successor && a.newHash in hist.memberOf
  }

  /**
   The step takes back what rotation `a` gave: it rotates the successor on, logs out the new
   session or something by which the family is found, or revokes the account.
   */
  predicate Disturbs(s: System, step: Step, a: RotateArgs) {
    match step
    case RunRotate(b) => b.presented == a.newHash && Installs(s.store, b, s.now)
    case RunLogout(l) =>
      || AccessFamily(l) == Some(a.record.family)
      || (l.access.Some? && l.access.value.jti == a.jti)
      || (l.refreshHash.Some? && PresentedFamily(s.store, l.refreshHash.value, s.now) == Some(a.record.family))
    case RunRevokeAll(u, _) => u == a.record.user
    case _ => false
  }

  ghost predicate Undisturbed(s: System, steps: seq<Step>, a: RotateArgs, cfg: Config)
    requires CanRun(s, steps, cfg)
    decreases |steps|
  {
    steps == [] || (!Disturbs(s, steps[0], a) && Undisturbed(Next(s, steps[0], cfg), steps[1..], a, cfg))
  }

  /* ---------- what leaves the keys in place ---------- */

  lemma CommitSpares(st: Store, st': Store, hist: History, a: RotateArgs, b: RotateArgs, at: int, cfg: Config, now: int)
    requires HistoryInv(hist, cfg) && InPlace(st, a, at, cfg) && OnRecord(hist, a) && b in hist.rotations
    requires b.presented != a.newHash && b.presented != a.presented && b.record.family != a.record.family
    requires Installed(st, st', b, cfg, now)
    ensures InPlace(st', a, at, cfg)
  {
    assert RotationSound(hist, a, cfg) && RotationSound(hist, b, cfg);
    assert b.newHash != a.newHash && b.jti != a.jti;
  }

  /** A token that is rotated beside the successor is of another family. */
  lemma OtherFamily(st: Store, hist: History, a: RotateArgs, b: RotateArgs, now: int)
    requires RotationLinear(st.refresh, st.rotationReceipts, hist.successor, now) && a.presented in hist.successor
    requires Get(st.refresh, a.newHash, now) == Some(a.Successor()) && PresentedRecordLive(st, b, now)
    ensures b.presented != a.presented
    ensures b.presented != a.newHash ==> b.record.family != a.record.family
  {
    assert Has(st.refresh, b.presented, now) && Has(st.refresh, a.newHash, now);
  }

  lemma RotateSpares(st: Store, hist: History, a: RotateArgs, b: RotateArgs, at: int, cfg: Config, now: int)
    requires cfg.rotation && HistoryInv(hist, cfg) && StoreInv(st, hist, now, cfg) && now < Deadline(at, cfg)
    requires InPlace(st, a, at, cfg) && OnRecord(hist, a) && b in hist.rotations
    requires b.presented == a.newHash ==> !Installs(st, b, now)
    ensures InPlace(Rotate(st, b, cfg, now), a, at, cfg)
  {
    RotateWrites(st, b, cfg, now);
    if Installs(st, b, now) {
      OtherFamily(st, hist, a, b, now);
      CommitSpares(st, Rotate(st, b, cfg, now), hist, a, b, at, cfg, now);
    }
  }

  lemma IssueSpares(st: Store, hist: History, a: RotateArgs, b: IssueArgs, at: int, cfg: Config, now: int)
    requires HistoryInv(hist, cfg) && InPlace(st, a, at, cfg) && OnRecord(hist, a) && b in hist.issues
    ensures InPlace(Issue(st, b, cfg, now), a, at, cfg)
  {
    assert RotationSound(hist, a, cfg) && IssueSound(hist, b, cfg);
  }

  lemma FenceSpares(st: Store, hist: History, a: RotateArgs, g: Hash, fallback: Option<User>, nodeNow: int, at: int,
                    cfg: Config, now: int)
    requires RotationSound(hist, a, cfg) && OwnershipInv(st, hist) && InPlace(st, a, at, cfg) && g != a.record.family
    ensures InPlace(RevokeFamily(st, g, fallback, nodeNow, cfg, now), a, at, cfg)
  {
    FenceSparesOthers(st, hist, g, fallback, a.record.family, nodeNow, cfg, now);
  }

  lemma PresentedSpares(st: Store, hist: History, a: RotateArgs, h: Hash, visited: Option<Hash>, nodeNow: int, at: int,
                        cfg: Config, now: int)
    requires RotationSound(hist, a, cfg) && OwnershipInv(st, hist) && FamiliesKnown(hist)
    requires InPlace(st, a, at, cfg) && now < Deadline(at, cfg) && a.newHash in hist.memberOf
    requires PresentedFamily(st, h, now) != Some(a.record.family)
    ensures InPlace(RevokePresentedRefresh(st, h, visited, nodeNow, cfg, now), a, at, cfg)
  {
    var f, u := PresentedFamily(st, h, now), PresentedUser(st, h, now);
    PresentedOwned(st, hist, a.newHash, now);
    assert h != a.newHash;
    if f.None? {
      ForgetSpares(st, a, h, f, u, None, at, cfg, now);
    } else {
      FenceSpares(st, hist, a, f.value, u, nodeNow, at, cfg, now);
      var fenced := if visited == f then st else RevokeFamily(st, f.value, u, nodeNow, cfg, now);
      ForgetSpares(fenced, a, h, f, u, FamilyUser(st, f.value, u, now), at, cfg, now);
    }
  }

  lemma ForgetSpares(st: Store, a: RotateArgs, h: Hash, f: Option<Hash>, u: Option<User>, resolved: Option<User>, at: int,
                     cfg: Config, now: int)
    requires InPlace(st, a, at, cfg) && h != a.newHash
    ensures InPlace(ForgetPresented(st, h, f, u, resolved, now), a, at, cfg)
  {
  }

  lemma LogoutSpares(s: System, a: RotateArgs, l: LogoutArgs, at: int, cfg: Config)
    requires Inv(s, cfg) && Enabled(s, RunLogout(l)) && !Disturbs(s, RunLogout(l), a)
    requires InPlace(s.store, a, at, cfg) && s.now < Deadline(at, cfg) && OnRecord(s.hist, a)
    ensures InPlace(Logout(s.store, l, cfg, s.now), a, at, cfg)
  {
    var st1 := LogoutFamilies(s.store, l, cfg, s.now);
    assert RotationSound(s.hist, a, cfg);
    LogoutFamiliesKeeps(s.store, s.hist, l, cfg, s.now);
    if AccessFamily(l).Some? {
      var g, u := AccessFamily(l).value, Some(l.access.value.user);
      FenceSpares(s.store, s.hist, a, g, u, l.nodeNow, at, cfg, s.now);
      if l.refreshHash.Some? {
        NamedElsewhere(s.store, g, u, l.refreshHash.value, a.record.family, l.nodeNow, cfg, s.now);
      }
    }
    if l.refreshHash.Some? {
      PresentedSpares(st1, s.hist, a, l.refreshHash.value, AccessFamily(l), l.nodeNow, at, cfg, s.now);
    }
    LogoutRest(LogoutRefresh(st1, l, cfg, s.now), a, l, at, cfg, s.now);
  }

  lemma LogoutRest(st: Store, a: RotateArgs, l: LogoutArgs, at: int, cfg: Config, now: int)
    requires l.access.Some? ==> l.access.value.jti != a.jti
    requires InPlace(st, a, at, cfg)
    ensures l.access.Some? ==>
              InPlace(RevokeAccessSession(st, l.access.value.jti, l.access.value.user, cfg, now), a, at, cfg)
  {
  }

  lemma RevokeAllSpares(st: Store, hist: History, a: RotateArgs, u: User, except: Option<Jti>, at: int, cfg: Config, now: int)
    requires RotationSound(hist, a, cfg) && OwnershipInv(st, hist) && InPlace(st, a, at, cfg) && u != a.record.user
    ensures InPlace(RevokeAll(st, u, except, cfg, now), a, at, cfg)
  {
    OthersUntouched(st, hist, u, a.record.user, except, cfg, now);
  }

  lemma StepSpares(s: System, step: Step, a: RotateArgs, at: int, cfg: Config)
    requires cfg.rotation && Inv(s, cfg) && Enabled(s, step) && !Disturbs(s, step, a) && s.now < Deadline(at, cfg)
    requires InPlace(s.store, a, at, cfg) && OnRecord(s.hist, a)
    ensures InPlace(Next(s, step, cfg).store, a, at, cfg)
  {
    match step
    case RunIssue(b) => IssueSpares(s.store, s.hist, a, b, at, cfg, s.now);
    case RunRotate(b) => RotateSpares(s.store, s.hist, a, b, at, cfg, s.now);
    case RunLogout(l) => LogoutSpares(s, a, l, at, cfg);
    case RunRevokeAll(u, except) =>
      assert RotationSound(s.hist, a, cfg);
      RevokeAllSpares(s.store, s.hist, a, u, except, at, cfg, s.now);
    case _ => assert Next(s, step, cfg).store == s.store;
  }

  /* ---------- what removes one of them ---------- */

  lemma LogoutDisturbs(s: System, a: RotateArgs, l: LogoutArgs, at: int, cfg: Config)
    requires cfg.Valid() && Inv(s, cfg) && Enabled(s, RunLogout(l)) && Disturbs(s, RunLogout(l), a)
    requires InPlace(s.store, a, at, cfg) && a in s.hist.rotations
    ensures Missing(Next(s, RunLogout(l), cfg).store, a, s.now)
  {
    var t := Next(s, RunLogout(l), cfg);
    if l.access.Some? && l.access.value.jti == a.jti {
      assert a.jti !in t.store.sessions;
    } else {
      if AccessFamily(l) == Some(a.record.family) {
        LogoutFencesAccess(s, l, cfg);
      } else {
        LogoutFencesNamed(s, l, l.refreshHash.value, cfg);
      }
      StepInv(s, RunLogout(l), cfg);
      if Has(t.store.refresh, a.newHash, t.now) {
        LogoutShrinks(s.store, l, cfg, s.now);
        LiveRecordIndexed(t, a.newHash, cfg);
      }
    }
  }

  lemma StepDisturbs(s: System, step: Step, a: RotateArgs, at: int, cfg: Config)
    requires cfg.Valid() && cfg.rotation && Inv(s, cfg) && Enabled(s, step) && Disturbs(s, step, a)
    requires InPlace(s.store, a, at, cfg) && OnRecord(s.hist, a)
    ensures Missing(Next(s, step, cfg).store, a, s.now)
  {
    match step
    case RunRotate(b) =>
      RotateWrites(s.store, b, cfg, s.now);
      assert RotationSound(s.hist, b, cfg);
    case RunLogout(l) => LogoutDisturbs(s, a, l, at, cfg);
    case RunRevokeAll(u, except) =>
      AllRecords(s.store, Next(s, step, cfg).store, s.hist, u, except, cfg, s.now);
      assert a.newHash in Next(s, step, cfg).store.refresh ==>
          Next(s, step, cfg).store.refresh[a.newHash] == s.store.refresh[a.newHash];
  }

  /* ---------- what is missing stays missing ---------- */

  lemma RotateKeepsMissing(st: Store, hist: History, a: RotateArgs, b: RotateArgs, cfg: Config, now: int)
    requires cfg.rotation && HistoryInv(hist, cfg) && StoreInv(st, hist, now, cfg)
    requires Missing(st, a, now) && OnRecord(hist, a) && b in hist.rotations
    ensures Missing(Rotate(st, b, cfg, now), a, now)
  {
    RotateWrites(st, b, cfg, now);
    if Installs(st, b, now) { CommitKeepsMissing(st, Rotate(st, b, cfg, now), hist, a, b, cfg, now); }
  }

  lemma CommitKeepsMissing(st: Store, st': Store, hist: History, a: RotateArgs, b: RotateArgs, cfg: Config, now: int)
    requires cfg.rotation && RotationsSound(hist, cfg) && RecordsOwned(st.refresh, hist.memberOf, hist.established)
    requires RotationLinear(st.refresh, st.rotationReceipts, hist.successor, now)
    requires Missing(st, a, now) && OnRecord(hist, a) && b in hist.rotations && Has(st.refresh, b.presented, now)
    requires st.refresh[b.presented].value == b.record && Installed(st, st', b, cfg, now)
    ensures Missing(st', a, now)
  {
    assert RotationSound(hist, a, cfg) && RotationSound(hist, b, cfg);
    assert b.presented != a.presented && b.newHash != a.newHash;
    if Has(st.refresh, a.newHash, now) && b.jti == a.jti {
      var r := st.refresh[a.newHash].value;
      assert Owns(hist.memberOf, hist.established, a.newHash, r.family, r.user);
      assert r.family == a.record.family == b.record.family;
      assert b.presented == a.newHash;
    }
  }

  lemma IssueKeepsMissing(st: Store, hist: History, a: RotateArgs, b: IssueArgs, cfg: Config, now: int)
    requires HistoryInv(hist, cfg) && Missing(st, a, now) && OnRecord(hist, a) && b in hist.issues
    ensures Missing(Issue(st, b, cfg, now), a, now)
  {
    assert RotationSound(hist, a, cfg) && IssueSound(hist, b, cfg);
  }

  lemma LogoutKeepsMissing(st: Store, a: RotateArgs, l: LogoutArgs, cfg: Config, now: int)
    requires Missing(st, a, now)
    ensures Missing(Logout(st, l, cfg, now), a, now)
  {
    LogoutShrinks(st, l, cfg, now);
  }

  lemma StepKeepsMissing(s: System, step: Step, a: RotateArgs, cfg: Config)
    requires cfg.rotation && Inv(s, cfg) && Enabled(s, step) && Missing(s.store, a, s.now) && OnRecord(s.hist, a)
    ensures Missing(Next(s, step, cfg).store, a, Next(s, step, cfg).now)
  {
    match step
    case RunIssue(b) => IssueKeepsMissing(s.store, s.hist, a, b, cfg, s.now);
    case RunRotate(b) => RotateKeepsMissing(s.store, s.hist, a, b, cfg, s.now);
    case RunLogout(l) => LogoutKeepsMissing(s.store, a, l, cfg, s.now);
    case RunRevokeAll(_, _) =>
    case _ => assert Next(s, step, cfg).store == s.store;
  }

  lemma StepOnRecord(s: System, step: Step, a: RotateArgs, cfg: Config)
    requires cfg.rotation && Inv(s, cfg) && Enabled(s, step) && OnRecord(s.hist, a)
    ensures OnRecord(Next(s, step, cfg).hist, a) && s.now <= Next(s, step, cfg).now
  {
    StepGrows(s, step, cfg);
    StepKeepsSuccessors(s, step, a.presented, cfg);
  }

  lemma {:induction false} RunKeepsMissing(s: System, steps: seq<Step>, a: RotateArgs, cfg: Config)
    requires cfg.Valid() && cfg.rotation && Inv(s, cfg) && CanRun(s, steps, cfg)
    requires Missing(s.store, a, s.now) && OnRecord(s.hist, a)
    ensures Missing(Run(s, steps, cfg).store, a, Run(s, steps, cfg).now) && s.now <= Run(s, steps, cfg).now
    decreases |steps|
  {
    if steps != [] {
      StepInv(s, steps[0], cfg);
      StepOnRecord(s, steps[0], a, cfg);
      StepKeepsMissing(s, steps[0], a, cfg);
      RunKeepsMissing(Next(s, steps[0], cfg), steps[1..], a, cfg);
    }
  }

  /** At the end of a run the keys are in place if nobody disturbed them in time, and otherwise one is missing. */
  lemma {:induction false} RunDecides(s: System, steps: seq<Step>, a: RotateArgs, at: int, cfg: Config)
    requires cfg.Valid() && cfg.rotation && Inv(s, cfg) && CanRun(s, steps, cfg)
    requires InPlace(s.store, a, at, cfg) && OnRecord(s.hist, a) && s.now < Deadline(at, cfg)
    ensures var t := Run(s, steps, cfg);
            if Undisturbed(s, steps, a, cfg) && t.now < Deadline(at, cfg) then InPlace(t.store, a, at, cfg)
            else Missing(t.store, a, t.now)
    decreases |steps|
  {
    if steps != [] {
      var n := Next(s, steps[0], cfg);
      StepInv(s, steps[0], cfg);
      StepOnRecord(s, steps[0], a, cfg);
      if Disturbs(s, steps[0], a) {
        StepDisturbs(s, steps[0], a, at, cfg);
        RunKeepsMissing(n, steps[1..], a, cfg);
      } else {
        StepSpares(s, steps[0], a, at, cfg);
        if n.now < Deadline(at, cfg) {
          RunDecides(n, steps[1..], a, at, cfg);
        } else {
          RunKeepsMissing(n, steps[1..], a, cfg);
        }
      }
    }
  }

  lemma InstalledInPlace(st: Store, st': Store, a: RotateArgs, cfg: Config, now: int)
    requires Installed(st, st', a, cfg, now) && a.newHash != a.presented
    ensures InPlace(st', a, now, cfg)
  {
  }

  lemma InstallsInPlace(s: System, a: RotateArgs, cfg: Config)
    requires cfg.Valid() && cfg.rotation && Inv(s, cfg) && Enabled(s, RunRotate(a)) && Installs(s.store, a, s.now)
    ensures var n := Next(s, RunRotate(a), cfg); InPlace(n.store, a, s.now, cfg) && OnRecord(n.hist, a) && n.now == s.now
  {
    assert RotationSound(s.hist, a, cfg);
    RotateWrites(s.store, a, cfg, s.now);
    InstalledInPlace(s.store, Rotate(s.store, a, cfg, s.now), a, cfg, s.now);
  }

  lemma Retried(st: Store, successor: map<Hash, Hash>, a: RotateArgs, at: int, cfg: Config, now: int)
    requires RotationLinear(st.refresh, st.rotationReceipts, successor, now) && a.presented in successor
    ensures Rotate(st, a, cfg, now) == st
    ensures InPlace(st, a, at, cfg) && now < Deadline(at, cfg) ==> RotateOutcome(st, a, now) == Committed
    ensures Missing(st, a, now) ==> RotateOutcome(st, a, now) == Refused
  {
    assert !Has(st.refresh, a.presented, now);
  }

  /**
   A retry after a lost reply, at any later point of any run: running the same rotation again
   changes nothing, and it reports success if and only if none of the steps in between took
   back what it gave and the first of its keys has not expired.
   */
  lemma RetryAfterLostReply(s: System, a: RotateArgs, steps: seq<Step>, cfg: Config)
    requires cfg.Valid() && cfg.rotation && Reachable(s, cfg) && Enabled(s, RunRotate(a)) && Installs(s.store, a, s.now)
    requires CanRun(Next(s, RunRotate(a), cfg), steps, cfg)
    ensures var t := Run(Next(s, RunRotate(a), cfg), steps, cfg);
      && Rotate(t.store, a, cfg, t.now) == t.store
      && RotateOutcome(t.store, a, t.now) ==
         if Undisturbed(Next(s, RunRotate(a), cfg), steps, a, cfg) && t.now < Deadline(s.now, cfg) then Committed else Refused
  {
    ReachableInv(s, cfg);
    var s1 := Next(s, RunRotate(a), cfg);
    InstallsInPlace(s, a, cfg);
    StepInv(s, RunRotate(a), cfg);
    RunDecides(s1, steps, a, s.now, cfg);
    RunKeepsSuccessors(s1, steps, a.presented, cfg);
    var t := Run(s1, steps, cfg);
    Retried(t.store, t.hist.successor, a, s.now, cfg, t.now);
  }

  /** A retry is refused at every point at which the family is dead. */
  lemma RetryAfterFence(s: System, a: RotateArgs, steps: seq<Step>, cfg: Config)
    requires cfg.Valid() && cfg.rotation && Reachable(s, cfg) && Enabled(s, RunRotate(a)) && Installs(s.store, a, s.now)
    requires CanRun(Next(s, RunRotate(a), cfg), steps, cfg)
    requires Dead(Run(Next(s, RunRotate(a), cfg), steps, cfg), a.record.family)
    ensures var t := Run(Next(s, RunRotate(a), cfg), steps, cfg); RotateOutcome(t.store, a, t.now) == Refused
    ensures !Undisturbed(Next(s, RunRotate(a), cfg), steps, a, cfg)
         || Deadline(s.now, cfg) <= Run(Next(s, RunRotate(a), cfg), steps, cfg).now
  {
    RetryAfterLostReply(s, a, steps, cfg);
    var t := Run(Next(s, RunRotate(a), cfg), steps, cfg);
    assert !AlreadyRotated(t.store, a, t.now);
  }
}
