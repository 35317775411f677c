/**
 Progress: a tab whose claim is first acquires the lease by its own reads and writes, however
 many expired claims crashed tabs have left behind, and a tab that has to wait does not.
 */
module LeaseProgress {
  import opened Wrappers
  import opened RefreshLease
  import opened TextOrder
  import opened LeaseBakery

  /* ---------- runs of one tab ---------- */

  predicate OwnSteps(steps: seq<Step>, p: Owner) {
    forall k :: 0 <= k < |steps| ==> !steps[k].Tick? && steps[k].p == p
  }

  /** The tab gets from `s` to `t` by steps of its own. */
  ghost predicate Leads(s: State, t: State, p: Owner) {
    WellFormed(s) && exists steps :: OwnSteps(steps, p) && CanRun(s, steps) && Run(s, steps) == t
  }

  lemma LeadsNowhere(s: State, p: Owner)
    requires WellFormed(s)
    ensures Leads(s, s, p)
  {
    assert OwnSteps([], p) && CanRun(s, []) && Run(s, []) == s;
  }

  lemma LeadsFirst(s: State, step: Step, t: State, p: Owner)
    requires WellFormed(s) && Enabled(s, step) && !step.Tick? && step.p == p && Leads(Next(s, step), t, p)
    ensures Leads(s, t, p)
  {
    var rest :| OwnSteps(rest, p) && CanRun(Next(s, step), rest) && Run(Next(s, step), rest) == t;
    var steps := [step] + rest;
    assert steps[0] == step && steps[1..] == rest;
    assert OwnSteps(steps, p) && CanRun(s, steps) && Run(s, steps) == t;
  }

  lemma LeadsByStep(s: State, step: Step, p: Owner)
    requires WellFormed(s) && Enabled(s, step) && !step.Tick? && step.p == p
    ensures WellFormed(Next(s, step)) && Leads(s, Next(s, step), p)
  {
    StepWellFormed(s, step);
    LeadsNowhere(Next(s, step), p);
    LeadsFirst(s, step, Next(s, step), p);
  }

  lemma {:induction false} LeadsAlong(s: State, steps: seq<Step>, t: State, p: Owner)
    requires WellFormed(s) && OwnSteps(steps, p) && CanRun(s, steps) && Leads(Run(s, steps), t, p)
    ensures Leads(s, t, p)
    decreases |steps|
  {
    if steps != [] {
      StepWellFormed(s, steps[0]);
      assert OwnSteps(steps[1..], p) by {
        assert forall k :: 0 <= k < |steps| - 1 ==> steps[1..][k] == steps[k + 1];
      }
      LeadsAlong(Next(s, steps[0]), steps[1..], t, p);
      LeadsFirst(s, steps[0], t, p);
    }
  }

  lemma LeadsOn(s: State, t: State, u: State, p: Owner)
    requires Leads(s, t, p) && Leads(t, u, p)
    ensures Leads(s, u, p)
  {
    var steps :| OwnSteps(steps, p) && CanRun(s, steps) && Run(s, steps) == t;
    LeadsAlong(s, steps, u, p);
  }

  /* ---------- one whole scan ---------- */

  predicate Scans(ph: Phase) { ph.Choosing? || ph.Scanning? || ph.Confirming? }

  /** The registers, the clock and the acquired leases are as they were. */
  ghost predicate SameBoard(s: State, t: State) {
    && t.regs == s.regs && t.clock == s.clock && t.owners == s.owners && t.acquired == s.acquired
    && t.timers == s.timers && t.nextGeneration == s.nextGeneration
  }

  /** What a scan of the present registers reads. */
  ghost function Readout(s: State, qs: set<Owner>): Readings { map q | q in qs :: Reg(s.regs, q) }

  /** The tab has got from `s` to `t` and has `read` in its scan; nothing else has changed. */
  ghost predicate Advanced(s: State, t: State, p: Owner, read: Readings) {
    && p in s.phase && Scans(s.phase[p])
    && WellFormed(t) && SameBoard(s, t) && t.phase == s.phase[p := s.phase[p].(read := read)]
  }

  lemma AdvancedTwice(s: State, n: State, t: State, p: Owner, one: Readings, both: Readings)
    requires Advanced(s, n, p, one) && Advanced(n, t, p, both)
    ensures Advanced(s, t, p, both)
  {
    assert s.phase[p := s.phase[p].(read := one)][p := s.phase[p].(read := both)] == s.phase[p := s.phase[p].(read := both)];
  }

  lemma ReadOne(s: State, p: Owner, q: Owner) returns (n: State)
    requires WellFormed(s) && p in s.owners && Scans(s.phase[p]) && q in s.owners && q != p && q !in s.phase[p].read
    ensures Leads(s, n, p) && Advanced(s, n, p, s.phase[p].read[q := Reg(s.regs, q)])
  {
    n := Next(s, ReadRegister(p, q));
    LeadsByStep(s, ReadRegister(p, q), p);
  }

  lemma ReadoutJoins(s: State, n: State, read: Readings, q: Owner, rest: set<Owner>)
    requires q in rest && n.regs == s.regs
    ensures read[q := Reg(s.regs, q)] + Readout(n, rest - {q}) == read + Readout(s, rest)
  {
  }

  /** Reading the registers not read yet completes the scan. */
  lemma {:induction false} ScanTheRest(s: State, p: Owner, rest: set<Owner>) returns (t: State)
    requires WellFormed(s) && p in s.owners && Scans(s.phase[p]) && p !in rest
    requires s.phase[p].read.Keys !! rest && rest <= s.owners
    ensures Leads(s, t, p) && Advanced(s, t, p, s.phase[p].read + Readout(s, rest))
    decreases |rest|
  {
    var read := s.phase[p].read;
    if rest == {} {
      t := s;
      LeadsNowhere(s, p);
      assert read + Readout(s, rest) == read;
      assert s.phase[p := s.phase[p].(read := read)] == s.phase;
    } else {
      var q :| q in rest;
      var n := ReadOne(s, p, q);
      t := ScanTheRest(n, p, rest - {q});
      LeadsOn(s, n, t, p);
      ReadoutJoins(s, n, read, q, rest);
      AdvancedTwice(s, n, t, p, read[q := Reg(s.regs, q)], read + Readout(s, rest));
    }
  }

  lemma WholeScan(s: State, p: Owner) returns (t: State)
    requires WellFormed(s) && p in s.owners && Scans(s.phase[p]) && s.phase[p].read == map[]
    ensures Leads(s, t, p) && Advanced(s, t, p, Readout(s, s.owners - {p})) && ScanComplete(t, p)
  {
    t := ScanTheRest(s, p, s.owners - {p});
    assert map[] + Readout(s, s.owners - {p}) == Readout(s, s.owners - {p});
  }

  /* ---------- the first claim gets through ---------- */

  /**
   The claim of `p` is numbered and unexpired, and every other claim has expired or is a numbered one, not holding, with
   a higher ticket or the same ticket and a later owner.
   */
  ghost predicate Clear(s: State, p: Owner) {
    && p in s.regs && s.clock < s.regs[p].expiresAt && !s.regs[p].choosing
    && forall q :: q in s.regs && q != p ==> s.regs[q].expiresAt <= s.clock || Later(s.regs[q], q, s.regs[p], p)
  }

  predicate Later(l: Lease, q: Owner, own: Lease, p: Owner) {
    && !l.holding && !l.choosing
    && (own.ticket < l.ticket || (own.ticket == l.ticket && Before(p, q)))
  }

  lemma LaterDoesNotBlock(l: Lease, q: Owner, own: Lease, p: Owner, clock: int)
    requires q != p && (l.expiresAt <= clock || Later(l, q, own, p))
    ensures !Blocks(Some(l), q, own, p, clock) && !Competes(Some(l), clock)
  {
    if own.ticket == l.ticket && Before(p, q) { BeforeAsymmetric(p, q); }
  }

  lemma ClearIsFree(s: State, t: State, p: Owner)
    requires Clear(s, p) && p in s.owners && Advanced(s, t, p, Readout(s, s.owners - {p}))
    ensures t.phase[p].Scanning? ==> Unblocked(t, p)
    ensures t.phase[p].Confirming? ==> Unopposed(t, p)
  {
    forall q | q in s.regs && q != p
      ensures !Blocks(Some(s.regs[q]), q, s.regs[p], p, s.clock) && !Competes(Some(s.regs[q]), s.clock)
    {
      LaterDoesNotBlock(s.regs[q], q, s.regs[p], p, s.clock);
    }
  }

  /** The tab is in phase `ph` with the flag up or not; its claim is clear and everything else as in `s`. */
  ghost predicate At(s: State, t: State, p: Owner, holding: bool, ph: Phase) {
    && WellFormed(t) && Clear(t, p) && p in t.phase && t.phase[p] == ph
    && t.clock == s.clock && t.owners == s.owners && p in s.regs
    && t.regs == s.regs[p := s.regs[p].(holding := holding)]
  }

  lemma ClearWithFlag(s: State, t: State, p: Owner, holding: bool)
    requires Clear(s, p) && t.clock == s.clock && t.regs == s.regs[p := s.regs[p].(holding := holding)]
    ensures Clear(t, p)
  {
    forall q | q in t.regs && q != p ensures t.regs[q].expiresAt <= t.clock || Later(t.regs[q], q, t.regs[p], p) {
      assert q in s.regs && t.regs[q] == s.regs[q];
    }
  }

  /** A whole scan of a clear claim, and what it leads to. */
  lemma ScanClear(s: State, p: Owner) returns (t: State)
    requires WellFormed(s) && Clear(s, p) && p in s.owners && s.phase[p].Scanning? && s.phase[p].read == map[]
    ensures Leads(s, t, p)
    ensures if s.phase[p].free == 0 then At(s, t, p, s.regs[p].holding, Scanning(1, map[])) else At(s, t, p, true, Confirming(0, map[]))
  {
    var n := WholeScan(s, p);
    ClearIsFree(s, n, p);
    t := FinishClear(n, p);
    LeadsOn(s, n, t, p);
    ClearWithFlag(s, t, p, if s.phase[p].free == 0 then s.regs[p].holding else true);
  }

  lemma FinishClear(n: State, p: Owner) returns (t: State)
    requires WellFormed(n) && p in n.phase && n.phase[p].Scanning? && ScanComplete(n, p) && p in n.regs
    requires n.clock < n.regs[p].expiresAt && Unblocked(n, p)
    ensures Leads(n, t, p) && WellFormed(t) && t.clock == n.clock && t.owners == n.owners
    ensures if n.phase[p].free == 0
      then t.phase[p] == Scanning(1, map[]) && t.regs == n.regs
      else t.phase[p] == Confirming(0, map[]) && t.regs == n.regs[p := n.regs[p].(holding := true)]
  {
    t := Next(n, FinishScan(p));
    LeadsByStep(n, FinishScan(p), p);
  }

  lemma ConfirmClear(s: State, p: Owner) returns (t: State)
    requires WellFormed(s) && Clear(s, p) && p in s.owners && s.phase[p].Confirming? && s.phase[p].read == map[] && s.regs[p].holding
    ensures Leads(s, t, p)
    ensures if s.phase[p].round == 0 then At(s, t, p, true, Confirming(1, map[])) else At(s, t, p, true, Held) && p in t.acquired
  {
    var n := WholeScan(s, p);
    ClearIsFree(s, n, p);
    t := Next(n, FinishConfirmation(p));
    LeadsByStep(n, FinishConfirmation(p), p);
    LeadsOn(s, n, t, p);
    assert s.regs[p := s.regs[p].(holding := true)] == s.regs;
    ClearWithFlag(s, t, p, true);
  }

  /** What the theorems promise: by steps of its own the tab has acquired the lease, under its flag and unexpired. */
  ghost predicate Acquires(s: State, p: Owner) {
    exists t :: Leads(s, t, p) && p in t.acquired && p in t.phase && t.phase[p].Held? && t.clock == s.clock
                && p in t.regs && t.regs[p].holding && t.clock < t.regs[p].expiresAt
  }

  lemma AcquiresLater(s: State, n: State, p: Owner)
    requires Leads(s, n, p) && n.clock == s.clock && Acquires(n, p)
    ensures Acquires(s, p)
  {
    var t :| Leads(n, t, p) && p in t.acquired && p in t.phase && t.phase[p].Held? && t.clock == n.clock
             && p in t.regs && t.regs[p].holding && t.clock < t.regs[p].expiresAt;
    LeadsOn(s, n, t, p);
  }

  lemma {:induction false} ConfirmingAcquires(s: State, p: Owner)
    requires WellFormed(s) && Clear(s, p) && p in s.owners && s.phase[p].Confirming? && s.phase[p].read == map[] && s.regs[p].holding
    ensures Acquires(s, p)
    decreases if s.phase[p].round == 0 then 1 else 0
  {
    var t := ConfirmClear(s, p);
    if s.phase[p].round == 0 {
      ConfirmingAcquires(t, p);
      AcquiresLater(s, t, p);
    }
  }

  lemma {:induction false} ScanningAcquires(s: State, p: Owner)
    requires WellFormed(s) && Clear(s, p) && p in s.owners && s.phase[p].Scanning? && s.phase[p].read == map[]
    ensures Acquires(s, p)
    decreases if s.phase[p].free == 0 then 1 else 0
  {
    var t := ScanClear(s, p);
    if s.phase[p].free == 0 { ScanningAcquires(t, p); } else { ConfirmingAcquires(t, p); }
    AcquiresLater(s, t, p);
  }

  /* ---------- from any point of any run ---------- */

  /** A scan reads registers of other tabs only. */
  ghost predicate ReadsWithin(s: State) {
    forall p :: p in s.phase && Scans(s.phase[p]) ==> s.phase[p].read.Keys <= s.owners - {p}
  }

  lemma StepReadsWithin(s: State, step: Step)
    requires WellFormed(s) && ReadsWithin(s) && Enabled(s, step)
    ensures ReadsWithin(Next(s, step))
  {
    var t := Next(s, step);
    StepWellFormed(s, step);
    forall p | p in t.phase && Scans(t.phase[p]) ensures t.phase[p].read.Keys <= t.owners - {p} {
      if step.Tick? || step.p != p { StepFrame(s, step, p); } else { OwnReadsWithin(s, step); }
    }
  }

  lemma OwnReadsWithin(s: State, step: Step)
    requires WellFormed(s) && ReadsWithin(s) && Enabled(s, step) && !step.Tick? && step.p in s.phase
    ensures var t := Next(s, step); step.p in t.phase && (Scans(t.phase[step.p]) ==> t.phase[step.p].read.Keys <= s.owners - {step.p})
  {
  }

  lemma {:induction false} RunReadsWithin(s: State, steps: seq<Step>)
    requires WellFormed(s) && ReadsWithin(s) && CanRun(s, steps)
    ensures WellFormed(Run(s, steps)) && ReadsWithin(Run(s, steps))
    decreases |steps|
  {
    if steps != [] {
      StepWellFormed(s, steps[0]);
      StepReadsWithin(s, steps[0]);
      RunReadsWithin(Next(s, steps[0]), steps[1..]);
    }
  }

  /** The scan that is under way ends somehow; after it the claim is as clear as before. */
  lemma FinishCurrentScan(s: State, p: Owner) returns (t: State)
    requires WellFormed(s) && Clear(s, p) && p in s.owners && s.phase[p].Scanning? && s.phase[p].read.Keys <= s.owners - {p}
    ensures Leads(s, t, p)
    ensures WellFormed(t) && Clear(t, p) && t.clock == s.clock && p in t.owners
    ensures (t.phase[p].Scanning? && t.phase[p].read == map[])
      || (t.phase[p].Confirming? && t.phase[p].read == map[] && t.regs[p].holding)
  {
    var n := RestOfScan(s, p);
    t := FinishAnyhow(n, p);
    LeadsOn(s, n, t, p);
    ClearWithFlag(s, t, p, t.regs[p].holding);
  }

  lemma RestOfScan(s: State, p: Owner) returns (n: State)
    requires WellFormed(s) && p in s.owners && s.phase[p].Scanning? && s.phase[p].read.Keys <= s.owners - {p}
    ensures Leads(s, n, p) && WellFormed(n) && n.regs == s.regs && n.clock == s.clock && n.owners == s.owners
    ensures n.phase[p].Scanning? && ScanComplete(n, p)
  {
    var rest := s.owners - {p} - s.phase[p].read.Keys;
    n := ScanTheRest(s, p, rest);
    assert (s.phase[p].read + Readout(s, rest)).Keys == s.owners - {p};
  }

  lemma FinishAnyhow(n: State, p: Owner) returns (t: State)
    requires WellFormed(n) && p in n.phase && n.phase[p].Scanning? && ScanComplete(n, p) && p in n.regs
    requires n.clock < n.regs[p].expiresAt
    ensures Leads(n, t, p) && WellFormed(t) && t.clock == n.clock && t.owners == n.owners
    ensures p in t.regs && t.regs == n.regs[p := n.regs[p].(holding := t.regs[p].holding)]
    ensures (t.phase[p].Scanning? && t.phase[p].read == map[])
      || (t.phase[p].Confirming? && t.phase[p].read == map[] && t.regs[p].holding)
  {
    t := Next(n, FinishScan(p));
    LeadsByStep(n, FinishScan(p), p);
    assert n.regs == n.regs[p := n.regs[p].(holding := n.regs[p].holding)];
  }

  /**
   The first claim gets through: at any point of any run, a tab that waits and whose claim is clear acquires by its own
   steps alone, whatever claims of crashed tabs have expired in storage and whatever others do not do.
   */
  lemma FirstAcquires(s0: State, before: seq<Step>, p: Owner)
    requires Init(s0) && WellFormed(s0) && CanRun(s0, before)
    requires var s := Run(s0, before); p in s.phase && s.phase[p].Scanning? && Clear(s, p)
    ensures Acquires(Run(s0, before), p)
  {
    RunReadsWithin(s0, before);
    var s := Run(s0, before);
    var t := FinishCurrentScan(s, p);
    if t.phase[p].Scanning? { ScanningAcquires(t, p); } else { ConfirmingAcquires(t, p); }
    AcquiresLater(s, t, p);
  }

  /** Where every claim has expired or is gone, a tab that is idle acquires from scratch. */
  lemma LoneTabAcquires(s0: State, before: seq<Step>, p: Owner)
    requires Init(s0) && WellFormed(s0) && CanRun(s0, before)
    requires var s := Run(s0, before);
      p in s.phase && s.phase[p].Idle? && forall q :: q in s.regs ==> s.regs[q].expiresAt <= s.clock
    ensures Acquires(Run(s0, before), p)
  {
    RunReadsWithin(s0, before);
    var s := Run(s0, before);
    var t := Choose(s, p);
    ScanningAcquires(t, p);
    AcquiresLater(s, t, p);
  }

  lemma Choose(s: State, p: Owner) returns (t: State)
    requires WellFormed(s) && p in s.owners && s.phase[p].Idle? && forall q :: q in s.regs ==> s.regs[q].expiresAt <= s.clock
    ensures Leads(s, t, p) && WellFormed(t) && t.clock == s.clock && p in t.owners
    ensures Clear(t, p) && t.phase[p] == Scanning(0, map[])
  {
    var n := Begin(s, p);
    var m := WholeScan(n, p);
    LeadsOn(s, n, m, p);
    t := TakeFirst(m, p);
    LeadsOn(s, m, t, p);
  }

  lemma Begin(s: State, p: Owner) returns (n: State)
    requires WellFormed(s) && p in s.owners && s.phase[p].Idle? && (p in s.regs ==> s.regs[p].expiresAt <= s.clock)
    ensures Leads(s, n, p) && WellFormed(n) && n.clock == s.clock && n.owners == s.owners
    ensures n.phase[p] == Choosing(map[]) && p in n.regs
    ensures forall q :: q in n.regs && q != p ==> q in s.regs && n.regs[q] == s.regs[q]
  {
    n := Next(s, Start(p));
    LeadsByStep(s, Start(p), p);
  }

  lemma TakeFirst(m: State, p: Owner) returns (t: State)
    requires WellFormed(m) && p in m.owners && m.phase[p].Choosing? && ScanComplete(m, p) && p in m.regs
    requires m.phase[p].read == Readout(m, m.owners - {p})
    requires forall q :: q in m.regs && q != p ==> m.regs[q].expiresAt <= m.clock
    ensures Leads(m, t, p) && WellFormed(t) && t.clock == m.clock && t.owners == m.owners
    ensures Clear(t, p) && t.phase[p] == Scanning(0, map[])
  {
    assert IsMaxTicket(m.phase[p].read, m.clock, 0);
    t := Next(m, TakeTicket(p, 0));
    LeadsByStep(m, TakeTicket(p, 0), p);
  }

  /* ---------- the queue moves ---------- */

  /** Every unexpired claim has its number, does not hold, and its tab is in the scanning loop. */
  ghost predicate Queued(s: State) {
    forall q :: q in s.regs && s.clock < s.regs[q].expiresAt ==>
      !s.regs[q].choosing && !s.regs[q].holding && q in s.phase && s.phase[q].Scanning?
  }

  /** A queue of waiting tabs is never stuck: one of them acquires by its own steps, and it is the first. */
  lemma QueueMoves(s0: State, before: seq<Step>, some: Owner) returns (p: Owner)
    requires Init(s0) && WellFormed(s0) && CanRun(s0, before) && Queued(Run(s0, before))
    requires var s := Run(s0, before); some in s.regs && s.clock < s.regs[some].expiresAt
    ensures Clear(Run(s0, before), p) && Acquires(Run(s0, before), p)
  {
    var s := Run(s0, before);
    var live := map q | q in s.regs && s.clock < s.regs[q].expiresAt :: s.regs[q];
    assert some in live;
    p := SomeClaimIsFirst(live);
    FirstIsClear(s, live, p);
    FirstAcquires(s0, before, p);
  }

  lemma FirstIsClear(s: State, live: map<Owner, Lease>, p: Owner)
    requires live == map q | q in s.regs && s.clock < s.regs[q].expiresAt :: s.regs[q]
    requires Queued(s) && p in live && IsFirst(live, p)
    ensures Clear(s, p)
  {
    forall q | q in s.regs && q != p ensures s.regs[q].expiresAt <= s.clock || Later(s.regs[q], q, s.regs[p], p) {
      if s.clock < s.regs[q].expiresAt { assert q in live && Precedes(live[p], p, live[q], q); }
    }
  }

  /* ---------- and nobody else gets through ---------- */

  /** The claim of `q` is unexpired, and holding, still choosing, or ahead of `p`'s. */
  predicate InTheWay(s: State, q: Owner, p: Owner) {
    && q in s.regs && q != p && s.clock < s.regs[q].expiresAt
    && (p in s.regs && !s.regs[p].choosing ==> Blocks(Some(s.regs[q]), q, s.regs[p], p, s.clock))
  }

  /** `p` has read nothing that lets it past the claim of `q`. */
  predicate Stuck(s: State, q: Owner, p: Owner) {
    && q in s.owners && p in s.phase && InTheWay(s, q, p) && p !in s.acquired
    && (match s.phase[p]
        case Idle => true
        case Choosing(read) => p in s.regs && s.regs[p].choosing && (q in read ==> read[q] == Some(s.regs[q]))
        case Scanning(free, read) => free == 0 && p in s.regs && !s.regs[p].choosing && (q in read ==> read[q] == Some(s.regs[q]))
        case _ => false)
  }

  lemma StepStuck(s: State, step: Step, q: Owner, p: Owner)
    requires WellFormed(s) && RegistersSound(s) && Stuck(s, q, p) && Enabled(s, step) && !step.Tick? && step.p == p
    ensures Stuck(Next(s, step), q, p) && Next(s, step).regs[q] == s.regs[q]
  {
  }

  lemma {:induction false} RunStuck(s: State, steps: seq<Step>, q: Owner, p: Owner)
    requires WellFormed(s) && RegistersSound(s) && Stuck(s, q, p) && OwnSteps(steps, p) && CanRun(s, steps)
    ensures p !in Run(s, steps).acquired
    decreases |steps|
  {
    if steps != [] {
      StepStuck(s, steps[0], q, p);
      StepRegistersSound(s, steps[0]);
      assert OwnSteps(steps[1..], p) by {
        assert forall k :: 0 <= k < |steps| - 1 ==> steps[1..][k] == steps[k + 1];
      }
      RunStuck(Next(s, steps[0]), steps[1..], q, p);
    }
  }

  /** A tab about to scan acquires by its own steps if and only if its claim is clear. */
  lemma AcquiresIffClear(s0: State, before: seq<Step>, p: Owner)
    requires Init(s0) && WellFormed(s0) && CanRun(s0, before)
    requires var s := Run(s0, before);
      p in s.phase && s.phase[p] == Scanning(0, map[]) && p !in s.acquired && p in s.regs && s.clock < s.regs[p].expiresAt
    ensures Acquires(Run(s0, before), p) <==> Clear(Run(s0, before), p)
  {
    var s := Run(s0, before);
    InitBakery(s0);
    RunRegisters(s0, before);
    if Clear(s, p) {
      FirstAcquires(s0, before, p);
    } else {
      var q :| q in s.regs && q != p && s.clock < s.regs[q].expiresAt && !Later(s.regs[q], q, s.regs[p], p);
      PrecedesTotal(s.regs[p], p, s.regs[q], q);
      assert Stuck(s, q, p);
      forall t | Leads(s, t, p) ensures p !in t.acquired {
        var steps :| OwnSteps(steps, p) && CanRun(s, steps) && Run(s, steps) == t;
        RunStuck(s, steps, q, p);
      }
    }
  }

  /* ---------- claims that nobody looks after ---------- */

  /** No claim is good for more than thirty seconds from now. */
  ghost predicate Short(s: State) {
    forall p :: p in s.regs ==> s.regs[p].expiresAt <= s.clock + 30_000
  }

  lemma StepShort(s: State, step: Step)
    requires WellFormed(s) && Short(s) && Enabled(s, step)
    ensures Short(Next(s, step)) && s.clock <= Next(s, step).clock
  {
  }

  lemma {:induction false} RunShort(s: State, steps: seq<Step>)
    requires WellFormed(s) && Short(s) && CanRun(s, steps)
    ensures WellFormed(Run(s, steps)) && Short(Run(s, steps)) && s.clock <= Run(s, steps).clock
    decreases |steps|
  {
    if steps != [] {
      StepWellFormed(s, steps[0]);
      StepShort(s, steps[0]);
      RunShort(Next(s, steps[0]), steps[1..]);
    }
  }

  lemma {:induction false} UntouchedClaim(s: State, steps: seq<Step>, p: Owner)
    requires WellFormed(s) && CanRun(s, steps) && p in s.owners
    requires forall k :: 0 <= k < |steps| ==> steps[k].Tick? || steps[k].p != p
    ensures WellFormed(Run(s, steps)) && Reg(Run(s, steps).regs, p) == Reg(s.regs, p)
    decreases |steps|
  {
    if steps != [] {
      StepWellFormed(s, steps[0]);
      StepFrame(s, steps[0], p);
      assert forall k :: 0 <= k < |steps| - 1 ==> steps[1..][k] == steps[k + 1];
      UntouchedClaim(Next(s, steps[0]), steps[1..], p);
    }
  }

  /** The claim of a tab that crashed is in nobody's way after thirty seconds. */
  lemma CrashedClaimLapses(s0: State, before: seq<Step>, p: Owner, steps: seq<Step>)
    requires Init(s0) && WellFormed(s0) && CanRun(s0, before) && p in s0.owners
    requires var s := Run(s0, before); WellFormed(s) && p in s.owners && CanRun(s, steps)
    requires forall k :: 0 <= k < |steps| ==> steps[k].Tick? || steps[k].p != p
    requires Run(s0, before).clock + 30_000 <= Run(Run(s0, before), steps).clock
    ensures var t := Run(Run(s0, before), steps); p in t.regs ==> t.regs[p].expiresAt <= t.clock
  {
    RunShort(s0, before);
    UntouchedClaim(Run(s0, before), steps, p);
  }

  /** The claim left by an aborted request: its tab is idle, and no timer is due before the claim expires. */
  ghost predicate Fenced(s: State, p: Owner, l: Lease) {
    && p in s.phase && s.phase[p].Idle? && p in s.regs && s.regs[p] == l && s.clock < l.expiresAt
    && forall t :: t in s.timers && t.0 == p && t.1 == l.generation ==> l.expiresAt <= t.2
  }

  lemma StepFenced(s: State, step: Step, p: Owner, l: Lease)
    requires WellFormed(s) && Fenced(s, p, l) && Enabled(s, step) && Next(s, step).clock < l.expiresAt
    ensures Fenced(Next(s, step), p, l)
  {
    if step.Tick? || step.p != p { StepFrame(s, step, p); }
  }

  lemma {:induction false} RunFenced(s: State, steps: seq<Step>, p: Owner, l: Lease)
    requires WellFormed(s) && Short(s) && Fenced(s, p, l) && CanRun(s, steps) && Run(s, steps).clock < l.expiresAt
    ensures Fenced(Run(s, steps), p, l)
    decreases |steps|
  {
    if steps != [] {
      StepWellFormed(s, steps[0]);
      StepShort(s, steps[0]);
      RunShort(Next(s, steps[0]), steps[1..]);
      StepFenced(s, steps[0], p, l);
      RunFenced(Next(s, steps[0]), steps[1..], p, l);
    }
  }

  /** A request given up in doubt keeps its claim: until it expires nothing removes or overwrites it, the tab itself included. */
  lemma FenceHolds(s0: State, before: seq<Step>, p: Owner, steps: seq<Step>)
    requires Init(s0) && WellFormed(s0) && CanRun(s0, before)
    requires var s := Run(s0, before);
      WellFormed(s) && Enabled(s, Fence(p)) && WellFormed(Next(s, Fence(p))) && CanRun(Next(s, Fence(p)), steps)
    requires var s := Run(s0, before); Run(Next(s, Fence(p)), steps).clock < s.regs[p].expiresAt
    ensures var t := Run(Next(Run(s0, before), Fence(p)), steps);
      p in t.regs && t.regs[p] == Run(s0, before).regs[p] && !Enabled(t, Start(p))
  {
    var s := Run(s0, before);
    InitBakery(s0);
    RunRegisters(s0, before);
    RunShort(s0, before);
    StepShort(s, Fence(p));
    RunShort(Next(s, Fence(p)), steps);
    FenceBegins(s, p);
    RunFenced(Next(s, Fence(p)), steps, p, s.regs[p]);
  }

  lemma FenceBegins(s: State, p: Owner)
    requires WellFormed(s) && RegistersSound(s) && Enabled(s, Fence(p)) && s.clock < s.regs[p].expiresAt
    ensures Fenced(Next(s, Fence(p)), p, s.regs[p])
  {
    forall t | t in s.timers && t.0 == p ensures t.1 != s.regs[p].generation {
      assert TimerSound(s, t.0, t.1);
    }
  }

  /* ---------- four whole scans ---------- */

  /** How far the tab has come since it took its number. */
  function Level(ph: Phase): nat {
    match ph
    case Scanning(free, _) => if free == 0 then 0 else 1
    case Confirming(round, _) => if round == 0 then 2 else 3
    case Held => 4
    case _ => 0
  }

  predicate Finishes(step: Step, p: Owner) { (step.FinishScan? || step.FinishConfirmation?) && step.p == p }

  function WholeScans(steps: seq<Step>, p: Owner): nat {
    if steps == [] then 0 else WholeScans(steps[1..], p) + if Finishes(steps[0], p) then 1 else 0
  }

  /** The tab got no further than its whole scans carry it. */
  predicate Earned(s: State, p: Owner, scans: nat) {
    && p in s.phase && Level(s.phase[p]) <= scans && (p in s.acquired ==> 4 <= scans)
    && (p in s.regs && s.regs[p].holding ==> 2 <= scans)
  }

  lemma StepEarned(s: State, step: Step, p: Owner, scans: nat)
    requires WellFormed(s) && Enabled(s, step) && Earned(s, p, scans)
    ensures Earned(Next(s, step), p, if Finishes(step, p) then scans + 1 else scans)
  {
    StepWellFormed(s, step);
    if step.Tick? || step.p != p {
      StepFrame(s, step, p);
      OthersAcquireForThemselves(s, step, p);
    } else {
      OwnStepEarned(s, step, p, scans);
    }
  }

  lemma OthersAcquireForThemselves(s: State, step: Step, p: Owner)
    requires WellFormed(s) && Enabled(s, step) && (step.Tick? || step.p != p)
    ensures p in Next(s, step).acquired ==> p in s.acquired
  {
  }

  lemma OwnStepEarned(s: State, step: Step, p: Owner, scans: nat)
    requires WellFormed(s) && Enabled(s, step) && Earned(s, p, scans) && !step.Tick? && step.p == p
    ensures Earned(Next(s, step), p, if Finishes(step, p) then scans + 1 else scans)
  {
  }

  lemma {:induction false} RunEarned(s: State, steps: seq<Step>, p: Owner, scans: nat)
    requires WellFormed(s) && CanRun(s, steps) && Earned(s, p, scans)
    ensures WellFormed(Run(s, steps)) && Earned(Run(s, steps), p, scans + WholeScans(steps, p))
    decreases |steps|
  {
    if steps != [] {
      StepWellFormed(s, steps[0]);
      StepEarned(s, steps[0], p, scans);
      RunEarned(Next(s, steps[0]), steps[1..], p, if Finishes(steps[0], p) then scans + 1 else scans);
    }
  }

  /** No tab raises its flag without two whole scans, or acquires without two more, since it was idle. */
  lemma FourWholeScans(s0: State, before: seq<Step>, p: Owner, steps: seq<Step>)
    requires Init(s0) && WellFormed(s0) && CanRun(s0, before)
    requires var s := Run(s0, before); WellFormed(s) && p in s.phase && s.phase[p].Idle? && p !in s.regs && p !in s.acquired
    requires CanRun(Run(s0, before), steps)
    ensures var t := Run(Run(s0, before), steps);
      && (p in t.regs && t.regs[p].holding ==> 2 <= WholeScans(steps, p))
      && (p in t.acquired ==> 4 <= WholeScans(steps, p))
  {
    RunEarned(Run(s0, before), steps, p, 0);
  }

  /* ---------- what the writes of a tab are good for ---------- */

  /** A claim begun, numbered or renewed is good for thirty seconds, whatever the others do. */
  lemma WrittenClaimHolds(s: State, step: Step, steps: seq<Step>)
    requires WellFormed(s) && Enabled(s, step) && (step.Start? || step.TakeTicket? || step.Renew?) && step.p in s.owners
    requires WellFormed(Next(s, step)) && CanRun(Next(s, step), steps)
    requires forall k :: 0 <= k < |steps| ==> steps[k].Tick? || steps[k].p != step.p
    ensures var t := Run(Next(s, step), steps);
      step.p in t.regs && t.regs[step.p] == Next(s, step).regs[step.p] && t.regs[step.p].expiresAt == s.clock + 30_000
  {
    UntouchedClaim(Next(s, step), steps, step.p);
  }

  /** A tab that releases or gives up leaves nothing in storage; the claim of one that vanishes stays. */
  lemma ReleaseFrees(s: State, p: Owner)
    requires WellFormed(s)
    ensures Enabled(s, Release(p)) ==> Next(s, Release(p)).regs == s.regs - {p} && p !in Next(s, Release(p)).acquired
    ensures Enabled(s, GiveUp(p)) ==> Next(s, GiveUp(p)).regs == s.regs - {p}
    ensures Enabled(s, Vanish(p)) ==> Next(s, Vanish(p)).regs == s.regs
  {
  }

  /** The timer of a fence: once the claim has expired it may fire, and then the claim is gone. */
  lemma FenceEnds(s: State, p: Owner, steps: seq<Step>)
    requires WellFormed(s) && Enabled(s, Fence(p)) && WellFormed(Next(s, Fence(p))) && CanRun(Next(s, Fence(p)), steps)
    requires forall k :: 0 <= k < |steps| ==> steps[k].Tick? || steps[k].p != p
    requires s.regs[p].expiresAt < Run(Next(s, Fence(p)), steps).clock
    ensures var t := Run(Next(s, Fence(p)), steps); var timer := FireTimer(p, s.regs[p].generation, s.regs[p].expiresAt);
      WellFormed(t) && Enabled(t, timer) && p !in Next(t, timer).regs
  {
    var n := Next(s, Fence(p));
    UntouchedClaim(n, steps, p);
    TimersStay(n, steps, p, s.regs[p].generation, s.regs[p].expiresAt);
  }

  lemma {:induction false} TimersStay(s: State, steps: seq<Step>, p: Owner, g: nat, due: int)
    requires WellFormed(s) && CanRun(s, steps) && (p, g, due) in s.timers
    requires forall k :: 0 <= k < |steps| ==> steps[k].Tick? || steps[k].p != p
    ensures (p, g, due) in Run(s, steps).timers
    decreases |steps|
  {
    if steps != [] {
      StepWellFormed(s, steps[0]);
      assert steps[0].Tick? || steps[0].p != p;
      assert forall k :: 0 <= k < |steps| - 1 ==> steps[1..][k] == steps[k + 1];
      TimersStay(Next(s, steps[0]), steps[1..], p, g, due);
    }
  }

  /* ---------- the flag ---------- */

  /** A tab that is choosing or scanning has its flag down. */
  predicate FlagDown(s: State, p: Owner) {
    p in s.phase && (s.phase[p].Choosing? || s.phase[p].Scanning?) && p in s.regs ==> !s.regs[p].holding
  }

  ghost predicate FlagsDown(s: State) {
    forall p :: p in s.owners ==> FlagDown(s, p)
  }

  lemma StepFlagsDown(s: State, step: Step)
    requires WellFormed(s) && FlagsDown(s) && Enabled(s, step)
    ensures FlagsDown(Next(s, step))
  {
    StepWellFormed(s, step);
    forall p | p in s.owners ensures FlagDown(Next(s, step), p) {
      assert FlagDown(s, p);
      if step.Tick? || step.p != p { StepFrame(s, step, p); } else { OwnFlagDown(s, step); }
    }
  }

  lemma OwnFlagDown(s: State, step: Step)
    requires WellFormed(s) && Enabled(s, step) && !step.Tick? && FlagDown(s, step.p)
    ensures FlagDown(Next(s, step), step.p)
  {
  }

  /** In every run a tab that has stepped back, or has not got through yet, does not show the holding flag. */
  lemma {:induction false} SteppedBackLowersFlag(s: State, steps: seq<Step>)
    requires WellFormed(s) && FlagsDown(s) && CanRun(s, steps)
    ensures WellFormed(Run(s, steps)) && FlagsDown(Run(s, steps))
    decreases |steps|
  {
    if steps != [] {
      StepWellFormed(s, steps[0]);
      StepFlagsDown(s, steps[0]);
      SteppedBackLowersFlag(Next(s, steps[0]), steps[1..]);
    }
  }

  /** At any point of any run the holding flag of a tab at work means that it is confirming or has the lease. */
  lemma FlagMeansConfirming(s0: State, before: seq<Step>, p: Owner)
    requires Init(s0) && WellFormed(s0) && CanRun(s0, before)
    requires var s := Run(s0, before); p in s.regs && s.regs[p].holding && p in s.phase && !s.phase[p].Idle?
    ensures var ph := Run(s0, before).phase[p]; ph.Confirming? || ph.Held?
  {
    SteppedBackLowersFlag(s0, before);
    assert FlagDown(Run(s0, before), p);
  }
}
