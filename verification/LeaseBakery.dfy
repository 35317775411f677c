/**
 The bakery: as long as no claim expires before its release, at most one tab ever publishes
 the holding flag, and a tab that has its number when another starts is never overtaken.
 */
module LeaseBakery {
  import opened Wrappers
  import opened RefreshLease
  import opened TextOrder

  /* ---------- the order of claims is a strict total order ---------- */

  /** Two claims of different tabs are ordered one way and not the other. */
  lemma PrecedesTotal(l: Lease, lo: Owner, r: Lease, ro: Owner)
    requires lo != ro
    ensures Precedes(l, lo, r, ro) <==> !Precedes(r, ro, l, lo)
  {
    BeforeTotal(lo, ro);
    if Before(lo, ro) { BeforeAsymmetric(lo, ro); }
    if Before(ro, lo) { BeforeAsymmetric(ro, lo); }
  }

  lemma PrecedesTransitive(a: Lease, ao: Owner, b: Lease, bo: Owner, c: Lease, co: Owner)
    requires Precedes(a, ao, b, bo) && Precedes(b, bo, c, co)
    ensures Precedes(a, ao, c, co)
  {
    if a.ticket == b.ticket == c.ticket {
      if ao != bo && bo != co {
        BeforeTransitive(ao, bo, co);
        BeforeAsymmetric(ao, bo);
      }
    }
  }

  /* ---------- the invariant ---------- */

  /** The hypothesis of the bakery: no claim in storage has expired. */
  ghost predicate Unexpired(s: State) {
    forall p :: p in s.regs ==> Live(s.regs[p], s.clock)
  }

  predicate Numbered(s: State, a: Owner) {
    a in s.regs && !s.regs[a].choosing
  }

  /** `a` has its number, and `b` has none, or will get or has a later one. */
  predicate Ahead(s: State, a: Owner, b: Owner) {
    && Numbered(s, a)
    && (b in s.regs ==>
          if s.regs[b].choosing
          then b in s.phase && s.phase[b].Choosing? && a in s.phase[b].read ==> SawTicket(s, s.phase[b].read[a], a)
          else Precedes(s.regs[a], a, s.regs[b], b))
  }

  predicate SawTicket(s: State, seen: Option<Lease>, a: Owner)
    requires a in s.regs
  {
    seen.Some? && Live(seen.value, s.clock) && seen.value.ticket == s.regs[a].ticket
  }

  /** What each phase implies about the tab's own register. */
  predicate PhaseSound(s: State, p: Owner)
    requires p in s.phase
  {
    var ph := s.phase[p];
    && (ph.Choosing? ==> p in s.regs && s.regs[p].choosing)
    && (ph.Scanning? || ph.Confirming? || ph.Held? ==> p in s.regs && !s.regs[p].choosing)
  }

  predicate RegisterSound(s: State, p: Owner)
    requires p in s.regs && p in s.passed
  {
    && s.regs[p].generation < s.nextGeneration
    && (s.regs[p].choosing ==> !s.regs[p].holding && s.passed[p] == {})
  }

  ghost predicate RegistersSound(s: State) {
    && (forall p :: p in s.phase ==> PhaseSound(s, p))
    && (forall p :: p in s.regs && p in s.passed ==> RegisterSound(s, p))
    && (forall t :: t in s.timers ==> t.1 < s.nextGeneration && TimerSound(s, t.0, t.1))
  }

  /** A pending timer belongs to an older claim, or to one its tab has left. */
  predicate TimerSound(s: State, p: Owner, generation: nat) {
    p in s.regs && s.regs[p].generation == generation ==> p in s.phase && s.phase[p].Idle?
  }

  predicate Passed(s: State, a: Owner, b: Owner) {
    a in s.passed && b in s.passed[a]
  }

  /** Whoever was found not to block a claim is behind it. */
  ghost predicate PassedAhead(s: State) {
    forall a, b :: a in s.regs && a != b && Passed(s, a, b) ==> Ahead(s, a, b)
  }

  predicate ScanSound(s: State, a: Owner)
    requires a in s.phase && s.phase[a].Scanning?
  {
    a in s.regs && forall q :: q in s.phase[a].read ==> Passed(s, a, q) || Blocks(s.phase[a].read[q], q, s.regs[a], a, s.clock)
  }

  ghost predicate ScansSound(s: State) {
    forall a :: a in s.phase && s.phase[a].Scanning? ==> ScanSound(s, a)
  }

  predicate PassedAll(s: State, a: Owner) {
    forall q :: q in s.owners && q != a ==> Passed(s, a, q)
  }

  ghost predicate HoldersPassed(s: State) {
    forall a :: a in s.regs && s.regs[a].holding ==> PassedAll(s, a)
  }

  ghost predicate BakeryInv(s: State) {
    WellFormed(s) && RegistersSound(s) && PassedAhead(s) && ScansSound(s) && HoldersPassed(s)
  }

  lemma InitBakery(s: State)
    requires Init(s)
    ensures BakeryInv(s)
  {
  }

  /* ---------- every step keeps it ---------- */

  /** The claim of `a` is the same before and after the step. */
  predicate SameClaim(s: State, t: State, a: Owner) {
    a in s.regs && a in t.regs && s.regs[a].generation == t.regs[a].generation
  }

  lemma TicketTaken(s: State, b: Owner, max: nat, a: Owner)
    requires WellFormed(s) && Enabled(s, TakeTicket(b, max)) && a != b && a in s.owners && Ahead(s, a, b)
    requires b in s.regs && s.regs[b].choosing
    ensures Ahead(Next(s, TakeTicket(b, max)), a, b)
  {
    assert a in s.phase[b].read;
  }

  lemma AheadKeptByFirst(s: State, step: Step, a: Owner, b: Owner)
    requires WellFormed(s) && Enabled(s, step) && !step.Tick? && step.p == a
    requires a != b && a in s.owners && Ahead(s, a, b) && SameClaim(s, Next(s, step), a)
    requires PhaseSound(s, a) && RegisterSound(s, a)
    ensures Ahead(Next(s, step), a, b)
  {
  }

  lemma AheadKeptBySecond(s: State, step: Step, a: Owner, b: Owner)
    requires WellFormed(s) && Unexpired(s) && Enabled(s, step) && !step.Tick? && step.p == b
    requires a != b && a in s.owners && Ahead(s, a, b) && b in s.owners && PhaseSound(s, b)
    ensures Ahead(Next(s, step), a, b)
  {
    StepFrame(s, step, a);
    if step.TakeTicket? { TicketTaken(s, b, step.max, a); }
  }

  /** Being ahead lasts as long as the claim. */
  lemma AheadKept(s: State, step: Step, a: Owner, b: Owner)
    requires WellFormed(s) && RegistersSound(s) && Unexpired(s) && Enabled(s, step)
    requires a != b && a in s.owners && Ahead(s, a, b) && SameClaim(s, Next(s, step), a)
    ensures Ahead(Next(s, step), a, b)
  {
    if step.Tick? {
    } else if step.p == a {
      AheadKeptByFirst(s, step, a, b);
    } else if step.p == b && b in s.owners {
      AheadKeptBySecond(s, step, a, b);
    } else {
      StepFrame(s, step, a);
      if b in s.owners { StepFrame(s, step, b); } else { StepWellFormed(s, step); }
    }
  }

  /** A tab passes another only by reading its register and finding no reason to wait. */
  lemma PassedByReading(s: State, step: Step, a: Owner, b: Owner)
    requires WellFormed(s) && Enabled(s, step) && !Passed(s, a, b) && Passed(Next(s, step), a, b)
    ensures step == ReadRegister(a, b) && s.phase[a].Scanning? && a in s.regs && !Blocks(Reg(s.regs, b), b, s.regs[a], a, s.clock)
  {
  }

  lemma NewlyPassedIsBehind(s: State, step: Step, a: Owner, b: Owner)
    requires WellFormed(s) && RegistersSound(s) && Unexpired(s) && Enabled(s, step)
    requires a in Next(s, step).regs && a != b && !Passed(s, a, b) && Passed(Next(s, step), a, b)
    ensures Ahead(Next(s, step), a, b)
  {
    PassedByReading(s, step, a, b);
    if b in s.regs { PrecedesTotal(s.regs[a], a, s.regs[b], b); }
  }

  /** A tab that has passed another by a step of its own is still in the claim it was in. */
  lemma OwnPassedClaim(s: State, step: Step, a: Owner, b: Owner)
    requires WellFormed(s) && RegistersSound(s) && Enabled(s, step) && !step.Tick? && step.p == a
    requires a in Next(s, step).regs && Passed(Next(s, step), a, b)
    ensures SameClaim(s, Next(s, step), a)
  {
    assert a in s.regs ==> RegisterSound(s, a);
  }

  lemma PassedMeansSameClaim(s: State, step: Step, a: Owner, b: Owner)
    requires WellFormed(s) && RegistersSound(s) && Enabled(s, step)
    requires a in Next(s, step).regs && Passed(Next(s, step), a, b)
    ensures SameClaim(s, Next(s, step), a)
  {
    StepWellFormed(s, step);
    if step.Tick? || step.p != a { StepFrame(s, step, a); } else { OwnPassedClaim(s, step, a, b); }
  }

  lemma StepPassed(s: State, step: Step)
    requires BakeryInv(s) && Unexpired(s) && Enabled(s, step)
    ensures PassedAhead(Next(s, step))
  {
    var t := Next(s, step);
    forall a, b | a in t.regs && a != b && Passed(t, a, b) ensures Ahead(t, a, b) {
      PassedMeansSameClaim(s, step, a, b);
      if Passed(s, a, b) { AheadKept(s, step, a, b); } else { NewlyPassedIsBehind(s, step, a, b); }
    }
  }

  lemma OwnPhase(s: State, step: Step)
    requires WellFormed(s) && RegistersSound(s) && Enabled(s, step) && !step.Tick? && step.p in s.phase
    ensures PhaseSound(Next(s, step), step.p)
  {
    assert PhaseSound(s, step.p);
    if step.FireTimer? { assert TimerSound(s, step.p, step.generation) by { assert (step.p, step.generation, step.due) in s.timers; } }
  }

  lemma OtherPhase(s: State, step: Step, p: Owner)
    requires WellFormed(s) && RegistersSound(s) && Enabled(s, step) && (step.Tick? || step.p != p) && p in s.phase
    ensures PhaseSound(Next(s, step), p)
  {
    assert PhaseSound(s, p);
  }

  lemma StepPhases(s: State, step: Step)
    requires WellFormed(s) && RegistersSound(s) && Enabled(s, step)
    ensures forall p :: p in Next(s, step).phase ==> PhaseSound(Next(s, step), p)
  {
    StepWellFormed(s, step);
    forall p | p in Next(s, step).phase ensures PhaseSound(Next(s, step), p) {
      if step.Tick? || step.p != p { OtherPhase(s, step, p); } else { OwnPhase(s, step); }
    }
  }

  lemma StepRegisters(s: State, step: Step)
    requires WellFormed(s) && RegistersSound(s) && Enabled(s, step)
    ensures forall p :: p in Next(s, step).regs ==> p in Next(s, step).passed && RegisterSound(Next(s, step), p)
  {
    var t := Next(s, step);
    forall p | p in t.regs ensures p in t.passed && RegisterSound(t, p) {
      assert PhaseSound(s, p);
      if p in s.regs { assert RegisterSound(s, p); }
    }
  }

  lemma StepTimers(s: State, step: Step)
    requires WellFormed(s) && RegistersSound(s) && Enabled(s, step)
    ensures forall x :: x in Next(s, step).timers ==> x.1 < Next(s, step).nextGeneration && TimerSound(Next(s, step), x.0, x.1)
  {
    var t := Next(s, step);
    StepWellFormed(s, step);
    forall x | x in t.timers ensures x.1 < t.nextGeneration && TimerSound(t, x.0, x.1) {
      if step.Tick? || step.p != x.0 { OtherTimer(s, step, x); } else { OwnTimer(s, step, x); }
    }
  }

  lemma OwnTimer(s: State, step: Step, x: (Owner, nat, int))
    requires WellFormed(s) && RegistersSound(s) && Enabled(s, step) && !step.Tick? && step.p == x.0
    requires x in Next(s, step).timers
    ensures x.1 < Next(s, step).nextGeneration && TimerSound(Next(s, step), x.0, x.1)
  {
    if x !in s.timers {
      assert step.Fence?;
      assert RegisterSound(s, x.0);
    } else {
      assert TimerSound(s, x.0, x.1);
      OldTimer(s, step, x);
    }
  }

  lemma OldTimer(s: State, step: Step, x: (Owner, nat, int))
    requires WellFormed(s) && Enabled(s, step) && !step.Tick? && step.p == x.0
    requires x.1 < s.nextGeneration && TimerSound(s, x.0, x.1) && (x.0 in s.phase ==> PhaseSound(s, x.0))
    ensures x.1 < Next(s, step).nextGeneration && TimerSound(Next(s, step), x.0, x.1)
  {
  }

  lemma OtherTimer(s: State, step: Step, x: (Owner, nat, int))
    requires WellFormed(s) && RegistersSound(s) && Enabled(s, step) && (step.Tick? || step.p != x.0)
    requires WellFormed(Next(s, step)) && x in Next(s, step).timers
    ensures x.1 < Next(s, step).nextGeneration && TimerSound(Next(s, step), x.0, x.1)
  {
    assert x in s.timers && TimerSound(s, x.0, x.1);
    if x.0 in s.owners { StepFrame(s, step, x.0); }
  }

  lemma StepRegistersSound(s: State, step: Step)
    requires WellFormed(s) && RegistersSound(s) && Enabled(s, step)
    ensures WellFormed(Next(s, step)) && RegistersSound(Next(s, step))
  {
    StepWellFormed(s, step);
    StepPhases(s, step);
    StepRegisters(s, step);
    StepTimers(s, step);
  }

  lemma ScanKept(s: State, step: Step, a: Owner)
    requires WellFormed(s) && RegistersSound(s) && Enabled(s, step)
    requires a in s.phase && s.phase[a].Scanning? && ScanSound(s, a) && Next(s, step).phase[a].Scanning?
    ensures ScanSound(Next(s, step), a)
  {
    if step.Tick? || step.p != a {
      StepFrame(s, step, a);
    } else {
      OwnScanKept(s, step, a);
    }
  }

  lemma OwnScanKept(s: State, step: Step, a: Owner)
    requires WellFormed(s) && RegistersSound(s) && Enabled(s, step) && !step.Tick? && step.p == a
    requires a in s.phase && s.phase[a].Scanning? && ScanSound(s, a) && Next(s, step).phase[a].Scanning?
    ensures ScanSound(Next(s, step), a)
  {
    if step.FireTimer? { assert (step.p, step.generation, step.due) in s.timers; }
  }

  lemma StepScans(s: State, step: Step)
    requires BakeryInv(s) && Enabled(s, step)
    ensures ScansSound(Next(s, step))
  {
    var t := Next(s, step);
    forall a | a in t.phase && t.phase[a].Scanning? ensures ScanSound(t, a) {
      assert PhaseSound(s, a);
      if s.phase[a].Scanning? { ScanKept(s, step, a); }
    }
  }

  /** A claim forgets nobody it has passed. */
  lemma PassedGrows(s: State, step: Step, a: Owner)
    requires WellFormed(s) && RegistersSound(s) && Enabled(s, step) && a in s.owners && SameClaim(s, Next(s, step), a)
    ensures s.passed[a] <= Next(s, step).passed[a]
  {
    if step.Tick? || step.p != a { StepFrame(s, step, a); }
  }

  lemma PassedKept(s: State, step: Step, a: Owner)
    requires WellFormed(s) && RegistersSound(s) && Enabled(s, step) && PassedAll(s, a) && SameClaim(s, Next(s, step), a)
    ensures PassedAll(Next(s, step), a)
  {
    PassedGrows(s, step, a);
    StepWellFormed(s, step);
    forall q | q in s.owners && q != a ensures Passed(Next(s, step), a, q) {
      assert Passed(s, a, q);
    }
  }

  /** A scan without a blocker has passed every other tab. */
  lemma FreeScanPasses(s: State, a: Owner)
    requires WellFormed(s) && ScansSound(s) && Enabled(s, FinishScan(a)) && Unblocked(s, a)
    ensures PassedAll(s, a)
  {
    assert ScanSound(s, a);
    forall q | q in s.owners && q != a ensures Passed(s, a, q) {
      assert q in s.phase[a].read;
    }
  }

  lemma StepHolders(s: State, step: Step)
    requires BakeryInv(s) && Enabled(s, step)
    ensures HoldersPassed(Next(s, step))
  {
    var t := Next(s, step);
    forall a | a in t.regs && t.regs[a].holding ensures PassedAll(t, a) {
      assert PhaseSound(s, a);
      if !s.regs[a].holding { FreeScanPasses(s, a); }
      PassedKept(s, step, a);
    }
  }

  lemma StepBakery(s: State, step: Step)
    requires BakeryInv(s) && Unexpired(s) && Enabled(s, step)
    ensures BakeryInv(Next(s, step))
  {
    StepRegistersSound(s, step);
    StepPassed(s, step);
    StepScans(s, step);
    StepHolders(s, step);
  }

  /* ---------- runs in which no claim expires ---------- */

  ghost predicate UnexpiredRun(s: State, steps: seq<Step>)
    requires WellFormed(s)
    decreases |steps|
  {
    && Unexpired(s)
    && (steps != [] ==> Enabled(s, steps[0]) && (StepWellFormed(s, steps[0]); UnexpiredRun(Next(s, steps[0]), steps[1..])))
  }

  lemma {:induction false} UnexpiredRunBakery(s: State, steps: seq<Step>)
    requires BakeryInv(s) && UnexpiredRun(s, steps)
    ensures CanRun(s, steps) && BakeryInv(Run(s, steps)) && Unexpired(Run(s, steps))
    decreases |steps|
  {
    if steps != [] {
      StepBakery(s, steps[0]);
      UnexpiredRunBakery(Next(s, steps[0]), steps[1..]);
    }
  }

  lemma HoldersAgree(s: State, a: Owner, b: Owner)
    requires BakeryInv(s) && a in s.regs && b in s.regs && s.regs[a].holding && s.regs[b].holding
    ensures a == b
  {
    assert PassedAll(s, a) && PassedAll(s, b);
    assert a != b ==> Passed(s, a, b) && Passed(s, b, a);
    if a != b { PrecedesTotal(s.regs[a], a, s.regs[b], b); }
  }

  /** If no claim expires, at most one tab has the holding flag published, under any interleaving of reads and writes. */
  lemma AtMostOneHolder(s: State, steps: seq<Step>, a: Owner, b: Owner)
    requires Init(s) && WellFormed(s) && UnexpiredRun(s, steps)
    ensures CanRun(s, steps)
    ensures var t := Run(s, steps); a in t.regs && b in t.regs && t.regs[a].holding && t.regs[b].holding ==> a == b
  {
    InitBakery(s);
    UnexpiredRunBakery(s, steps);
    var t := Run(s, steps);
    if a in t.regs && b in t.regs && t.regs[a].holding && t.regs[b].holding { HoldersAgree(t, a, b); }
  }

  /* ---------- the demotion branch is never taken ---------- */

  predicate Undisputed(s: State, a: Owner)
    requires a in s.phase && s.phase[a].Confirming?
  {
    a in s.regs && s.regs[a].holding && Unopposed(s, a)
  }

  ghost predicate AllUndisputed(s: State) {
    forall a :: a in s.phase && s.phase[a].Confirming? ==> Undisputed(s, a)
  }

  lemma OwnStepUndisputed(s: State, step: Step, a: Owner)
    requires BakeryInv(s) && Enabled(s, step) && !step.Tick? && step.p == a && a in s.phase
    requires s.phase[a].Confirming? ==> Undisputed(s, a)
    requires Next(s, step).phase[a].Confirming?
    ensures Undisputed(Next(s, step), a)
  {
    match step
    case ReadRegister(_, q) => ReadUndisputed(s, a, q);
    case FireTimer(_, g, due) => assert (a, g, due) in s.timers && TimerSound(s, a, g);
    case FinishScan(_) =>
    case FinishConfirmation(_) =>
    case _ => assert false;
  }

  lemma ReadUndisputed(s: State, a: Owner, q: Owner)
    requires BakeryInv(s) && Enabled(s, ReadRegister(a, q)) && s.phase[a].Confirming? && Undisputed(s, a)
    ensures var t := Next(s, ReadRegister(a, q)); t.phase[a].Confirming? && Undisputed(t, a)
  {
    if q in s.regs && s.regs[q].holding { HoldersAgree(s, a, q); }
  }

  lemma StepUndisputed(s: State, step: Step)
    requires BakeryInv(s) && AllUndisputed(s) && Enabled(s, step)
    ensures AllUndisputed(Next(s, step))
  {
    var t := Next(s, step);
    StepWellFormed(s, step);
    forall a | a in t.phase && t.phase[a].Confirming? ensures Undisputed(t, a) {
      if step.Tick? || step.p != a { StepFrame(s, step, a); } else { OwnStepUndisputed(s, step, a); }
    }
  }

  lemma {:induction false} UnexpiredRunUndisputed(s: State, steps: seq<Step>)
    requires BakeryInv(s) && AllUndisputed(s) && UnexpiredRun(s, steps)
    ensures CanRun(s, steps) && AllUndisputed(Run(s, steps))
    decreases |steps|
  {
    if steps != [] {
      StepBakery(s, steps[0]);
      StepUndisputed(s, steps[0]);
      UnexpiredRunUndisputed(Next(s, steps[0]), steps[1..]);
    }
  }

  /** If no claim expires, no confirmation scan ever meets a competing holder. */
  lemma NeverDemoted(s: State, steps: seq<Step>, a: Owner)
    requires Init(s) && WellFormed(s) && UnexpiredRun(s, steps)
    ensures CanRun(s, steps)
    ensures Enabled(Run(s, steps), FinishConfirmation(a)) ==> Unopposed(Run(s, steps), a)
  {
    InitBakery(s);
    UnexpiredRunUndisputed(s, steps);
  }

  /* ---------- first come, first served ---------- */

  /** The sanity of registers, phases and timers needs no claim to be unexpired. */
  lemma {:induction false} RunRegisters(s: State, steps: seq<Step>)
    requires WellFormed(s) && RegistersSound(s) && CanRun(s, steps)
    ensures WellFormed(Run(s, steps)) && RegistersSound(Run(s, steps))
    decreases |steps|
  {
    if steps != [] {
      StepRegistersSound(s, steps[0]);
      RunRegisters(Next(s, steps[0]), steps[1..]);
    }
  }

  /** The claim of generation `g` is in `a`'s register, numbered and unexpired. */
  predicate Waits(s: State, a: Owner, g: nat) {
    Numbered(s, a) && s.regs[a].generation == g && Live(s.regs[a], s.clock)
  }

  /** Nothing `b` has read lets it past `a`'s claim, and it has neither the flag nor an earlier number. */
  predicate Behind(s: State, a: Owner, b: Owner)
    requires a in s.regs && b in s.phase
  {
    var ph := s.phase[b];
    && !ph.Confirming? && !ph.Held?
    && (ph.Choosing? && a in ph.read ==> SawTicket(s, ph.read[a], a))
    && (ph.Scanning? && b in s.regs && a in ph.read ==> Blocks(ph.read[a], a, s.regs[b], b, s.clock))
    && (b in s.regs ==> !s.regs[b].holding)
    && (b in s.regs && !s.regs[b].choosing ==> Precedes(s.regs[a], a, s.regs[b], b))
  }

  /** A claim that is numbered and kept has the same number before and after. */
  lemma NumberKept(s: State, step: Step, a: Owner, g: nat)
    requires WellFormed(s) && RegistersSound(s) && Enabled(s, step) && Waits(s, a, g) && Waits(Next(s, step), a, g)
    ensures Next(s, step).regs[a].ticket == s.regs[a].ticket
  {
    assert PhaseSound(s, a) && RegisterSound(s, a);
  }

  lemma BehindByOwnStep(s: State, step: Step, a: Owner, b: Owner, g: nat)
    requires WellFormed(s) && RegistersSound(s) && Enabled(s, step) && !step.Tick? && step.p == b
    requires a != b && b in s.owners && Waits(s, a, g) && Behind(s, a, b)
    ensures WellFormed(Next(s, step)) && a in Next(s, step).regs && Behind(Next(s, step), a, b)
  {
    StepWellFormed(s, step);
    StepFrame(s, step, a);
    assert PhaseSound(s, b);
    match step
    case FinishScan(_) => assert a in s.phase[b].read;
    case TakeTicket(_, max) => assert a in s.phase[b].read;
    case FireTimer(_, generation, due) => assert (b, generation, due) in s.timers;
    case _ =>
  }

  lemma BehindByOtherStep(s: State, step: Step, a: Owner, b: Owner, g: nat)
    requires WellFormed(s) && RegistersSound(s) && Enabled(s, step) && (step.Tick? || step.p != b)
    requires a != b && b in s.owners && Waits(s, a, g) && Behind(s, a, b) && Waits(Next(s, step), a, g)
    ensures Behind(Next(s, step), a, b)
  {
    StepWellFormed(s, step);
    StepFrame(s, step, b);
    NumberKept(s, step, a, g);
    if step.Tick? { assert !MidScan(s.phase[b]); }
  }

  /** The claim of generation `g` stays in `a`'s register, unexpired, through the whole run. */
  ghost predicate KeepsClaim(s: State, steps: seq<Step>, a: Owner, g: nat)
    requires WellFormed(s)
    decreases |steps|
  {
    && Waits(s, a, g)
    && (steps != [] ==> Enabled(s, steps[0]) && (StepWellFormed(s, steps[0]); KeepsClaim(Next(s, steps[0]), steps[1..], a, g)))
  }

  lemma {:induction false} BehindThroughout(s: State, steps: seq<Step>, a: Owner, b: Owner, g: nat)
    requires WellFormed(s) && RegistersSound(s) && a != b && b in s.owners && a in s.regs
    requires Behind(s, a, b) && KeepsClaim(s, steps, a, g)
    ensures CanRun(s, steps) && b in Run(s, steps).phase && a in Run(s, steps).regs && Behind(Run(s, steps), a, b)
    decreases |steps|
  {
    if steps != [] {
      var step := steps[0];
      StepRegistersSound(s, step);
      if step.Tick? || step.p != b { BehindByOtherStep(s, step, a, b, g); } else { BehindByOwnStep(s, step, a, b, g); }
      StepWellFormed(s, step);
      BehindThroughout(Next(s, step), steps[1..], a, b, g);
    }
  }

  /**
   First come, first served, in every run and whatever other claims have lapsed: while the
   claim of a tab that has its number when another starts choosing stays unexpired, the
   other never publishes the holding flag, however often it tries again.
   */
  lemma NotOvertaken(s0: State, before: seq<Step>, a: Owner, b: Owner, steps: seq<Step>)
    requires Init(s0) && WellFormed(s0) && CanRun(s0, before)
    requires var s := Run(s0, before);
      WellFormed(s) && a != b && Numbered(s, a) && Enabled(s, Start(b))
      && WellFormed(Next(s, Start(b))) && KeepsClaim(Next(s, Start(b)), steps, a, s.regs[a].generation)
    ensures var s1 := Next(Run(s0, before), Start(b));
      && CanRun(s1, steps)
      && (b in Run(s1, steps).regs ==> !Run(s1, steps).regs[b].holding)
      && b !in Run(s1, steps).acquired
  {
    var s := Run(s0, before);
    RunRegisters(s0, before);
    StepRegistersSound(s, Start(b));
    BehindThroughout(Next(s, Start(b)), steps, a, b, s.regs[a].generation);
    NeverAcquired(Next(s, Start(b)), steps, a, b, s.regs[a].generation);
  }

  lemma {:induction false} NeverAcquired(s: State, steps: seq<Step>, a: Owner, b: Owner, g: nat)
    requires WellFormed(s) && RegistersSound(s) && a != b && b in s.owners && a in s.regs
    requires Behind(s, a, b) && KeepsClaim(s, steps, a, g) && b !in s.acquired
    ensures CanRun(s, steps) && b !in Run(s, steps).acquired
    decreases |steps|
  {
    if steps != [] {
      var step := steps[0];
      StepRegistersSound(s, step);
      if step.Tick? || step.p != b { BehindByOtherStep(s, step, a, b, g); } else { BehindByOwnStep(s, step, a, b, g); }
      AcquiredByConfirming(s, step, b);
      NeverAcquired(Next(s, step), steps[1..], a, b, g);
    }
  }

  lemma AcquiredByConfirming(s: State, step: Step, b: Owner)
    requires WellFormed(s) && Enabled(s, step) && b !in s.acquired && b in s.phase && !s.phase[b].Confirming?
    ensures b !in Next(s, step).acquired
  {
  }

  /* ---------- progress ---------- */

  /** All claims in storage are unexpired, numbered and not yet holding. */
  ghost predicate AllWaiting(regs: map<Owner, Lease>, clock: int) {
    forall p :: p in regs ==> Live(regs[p], clock) && !regs[p].choosing && !regs[p].holding
  }

  predicate IsFirst(regs: map<Owner, Lease>, p: Owner)
    requires p in regs
  {
    forall q :: q in regs && q != p ==> Precedes(regs[p], p, regs[q], q)
  }

  predicate IsFree(regs: map<Owner, Lease>, p: Owner, clock: int)
    requires p in regs
  {
    forall q :: q in regs && q != p ==> !Blocks(Some(regs[q]), q, regs[p], p, clock)
  }

  /** Among waiting claims exactly the first is unblocked. */
  lemma ExactlyTheFirstIsFree(regs: map<Owner, Lease>, clock: int, p: Owner)
    requires AllWaiting(regs, clock) && p in regs
    ensures IsFree(regs, p, clock) <==> IsFirst(regs, p)
  {
    forall q | q in regs && q != p
      ensures Blocks(Some(regs[q]), q, regs[p], p, clock) <==> !Precedes(regs[p], p, regs[q], q)
    {
      PrecedesTotal(regs[p], p, regs[q], q);
    }
  }

  /** Putting a claim back beside the others: it or their first is first. */
  lemma FirstWith(regs: map<Owner, Lease>, p: Owner, f: Owner)
    requires p in regs && f in regs && f != p && IsFirst(regs - {p}, f)
    ensures IsFirst(regs, if Precedes(regs[p], p, regs[f], f) then p else f)
  {
    PrecedesTotal(regs[p], p, regs[f], f);
    forall q | q in regs && q != p && q != f
      ensures Precedes(regs[f], f, regs[q], q)
      ensures Precedes(regs[p], p, regs[f], f) ==> Precedes(regs[p], p, regs[q], q)
    {
      assert q in regs - {p} && (regs - {p})[q] == regs[q] && (regs - {p})[f] == regs[f];
      if Precedes(regs[p], p, regs[f], f) { PrecedesTransitive(regs[p], p, regs[f], f, regs[q], q); }
    }
  }

  /** There is a first among any claims, and only one. */
  lemma {:induction false} SomeClaimIsFirst(regs: map<Owner, Lease>) returns (p: Owner)
    requires regs.Keys != {}
    ensures p in regs && IsFirst(regs, p)
    ensures forall q :: q in regs && IsFirst(regs, q) ==> q == p
    decreases |regs.Keys|
  {
    p :| p in regs.Keys;
    var rest := regs - {p};
    assert rest.Keys == regs.Keys - {p};
    if rest.Keys != {} {
      var f := SomeClaimIsFirst(rest);
      FirstWith(regs, p, f);
      p := if Precedes(regs[p], p, regs[f], f) then p else f;
    } else {
      assert forall q :: q in regs ==> q == p || q in rest.Keys;
    }
    FirstIsUnique(regs, p);
  }

  lemma FirstIsUnique(regs: map<Owner, Lease>, p: Owner)
    requires p in regs && IsFirst(regs, p)
    ensures forall q :: q in regs && IsFirst(regs, q) ==> q == p
  {
    forall q | q in regs && IsFirst(regs, q) ensures q == p {
      if q != p { PrecedesTotal(regs[p], p, regs[q], q); }
    }
  }
}
