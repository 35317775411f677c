/**
 Two tabs never both hold an acquired lease that is unexpired in storage, even when tabs
 sleep past their TTL and revive: the flag is written before the others are asked, so of
 two holders one has seen the other.
 */
module LeaseSafety {
  import opened RefreshLease

  predicate LiveHolder(s: State, a: Owner) {
    a in s.regs && s.regs[a].holding && Live(s.regs[a], s.clock)
  }

  predicate Cleared(s: State, a: Owner, b: Owner) {
    a in s.cleared && b in s.cleared[a]
  }

  /** Of two live holders, at least one has not ruled out the other. */
  ghost predicate Handshake(s: State) {
    forall a, b :: a != b && Cleared(s, a, b) && Cleared(s, b, a) ==> !(LiveHolder(s, a) && LiveHolder(s, b))
  }

  predicate ClearedAll(s: State, a: Owner) {
    forall q :: q in s.owners && q != a ==> Cleared(s, a, q)
  }

  /** A tab that acquired has ruled out every other tab, and is not in a new attempt. */
  ghost predicate AcquiredCleared(s: State) {
    forall a :: a in s.acquired ==> ClearedAll(s, a) && a in s.phase && (s.phase[a].Idle? || s.phase[a].Held?)
  }

  predicate ConfirmationSound(s: State, a: Owner)
    requires a in s.phase && s.phase[a].Confirming?
  {
    && (forall q :: q in s.phase[a].read ==> Cleared(s, a, q) || Competes(s.phase[a].read[q], s.clock))
    && (s.phase[a].round != 0 ==> ClearedAll(s, a))
  }

  /** What a confirming tab has read is either ruled out or a live competitor. */
  ghost predicate ConfirmationsSound(s: State) {
    forall a :: a in s.phase && s.phase[a].Confirming? ==> ConfirmationSound(s, a)
  }

  ghost predicate SafetyInv(s: State) {
    WellFormed(s) && Handshake(s) && AcquiredCleared(s) && ConfirmationsSound(s)
  }

  lemma InitSafety(s: State)
    requires Init(s)
    ensures SafetyInv(s)
  {
  }

  /** A tab becomes a live holder only by writing the flag, and then it has ruled out nobody. */
  lemma NewHolderHasClearedNobody(s: State, step: Step, a: Owner)
    requires WellFormed(s) && Enabled(s, step) && !LiveHolder(s, a) && LiveHolder(Next(s, step), a)
    ensures forall b :: !Cleared(Next(s, step), a, b)
  {
  }

  /** A tab rules out another only when that one is not a live holder. */
  lemma NewlyClearedIsNoHolder(s: State, step: Step, a: Owner, b: Owner)
    requires WellFormed(s) && Enabled(s, step) && !Cleared(s, a, b) && Cleared(Next(s, step), a, b)
    ensures !LiveHolder(Next(s, step), b)
  {
  }

  lemma StepHandshake(s: State, step: Step)
    requires WellFormed(s) && Enabled(s, step) && Handshake(s)
    ensures Handshake(Next(s, step))
  {
    var t := Next(s, step);
    forall a, b | a != b && Cleared(t, a, b) && Cleared(t, b, a)
      ensures !(LiveHolder(t, a) && LiveHolder(t, b))
    {
      if LiveHolder(t, a) && LiveHolder(t, b) {
        if !LiveHolder(s, a) { NewHolderHasClearedNobody(s, step, a); }
        if !LiveHolder(s, b) { NewHolderHasClearedNobody(s, step, b); }
        if !Cleared(s, a, b) { NewlyClearedIsNoHolder(s, step, a, b); }
        if !Cleared(s, b, a) { NewlyClearedIsNoHolder(s, step, b, a); }
      }
    }
  }

  lemma ClearedKept(s: State, step: Step, a: Owner)
    requires WellFormed(s) && Enabled(s, step) && ClearedAll(s, a)
    requires step != FinishScan(a)
    ensures ClearedAll(Next(s, step), a)
  {
    StepWellFormed(s, step);
    if a in s.owners { ClearedGrows(s, step, a); }
    forall q | q in s.owners && q != a ensures Cleared(Next(s, step), a, q) {
      assert Cleared(s, a, q);
    }
  }

  /** A tab forgets whom it has ruled out only when it publishes the flag anew. */
  lemma ClearedGrows(s: State, step: Step, a: Owner)
    requires WellFormed(s) && Enabled(s, step) && a in s.owners && step != FinishScan(a)
    ensures WellFormed(Next(s, step)) && s.cleared[a] <= Next(s, step).cleared[a]
  {
    StepWellFormed(s, step);
    if step.Tick? || step.p != a { StepFrame(s, step, a); }
  }

  lemma StepAcquired(s: State, step: Step)
    requires SafetyInv(s) && Enabled(s, step)
    ensures AcquiredCleared(Next(s, step))
  {
    var t := Next(s, step);
    forall a | a in t.acquired
      ensures ClearedAll(t, a) && a in t.phase && (t.phase[a].Idle? || t.phase[a].Held?)
    {
      if a !in s.acquired {
        assert step == FinishConfirmation(a);
        assert ConfirmationSound(s, a);
      }
      ClearedKept(s, step, a);
    }
  }

  /** Two confirmation scans in a row: the first has ruled out every other tab. */
  lemma FirstRoundClears(s: State, a: Owner)
    requires WellFormed(s) && Enabled(s, FinishConfirmation(a)) && ConfirmationSound(s, a) && Unopposed(s, a)
    ensures ClearedAll(s, a)
  {
    forall q | q in s.owners && q != a ensures Cleared(s, a, q) {
      assert q in s.phase[a].read;
    }
  }

  lemma ReadingsKept(s: State, step: Step, a: Owner)
    requires WellFormed(s) && Enabled(s, step) && a in s.phase && s.phase[a].Confirming? && ConfirmationSound(s, a)
    requires Next(s, step).phase[a].Confirming?
    ensures var t := Next(s, step);
      forall q :: q in t.phase[a].read ==> Cleared(t, a, q) || Competes(t.phase[a].read[q], t.clock)
  {
    if step.Tick? {
      assert !MidScan(s.phase[a]);
    } else if step.p != a {
      StepFrame(s, step, a);
    } else {
      OwnReadingsKept(s, step, a);
    }
  }

  lemma OwnReadingsKept(s: State, step: Step, a: Owner)
    requires WellFormed(s) && Enabled(s, step) && a in s.phase && s.phase[a].Confirming? && ConfirmationSound(s, a)
    requires !step.Tick? && step.p == a && Next(s, step).phase[a].Confirming?
    ensures var t := Next(s, step);
      forall q :: q in t.phase[a].read ==> Cleared(t, a, q) || Competes(t.phase[a].read[q], t.clock)
  {
    assert step.ReadRegister? || step.FireTimer? || step.FinishConfirmation?;
  }

  lemma RoundKept(s: State, step: Step, a: Owner)
    requires WellFormed(s) && Enabled(s, step) && a in s.phase && s.phase[a].Confirming?
    requires Next(s, step).phase[a].Confirming?
    ensures Next(s, step).phase[a].round == s.phase[a].round || (step == FinishConfirmation(a) && Unopposed(s, a))
    ensures step != FinishScan(a)
  {
    if step.Tick? || step.p != a { StepFrame(s, step, a); }
  }

  lemma ConfirmationKept(s: State, step: Step, a: Owner)
    requires WellFormed(s) && Enabled(s, step) && a in s.phase && s.phase[a].Confirming? && ConfirmationSound(s, a)
    requires Next(s, step).phase[a].Confirming?
    ensures ConfirmationSound(Next(s, step), a)
  {
    ReadingsKept(s, step, a);
    RoundKept(s, step, a);
    if step == FinishConfirmation(a) { FirstRoundClears(s, a); }
    if s.phase[a].round != 0 || step == FinishConfirmation(a) { ClearedKept(s, step, a); }
  }

  lemma StepConfirmations(s: State, step: Step)
    requires SafetyInv(s) && Enabled(s, step)
    ensures ConfirmationsSound(Next(s, step))
  {
    var t := Next(s, step);
    forall a | a in t.phase && t.phase[a].Confirming? ensures ConfirmationSound(t, a) {
      if s.phase[a].Confirming? { ConfirmationKept(s, step, a); }
    }
  }

  lemma StepSafety(s: State, step: Step)
    requires SafetyInv(s) && Enabled(s, step)
    ensures SafetyInv(Next(s, step))
  {
    StepWellFormed(s, step);
    StepHandshake(s, step);
    StepAcquired(s, step);
    StepConfirmations(s, step);
  }

  lemma {:induction false} RunSafety(s: State, steps: seq<Step>)
    requires SafetyInv(s) && CanRun(s, steps)
    ensures SafetyInv(Run(s, steps))
    decreases |steps|
  {
    if steps != [] {
      StepSafety(s, steps[0]);
      RunSafety(Next(s, steps[0]), steps[1..]);
    }
  }

  /**
   In every run, however long tabs sleep, at most one tab has a lease that it acquired and
   that is still unexpired in storage; the fence left by an aborted request counts.
   */
  lemma AtMostOneLiveLease(s: State, steps: seq<Step>, a: Owner, b: Owner)
    requires Init(s) && WellFormed(s) && CanRun(s, steps)
    requires a != b && a in Run(s, steps).acquired && b in Run(s, steps).acquired
    ensures !(LiveHolder(Run(s, steps), a) && LiveHolder(Run(s, steps), b))
  {
    InitSafety(s);
    RunSafety(s, steps);
    var t := Run(s, steps);
    assert ClearedAll(t, a) && ClearedAll(t, b);
    assert Cleared(t, a, b) && Cleared(t, b, a);
  }
}
