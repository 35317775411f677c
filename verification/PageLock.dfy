/**
 The in-page lock of the refresh coordinator: a chain of promises.  Each call waits for the
 tail it found, and leaves its own tail for the next call.  A call that times out or is
 aborted never runs its operation; its tail opens only once its predecessor's has.
 */
module PageLock {

  datatype Status = Waiting | Running | Done | GaveUp

  /** `previous` names the call whose tail this call awaits; -1 is the resolved initial tail. */
  datatype Call = Call(previous: int, status: Status, open: bool)

  /** `started` is history: the calls whose operation has begun, in order. */
  datatype State = State(calls: seq<Call>, tail: int, started: seq<nat>)

  const Initial := State([], -1, [])

  datatype Step =
    | Enqueue
    | Start(i: nat)
    | Finish(i: nat)
    | GiveUp(i: nat)
    | Propagate(i: nat)

  predicate IsOpen(s: State, k: int) {
    k == -1 || (0 <= k < |s.calls| && s.calls[k].open)
  }

  predicate Enabled(s: State, step: Step) {
    match step
    case Enqueue => true
    case Start(i) => i < |s.calls| && s.calls[i].status == Waiting && IsOpen(s, s.calls[i].previous)
    case Finish(i) => i < |s.calls| && s.calls[i].status == Running
    // The timer or the caller's signal may win even when the predecessor has just finished.
    case GiveUp(i) => i < |s.calls| && s.calls[i].status == Waiting
    case Propagate(i) =>
      i < |s.calls| && s.calls[i].status == GaveUp && !s.calls[i].open && IsOpen(s, s.calls[i].previous)
  }

  function Next(s: State, step: Step): State
    requires Enabled(s, step)
  {
    match step
    case Enqueue => s.(calls := s.calls + [Call(s.tail, Waiting, false)], tail := |s.calls|)
    case Start(i) => s.(calls := s.calls[i := s.calls[i].(status := Running)], started := s.started + [i])
    case Finish(i) => s.(calls := s.calls[i := s.calls[i].(status := Done, open := true)])
    case GiveUp(i) => s.(calls := s.calls[i := s.calls[i].(status := GaveUp)])
    case Propagate(i) => s.(calls := s.calls[i := s.calls[i].(open := true)])
  }

  predicate CanRun(s: State, steps: seq<Step>)
    decreases |steps|
  {
    steps == [] || (Enabled(s, steps[0]) && CanRun(Next(s, steps[0]), steps[1..]))
  }

  function Run(s: State, steps: seq<Step>): State
    requires CanRun(s, steps)
    decreases |steps|
  {
    if steps == [] then s else Run(Next(s, steps[0]), steps[1..])
  }

  /* ---------- invariant ---------- */

  /** The operation has finished, or will never run. */
  predicate Over(c: Call) { c.status.Done? || c.status.GaveUp? }

  ghost predicate Chained(s: State) {
    s.tail == |s.calls| - 1 && forall i :: 0 <= i < |s.calls| ==> s.calls[i].previous == i - 1
  }

  /** A tail is open only when every call up to it is over. */
  ghost predicate TailsAreLate(s: State) {
    forall i, j :: 0 <= j <= i < |s.calls| && s.calls[i].open ==> Over(s.calls[j])
  }

  /** An operation that has begun has every earlier call behind it. */
  ghost predicate BegunInTurn(s: State) {
    forall i, j :: 0 <= j < i < |s.calls| && (s.calls[i].status.Running? || s.calls[i].status.Done?) ==> Over(s.calls[j])
  }

  ghost predicate DoneIsOpen(s: State) {
    forall i :: 0 <= i < |s.calls| && s.calls[i].status.Done? ==> s.calls[i].open
  }

  ghost predicate StartsInOrder(s: State) {
    && (forall k :: 0 <= k < |s.started| ==>
          s.started[k] < |s.calls| && (s.calls[s.started[k]].status.Running? || s.calls[s.started[k]].status.Done?))
    && (forall k, m :: 0 <= k < m < |s.started| ==> s.started[k] < s.started[m])
  }

  ghost predicate Inv(s: State) {
    Chained(s) && TailsAreLate(s) && BegunInTurn(s) && DoneIsOpen(s) && StartsInOrder(s)
  }

  lemma StepInv(s: State, step: Step)
    requires Inv(s) && Enabled(s, step)
    ensures Inv(Next(s, step))
  {
    StepChain(s, step);
    StepStarts(s, step);
  }

  lemma StepChain(s: State, step: Step)
    requires Inv(s) && Enabled(s, step)
    ensures var t := Next(s, step); Chained(t) && TailsAreLate(t) && BegunInTurn(t) && DoneIsOpen(t)
  {
  }

  lemma StepStarts(s: State, step: Step)
    requires Inv(s) && Enabled(s, step)
    ensures StartsInOrder(Next(s, step))
  {
    if step.Start? {
      forall k | 0 <= k < |s.started| ensures s.started[k] < step.i {
        var j := s.started[k];
        assert s.calls[j].status.Running? || s.calls[j].status.Done?;
        assert step.i < j ==> Over(s.calls[step.i]);
      }
    }
  }

  lemma {:induction false} RunInv(s: State, steps: seq<Step>)
    requires Inv(s) && CanRun(s, steps)
    ensures Inv(Run(s, steps))
    decreases |steps|
  {
    if steps != [] {
      StepInv(s, steps[0]);
      RunInv(Next(s, steps[0]), steps[1..]);
    }
  }

  /* ---------- what the lock promises ---------- */

  /** At most one operation runs at a time, after any sequence of calls, timeouts and aborts. */
  lemma OneAtATime(steps: seq<Step>, i: nat, j: nat)
    requires CanRun(Initial, steps)
    requires i < |Run(Initial, steps).calls| && j < |Run(Initial, steps).calls|
    requires Run(Initial, steps).calls[i].status.Running? && Run(Initial, steps).calls[j].status.Running?
    ensures i == j
  {
    RunInv(Initial, steps);
  }

  /** Operations begin in the order of the calls, each at most once. */
  lemma FirstInFirstOut(steps: seq<Step>, k: nat, m: nat)
    requires CanRun(Initial, steps) && k < m < |Run(Initial, steps).started|
    ensures Run(Initial, steps).started[k] < Run(Initial, steps).started[m]
  {
    RunInv(Initial, steps);
  }

  /** A call that is over stays over: one that gave up never begins its operation. */
  lemma {:induction false} OverForGood(s: State, steps: seq<Step>, i: nat)
    requires CanRun(s, steps) && i < |s.calls| && Over(s.calls[i])
    ensures i < |Run(s, steps).calls| && Run(s, steps).calls[i].status == s.calls[i].status
    decreases |steps|
  {
    if steps != [] {
      OverForGood(Next(s, steps[0]), steps[1..], i);
    }
  }

  /** Once a tail has opened, no call up to it is running, now or ever after. */
  lemma TailMeansQuiet(before: seq<Step>, after: seq<Step>, i: nat, j: nat)
    requires CanRun(Initial, before) && CanRun(Run(Initial, before), after)
    requires j <= i < |Run(Initial, before).calls| && Run(Initial, before).calls[i].open
    ensures j < |Run(Run(Initial, before), after).calls|
    ensures Over(Run(Run(Initial, before), after).calls[j])
  {
    RunInv(Initial, before);
    OverForGood(Run(Initial, before), after, j);
  }

  /* ---------- nobody is stranded ---------- */

  /** No operation can begin or finish, and no tail can open. */
  ghost predicate Stuck(s: State) {
    forall i: nat :: i < |s.calls| ==>
      !Enabled(s, Start(i)) && !Enabled(s, Finish(i)) && !Enabled(s, Propagate(i))
  }

  lemma {:induction false} StuckTailIsOpen(s: State, k: nat)
    requires Inv(s) && Stuck(s) && k < |s.calls|
    ensures s.calls[k].open
    decreases k
  {
    if k > 0 { StuckTailIsOpen(s, k - 1); }
    assert IsOpen(s, s.calls[k].previous);
    assert !Enabled(s, Start(k)) && !Enabled(s, Finish(k)) && !Enabled(s, Propagate(k));
  }

  /**
   The chain never wedges, whichever waiters gave up: when nothing more can happen by itself,
   every call is over and a new call would find its tail open and run at once.
   */
  lemma NeverWedged(steps: seq<Step>)
    requires CanRun(Initial, steps) && Stuck(Run(Initial, steps))
    ensures var s := Run(Initial, steps);
      && (forall i :: 0 <= i < |s.calls| ==> Over(s.calls[i]))
      && Enabled(Next(s, Enqueue), Start(|s.calls|))
  {
    var s := Run(Initial, steps);
    RunInv(Initial, steps);
    forall i: nat | i < |s.calls| ensures Over(s.calls[i]) && s.calls[i].open {
      StuckTailIsOpen(s, i);
    }
  }

  /** What is still to come by itself: two units for a call waiting or running, one for an unopened tail. */
  function Pending(calls: seq<Call>): nat {
    if calls == [] then 0
    else Pending(calls[..|calls| - 1]) + Units(calls[|calls| - 1])
  }

  function Units(c: Call): nat {
    (match c.status case Waiting => 2 case Running => 1 case Done => 0 case GaveUp => 0) + (if c.open then 0 else 1)
  }

  lemma {:induction false} PendingUpdate(calls: seq<Call>, i: nat, c: Call)
    requires i < |calls|
    ensures Pending(calls[i := c]) == Pending(calls) - Units(calls[i]) + Units(c)
    decreases |calls|
  {
    var n := |calls| - 1;
    if i < n {
      assert calls[i := c][..n] == calls[..n][i := c];
      PendingUpdate(calls[..n], i, c);
    } else {
      assert calls[i := c][..n] == calls[..n];
    }
  }

  /** Without new calls the chain comes to rest: there is no run longer than what is to come. */
  lemma {:induction false} ComesToRest(s: State, steps: seq<Step>)
    requires Inv(s) && CanRun(s, steps) && Enqueue !in steps
    ensures |steps| <= Pending(s.calls)
    decreases |steps|
  {
    if steps != [] {
      var step := steps[0];
      PendingUpdate(s.calls, step.i, Next(s, step).calls[step.i]);
      StepInv(s, step);
      ComesToRest(Next(s, step), steps[1..]);
    }
  }
}
