/**
 The cross-tab refresh lease: a bakery over one storage register per tab, with leases that
 expire.  Every read and write of a register is its own step, so scans interleave with
 the writes of other tabs; the shared clock stands still while a tab is inside a scan.
 */
module RefreshLease {
  import opened Wrappers
  import opened TextOrder

  type Owner = string

  const REFRESH_LEASE_TTL_MS := 30_000
  const MAX_SAFE_INTEGER := 0x1F_FFFF_FFFF_FFFF

  datatype Lease = Lease(generation: nat, expiresAt: int, choosing: bool, holding: bool, ticket: nat)

  /** What a tab has read so far in the scan it is in. */
  type Readings = map<Owner, Option<Lease>>

  datatype Phase =
    | Idle
    | Choosing(read: Readings)
    | Scanning(free: nat, read: Readings)
    | Confirming(round: nat, read: Readings)
    | Held

  /**
   `passed` and `cleared` are history: the tabs found not to block the current claim, and
   the tabs found not to be live holders since the holding flag was written.
   */
  datatype State = State(
    clock: int,
    owners: set<Owner>,
    regs: map<Owner, Lease>,
    phase: map<Owner, Phase>,
    nextGeneration: nat,
    timers: set<(Owner, nat, int)>,
    acquired: set<Owner>,
    passed: map<Owner, set<Owner>>,
    cleared: map<Owner, set<Owner>>)

  predicate Init(s: State) {
    && s.regs == map[] && s.timers == {} && s.acquired == {}
    && s.phase == (map p | p in s.owners :: Idle)
    && s.passed == (map p | p in s.owners :: {})
    && s.cleared == (map p | p in s.owners :: {})
  }

  /* ---------- the order of claims ---------- */

  predicate Precedes(l: Lease, lo: Owner, r: Lease, ro: Owner) {
    if l.ticket != r.ticket then l.ticket < r.ticket
    else if lo != ro then Before(lo, ro)
    else l.generation < r.generation
  }

  predicate Live(l: Lease, clock: int) { clock < l.expiresAt }

  /** `other`, as read, keeps the claim `own` of `p` waiting. */
  predicate Blocks(other: Option<Lease>, q: Owner, own: Lease, p: Owner, clock: int) {
    && other.Some? && Live(other.value, clock)
    && (other.value.holding || other.value.choosing || Precedes(other.value, q, own, p))
  }

  predicate Competes(other: Option<Lease>, clock: int) {
    other.Some? && other.value.holding && Live(other.value, clock)
  }

  function Reg(regs: map<Owner, Lease>, p: Owner): Option<Lease> {
    if p in regs then Some(regs[p]) else None
  }

  /** `max` is the largest ticket among the unexpired readings, 0 if there is none. */
  ghost predicate IsMaxTicket(read: Readings, clock: int, max: nat) {
    && (forall q :: q in read && read[q].Some? && Live(read[q].value, clock) ==> read[q].value.ticket <= max)
    && (max == 0 || exists q :: q in read && read[q].Some? && Live(read[q].value, clock) && read[q].value.ticket == max)
  }

  /* ---------- steps ---------- */

  datatype Step =
    | Tick(ms: nat)
    | Start(p: Owner)
    | ReadRegister(p: Owner, q: Owner)
    | TakeTicket(p: Owner, max: nat)
    | FinishScan(p: Owner)
    | FinishConfirmation(p: Owner)
    | GiveUp(p: Owner)
    | Vanish(p: Owner)
    | Renew(p: Owner)
    | Release(p: Owner)
    | Fence(p: Owner)
    | FireTimer(p: Owner, generation: nat, due: int)

  predicate MidScan(ph: Phase) {
    (ph.Choosing? || ph.Scanning? || ph.Confirming?) && ph.read != map[]
  }

  predicate ScanComplete(s: State, p: Owner)
    requires p in s.phase
  {
    var ph := s.phase[p];
    (ph.Choosing? || ph.Scanning? || ph.Confirming?) && ph.read.Keys == s.owners - {p}
  }

  ghost predicate Enabled(s: State, step: Step) {
    match step
    case Tick(_) => forall p :: p in s.phase ==> !MidScan(s.phase[p])
    // A tab never overwrites its own unexpired claim, such as the fence of an aborted request.
    case Start(p) => p in s.phase && s.phase[p].Idle? && (p in s.regs ==> !Live(s.regs[p], s.clock))
    case ReadRegister(p, q) =>
      && p in s.phase && q in s.owners && q != p
      && (s.phase[p].Choosing? || s.phase[p].Scanning? || s.phase[p].Confirming?)
      && q !in s.phase[p].read
    case TakeTicket(p, max) =>
      && p in s.phase && s.phase[p].Choosing? && ScanComplete(s, p) && p in s.regs
      && IsMaxTicket(s.phase[p].read, s.clock, max) && max < MAX_SAFE_INTEGER
    // An own claim that has expired sends the tab to GiveUp instead.
    case FinishScan(p) =>
      p in s.phase && s.phase[p].Scanning? && ScanComplete(s, p) && p in s.regs && Live(s.regs[p], s.clock)
    case FinishConfirmation(p) =>
      && p in s.phase && s.phase[p].Confirming? && ScanComplete(s, p)
      && p in s.regs && Live(s.regs[p], s.clock) && s.regs[p].holding
    case GiveUp(p) => p in s.phase && !s.phase[p].Idle? && !s.phase[p].Held?
    case Vanish(p) => p in s.phase && !s.phase[p].Idle?
    case Renew(p) => p in s.phase && s.phase[p].Held? && p in s.regs && Live(s.regs[p], s.clock)
    case Release(p) => p in s.phase && s.phase[p].Held?
    case Fence(p) => p in s.phase && s.phase[p].Held? && p in s.regs
    case FireTimer(p, g, due) => (p, g, due) in s.timers && due < s.clock
  }

  /** The owner's register is removed: its claim is over. */
  function Dropped(s: State, p: Owner): State {
    s.(regs := s.regs - {p}, phase := s.phase[p := Idle], acquired := s.acquired - {p}, passed := s.passed[p := {}])
  }

  /** One register read: remember it, and note what it rules out. */
  function Read(s: State, p: Owner, q: Owner): State
    requires p in s.phase && (s.phase[p].Choosing? || s.phase[p].Scanning? || s.phase[p].Confirming?)
    requires p in s.passed && p in s.cleared
  {
    var seen := Reg(s.regs, q);
    var ph := s.phase[p];
    var s' := s.(phase := s.phase[p := ph.(read := ph.read[q := seen])]);
    if ph.Scanning? && p in s.regs && !Blocks(seen, q, s.regs[p], p, s.clock) then
      s'.(passed := s.passed[p := s.passed[p] + {q}])
    else if ph.Confirming? && !Competes(seen, s.clock) then
      s'.(cleared := s.cleared[p := s.cleared[p] + {q}])
    else s'
  }

  predicate Unblocked(s: State, p: Owner)
    requires p in s.phase && s.phase[p].Scanning? && p in s.regs
  {
    forall q :: q in s.phase[p].read ==> !Blocks(s.phase[p].read[q], q, s.regs[p], p, s.clock)
  }

  predicate Unopposed(s: State, p: Owner)
    requires p in s.phase && s.phase[p].Confirming?
  {
    forall q :: q in s.phase[p].read ==> !Competes(s.phase[p].read[q], s.clock)
  }

  /** After a whole scan: two in a row without a blocker publish the holding flag. */
  function Scanned(s: State, p: Owner): State
    requires p in s.phase && s.phase[p].Scanning? && p in s.regs
  {
    if !Unblocked(s, p) then s.(phase := s.phase[p := Scanning(0, map[])])
    else if s.phase[p].free == 0 then s.(phase := s.phase[p := Scanning(1, map[])])
    else s.(
      regs := s.regs[p := s.regs[p].(holding := true)],
      phase := s.phase[p := Confirming(0, map[])],
      cleared := s.cleared[p := {}])
  }

  /** After a whole confirmation scan: step back for a live holder, else confirm twice. */
  function Confirmed(s: State, p: Owner): State
    requires p in s.phase && s.phase[p].Confirming? && p in s.regs
  {
    if !Unopposed(s, p) then
      s.(regs := s.regs[p := s.regs[p].(holding := false)], phase := s.phase[p := Scanning(0, map[])])
    else if s.phase[p].round == 0 then s.(phase := s.phase[p := Confirming(1, map[])])
    else s.(phase := s.phase[p := Held], acquired := s.acquired + {p})
  }

  ghost predicate WellFormed(s: State) {
    && s.phase.Keys == s.owners && s.passed.Keys == s.owners && s.cleared.Keys == s.owners
    && s.regs.Keys <= s.owners
  }

  ghost function Next(s: State, step: Step): State
    requires WellFormed(s) && Enabled(s, step)
  {
    match step
    case Tick(ms) => s.(clock := s.clock + ms)
    case Start(p) => s.(
      regs := s.regs[p := Lease(s.nextGeneration, s.clock + REFRESH_LEASE_TTL_MS, true, false, 0)],
      phase := s.phase[p := Choosing(map[])],
      nextGeneration := s.nextGeneration + 1,
      acquired := s.acquired - {p},
      passed := s.passed[p := {}])
    case ReadRegister(p, q) => Read(s, p, q)
    case TakeTicket(p, max) => s.(
      regs := s.regs[p := Lease(s.regs[p].generation, s.clock + REFRESH_LEASE_TTL_MS, false, false, max + 1)],
      phase := s.phase[p := Scanning(0, map[])])
    case FinishScan(p) => Scanned(s, p)
    case FinishConfirmation(p) => Confirmed(s, p)
    case GiveUp(p) => Dropped(s, p)
    case Vanish(p) => s.(phase := s.phase[p := Idle])
    case Renew(p) => s.(regs := s.regs[p := s.regs[p].(expiresAt := s.clock + REFRESH_LEASE_TTL_MS)])
    case Release(p) => Dropped(s, p)
    case Fence(p) => s.(
      phase := s.phase[p := Idle],
      timers := s.timers + {(p, s.regs[p].generation, s.regs[p].expiresAt)})
    case FireTimer(p, g, due) =>
      if p in s.regs && s.regs[p].generation == g
      then s.(regs := s.regs - {p}, acquired := s.acquired - {p}, passed := s.passed[p := {}], timers := s.timers - {(p, g, due)})
      else s.(timers := s.timers - {(p, g, due)})
  }

  lemma StepWellFormed(s: State, step: Step)
    requires WellFormed(s) && Enabled(s, step)
    ensures WellFormed(Next(s, step))
    ensures Next(s, step).owners == s.owners
  {
  }

  /** A step touches only the register, the phase and the history of the tab that takes it. */
  lemma StepFrame(s: State, step: Step, x: Owner)
    requires WellFormed(s) && Enabled(s, step) && x in s.owners && (step.Tick? || step.p != x)
    ensures var t := Next(s, step);
            && (x in t.regs <==> x in s.regs) && (x in s.regs ==> t.regs[x] == s.regs[x])
            && t.phase[x] == s.phase[x] && t.passed[x] == s.passed[x] && t.cleared[x] == s.cleared[x]
  {
  }

  ghost predicate CanRun(s: State, steps: seq<Step>)
    requires WellFormed(s)
    decreases |steps|
  {
    steps == [] || (Enabled(s, steps[0]) && (StepWellFormed(s, steps[0]); CanRun(Next(s, steps[0]), steps[1..])))
  }

  ghost function Run(s: State, steps: seq<Step>): State
    requires WellFormed(s) && CanRun(s, steps)
    decreases |steps|
  {
    if steps == [] then s else StepWellFormed(s, steps[0]); Run(Next(s, steps[0]), steps[1..])
  }
}
