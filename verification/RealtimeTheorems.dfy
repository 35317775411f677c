/** What the realtime client promises, after any sequence of calls and callbacks. */
module RealtimeTheorems {
  import opened Wrappers
  import opened RealtimeMachine
  import opened RealtimeProofs

  /**
   No lost wakeup: a client that should be connected has exactly one of a socket, an attempt
   in flight and a reconnect timer; a client that should not has at most one, and a
   stopped or rejected client has none.  The timer and the attempt it counts on are really
   under way.
   */
  lemma NoLostWakeup(c: Client)
    requires Reachable(c)
    ensures Wanted(c.link) ==> Lifelines(c.link) == 1
    ensures Lifelines(c.link) <= 1
    ensures !c.link.enabled || c.link.terminal ==> Lifelines(c.link) == 0
    ensures c.link.reconnectTimer.Some? ==> Enabled(c, ReconnectTimeout(c.link.reconnectTimer.value))
    ensures c.link.connectInFlight.Some? ==> c.link.connectInFlight.value in c.link.attempts
  {
    ReachableInv(c);
  }

  /** A lifeline that ends leaves another, or ends in a rejection, unless the client is kept offline. */
  lemma LifelinesFollow(c: Client, step: Step)
    requires Reachable(c) && Wanted(c.link) && Enabled(c, step)
    requires step.AttemptFails? || step.AttemptOpens? || step.ReconnectTimeout? || step.SocketCloses?
    ensures var l := Next(c, step).link; l.terminal || Lifelines(l) == 1
  {
    ReachableInv(c);
    StepLink(c, step);
    SignalsKept(c, step);
  }

  predicate SameSignals(l: Link, l': Link) {
    l'.enabled == l.enabled && l'.visible == l.visible && l'.online == l.online
  }

  lemma FailureSignals(l: Link, a: nat, f: Failure)
    requires a in l.attempts
    ensures SameSignals(l, AttemptFailed(l, a, f))
  {
  }

  lemma OpenedSignals(l: Link, a: nat, s: nat)
    requires a in l.attempts
    ensures SameSignals(l, AttemptOpened(l, a)) && SameSignals(l, HandleOpen(AttemptOpened(l, a), s))
  {
  }

  lemma CloseSignals(l: Link, s: nat, code: int)
    ensures SameSignals(l, HandleClose(l, s, code))
  {
  }

  lemma SignalsKept(c: Client, step: Step)
    requires Enabled(c, step)
    requires step.AttemptFails? || step.AttemptOpens? || step.ReconnectTimeout? || step.SocketCloses?
    ensures SameSignals(c.link, Next(c, step).link)
  {
    match step
    case AttemptFails(a, f) => FailureSignals(c.link, a, f);
    case AttemptOpens(a, _, _) => OpenedSignals(c.link, a, c.link.nextId);
    case SocketCloses(s, code) => CloseSignals(c.link, s, code);
    case ReconnectTimeout(_) =>
  }

  /** An attempt of an older generation neither installs its socket nor frees the slot of a newer one. */
  lemma StaleAttemptHarmless(c: Client, step: Step, a: nat)
    requires Reachable(c) && a in c.link.attempts && c.link.attempts[a] != c.link.generation && Enabled(c, step)
    requires (step.AttemptOpens? || step.AttemptFails?) && step.attempt == a
    ensures var l, l' := c.link, Next(c, step).link;
      && l'.socket == l.socket && l'.connectInFlight == l.connectInFlight && l'.reconnectTimer == l.reconnectTimer
      && l'.status == l.status && l'.generation == l.generation
    ensures Next(c, step).mail == c.mail && Next(c, step).rooms.references == c.rooms.references
    ensures step.AttemptOpens? ==> Next(c, step).rooms.ready[c.link.nextId] == Closed
    ensures c.link.connectInFlight != Some(a)
  {
    ReachableInv(c);
  }

  /** The current attempt does install its socket. */
  lemma CurrentAttemptInstalls(c: Client, step: Step)
    requires Reachable(c) && Enabled(c, step) && step.AttemptOpens? && c.link.connectInFlight == Some(step.attempt)
    ensures Next(c, step).link.socket == Some(c.link.nextId) && Next(c, step).link.connectInFlight.None?
    ensures step.state == Open ==> Next(c, step).link.status == Connected
  {
    ReachableInv(c);
  }

  /* ---------- the status shown ---------- */

  /** What the snapshot says about the connection. */
  predicate Honest(l: Link) {
    && (l.status == Stopped <==> !l.enabled || l.terminal)
    && (l.status == Connected ==> l.socket.Some?)
    && (l.socket.Some? ==> l.status == Connected || l.status == Connecting)
    && (l.connectInFlight.Some? ==> l.status == Connecting)
    && (l.reconnectTimer.Some? ==> l.status == Waiting)
  }

  lemma ConnectHonest(l: Link)
    requires LinkOk(l) && Honest(l)
    ensures Honest(Connect(l))
  {
  }

  lemma FailureHonest(l: Link, f: Failure)
    requires LinkOk(l) && Lifelines(l) == 0 && l.enabled && !l.terminal
    ensures Honest(ConnectFailure(l, f)) && Honest(RequestRevalidation(Rejected(l))) && Honest(ScheduleReconnect(l, None))
  {
  }

  lemma AttemptHonest(l: Link, a: nat, f: Failure)
    requires LinkInv(l) && Honest(l) && a in l.attempts
    ensures Honest(AttemptFailed(l, a, f)) && Honest(AttemptOpened(l, a))
  {
    AttemptFailedIs(l, a, f);
    AttemptOpenedIs(l, a);
    AttemptOverOk(l, a);
    var o := AttemptOver(l, a);
    if l.attempts[a] == l.generation { FailureHonest(o, f); }
  }

  lemma CloseHonest(l: Link, s: nat, code: int)
    requires LinkInv(l) && Honest(l)
    ensures Honest(HandleClose(l, s, code))
  {
    if IsCurrent(l, s) {
      assert LinkOk(l.(socket := None)) && Lifelines(l.(socket := None)) == 0;
      FailureHonest(l.(socket := None), Failure(true, 0, None));
    }
  }

  lemma RestartHonest(l: Link)
    requires LinkInv(l) && Honest(l)
    ensures Honest(Started(l)) && Honest(Refreshed(l)) && Honest(Ended(l))
  {
    if l.enabled {
      SeveredOk(l);
      ConnectHonest(Severed(l).(status := Idle));
    } else {
      ConnectHonest(l.(enabled := true, terminal := false, revalidationRequested := false,
                       generation := l.generation + 1, status := Idle, reconnectAttempt := 0));
    }
  }

  lemma SignalHonest(l: Link, on: bool)
    requires LinkInv(l) && Honest(l)
    ensures Honest(VisibilitySet(l, on)) && Honest(OnlineSet(l, on))
  {
    ConnectHonest(l.(visible := on));
    ConnectHonest(l.(online := on));
  }

  lemma TimerHonest(l: Link, t: nat)
    requires LinkInv(l) && Honest(l) && t in l.timers
    ensures Honest(TimerFired(l, t))
  {
    ConnectHonest(l.(timers := l.timers - {t}, reconnectTimer := None));
  }

  lemma StepHonest(c: Client, step: Step)
    requires LinkInv(c.link) && Honest(c.link) && Enabled(c, step)
    ensures Honest(Next(c, step).link)
  {
    var l := c.link;
    match step
    case AttemptFails(a, f) => AttemptHonest(l, a, f);
    case AttemptOpens(a, _, _) => AttemptHonest(l, a, Failure(true, 0, None)); AttemptOpenedInv(l, a);
    case SocketCloses(s, code) => CloseHonest(l, s, code);
    case Start => RestartHonest(l);
    case Stop => RestartHonest(l);
    case RefreshAuthentication => RestartHonest(l);
    case SetVisible(v) => SignalHonest(l, v);
    case SetOnline(o) => SignalHonest(l, o);
    case ReconnectTimeout(t) => TimerHonest(l, t);
    case _ =>
  }

  lemma {:induction false} RunHonest(c: Client, steps: seq<Step>)
    requires Inv(c) && Honest(c.link) && CanRun(c, steps)
    ensures Honest(Run(c, steps).link)
    decreases |steps|
  {
    if steps != [] {
      StepHonest(c, steps[0]);
      StepInv(c, steps[0]);
      RunHonest(Next(c, steps[0]), steps[1..]);
    }
  }

  /** The status shown is the truth about the connection, in every reachable state. */
  lemma StatusIsHonest(c: Client)
    requires Reachable(c)
    ensures Honest(c.link)
  {
    var c0: Client, steps: seq<Step> :| Init(c0) && CanRun(c0, steps) && Run(c0, steps) == c;
    InitialInv(c0);
    InitialHonest(c0);
    RunHonest(c0, steps);
  }

  lemma InitialHonest(c: Client)
    requires Init(c)
    ensures Honest(c.link)
  {
  }

  /* ---------- promises ---------- */

  /** A promise has at most one settlement, and none exactly while its message is pending. */
  lemma SettlesOnce(c: Client, p: nat)
    requires Reachable(c) && p < |c.mail.outcomes|
    ensures |c.mail.outcomes[p]| == Count(!Awaited(c.mail.pending, c.mail.pending.Keys, p))
  {
    ReachableInv(c);
  }

  /** Without a socket in use nobody is left waiting. */
  lemma NoSocketNobodyWaits(c: Client, p: nat)
    requires Reachable(c) && c.link.socket.None? && p < |c.mail.outcomes|
    ensures c.mail.pending.Keys == {} && |c.mail.outcomes[p]| == 1
  {
    ReachableInv(c);
  }

  /** The promise is settled and no pending message has it. */
  ghost predicate Done(m: Mail, p: nat) {
    p < |m.outcomes| && |m.outcomes[p]| == 1 && forall k :: k in m.pending ==> m.pending[k].promise != p
  }

  predicate Keeps(m: Mail, m': Mail, p: nat) {
    p < |m.outcomes| && p < |m'.outcomes| && m'.outcomes[p] == m.outcomes[p]
  }

  lemma SettledIsDone(m: Mail, p: nat)
    requires MailInv(m) && p < |m.outcomes| && |m.outcomes[p]| == 1
    ensures Done(m, p)
  {
    forall k | k in m.pending ensures m.pending[k].promise != p {
      assert m.outcomes[m.pending[k].promise] == [];
    }
  }

  lemma SettlingKeeps(m: Mail, key: string, o: Outcome, p: nat)
    requires Done(m, p)
    ensures Keeps(m, Settled(m, key, o), p) && Keeps(m, Dropped(m, o), p)
  {
  }

  lemma SendingKeeps(m: Mail, key: string, connected: bool, fails: bool, p: nat)
    requires Done(m, p)
    ensures Keeps(m, Sent(m, key, connected, fails), p)
  {
  }

  lemma StepExtendsOutcomes(c: Client, step: Step, p: nat)
    requires MailInv(c.mail) && Enabled(c, step) && p < |c.mail.outcomes| && |c.mail.outcomes[p]| == 1
    ensures Keeps(c.mail, Next(c, step).mail, p)
  {
    SettledIsDone(c.mail, p);
    match step
    case SendMessage(key, fails) => SendingKeeps(c.mail, key, IsOpen(c.rooms, c.link.socket), fails, p);
    case Acknowledge(key, o) => SettlingKeeps(c.mail, key, o, p);
    case AckTimeout(t) =>
      TimedOutIsSettled(c.mail, t);
      SettlingKeeps(c.mail, c.mail.deadlines[t].clientMessageId, Failed("ack_timeout", true), p);
    case Stop => SettlingKeeps(c.mail, "", Failed("session_ended", false), p);
    case RefreshAuthentication => SettlingKeeps(c.mail, "", Failed("auth_refreshed", true), p);
    case SocketCloses(_, code) => SettlingKeeps(c.mail, "", Failed("connection_closed", !TerminalCode(code)), p);
    case _ =>
  }

  /** A settled promise keeps its one outcome for good. */
  lemma {:induction false} OutcomeIsFinal(c: Client, steps: seq<Step>, p: nat)
    requires Inv(c) && CanRun(c, steps) && p < |c.mail.outcomes| && |c.mail.outcomes[p]| == 1
    ensures p < |Run(c, steps).mail.outcomes| && Run(c, steps).mail.outcomes[p] == c.mail.outcomes[p]
    decreases |steps|
  {
    if steps != [] {
      StepExtendsOutcomes(c, steps[0], p);
      StepInv(c, steps[0]);
      OutcomeIsFinal(Next(c, steps[0]), steps[1..], p);
    }
  }

  /** An acknowledgement reaches the one promise that waits for it. */
  lemma AcknowledgementSettles(c: Client, key: string, o: Outcome)
    requires Reachable(c) && key in c.mail.pending
    ensures var p := c.mail.pending[key].promise;
      p < |c.mail.outcomes| && Next(c, Acknowledge(key, o)).mail.outcomes == c.mail.outcomes[p := [o]]
  {
    ReachableInv(c);
    assert c.mail.outcomes[c.mail.pending[key].promise] == [];
    assert [] + [o] == [o];
  }

  /* ---------- rooms ---------- */

  /** On an open socket the joins and leaves sent amount to exactly the referenced rooms. */
  lemma RoomsInStep(c: Client)
    requires Reachable(c) && IsOpen(c.rooms, c.link.socket)
    ensures JoinedOn(c.rooms, c.link.socket.value) == c.rooms.references.Keys
  {
    ReachableInv(c);
  }

  /* ---------- revalidation ---------- */

  /** The step neither starts nor stops the client nor opens its socket. */
  predicate NoFreshSession(c: Client, step: Step)
    requires Enabled(c, step)
  {
    && !step.Start? && !step.Stop?
    && !(step.SocketOpens? && IsCurrent(c.link, step.socket))
    && !(step.AttemptOpens? && step.state == Open && Fresh(c.link, c.link.attempts[step.attempt]))
  }

  ghost predicate NoFreshSessions(c: Client, steps: seq<Step>)
    requires CanRun(c, steps)
    decreases |steps|
  {
    steps == [] || (NoFreshSession(c, steps[0]) && NoFreshSessions(Next(c, steps[0]), steps[1..]))
  }

  /** The revalidations asked for, plus the one that may still be. */
  function Allowance(l: Link): nat { l.revalidations + Count(!l.revalidationRequested) }

  lemma FailureAllowance(l: Link, a: nat, f: Failure)
    requires a in l.attempts
    ensures Allowance(AttemptFailed(l, a, f)) <= Allowance(l)
  {
  }

  lemma CloseAllowance(l: Link, s: nat, code: int)
    ensures Allowance(HandleClose(l, s, code)) <= Allowance(l)
  {
  }

  lemma ConnectAllowance(l: Link)
    ensures Allowance(Connect(l)) == Allowance(l)
  {
  }

  lemma StepRevalidation(c: Client, step: Step)
    requires Enabled(c, step) && NoFreshSession(c, step)
    ensures Allowance(Next(c, step).link) <= Allowance(c.link)
  {
    match step
    case AttemptFails(a, f) => FailureAllowance(c.link, a, f);
    case SocketCloses(s, code) => CloseAllowance(c.link, s, code);
    case RefreshAuthentication => ConnectAllowance(Severed(c.link).(status := Idle));
    case SetVisible(v) => ConnectAllowance(c.link.(visible := v));
    case SetOnline(o) => ConnectAllowance(c.link.(online := o));
    case ReconnectTimeout(t) => ConnectAllowance(c.link.(timers := c.link.timers - {t}, reconnectTimer := None));
    case _ =>
  }

  /**
   Until a connection opens or the session restarts, a rejected client asks for a
   revalidation at most once, however often it is refreshed and rejected again.
   */
  lemma {:induction false} RevalidatesOnce(c: Client, steps: seq<Step>)
    requires CanRun(c, steps) && NoFreshSessions(c, steps)
    ensures Allowance(Run(c, steps).link) <= Allowance(c.link)
    ensures Run(c, steps).link.revalidations <= c.link.revalidations + 1
    decreases |steps|
  {
    if steps != [] {
      StepRevalidation(c, steps[0]);
      RevalidatesOnce(Next(c, steps[0]), steps[1..]);
    }
  }

  /* ---------- backing off ---------- */

  lemma {:induction false} PowerGrows(a: nat, b: nat)
    requires a <= b
    ensures 1 <= Power(2, a) <= Power(2, b)
    decreases b
  {
    if a < b { PowerGrows(a, b - 1); } else if a > 0 { PowerGrows(a - 1, b - 1); }
  }

  /** Delays never shrink from one attempt to the next, start at a second and stay within half a minute. */
  lemma BackoffRises(m: nat, n: nat)
    requires 1 <= m <= n
    ensures Backoff(1) == 1000 <= Backoff(m) <= Backoff(n) <= 30_000
    ensures m >= 6 ==> Backoff(m) == 30_000
    ensures m <= 5 ==> Backoff(m) == 1000 * Power(2, m - 1)
  {
    PowerGrows(m - 1, n - 1);
    PowerGrows(0, m - 1);
    assert Power(2, 5) == 32 && Power(2, 4) == 16;
    if m >= 6 { PowerGrows(5, m - 1); } else { PowerGrows(m - 1, 4); }
  }

  /** The step does not bring a delay dictated by the server. */
  predicate OwnDelay(step: Step) {
    step.AttemptFails? && step.failure.httpStatus == 429 ==> step.failure.retryAfterMs.None?
  }

  /** An armed timer waits as long as the number of attempts in a row says. */
  predicate Paced(l: Link) {
    l.reconnectTimer.Some? ==>
      1 <= l.reconnectAttempt && l.reconnectTimer.value in l.timers && l.timers[l.reconnectTimer.value] == Backoff(l.reconnectAttempt)
  }

  lemma ConnectPaced(l: Link)
    requires Paced(l)
    ensures Paced(Connect(l)) && Connect(l).reconnectAttempt == l.reconnectAttempt
  {
  }

  lemma FailurePaced(l: Link, a: nat, f: Failure)
    requires LinkInv(l) && Paced(l) && a in l.attempts && (f.httpStatus == 429 ==> f.retryAfterMs.None?)
    ensures Paced(AttemptFailed(l, a, f)) && l.reconnectAttempt <= AttemptFailed(l, a, f).reconnectAttempt
  {
    AttemptFailedIs(l, a, f);
    AttemptOverOk(l, a);
    if l.attempts[a] == l.generation { RetryPaced(AttemptOver(l, a), f); } else { assert AttemptOver(l, a) == l.(attempts := l.attempts - {a}); }
  }

  lemma RetryPaced(l: Link, f: Failure)
    requires Lifelines(l) == 0 && (f.httpStatus == 429 ==> f.retryAfterMs.None?)
    ensures Paced(ConnectFailure(l, f)) && l.reconnectAttempt <= ConnectFailure(l, f).reconnectAttempt
  {
  }

  lemma OpenedPaced(l: Link, a: nat)
    requires LinkInv(l) && Paced(l) && a in l.attempts
    ensures Paced(AttemptOpened(l, a)) && l.reconnectAttempt == AttemptOpened(l, a).reconnectAttempt
  {
  }

  lemma ClosePaced(l: Link, s: nat, code: int)
    requires LinkInv(l) && Paced(l)
    ensures Paced(HandleClose(l, s, code)) && l.reconnectAttempt <= HandleClose(l, s, code).reconnectAttempt
  {
  }

  /** Steps that neither begin a session anew nor refresh it. */
  predicate Continues(c: Client, step: Step)
    requires Enabled(c, step)
  {
    NoFreshSession(c, step) && !step.RefreshAuthentication?
  }

  lemma StepPaced(c: Client, step: Step)
    requires LinkInv(c.link) && Paced(c.link) && Enabled(c, step) && OwnDelay(step)
    ensures Paced(Next(c, step).link)
    ensures Continues(c, step) ==> c.link.reconnectAttempt <= Next(c, step).link.reconnectAttempt
  {
    var l := c.link;
    match step
    case AttemptFails(a, f) => FailurePaced(l, a, f);
    case AttemptOpens(a, _, _) => OpenedPaced(l, a); AttemptOpenedInv(l, a);
    case SocketCloses(s, code) => ClosePaced(l, s, code);
    case Start => if !l.enabled {
        ConnectPaced(l.(enabled := true, terminal := false, revalidationRequested := false,
                        generation := l.generation + 1, status := Idle, reconnectAttempt := 0));
      }
    case RefreshAuthentication => ConnectPaced(Severed(l).(status := Idle));
    case SetVisible(v) => ConnectPaced(l.(visible := v));
    case SetOnline(o) => ConnectPaced(l.(online := o));
    case ReconnectTimeout(t) => ConnectPaced(l.(timers := l.timers - {t}, reconnectTimer := None));
    case _ =>
  }

  ghost predicate OwnDelays(steps: seq<Step>) { forall k :: 0 <= k < |steps| ==> OwnDelay(steps[k]) }

  ghost predicate ContinuesThroughout(c: Client, steps: seq<Step>)
    requires CanRun(c, steps)
    decreases |steps|
  {
    steps == [] || (Continues(c, steps[0]) && ContinuesThroughout(Next(c, steps[0]), steps[1..]))
  }

  lemma {:induction false} RunPaced(c: Client, steps: seq<Step>)
    requires Inv(c) && Paced(c.link) && CanRun(c, steps) && OwnDelays(steps)
    ensures Inv(Run(c, steps)) && Paced(Run(c, steps).link)
    ensures ContinuesThroughout(c, steps) ==> c.link.reconnectAttempt <= Run(c, steps).link.reconnectAttempt
    decreases |steps|
  {
    if steps != [] {
      StepPaced(c, steps[0]);
      StepInv(c, steps[0]);
      RunPaced(Next(c, steps[0]), steps[1..]);
    }
  }

  /** The state is reached without a delay dictated by the server. */
  ghost predicate ReachedAtOwnPace(c: Client) {
    exists c0: Client, steps: seq<Step> :: Init(c0) && CanRun(c0, steps) && OwnDelays(steps) && Run(c0, steps) == c
  }

  lemma ReachedPaced(c: Client)
    requires ReachedAtOwnPace(c)
    ensures Inv(c) && Paced(c.link)
  {
    var c0: Client, steps: seq<Step> :| Init(c0) && CanRun(c0, steps) && OwnDelays(steps) && Run(c0, steps) == c;
    InitialInv(c0);
    InitialPaced(c0);
    RunPaced(c0, steps);
  }

  lemma InitialPaced(c: Client)
    requires Init(c)
    ensures Paced(c.link)
  {
  }

  /**
   The timers really armed: in a run without delays dictated by the server, of two reconnect
   timers the later waits at least as long, until a connection opens, the session restarts
   or its authentication is refreshed; none waits less than a second or more than half a minute.
   */
  lemma DelaysRise(c: Client, steps: seq<Step>)
    requires ReachedAtOwnPace(c) && CanRun(c, steps) && OwnDelays(steps) && ContinuesThroughout(c, steps)
    requires c.link.reconnectTimer.Some? && Run(c, steps).link.reconnectTimer.Some?
    ensures var l, l' := c.link, Run(c, steps).link;
      && l.reconnectTimer.value in l.timers && l'.reconnectTimer.value in l'.timers
      && 1000 <= l.timers[l.reconnectTimer.value] <= l'.timers[l'.reconnectTimer.value] <= 30_000
  {
    ReachedPaced(c);
    RunPaced(c, steps);
    LaterWaitsLonger(c.link, Run(c, steps).link);
  }

  lemma LaterWaitsLonger(l: Link, l': Link)
    requires Paced(l) && Paced(l') && l.reconnectAttempt <= l'.reconnectAttempt
    requires l.reconnectTimer.Some? && l'.reconnectTimer.Some?
    ensures l.reconnectTimer.value in l.timers && l'.reconnectTimer.value in l'.timers
    ensures 1000 <= l.timers[l.reconnectTimer.value] <= l'.timers[l'.reconnectTimer.value] <= 30_000
  {
    BackoffRises(l.reconnectAttempt, l'.reconnectAttempt);
  }
}
