/** What each call and each callback of the realtime client gives its caller. */
module RealtimeEffects {
  import opened Wrappers
  import opened RealtimeMachine
  import opened RealtimeProofs
  import opened RealtimeTheorems

  /* ---------- reachable states are closed under steps ---------- */

  lemma {:induction false} RunAppend(c: Client, steps: seq<Step>, step: Step)
    requires CanRun(c, steps) && Enabled(Run(c, steps), step)
    ensures CanRun(c, steps + [step]) && Run(c, steps + [step]) == Next(Run(c, steps), step)
    decreases |steps|
  {
    var more := steps + [step];
    if steps == [] {
      assert more[1..] == [];
    } else {
      RunAppend(Next(c, steps[0]), steps[1..], step);
      assert more[0] == steps[0] && more[1..] == steps[1..] + [step];
    }
  }

  lemma ReachableStep(c: Client, step: Step)
    requires Reachable(c) && Enabled(c, step)
    ensures Reachable(Next(c, step))
  {
    var c0: Client, steps: seq<Step> :| Init(c0) && CanRun(c0, steps) && Run(c0, steps) == c;
    RunAppend(c0, steps, step);
  }

  lemma ReachableInit(c: Client)
    requires Init(c)
    ensures Reachable(c)
  {
    assert CanRun(c, []) && Run(c, []) == c;
  }

  /* ---------- starting, stopping, refreshing ---------- */

  /** Every promise that was waiting now has the one outcome `o`; the settled ones keep theirs. */
  ghost predicate AllAnswered(m: Mail, m': Mail, o: Outcome) {
    && m'.pending.Keys == {} && m'.deadlines.Keys == {}
    && |m'.outcomes| == |m.outcomes|
    && (forall p :: 0 <= p < |m.outcomes| ==>
          |m'.outcomes[p]| == 1 && m'.outcomes[p] == if m.outcomes[p] == [] then [o] else m.outcomes[p])
  }

  lemma DroppedAnswers(m: Mail, o: Outcome)
    requires MailInv(m)
    ensures AllAnswered(m, Dropped(m, o), o)
  {
    var m' := Dropped(m, o);
    DroppedMail(m, o);
    forall p | 0 <= p < |m.outcomes|
      ensures |m'.outcomes[p]| == 1 && m'.outcomes[p] == if m.outcomes[p] == [] then [o] else m.outcomes[p]
    {
      if Awaited(m.pending, m.pending.Keys, p) {
        var k :| k in m.pending && m.pending[k].promise == p;
        assert m.outcomes[p] == [] && [] + [o] == [o];
      }
    }
  }

  /** After `start` a client that may connect is on its way. */
  lemma StartConnects(c: Client)
    requires Reachable(c)
    ensures var t := Next(c, Start);
      && t.link.enabled && t.mail == c.mail && t.rooms == c.rooms
      && (c.link.enabled ==> t == c)
      && (!c.link.enabled && c.link.visible && c.link.online ==>
            Attempting(t.link, c.link.nextId) && t.link.generation > c.link.generation)
  {
    ReachableInv(c);
    if !c.link.enabled { StartedAttempts(c.link); }
  }

  /** The attempt `a` of the current generation is in flight. */
  predicate Attempting(l: Link, a: nat) {
    l.connectInFlight == Some(a) && a in l.attempts && l.attempts[a] == l.generation
  }

  lemma StartedAttempts(l: Link)
    requires !l.enabled && Lifelines(l) == 0
    ensures var l' := Started(l); l'.enabled && l'.generation > l.generation
    ensures l.visible && l.online ==> Attempting(Started(l), l.nextId)
  {
  }

  /** After `stop` there is no socket, attempt or timer in use, no room, and every promise is settled. */
  lemma StopEndsEverything(c: Client)
    requires Reachable(c)
    ensures var t := Next(c, Stop);
      && !t.link.enabled && t.link.status == Stopped && Lifelines(t.link) == 0 && t.link.timers.Keys == {}
      && t.rooms.references == map[] && AllAnswered(c.mail, t.mail, Failed("session_ended", false))
      && (c.link.socket.Some? ==> c.link.socket.value in t.rooms.ready && t.rooms.ready[c.link.socket.value] == Closed)
  {
    ReachableInv(c);
    StepLink(c, Stop);
    DroppedAnswers(c.mail, Failed("session_ended", false));
  }

  /** A refresh drops the old connection and, where the client may connect, opens a newer one; rooms stay. */
  lemma RefreshReconnects(c: Client)
    requires Reachable(c)
    ensures var t := Next(c, RefreshAuthentication);
      && (!c.link.enabled ==> t == c)
      && (c.link.enabled ==>
            && t.link.generation == c.link.generation + 1 && t.link.socket.None?
            && t.rooms.references == c.rooms.references && AllAnswered(c.mail, t.mail, Failed("auth_refreshed", true))
            && (c.link.socket.Some? ==> t.rooms.ready[c.link.socket.value] == Closed)
            && (c.link.visible && c.link.online ==>
                  Attempting(t.link, c.link.nextId)))
  {
    ReachableInv(c);
    DroppedAnswers(c.mail, Failed("auth_refreshed", true));
  }

  /* ---------- visibility and network ---------- */

  /** A lifeline that exists is left alone; one that is missing and wanted is started. */
  predicate Woken(l: Link, l': Link) {
    && l'.socket == l.socket && l'.reconnectTimer == l.reconnectTimer && l'.timers == l.timers
    && (Lifelines(l) == 1 ==> l'.connectInFlight == l.connectInFlight)
    && (Lifelines(l) == 0 ==> l'.connectInFlight == if Wanted(l') then Some(l.nextId) else None)
    && (Wanted(l') ==> Lifelines(l') == 1)
  }

  lemma SignalWakes(c: Client, step: Step)
    requires Reachable(c) && (step.SetVisible? || step.SetOnline?)
    ensures var t := Next(c, step);
      && t.mail == c.mail && t.rooms == c.rooms && Woken(c.link, t.link)
      && t.link.visible == (if step.SetVisible? then step.visible else c.link.visible)
      && t.link.online == (if step.SetOnline? then step.online else c.link.online)
      && t.link.enabled == c.link.enabled && t.link.terminal == c.link.terminal
  {
    ReachableInv(c);
    StepLink(c, step);
  }

  /* ---------- rooms ---------- */

  /** One reference more or less to `room`, none else; on an open socket the server has just these rooms. */
  ghost predicate Counted(c: Client, c': Client, room: string, n: nat) {
    && c'.link == c.link && c'.mail == c.mail
    && References(c'.rooms, room) == n
    && (forall other :: other != room ==> References(c'.rooms, other) == References(c.rooms, other))
    && (IsOpen(c'.rooms, c.link.socket) ==>
          JoinedOn(c'.rooms, c.link.socket.value) == (set x | x in c'.rooms.references))
  }

  lemma JoinCounts(c: Client, room: string, fails: bool)
    requires Reachable(c)
    ensures Counted(c, Next(c, Join(room, fails)), room, References(c.rooms, room) + 1)
    ensures !fails ==> (IsOpen(Next(c, Join(room, fails)).rooms, c.link.socket) <==> IsOpen(c.rooms, c.link.socket))
  {
    ReachableInv(c);
    JoinRooms(c, room, fails);
  }

  lemma LeaveCounts(c: Client, room: string, fails: bool)
    requires Reachable(c)
    ensures var n := References(c.rooms, room);
      Counted(c, Next(c, Leave(room, fails)), room, if n > 0 then n - 1 else 0)
    ensures !fails ==> (IsOpen(Next(c, Leave(room, fails)).rooms, c.link.socket) <==> IsOpen(c.rooms, c.link.socket))
  {
    ReachableInv(c);
    LeaveRooms(c, room, fails);
  }

  /** Releasing what was joined restores every count. */
  lemma LeaveUndoesJoin(c: Client, room: string, fails: bool, fails': bool)
    requires Reachable(c)
    ensures var t := Next(Next(c, Join(room, fails)), Leave(room, fails')); t.rooms.references == c.rooms.references
  {
    ReachableInv(c);
    JoinedReferences(c.rooms, c.link.socket, room, fails);
    LeftReferences(Joined(c.rooms, c.link.socket, room, fails), c.link.socket, room, fails');
    UpAndDown(c.rooms, room);
  }

  lemma UpAndDown(r: Rooms, room: string)
    requires room in r.references ==> r.references[room] > 0
    ensures var n := References(r, room); var up := r.references[room := n + 1];
      (if n + 1 > 1 then up[room := n] else up - {room}) == r.references
  {
  }

  lemma JoinedReferences(r: Rooms, s: Option<nat>, room: string, fails: bool)
    ensures Joined(r, s, room, fails).references == r.references[room := References(r, room) + 1]
  {
  }

  lemma LeftReferences(r: Rooms, s: Option<nat>, room: string, fails: bool)
    ensures var n := References(r, room);
      Left(r, s, room, fails).references == if n > 1 then r.references[room := n - 1] else r.references - {room}
  {
  }

  /* ---------- messages ---------- */

  function Answer(m: Mail, key: string, connected: bool, fails: bool): seq<Outcome> {
    if !connected then [Failed("not_connected", true)]
    else if key in m.pending then [Failed("duplicate_client_message_id", false)]
    else if fails then [Failed("send_failed", true)]
    else []
  }

  /** One promise more, with this answer; it is pending exactly if it has none, and the others are as they were. */
  ghost predicate Promised(m: Mail, m': Mail, key: string, answer: seq<Outcome>) {
    var p := |m.outcomes|;
    && m'.outcomes == m.outcomes + [answer]
    && (answer == [] <==> key in m'.pending && m'.pending[key].promise == p)
    && (forall k :: k in m.pending ==> k in m'.pending && m'.pending[k] == m.pending[k])
    && (forall k :: k in m'.pending ==> k in m.pending || (k == key && answer == []))
  }

  lemma SentAnswers(m: Mail, key: string, connected: bool, fails: bool)
    requires SettledOnce(m)
    ensures Promised(m, Sent(m, key, connected, fails), key, Answer(m, key, connected, fails))
  {
    assert key in m.pending ==> m.pending[key].promise < |m.outcomes|;
    if connected && key !in m.pending && fails {
      var m' := Sent(m, key, connected, fails);
      assert Queued(m, key).outcomes[|m.outcomes|] == [] && [] + [Failed("send_failed", true)] == [Failed("send_failed", true)];
      assert m'.outcomes == m.outcomes + [[Failed("send_failed", true)]];
      assert m'.pending == m.pending;
    }
  }

  /** The promise handed out: pending exactly when the message went out under a new id, else settled at once. */
  lemma SendAnswers(c: Client, key: string, fails: bool)
    requires Reachable(c)
    ensures var t := Next(c, SendMessage(key, fails));
      && t.link == c.link && t.rooms == c.rooms
      && Promised(c.mail, t.mail, key, Answer(c.mail, key, IsOpen(c.rooms, c.link.socket), fails))
  {
    ReachableInv(c);
    SentAnswers(c.mail, key, IsOpen(c.rooms, c.link.socket), fails);
  }

  /** A deadline rejects its own promise, forgets its own message, and touches nothing else. */
  lemma DeadlineRejects(c: Client, timer: nat)
    requires Reachable(c) && Enabled(c, AckTimeout(timer))
    ensures var t := Next(c, AckTimeout(timer)); var d := c.mail.deadlines[timer];
      && t.link == c.link && t.rooms == c.rooms
      && d.promise < |c.mail.outcomes| && c.mail.outcomes[d.promise] == []
      && t.mail.outcomes == c.mail.outcomes[d.promise := [Failed("ack_timeout", true)]]
      && d.clientMessageId in c.mail.pending && t.mail.pending == c.mail.pending - {d.clientMessageId}
      && t.mail.deadlines == c.mail.deadlines - {timer}
  {
    ReachableInv(c);
    var d := c.mail.deadlines[timer];
    assert c.mail.outcomes[d.promise] == [] && [] + [Failed("ack_timeout", true)] == [Failed("ack_timeout", true)];
  }

  /* ---------- timers and attempts ---------- */

  /** The reconnect timer starts the next attempt, or leaves the client without a lifeline while it may not connect. */
  lemma TimerReconnects(c: Client, timer: nat)
    requires Reachable(c) && Enabled(c, ReconnectTimeout(timer))
    ensures var t := Next(c, ReconnectTimeout(timer));
      && t.mail == c.mail && t.rooms == c.rooms && t.link.timers.Keys == {} && t.link.socket.None? && t.link.reconnectTimer.None?
      && t.link.connectInFlight == (if Wanted(c.link) then Some(c.link.nextId) else None)
      && t.link.reconnectAttempt == c.link.reconnectAttempt
  {
    ReachableInv(c);
  }

  /** What an attempt that failed leaves. */
  predicate FollowedUp(l: Link, l': Link, f: Failure) {
    && l'.connectInFlight.None? && l'.socket.None?
    && (!f.retryable ==> l'.terminal && l'.status == Stopped && Lifelines(l') == 0)
    && (f.retryable ==>
          && l'.reconnectTimer == Some(l.nextId) && l'.reconnectAttempt == l.reconnectAttempt + 1
          && l'.timers == map[l.nextId := if f.httpStatus == 429 && f.retryAfterMs.Some? then f.retryAfterMs.value
                                          else Backoff(l.reconnectAttempt + 1)])
  }

  /**
   The attempt in flight fails: its slot is free, and either the client is rejected or the
   next attempt is due after the server's delay or the next backoff.
   */
  lemma FailureFollowsUp(c: Client, a: nat, f: Failure)
    requires Reachable(c) && Enabled(c, AttemptFails(a, f)) && c.link.connectInFlight == Some(a)
    ensures FollowedUp(c.link, Next(c, AttemptFails(a, f)).link, f)
  {
    ReachableInv(c);
    AttemptFailedIs(c.link, a, f);
    AttemptOverOk(c.link, a);
    NextTry(AttemptOver(c.link, a), f);
  }

  lemma NextTry(l: Link, f: Failure)
    requires Lifelines(l) == 0 && l.enabled && !l.terminal && TimerOwned(l)
    ensures FollowedUp(l, ConnectFailure(l, f), f)
  {
    assert l.timers == map[];
  }

  lemma GenerationKept(l: Link, a: nat, f: Failure)
    requires a in l.attempts
    ensures AttemptFailed(l, a, f).generation == l.generation
    ensures l.attempts[a] != l.generation ==> AttemptFailed(l, a, f) == l.(attempts := l.attempts - {a})
  {
  }

  /** The socket in use closes: every waiting promise is rejected, and a retry is due unless the server said no. */
  lemma CloseFollowsUp(c: Client, s: nat, code: int)
    requires Reachable(c) && Enabled(c, SocketCloses(s, code))
    ensures var t := Next(c, SocketCloses(s, code));
      && (!IsCurrent(c.link, s) ==> t.link == c.link && t.mail == c.mail)
      && (IsCurrent(c.link, s) ==>
            && t.link.socket.None? && AllAnswered(c.mail, t.mail, Failed("connection_closed", code !in {1008, 4001, 4003}))
            && (if code in {1008, 4001, 4003} then t.link.terminal
                else t.link.reconnectTimer.Some? && t.link.timers == map[c.link.nextId := Backoff(c.link.reconnectAttempt + 1)]))
  {
    ReachableInv(c);
    if IsCurrent(c.link, s) {
      DroppedAnswers(c.mail, Failed("connection_closed", !TerminalCode(code)));
      ClosedTries(c.link, s, code);
    }
  }

  lemma ClosedTries(l: Link, s: nat, code: int)
    requires LinkInv(l) && IsCurrent(l, s)
    ensures var l' := HandleClose(l, s, code);
      && l'.socket.None?
      && (if TerminalCode(code) then l'.terminal
          else l'.reconnectTimer.Some? && l'.timers == map[l.nextId := Backoff(l.reconnectAttempt + 1)])
  {
    assert l.timers == map[];
  }

  /* ---------- asking for a new session ---------- */

  /** The server turns the client away: a terminal close of the socket in use, or a refused ticket. */
  predicate TurnedAway(c: Client, step: Step) {
    || (step.SocketCloses? && c.link.socket == Some(step.socket) && step.code in {1008, 4001, 4003})
    || (step.AttemptFails? && c.link.connectInFlight == Some(step.attempt)
        && !step.failure.retryable && step.failure.httpStatus in {401, 403})
  }

  /** A session begins or ends: the client starts or stops, or the socket in use opens. */
  predicate NewSession(c: Client, step: Step) {
    || step.Stop? || (step.Start? && !c.link.enabled)
    || (step.SocketOpens? && c.link.socket == Some(step.socket))
    || (step.AttemptOpens? && step.state == Open && c.link.connectInFlight == Some(step.attempt))
  }

  /** A client that is off has not asked. */
  predicate AskedOn(l: Link) { l.revalidationRequested ==> l.enabled }

  /** The callback runs if and only if the server turns the client away and it was not asked yet in this session. */
  predicate AsksRightly(c: Client, step: Step, l': Link) {
    && l'.revalidations == c.link.revalidations + Count(TurnedAway(c, step) && !c.link.revalidationRequested)
    && l'.revalidationRequested == (TurnedAway(c, step) || (c.link.revalidationRequested && !NewSession(c, step)))
  }

  lemma FailureAsks(c: Client, a: nat, f: Failure)
    requires LinkInv(c.link) && a in c.link.attempts
    ensures AsksRightly(c, AttemptFails(a, f), AttemptFailed(c.link, a, f))
  {
    var l := c.link;
    AttemptFailedIs(l, a, f);
    AttemptOverOk(l, a);
    FailureCounts(AttemptOver(l, a), f);
  }

  lemma FailureCounts(l: Link, f: Failure)
    ensures var l' := ConnectFailure(l, f); var away := !f.retryable && f.httpStatus in {401, 403};
      && l'.revalidations == l.revalidations + Count(away && !l.revalidationRequested)
      && l'.revalidationRequested == (away || l.revalidationRequested)
  {
  }

  lemma CloseAsks(c: Client, s: nat, code: int)
    requires LinkInv(c.link)
    ensures AsksRightly(c, SocketCloses(s, code), HandleClose(c.link, s, code))
  {
  }

  lemma ConnectAsksNot(l: Link)
    ensures Connect(l).revalidations == l.revalidations && Connect(l).revalidationRequested == l.revalidationRequested
    ensures Connect(l).enabled == l.enabled
  {
  }

  lemma OpeningAsksNot(c: Client, step: Step)
    requires LinkInv(c.link) && Enabled(c, step) && (step.AttemptOpens? || step.SocketOpens?)
    ensures AsksRightly(c, step, Next(c, step).link) && Next(c, step).link.enabled == c.link.enabled
  {
  }

  lemma StepAsks(c: Client, step: Step)
    requires LinkInv(c.link) && AskedOn(c.link) && Enabled(c, step)
    ensures AsksRightly(c, step, Next(c, step).link) && AskedOn(Next(c, step).link)
  {
    var l := c.link;
    match step
    case AttemptFails(a, f) => FailureAsks(c, a, f); FailureSignals(l, a, f);
    case SocketCloses(s, code) => CloseAsks(c, s, code); CloseSignals(l, s, code);
    case AttemptOpens(_, _, _) => OpeningAsksNot(c, step);
    case SocketOpens(_, _) => OpeningAsksNot(c, step);
    case Start =>
      ConnectAsksNot(l.(enabled := true, terminal := false, revalidationRequested := false,
                        generation := l.generation + 1, status := Idle, reconnectAttempt := 0));
    case RefreshAuthentication => ConnectAsksNot(Severed(l).(status := Idle));
    case SetVisible(v) => ConnectAsksNot(l.(visible := v));
    case SetOnline(o) => ConnectAsksNot(l.(online := o));
    case ReconnectTimeout(t) => ConnectAsksNot(l.(timers := l.timers - {t}, reconnectTimer := None));
    case _ =>
  }

  lemma {:induction false} RunAsks(c: Client, steps: seq<Step>)
    requires Inv(c) && AskedOn(c.link) && CanRun(c, steps)
    ensures AskedOn(Run(c, steps).link)
    ensures Run(c, steps).link.revalidations == c.link.revalidations + Calls(c, steps, c.link.revalidationRequested)
    decreases |steps|
  {
    if steps != [] {
      StepAsks(c, steps[0]);
      StepInv(c, steps[0]);
      RunAsks(Next(c, steps[0]), steps[1..]);
    }
  }

  /** How often the server turns the client away for the first time in a session. */
  function Calls(c: Client, steps: seq<Step>, asked: bool): nat
    requires CanRun(c, steps)
    decreases |steps|
  {
    if steps == [] then 0
    else
      var away := TurnedAway(c, steps[0]);
      Count(away && !asked) + Calls(Next(c, steps[0]), steps[1..], away || (asked && !NewSession(c, steps[0])))
  }

  lemma InitAsksNot(c: Client)
    requires Init(c)
    ensures AskedOn(c.link)
  {
  }

  lemma ReachableAskedOn(c: Client)
    requires Reachable(c)
    ensures AskedOn(c.link)
  {
    var c0: Client, steps: seq<Step> :| Init(c0) && CanRun(c0, steps) && Run(c0, steps) == c;
    InitialInv(c0);
    InitAsksNot(c0);
    RunAsks(c0, steps);
  }

  /** Over any run the terminal-failure callback runs exactly once for each session in which the server turns the client away. */
  lemma RevalidationsCounted(c: Client, steps: seq<Step>)
    requires Reachable(c) && CanRun(c, steps)
    ensures Run(c, steps).link.revalidations == c.link.revalidations + Calls(c, steps, c.link.revalidationRequested)
  {
    ReachableAskedOn(c);
    ReachableInv(c);
    RunAsks(c, steps);
  }

  /** In every reachable state: what one step makes of the callback. */
  lemma RevalidatesExactly(c: Client, step: Step)
    requires Reachable(c) && Enabled(c, step)
    ensures AsksRightly(c, step, Next(c, step).link)
  {
    ReachableAskedOn(c);
    ReachableInv(c);
    StepAsks(c, step);
  }

  /* ---------- counting attempts ---------- */

  /** The attempts start over: a session begins or ends, its authentication is refreshed, or its socket opens. */
  predicate StartsOver(c: Client, step: Step) { NewSession(c, step) || (step.RefreshAuthentication? && c.link.enabled) }

  /** The connection in use or the attempt in flight is lost and will be tried again. */
  predicate Retries(c: Client, step: Step) {
    || (step.SocketCloses? && c.link.socket == Some(step.socket) && step.code !in {1008, 4001, 4003})
    || (step.AttemptFails? && c.link.connectInFlight == Some(step.attempt) && step.failure.retryable)
  }

  /** A client that is off has no attempts behind it. */
  predicate RestedOff(l: Link) { !l.enabled ==> l.reconnectAttempt == 0 }

  predicate CountsRightly(c: Client, step: Step, l': Link) {
    l'.reconnectAttempt == if StartsOver(c, step) then 0 else c.link.reconnectAttempt + Count(Retries(c, step))
  }

  lemma FailureAttempts(c: Client, a: nat, f: Failure)
    requires LinkInv(c.link) && a in c.link.attempts
    ensures CountsRightly(c, AttemptFails(a, f), AttemptFailed(c.link, a, f))
  {
    AttemptFailedIs(c.link, a, f);
    AttemptOverOk(c.link, a);
  }

  lemma CloseAttempts(c: Client, s: nat, code: int)
    requires LinkInv(c.link)
    ensures CountsRightly(c, SocketCloses(s, code), HandleClose(c.link, s, code))
  {
  }

  lemma ConnectAttempts(l: Link)
    ensures Connect(l).reconnectAttempt == l.reconnectAttempt && Connect(l).enabled == l.enabled
  {
  }

  lemma OpeningAttempts(c: Client, step: Step)
    requires LinkInv(c.link) && Enabled(c, step) && (step.AttemptOpens? || step.SocketOpens?)
    ensures CountsRightly(c, step, Next(c, step).link) && Next(c, step).link.enabled == c.link.enabled
  {
  }

  lemma StepAttempts(c: Client, step: Step)
    requires LinkInv(c.link) && RestedOff(c.link) && Enabled(c, step)
    ensures CountsRightly(c, step, Next(c, step).link) && RestedOff(Next(c, step).link)
  {
    var l := c.link;
    match step
    case AttemptFails(a, f) => FailureAttempts(c, a, f); FailureSignals(l, a, f); AttemptOverOk(l, a);
    case SocketCloses(s, code) => CloseAttempts(c, s, code); CloseSignals(l, s, code);
    case AttemptOpens(_, _, _) => OpeningAttempts(c, step);
    case SocketOpens(_, _) => OpeningAttempts(c, step);
    case Start =>
      ConnectAttempts(l.(enabled := true, terminal := false, revalidationRequested := false,
                         generation := l.generation + 1, status := Idle, reconnectAttempt := 0));
    case RefreshAuthentication => ConnectAttempts(Severed(l).(status := Idle));
    case SetVisible(v) => ConnectAttempts(l.(visible := v));
    case SetOnline(o) => ConnectAttempts(l.(online := o));
    case ReconnectTimeout(t) => ConnectAttempts(l.(timers := l.timers - {t}, reconnectTimer := None));
    case _ =>
  }

  lemma {:induction false} RunAttempts(c: Client, steps: seq<Step>)
    requires Inv(c) && RestedOff(c.link) && CanRun(c, steps)
    ensures RestedOff(Run(c, steps).link)
    decreases |steps|
  {
    if steps != [] {
      StepAttempts(c, steps[0]);
      StepInv(c, steps[0]);
      RunAttempts(Next(c, steps[0]), steps[1..]);
    }
  }

  lemma InitRestedOff(c: Client)
    requires Init(c)
    ensures RestedOff(c.link)
  {
  }

  /** In every reachable state: the attempts in a row are those lost since the client last started over. */
  lemma AttemptsCounted(c: Client, step: Step)
    requires Reachable(c) && Enabled(c, step)
    ensures CountsRightly(c, step, Next(c, step).link)
  {
    var c0: Client, steps: seq<Step> :| Init(c0) && CanRun(c0, steps) && Run(c0, steps) == c;
    InitialInv(c0);
    InitRestedOff(c0);
    RunAttempts(c0, steps);
    ReachableInv(c);
    StepAttempts(c, step);
  }

  /* ---------- what is said once ---------- */

  /** Only the first reference to a room and the release of the last one are sent; a failing send closes the socket. */
  lemma FirstAndLastAreSent(c: Client, room: string, fails: bool)
    requires IsOpen(c.rooms, c.link.socket)
    ensures var r, j := c.rooms, Next(c, Join(room, fails)).rooms;
      if References(r, room) > 0 then j.ready == r.ready && j.joined == r.joined
      else if fails then !IsOpen(j, c.link.socket) && j.joined == r.joined
      else j.ready == r.ready && JoinedOn(j, c.link.socket.value) == JoinedOn(r, c.link.socket.value) + {room}
    ensures var r, l := c.rooms, Next(c, Leave(room, fails)).rooms;
      if References(r, room) > 1 then l.ready == r.ready && l.joined == r.joined
      else if fails then !IsOpen(l, c.link.socket) && l.joined == r.joined
      else l.ready == r.ready && JoinedOn(l, c.link.socket.value) == JoinedOn(r, c.link.socket.value) - {room}
  {
  }

  /** Stopping a client that is off, and starting one that is on, changes nothing of the connection. */
  lemma RepeatsAreNothing(c: Client)
    requires Reachable(c)
    ensures !c.link.enabled ==> Next(c, Stop).link == c.link && Next(c, Stop).mail.outcomes == c.mail.outcomes
    ensures c.link.enabled ==> Next(c, Start) == c
    ensures !c.link.enabled ==> Next(c, RefreshAuthentication) == c
  {
    ReachableInv(c);
    assert !c.link.enabled ==> c.mail.pending.Keys == {};
  }
}
