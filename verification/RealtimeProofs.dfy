/** What holds of the realtime client after every sequence of calls and callbacks. */
module RealtimeProofs {
  import opened Wrappers
  import opened RealtimeMachine

  /* ---------- invariant of the connection ---------- */

  function Count(b: bool): nat { if b then 1 else 0 }

  /** How many of socket, attempt in flight and reconnect timer there are. */
  function Lifelines(l: Link): nat {
    Count(l.socket.Some?) + Count(l.connectInFlight.Some?) + Count(l.reconnectTimer.Some?)
  }

  ghost predicate AtMostOneLifeline(l: Link) {
    && Lifelines(l) <= 1
    && (!l.enabled || l.terminal ==> Lifelines(l) == 0)
    && (!l.enabled ==> l.status == Stopped)
  }

  /** The attempt in flight is the one attempt of the current generation. */
  ghost predicate SlotOwned(l: Link) {
    && (l.connectInFlight.Some? ==> l.connectInFlight.value in l.attempts)
    && (forall a :: a in l.attempts ==> l.attempts[a] <= l.generation && a < l.nextId)
    && (forall a :: a in l.attempts ==> (l.attempts[a] == l.generation <==> l.connectInFlight == Some(a)))
  }

  /** The armed reconnect timers are just the one the client knows of. */
  ghost predicate TimerOwned(l: Link) {
    && (forall t :: t in l.timers <==> l.reconnectTimer == Some(t))
    && (l.reconnectTimer.Some? ==> l.reconnectTimer.value < l.nextId)
  }

  ghost predicate SocketOwned(l: Link) {
    && (forall s :: s in l.listeners ==> s < l.nextId)
    && (l.socket.Some? ==> l.socket.value in l.listeners && l.listeners[l.socket.value] == l.generation)
  }

  ghost predicate LinkOk(l: Link) {
    AtMostOneLifeline(l) && SlotOwned(l) && TimerOwned(l) && SocketOwned(l)
  }

  ghost predicate LinkInv(l: Link) {
    LinkOk(l) && (Wanted(l) ==> Lifelines(l) == 1)
  }

  /* ---------- invariant of the messages ---------- */

  /** A promise still awaited has no settlement; every other has exactly one. */
  ghost predicate SettledOnce(m: Mail) {
    && (forall k :: k in m.pending ==> m.pending[k].promise < |m.outcomes| && m.outcomes[m.pending[k].promise] == [])
    && (forall p :: 0 <= p < |m.outcomes| ==> |m.outcomes[p]| == 1 || Awaited(m.pending, m.pending.Keys, p))
  }

  ghost predicate PromisesDistinct(pending: map<string, Pending>) {
    forall k, j :: k in pending && j in pending && k != j ==>
      pending[k].promise != pending[j].promise && pending[k].timer != pending[j].timer
  }

  /** The armed deadlines are those of the pending messages. */
  ghost predicate DeadlinesOwned(m: Mail) {
    && (forall k :: k in m.pending ==> m.pending[k].timer in m.deadlines)
    && (forall t :: t in m.deadlines ==>
          && t < m.nextTimer && m.deadlines[t].clientMessageId in m.pending
          && m.pending[m.deadlines[t].clientMessageId] == Pending(m.deadlines[t].promise, t))
  }

  ghost predicate MailInv(m: Mail) {
    SettledOnce(m) && PromisesDistinct(m.pending) && DeadlinesOwned(m)
  }

  /* ---------- invariant of the rooms ---------- */

  /** On an open socket in use, the server has the user in exactly the referenced rooms. */
  ghost predicate InStep(r: Rooms, s: Option<nat>) {
    IsOpen(r, s) ==> JoinedOn(r, s.value) == r.references.Keys
  }

  ghost predicate RoomsInv(c: Client) {
    && InStep(c.rooms, c.link.socket)
    && (c.link.socket.Some? ==> c.link.socket.value in c.rooms.ready)
    && (forall s :: s in c.rooms.joined || s in c.rooms.ready ==> s < c.link.nextId)
    && (c.link.socket.Some? && c.rooms.ready[c.link.socket.value] == Opening ==> JoinedOn(c.rooms, c.link.socket.value) == {})
    && (forall room :: room in c.rooms.references ==> c.rooms.references[room] > 0)
  }

  ghost predicate Inv(c: Client) {
    && LinkInv(c.link) && MailInv(c.mail) && RoomsInv(c)
    && (c.mail.pending.Keys != {} ==> c.link.socket.Some?)
  }

  /* ---------- the connection ---------- */

  /** Wherever the guards allow, connecting restores the lifeline. */
  lemma ConnectRestores(l: Link)
    requires LinkOk(l)
    ensures LinkInv(Connect(l))
  {
  }

  lemma SeveredOk(l: Link)
    requires LinkOk(l) && l.enabled
    ensures LinkOk(Severed(l)) && Lifelines(Severed(l)) == 0
  {
  }

  /** The attempt is over and, if it is the one in flight, so is its slot. */
  function AttemptOver(l: Link, a: nat): Link
    requires a in l.attempts
  {
    SlotCleared(l.(attempts := l.attempts - {a}), l.attempts[a])
  }

  lemma AttemptOverOk(l: Link, a: nat)
    requires LinkInv(l) && a in l.attempts
    ensures LinkOk(AttemptOver(l, a))
    ensures l.attempts[a] == l.generation ==> l.enabled && !l.terminal && Lifelines(AttemptOver(l, a)) == 0
    ensures l.attempts[a] != l.generation ==> LinkInv(AttemptOver(l, a))
  {
    if l.attempts[a] == l.generation { assert l.connectInFlight == Some(a); }
  }

  lemma ScheduleInv(l: Link, delay: Option<int>)
    requires LinkOk(l) && Lifelines(l) == 0 && l.enabled && !l.terminal
    ensures LinkInv(ScheduleReconnect(l, delay))
  {
  }

  lemma RejectedInv(l: Link)
    requires LinkOk(l) && Lifelines(l) == 0 && l.enabled
    ensures LinkInv(Rejected(l)) && LinkInv(RequestRevalidation(Rejected(l)))
  {
  }

  lemma ConnectFailureInv(l: Link, f: Failure)
    requires LinkOk(l) && Lifelines(l) == 0 && l.enabled && !l.terminal
    ensures LinkInv(ConnectFailure(l, f))
  {
    RejectedInv(l);
    ScheduleInv(l, if f.httpStatus == 429 then f.retryAfterMs else None);
  }

  lemma ScheduleIgnoresSlot(l: Link, l': Link, delay: Option<int>)
    requires l' == l.(connectInFlight := None)
    ensures ScheduleReconnect(l, delay).generation == l.generation
    ensures ScheduleReconnect(l', delay) == ScheduleReconnect(l, delay).(connectInFlight := None)
  {
    if l.enabled && !l.terminal {
      var n := l.reconnectAttempt + 1;
      assert l'.reconnectAttempt + 1 == n;
      var d := if delay.Some? then delay.value else Backoff(n);
      assert ScheduleReconnect(l', delay).timers == l.timers[l.nextId := d];
    }
  }

  lemma FailureIgnoresSlot(l: Link, l': Link, f: Failure)
    requires l' == l.(connectInFlight := None)
    ensures ConnectFailure(l, f).generation == l.generation
    ensures ConnectFailure(l', f) == ConnectFailure(l, f).(connectInFlight := None)
  {
    if f.retryable { ScheduleIgnoresSlot(l, l', if f.httpStatus == 429 then f.retryAfterMs else None); }
  }

  /** The failure is handled as if the attempt were already off the books. */
  lemma AttemptFailedIs(l: Link, a: nat, f: Failure)
    requires a in l.attempts
    ensures AttemptFailed(l, a, f) ==
            if Fresh(l, l.attempts[a]) then ConnectFailure(AttemptOver(l, a), f) else AttemptOver(l, a)
  {
    var l1 := l.(attempts := l.attempts - {a});
    FailureIgnoresSlot(l1, l1.(connectInFlight := None), f);
  }

  lemma AttemptFailedInv(l: Link, a: nat, f: Failure)
    requires LinkInv(l) && a in l.attempts
    ensures LinkInv(AttemptFailed(l, a, f))
  {
    AttemptFailedIs(l, a, f);
    AttemptOverOk(l, a);
    if l.attempts[a] == l.generation { ConnectFailureInv(AttemptOver(l, a), f); }
  }

  function WithSocket(l: Link): Link {
    l.(socket := Some(l.nextId), listeners := l.listeners[l.nextId := l.generation], nextId := l.nextId + 1)
  }

  lemma WithSocketInv(l: Link)
    requires LinkOk(l) && Lifelines(l) == 0 && l.enabled && !l.terminal
    ensures LinkInv(WithSocket(l))
  {
  }

  lemma SpareIdInv(l: Link)
    requires LinkInv(l)
    ensures LinkInv(l.(nextId := l.nextId + 1))
  {
  }

  lemma AttemptOpenedIs(l: Link, a: nat)
    requires a in l.attempts
    ensures AttemptOpened(l, a) ==
            var o := AttemptOver(l, a);
            if Fresh(l, l.attempts[a]) then WithSocket(o) else o.(nextId := o.nextId + 1)
  {
  }

  lemma AttemptOpenedInv(l: Link, a: nat)
    requires LinkInv(l) && a in l.attempts
    ensures LinkInv(AttemptOpened(l, a))
  {
    AttemptOpenedIs(l, a);
    AttemptOverOk(l, a);
    if l.attempts[a] == l.generation { WithSocketInv(AttemptOver(l, a)); } else { SpareIdInv(AttemptOver(l, a)); }
  }

  lemma HandleCloseInv(l: Link, s: nat, code: int)
    requires LinkInv(l)
    ensures LinkInv(HandleClose(l, s, code))
  {
    if IsCurrent(l, s) {
      var o := l.(socket := None);
      assert LinkOk(o) && Lifelines(o) == 0;
      RejectedInv(o);
      ScheduleInv(o, None);
    }
  }

  lemma EntryLink(c: Client, step: Step)
    requires LinkInv(c.link) && Enabled(c, step)
    requires step.Start? || step.Stop? || step.RefreshAuthentication?
    ensures LinkInv(Next(c, step).link)
  {
    var l := c.link;
    match step
    case Start =>
      if !l.enabled {
        ConnectRestores(l.(enabled := true, terminal := false, revalidationRequested := false,
                           generation := l.generation + 1, status := Idle, reconnectAttempt := 0));
      }
    case Stop => if l.enabled { SeveredOk(l); }
    case RefreshAuthentication =>
      if l.enabled {
        SeveredOk(l);
        ConnectRestores(Severed(l).(status := Idle));
      }
  }

  lemma SignalLink(c: Client, step: Step)
    requires LinkInv(c.link) && Enabled(c, step)
    requires step.SetVisible? || step.SetOnline? || step.ReconnectTimeout?
    ensures LinkInv(Next(c, step).link)
  {
    var l := c.link;
    match step
    case SetVisible(v) => ConnectRestores(l.(visible := v));
    case SetOnline(o) => ConnectRestores(l.(online := o));
    case ReconnectTimeout(t) => ConnectRestores(l.(timers := l.timers - {t}, reconnectTimer := None));
  }

  lemma StepLink(c: Client, step: Step)
    requires LinkInv(c.link) && Enabled(c, step)
    ensures LinkInv(Next(c, step).link)
  {
    match step
    case Start => EntryLink(c, step);
    case Stop => EntryLink(c, step);
    case RefreshAuthentication => EntryLink(c, step);
    case SetVisible(_) => SignalLink(c, step);
    case SetOnline(_) => SignalLink(c, step);
    case ReconnectTimeout(_) => SignalLink(c, step);
    case AttemptFails(a, f) => AttemptFailedInv(c.link, a, f);
    case AttemptOpens(a, _, _) => AttemptOpenedInv(c.link, a);
    case SocketCloses(s, code) => HandleCloseInv(c.link, s, code);
    case _ =>
  }

  /* ---------- the messages ---------- */

  lemma AwaitedStill(pending: map<string, Pending>, pending': map<string, Pending>, p: nat)
    requires Awaited(pending, pending.Keys, p)
    requires forall k :: k in pending && pending[k].promise == p ==> k in pending' && pending'[k] == pending[k]
    ensures Awaited(pending', pending'.Keys, p)
  {
    var k :| k in pending && pending[k].promise == p;
    assert k in pending';
  }

  lemma SettledSettlesOnce(m: Mail, key: string, o: Outcome, m': Mail)
    requires SettledOnce(m) && PromisesDistinct(m.pending) && key in m.pending && m' == Settled(m, key, o)
    ensures SettledOnce(m')
  {
    forall p | 0 <= p < |m.outcomes| && p != m.pending[key].promise && Awaited(m.pending, m.pending.Keys, p)
      ensures Awaited(m'.pending, m'.pending.Keys, p)
    {
      AwaitedStill(m.pending, m'.pending, p);
    }
  }

  lemma SettledDeadlines(m: Mail, key: string, o: Outcome, m': Mail)
    requires DeadlinesOwned(m) && PromisesDistinct(m.pending) && key in m.pending && m' == Settled(m, key, o)
    ensures DeadlinesOwned(m')
  {
  }

  lemma SettledMail(m: Mail, key: string, o: Outcome)
    requires MailInv(m)
    ensures MailInv(Settled(m, key, o))
  {
    if key in m.pending {
      SettledSettlesOnce(m, key, o, Settled(m, key, o));
      SettledDeadlines(m, key, o, Settled(m, key, o));
    }
  }

  lemma QueuedSettlesOnce(m: Mail, key: string, m': Mail)
    requires SettledOnce(m) && key !in m.pending && m' == Queued(m, key)
    ensures SettledOnce(m')
  {
    forall p | 0 <= p < |m.outcomes| && Awaited(m.pending, m.pending.Keys, p)
      ensures Awaited(m'.pending, m'.pending.Keys, p)
    {
      AwaitedStill(m.pending, m'.pending, p);
    }
    assert key in m'.pending && m'.pending[key].promise == |m.outcomes|;
  }

  lemma QueuedDeadlines(m: Mail, key: string, m': Mail)
    requires MailInv(m) && key !in m.pending && m' == Queued(m, key)
    ensures DeadlinesOwned(m')
  {
  }

  lemma QueuedDistinct(m: Mail, key: string, m': Mail)
    requires MailInv(m) && key !in m.pending && m' == Queued(m, key)
    ensures PromisesDistinct(m'.pending)
  {
  }

  lemma QueuedMail(m: Mail, key: string)
    requires MailInv(m) && key !in m.pending
    ensures MailInv(Queued(m, key))
  {
    QueuedSettlesOnce(m, key, Queued(m, key));
    QueuedDeadlines(m, key, Queued(m, key));
    QueuedDistinct(m, key, Queued(m, key));
  }

  lemma DroppedMail(m: Mail, o: Outcome)
    requires MailInv(m)
    ensures MailInv(Dropped(m, o)) && Dropped(m, o).pending.Keys == {}
  {
    var m' := Dropped(m, o);
    forall p | 0 <= p < |m.outcomes| ensures |m'.outcomes[p]| == 1 {
      if Awaited(m.pending, m.pending.Keys, p) {
        var k :| k in m.pending && m.pending[k].promise == p;
        assert m.outcomes[p] == [];
      }
    }
  }

  lemma TimedOutIsSettled(m: Mail, t: nat)
    requires MailInv(m) && t in m.deadlines
    ensures TimedOut(m, t) == Settled(m, m.deadlines[t].clientMessageId, Failed("ack_timeout", true))
  {
  }

  lemma StepMail(c: Client, step: Step)
    requires MailInv(c.mail) && Enabled(c, step)
    ensures MailInv(Next(c, step).mail)
  {
    match step
    case SendMessage(key, fails) => SentMail(c.mail, key, IsOpen(c.rooms, c.link.socket), fails);
    case Acknowledge(key, o) => SettledMail(c.mail, key, o);
    case AckTimeout(t) =>
      TimedOutIsSettled(c.mail, t);
      SettledMail(c.mail, c.mail.deadlines[t].clientMessageId, Failed("ack_timeout", true));
    case Stop => DroppedMail(c.mail, Failed("session_ended", false));
    case RefreshAuthentication => DroppedMail(c.mail, Failed("auth_refreshed", true));
    case SocketCloses(s, code) => DroppedMail(c.mail, Failed("connection_closed", !TerminalCode(code)));
    case _ =>
  }

  lemma RejectedNowMail(m: Mail, o: Outcome)
    requires MailInv(m)
    ensures MailInv(RejectedNow(m, o))
  {
  }

  lemma SentMail(m: Mail, key: string, connected: bool, fails: bool)
    requires MailInv(m)
    ensures MailInv(Sent(m, key, connected, fails))
  {
    if !connected {
      RejectedNowMail(m, Failed("not_connected", true));
    } else if key in m.pending {
      RejectedNowMail(m, Failed("duplicate_client_message_id", false));
    } else {
      QueuedMail(m, key);
      SettledMail(Queued(m, key), key, Failed("send_failed", true));
    }
  }

  /* ---------- the rooms ---------- */

  /** The socket in use stays, or there is none any more; names drawn later are higher. */
  predicate SocketStays(l: Link, l': Link) {
    (l'.socket == l.socket || l'.socket.None?) && l.nextId <= l'.nextId
  }

  lemma RoomsKept(c: Client, l': Link)
    requires RoomsInv(c) && SocketStays(c.link, l')
    ensures RoomsInv(c.(link := l'))
  {
  }

  lemma ClosedRooms(c: Client, s: nat)
    requires RoomsInv(c) && s < c.link.nextId
    ensures RoomsInv(c.(rooms := SocketIs(c.rooms, Some(s), Closed)))
  {
  }

  lemma ForgottenRooms(c: Client)
    requires RoomsInv(c) && !IsOpen(c.rooms, c.link.socket)
    ensures RoomsInv(c.(rooms := c.rooms.(references := map[])))
  {
  }

  lemma OpenedRooms(c: Client, s: nat, cut: Option<set<string>>)
    requires RoomsInv(c) && SocketOwned(c.link) && s in c.rooms.ready && c.rooms.ready[s] == Opening && CutOk(c, cut)
    ensures RoomsInv(Opened(c.(rooms := SocketIs(c.rooms, Some(s), Open)), s, cut))
  {
  }

  lemma JoinRooms(c: Client, room: string, fails: bool)
    requires RoomsInv(c)
    ensures RoomsInv(c.(rooms := Joined(c.rooms, c.link.socket, room, fails)))
  {
  }

  lemma LeaveRooms(c: Client, room: string, fails: bool)
    requires RoomsInv(c)
    ensures RoomsInv(c.(rooms := Left(c.rooms, c.link.socket, room, fails)))
  {
  }

  lemma FailureSocket(l: Link, a: nat, f: Failure)
    requires a in l.attempts
    ensures SocketStays(l, AttemptFailed(l, a, f))
  {
  }

  lemma CloseSocket(l: Link, s: nat, code: int)
    ensures SocketStays(l, HandleClose(l, s, code))
  {
  }

  lemma ConnectSocket(l: Link)
    ensures SocketStays(l, Connect(l))
  {
  }

  lemma LinkStepSocket(c: Client, step: Step)
    requires Enabled(c, step) && !step.AttemptOpens?
    ensures SocketStays(c.link, Next(c, step).link)
  {
    match step
    case AttemptFails(a, f) => FailureSocket(c.link, a, f);
    case SocketCloses(s, code) => CloseSocket(c.link, s, code);
    case RefreshAuthentication => ConnectSocket(Severed(c.link).(status := Idle));
    case SetVisible(v) => ConnectSocket(c.link.(visible := v));
    case SetOnline(o) => ConnectSocket(c.link.(online := o));
    case ReconnectTimeout(t) => ConnectSocket(c.link.(timers := c.link.timers - {t}, reconnectTimer := None));
    case _ =>
  }

  /** A new socket that is still opening, or already closed, has no rooms. */
  lemma InstalledRooms(c: Client, l': Link, s: nat, state: ReadyState)
    requires RoomsInv(c) && s == c.link.nextId && l'.nextId == s + 1
    requires l'.socket == c.link.socket || l'.socket == Some(s)
    requires l'.socket == Some(s) ==> state != Open
    ensures RoomsInv(c.(link := l', rooms := SocketIs(c.rooms, Some(s), state)))
  {
  }

  lemma AttemptOpensRooms(c: Client, step: Step)
    requires Inv(c) && Enabled(c, step) && step.AttemptOpens?
    ensures RoomsInv(Next(c, step))
  {
    var l', s := AttemptOpened(c.link, step.attempt), c.link.nextId;
    AttemptOpenedInv(c.link, step.attempt);
    if !Fresh(c.link, c.link.attempts[step.attempt]) {
      InstalledRooms(c, l', s, Closed);
    } else if step.state == Open {
      InstalledRooms(c, l', s, Opening);
      OpenedRooms(c.(link := l', rooms := SocketIs(c.rooms, Some(s), Opening)), s, step.cut);
      assert SocketIs(SocketIs(c.rooms, Some(s), Opening), Some(s), Open) == SocketIs(c.rooms, Some(s), Open);
    } else {
      InstalledRooms(c, l', s, step.state);
    }
  }

  lemma StopRooms(c: Client)
    requires Inv(c)
    ensures RoomsInv(Next(c, Stop))
  {
    var l' := Next(c, Stop).link;
    LinkStepSocket(c, Stop);
    RoomsKept(c, l');
    ForgottenRooms(c.(link := l'));
    if c.link.socket.Some? { ClosedRooms(c.(link := l', rooms := c.rooms.(references := map[])), c.link.socket.value); }
  }

  lemma StepRooms(c: Client, step: Step)
    requires Inv(c) && Enabled(c, step)
    ensures RoomsInv(Next(c, step))
  {
    match step
    case AttemptOpens(_, _, _) => AttemptOpensRooms(c, step);
    case Join(room, fails) => JoinRooms(c, room, fails);
    case Leave(room, fails) => LeaveRooms(c, room, fails);
    case Stop => StopRooms(c);
    case SocketOpens(s, cut) => OpenedRooms(c, s, cut);
    case SocketCloses(s, _) =>
      LinkStepSocket(c, step);
      RoomsKept(c, Next(c, step).link);
      ClosedRooms(c.(link := Next(c, step).link), s);
    case RefreshAuthentication =>
      LinkStepSocket(c, step);
      RoomsKept(c, Next(c, step).link);
      if c.link.socket.Some? { ClosedRooms(c.(link := Next(c, step).link), c.link.socket.value); }
    case _ =>
      LinkStepSocket(c, step);
      RoomsKept(c, Next(c, step).link);
  }

  lemma StepPending(c: Client, step: Step)
    requires Inv(c) && Enabled(c, step)
    ensures Next(c, step).mail.pending.Keys != {} ==> Next(c, step).link.socket.Some?
  {
  }

  lemma InitialInv(c: Client)
    requires Init(c)
    ensures Inv(c)
  {
    InitialLink(c.link);
    InitialMail(c.mail);
    InitialRooms(c);
  }

  lemma InitialRooms(c: Client)
    requires c.link.socket.None? && c.rooms == Rooms(map[], map[], map[])
    ensures RoomsInv(c)
  {
  }

  lemma InitialLink(l: Link)
    requires !l.enabled && l.status == Stopped && Lifelines(l) == 0
    requires l.attempts == map[] && l.timers == map[] && l.listeners == map[]
    ensures LinkInv(l)
  {
  }

  lemma InitialMail(m: Mail)
    requires m.pending == map[] && m.deadlines == map[] && m.outcomes == []
    ensures MailInv(m) && m.pending.Keys == {}
  {
  }

  lemma StepInv(c: Client, step: Step)
    requires Inv(c) && Enabled(c, step)
    ensures Inv(Next(c, step))
  {
    StepLink(c, step);
    StepMail(c, step);
    StepRooms(c, step);
    StepPending(c, step);
  }

  lemma {:induction false} RunInv(c: Client, steps: seq<Step>)
    requires Inv(c) && CanRun(c, steps)
    ensures Inv(Run(c, steps))
    decreases |steps|
  {
    if steps != [] {
      StepInv(c, steps[0]);
      RunInv(Next(c, steps[0]), steps[1..]);
    }
  }

  lemma ReachableInv(c: Client)
    requires Reachable(c)
    ensures Inv(c)
  {
    var c0: Client, steps: seq<Step> :| Init(c0) && CanRun(c0, steps) && Run(c0, steps) == c;
    InitialInv(c0);
    RunInv(c0, steps);
  }
}
