/** The client object: the same machine as fields that its methods and callbacks update in place. */
module RealtimeObject {
  import opened Wrappers
  import opened RealtimeMachine
  import Spec = RealtimeMachine
  import opened RealtimeProofs
  import opened RealtimeEffects
  import opened RealtimeTheorems

  lemma MinusOneMore<K, V>(m: map<K, V>, ks: set<K>, k: K)
    ensures m - ks - {k} == m - (ks + {k})
  {
  }

  lemma TimersOneMore(pending: map<string, Pending>, done: set<string>, k: string)
    requires k in pending
    ensures TimersOf(pending, done + {k}) == TimersOf(pending, done) + {pending[k].timer}
  {
  }

  lemma OutcomesOneMore(m: Mail, done: set<string>, k: string, o: Outcome)
    requires PromisesDistinct(m.pending) && k in m.pending && k !in done && done <= m.pending.Keys
    ensures Recorded(AllSettled(m, done, o).outcomes, m.pending[k].promise, o) == AllSettled(m, done + {k}, o).outcomes
  {
    AwaitedOneMore(m, done, k);
  }

  /** Settling one more of the pending messages. */
  lemma OneMoreSettled(m: Mail, done: set<string>, k: string, o: Outcome)
    requires PromisesDistinct(m.pending) && k in m.pending && k !in done && done <= m.pending.Keys
    ensures Settled(AllSettled(m, done, o), k, o) == AllSettled(m, done + {k}, o)
  {
    MinusOneMore(m.pending, done, k);
    TimersOneMore(m.pending, done, k);
    MinusOneMore(m.deadlines, TimersOf(m.pending, done), m.pending[k].timer);
    OutcomesOneMore(m, done, k, o);
    assert (m.pending - done)[k] == m.pending[k];
  }

  lemma AwaitedOneMore(m: Mail, done: set<string>, k: string)
    requires PromisesDistinct(m.pending) && k in m.pending && k !in done && done <= m.pending.Keys
    ensures !Awaited(m.pending, done, m.pending[k].promise)
    ensures forall p :: Awaited(m.pending, done + {k}, p) <==> Awaited(m.pending, done, p) || p == m.pending[k].promise
  {
    assert Awaited(m.pending, done + {k}, m.pending[k].promise);
  }

  lemma NoneSettled(m: Mail, o: Outcome)
    ensures AllSettled(m, {}, o) == m
  {
    assert TimersOf(m.pending, {}) == {};
    assert m.deadlines - {} == m.deadlines && m.pending - {} == m.pending;
    assert AllSettled(m, {}, o).outcomes == m.outcomes;
  }

  /** A step from a reachable state leads to one, with a lifeline wherever the client is wanted. */
  lemma Stepped(c: Client, step: Step)
    requires Reachable(c) && Enabled(c, step)
    ensures Reachable(Next(c, step))
    ensures Wanted(Next(c, step).link) ==> Lifelines(Next(c, step).link) == 1
  {
    ReachableStep(c, step);
    NoLostWakeup(Next(c, step));
  }

  function SlotFreed(c: Client): Client { c.(link := c.link.(connectInFlight := None)) }

  function WithSocketIn(c: Client, s: nat, state: ReadyState): Client {
    c.(link := c.link.(socket := Some(s), listeners := c.link.listeners[s := c.link.generation]),
       rooms := SocketIs(c.rooms, Some(s), state))
  }

  /** The attempt is over and the next name is the new socket's. */
  function AttemptTaken(c: Client, a: nat): Client {
    c.(link := c.link.(attempts := c.link.attempts - {a}, nextId := c.link.nextId + 1))
  }

  lemma InstalledFresh(c: Client, a: nat, state: ReadyState, cut: Option<set<string>>)
    requires a in c.link.attempts && Fresh(c.link, c.link.attempts[a])
    ensures var s := c.link.nextId; var c1 := SlotFreed(WithSocketIn(AttemptTaken(c, a), s, state));
      Installed(c, a, state, cut) == if state == Open then Opened(c1, s, cut) else c1
  {
  }

  lemma InstalledStale(c: Client, a: nat, state: ReadyState, cut: Option<set<string>>)
    requires a in c.link.attempts && !Fresh(c.link, c.link.attempts[a])
    ensures var c1 := AttemptTaken(c, a).(rooms := SocketIs(c.rooms, Some(c.link.nextId), Closed));
      Installed(c, a, state, cut) == if c.link.attempts[a] == c.link.generation then SlotFreed(c1) else c1
  {
  }

  lemma OpenedGeneration(c: Client, s: nat, cut: Option<set<string>>)
    ensures Opened(c, s, cut).link.generation == c.link.generation
  {
  }

  /** It makes no difference whether the slot is freed before or after the open handler. */
  lemma OpenedThenFreed(c: Client, s: nat, cut: Option<set<string>>)
    ensures SlotFreed(Opened(c, s, cut)) == Opened(SlotFreed(c), s, cut)
  {
  }

  /**
   `link`, `mail` and `rooms` group the object's fields with what they stand for outside it:
   the attempts and timers under way, the promises handed out and the sockets.
   */
  class RealtimeClient {
    var link: Link
    var mail: Mail
    var rooms: Rooms

    ghost function View(): Client
      reads this
    {
      Client(link, mail, rooms)
    }

    /** The object is in a state that calls and callbacks lead to, so the theorems about such states hold of it. */
    ghost predicate Valid()
      reads this
    {
      Reachable(View())
    }

    constructor ()
      ensures Valid() && Init(View())
    {
      link := Link(None, None, None, false, false, false, true, true, 0, Stopped, 0, map[], map[], map[], 0, 0);
      mail := Mail(map[], map[], 0, []);
      rooms := Rooms(map[], map[], map[]);
      new;
      ReachableInit(View());
    }

    /* ---------- what the methods share ---------- */

    method ClearReconnectTimer()
      modifies this`link
      ensures link == WithoutTimer(old(link))
    {
      if link.reconnectTimer.Some? {
        link := link.(timers := link.timers - {link.reconnectTimer.value});
        link := link.(reconnectTimer := None);
      }
    }

    /** Up to the point where the attempt awaits its socket. */
    method Connect()
      modifies this`link
      ensures link == Spec.Connect(old(link))
    {
      if !link.enabled || link.terminal || !link.visible || !link.online || link.socket.Some? || link.connectInFlight.Some? {
        return;
      }
      var generation, attempt := link.generation, link.nextId;
      ClearReconnectTimer();
      link := link.(status := Connecting);
      link := link.(attempts := link.attempts[attempt := generation], nextId := attempt + 1);
      link := link.(connectInFlight := Some(attempt));
    }

    method ConnectIfWaiting()
      modifies this`link
      ensures link == Spec.ConnectIfWaiting(old(link))
    {
      if link.enabled && !link.terminal && link.visible && link.online
         && link.socket.None? && link.connectInFlight.None? && link.reconnectTimer.None?
      {
        Connect();
      }
    }

    method ScheduleReconnect(delayOverride: Option<int>)
      modifies this`link
      ensures link == Spec.ScheduleReconnect(old(link), delayOverride)
    {
      if !link.enabled || link.terminal { return; }
      var nextAttempt, timer := link.reconnectAttempt + 1, link.nextId;
      var delay := if delayOverride.Some? then delayOverride.value else Backoff(nextAttempt);
      link := link.(status := Waiting, reconnectAttempt := nextAttempt);
      link := link.(timers := link.timers[timer := delay], nextId := timer + 1);
      link := link.(reconnectTimer := Some(timer));
    }

    method RequestRevalidation()
      modifies this`link
      ensures link == Spec.RequestRevalidation(old(link))
    {
      if link.revalidationRequested { return; }
      link := link.(revalidationRequested := true);
      link := link.(revalidations := link.revalidations + 1);
    }

    method SettleMessage(clientMessageId: string, outcome: Outcome)
      modifies this`mail
      ensures mail == Settled(old(mail), clientMessageId, outcome)
    {
      if clientMessageId !in mail.pending { return; }
      var pending := mail.pending[clientMessageId];
      mail := mail.(pending := mail.pending - {clientMessageId});
      mail := mail.(deadlines := mail.deadlines - {pending.timer});
      mail := mail.(outcomes := Recorded(mail.outcomes, pending.promise, outcome));
    }

    method RejectPending(outcome: Outcome)
      requires PromisesDistinct(mail.pending)
      modifies this`mail
      ensures mail == Dropped(old(mail), outcome)
    {
      ghost var m, done := mail, {};
      var left := mail.pending.Keys;
      NoneSettled(m, outcome);
      while left != {}
        invariant left !! done && left + done == m.pending.Keys
        invariant mail == AllSettled(m, done, outcome)
        decreases left
      {
        var k :| k in left;
        OneMoreSettled(m, done, k, outcome);
        SettleMessage(k, outcome);
        left, done := left - {k}, done + {k};
      }
    }

    /** A send of a join or a leave; `fails` says whether the socket throws. */
    method SendControl(join: bool, room: string, fails: bool)
      modifies this`rooms
      ensures rooms == Controlled(old(rooms), link.socket, join, room, fails)
    {
      if !IsOpen(rooms, link.socket) { return; }
      var s := link.socket.value;
      if fails {
        rooms := rooms.(ready := rooms.ready[s := Closed]);
      } else if join {
        rooms := rooms.(joined := rooms.joined[s := JoinedOn(rooms, s) + {room}]);
      } else {
        rooms := rooms.(joined := rooms.joined[s := JoinedOn(rooms, s) - {room}]);
      }
    }

    method CloseSocket(s: Option<nat>)
      modifies this`rooms
      ensures rooms == SocketIs(old(rooms), s, Closed)
    {
      if s.Some? { rooms := rooms.(ready := rooms.ready[s.value := Closed]); }
    }

    /* ---------- entry points ---------- */

    method Start()
      requires Valid()
      modifies this`link
      ensures Valid() && View() == Next(old(View()), Spec.Start)
      ensures link.enabled && (Wanted(link) ==> Lifelines(link) == 1)
      ensures !old(link.enabled) && link.visible && link.online ==> Attempting(link, old(link.nextId))
    {
      ghost var c := View();
      if !link.enabled {
        link := link.(enabled := true, terminal := false, revalidationRequested := false);
        link := link.(generation := link.generation + 1);
        link := link.(status := Idle, reconnectAttempt := 0);
        Connect();
      }
      StartConnects(c);
      Stepped(c, Spec.Start);
    }

    method Stop()
      requires Valid()
      modifies this
      ensures Valid() && View() == Next(old(View()), Spec.Stop)
      ensures !link.enabled && link.status == Stopped && Lifelines(link) == 0 && link.timers.Keys == {}
      ensures rooms.references == map[] && AllAnswered(old(mail), mail, Failed("session_ended", false))
    {
      ghost var c := View();
      ReachableInv(c);
      if !link.enabled && link.status == Stopped {
        rooms := rooms.(references := map[]);
        RejectPending(Failed("session_ended", false));
      } else {
        End();
      }
      StopEndsEverything(c);
      Stepped(c, Spec.Stop);
    }

    method End()
      requires PromisesDistinct(mail.pending) && !AlreadyStopped(link)
      modifies this
      ensures View() == Halted(old(View()))
    {
      link := link.(enabled := false, revalidationRequested := false);
      var socket := Sever();
      rooms := rooms.(references := map[]);
      RejectPending(Failed("session_ended", false));
      CloseSocket(socket);
      link := link.(status := Stopped, reconnectAttempt := 0);
    }

    method RefreshAuthentication()
      requires Valid()
      modifies this
      ensures Valid() && View() == Next(old(View()), Spec.RefreshAuthentication)
      ensures rooms.references == old(rooms.references) && (Wanted(link) ==> Lifelines(link) == 1)
      ensures link.enabled ==> AllAnswered(old(mail), mail, Failed("auth_refreshed", true))
      ensures link.enabled && link.visible && link.online ==> Attempting(link, old(link.nextId))
      ensures !link.enabled ==> View() == old(View())
    {
      ghost var c := View();
      ReachableInv(c);
      if link.enabled { Reconnect(); }
      RefreshReconnects(c);
      Stepped(c, Spec.RefreshAuthentication);
    }

    /** A new generation without timer, socket or attempt; the old socket is still to be closed. */
    method Sever() returns (socket: Option<nat>)
      modifies this`link
      ensures socket == old(link.socket) && link == Severed(old(link)).(reconnectAttempt := old(link.reconnectAttempt))
    {
      link := link.(terminal := false);
      link := link.(generation := link.generation + 1);
      ClearReconnectTimer();
      socket := link.socket;
      link := link.(socket := None, connectInFlight := None);
    }

    method Reconnect()
      requires PromisesDistinct(mail.pending) && link.enabled
      modifies this
      ensures View() == Renewed(old(View()))
    {
      var socket := Sever();
      RejectPending(Failed("auth_refreshed", true));
      CloseSocket(socket);
      link := link.(status := Idle, reconnectAttempt := 0);
      Connect();
    }

    method SetVisible(visible: bool)
      requires Valid()
      modifies this`link
      ensures Valid() && View() == Next(old(View()), Spec.SetVisible(visible))
      ensures link.visible == visible && Woken(old(link), link)
    {
      ghost var c := View();
      link := link.(visible := visible);
      if visible { ConnectIfWaiting(); }
      SignalWakes(c, Spec.SetVisible(visible));
      Stepped(c, Spec.SetVisible(visible));
    }

    method SetOnline(online: bool)
      requires Valid()
      modifies this`link
      ensures Valid() && View() == Next(old(View()), Spec.SetOnline(online))
      ensures link.online == online && Woken(old(link), link)
    {
      ghost var c := View();
      link := link.(online := online);
      if online { ConnectIfWaiting(); }
      SignalWakes(c, Spec.SetOnline(online));
      Stepped(c, Spec.SetOnline(online));
    }

    method JoinConversation(room: string, fails: bool)
      requires Valid()
      modifies this`rooms
      ensures Valid() && View() == Next(old(View()), Join(room, fails))
      ensures Counted(old(View()), View(), room, References(old(rooms), room) + 1)
    {
      ghost var c := View();
      var count := if room in rooms.references then rooms.references[room] else 0;
      rooms := rooms.(references := rooms.references[room := count + 1]);
      if count == 0 { SendControl(true, room, fails); }
      JoinCounts(c, room, fails);
      Stepped(c, Join(room, fails));
    }

    method LeaveConversation(room: string, fails: bool)
      requires Valid()
      modifies this`rooms
      ensures Valid() && View() == Next(old(View()), Leave(room, fails))
      ensures var n := References(old(rooms), room); Counted(old(View()), View(), room, if n > 0 then n - 1 else 0)
    {
      ghost var c := View();
      var count := if room in rooms.references then rooms.references[room] else 0;
      if count > 1 {
        rooms := rooms.(references := rooms.references[room := count - 1]);
      } else {
        rooms := rooms.(references := rooms.references - {room});
        SendControl(false, room, fails);
      }
      LeaveCounts(c, room, fails);
      Stepped(c, Leave(room, fails));
    }

    /** Returns the promise; `fails` says whether the socket throws. */
    method SendMessage(clientMessageId: string, fails: bool) returns (promise: nat)
      requires Valid()
      modifies this`mail
      ensures Valid() && View() == Next(old(View()), Spec.SendMessage(clientMessageId, fails))
      ensures promise == old(|mail.outcomes|)
      ensures Promised(old(mail), mail, clientMessageId,
                       Answer(old(mail), clientMessageId, IsOpen(rooms, link.socket), fails))
    {
      ghost var c := View();
      promise := |mail.outcomes|;
      if !IsOpen(rooms, link.socket) {
        mail := mail.(outcomes := mail.outcomes + [[Failed("not_connected", true)]]);
      } else if clientMessageId in mail.pending {
        mail := mail.(outcomes := mail.outcomes + [[Failed("duplicate_client_message_id", false)]]);
      } else {
        Enqueue(clientMessageId, promise);
        if fails { SettleMessage(clientMessageId, Failed("send_failed", true)); }
      }
      SendAnswers(c, clientMessageId, fails);
      Stepped(c, Spec.SendMessage(clientMessageId, fails));
    }

    /** A new promise, its deadline and the entry that waits for the acknowledgement. */
    method Enqueue(clientMessageId: string, promise: nat)
      requires promise == |mail.outcomes|
      modifies this`mail
      ensures mail == Queued(old(mail), clientMessageId)
    {
      var timer := mail.nextTimer;
      mail := mail.(outcomes := mail.outcomes + [[]]);
      mail := mail.(deadlines := mail.deadlines[timer := Deadline(clientMessageId, promise)], nextTimer := timer + 1);
      mail := mail.(pending := mail.pending[clientMessageId := Pending(promise, timer)]);
    }

    /* ---------- callbacks ---------- */

    /** An acknowledgement or an error for a message. */
    method HandleAnswer(clientMessageId: string, outcome: Outcome)
      requires Valid()
      modifies this`mail
      ensures Valid() && View() == Next(old(View()), Acknowledge(clientMessageId, outcome))
      ensures clientMessageId !in old(mail.pending) ==> mail == old(mail)
      ensures clientMessageId in old(mail.pending) ==>
        var p := old(mail.pending)[clientMessageId].promise;
        p < old(|mail.outcomes|) && mail.outcomes == old(mail.outcomes)[p := [outcome]]
    {
      ghost var c := View();
      if clientMessageId in mail.pending { AcknowledgementSettles(c, clientMessageId, outcome); }
      SettleMessage(clientMessageId, outcome);
      Stepped(c, Acknowledge(clientMessageId, outcome));
    }

    /** The deadline armed by a `SendMessage`, with what its closure captured. */
    method AckDeadline(timer: nat, clientMessageId: string, promise: nat)
      requires Valid() && timer in mail.deadlines && mail.deadlines[timer] == Deadline(clientMessageId, promise)
      modifies this`mail
      ensures Valid() && View() == Next(old(View()), AckTimeout(timer))
      ensures promise < old(|mail.outcomes|) && old(mail.outcomes)[promise] == []
      ensures mail.outcomes == old(mail.outcomes)[promise := [Failed("ack_timeout", true)]]
      ensures mail.pending == old(mail.pending) - {clientMessageId} && mail.deadlines == old(mail.deadlines) - {timer}
    {
      ghost var c := View();
      mail := mail.(deadlines := mail.deadlines - {timer});
      mail := mail.(pending := mail.pending - {clientMessageId});
      mail := mail.(outcomes := Recorded(mail.outcomes, promise, Failed("ack_timeout", true)));
      DeadlineRejects(c, timer);
      Stepped(c, AckTimeout(timer));
    }

    method ReconnectDue(timer: nat)
      requires Valid() && timer in link.timers
      modifies this`link
      ensures Valid() && View() == Next(old(View()), ReconnectTimeout(timer))
      ensures link.reconnectTimer.None? && link.timers.Keys == {} && link.socket.None?
      ensures link.connectInFlight == if Wanted(link) then Some(old(link.nextId)) else None
    {
      ghost var c := View();
      link := link.(timers := link.timers - {timer});
      link := link.(reconnectTimer := None);
      Connect();
      TimerReconnects(c, timer);
      SignalsKept(c, ReconnectTimeout(timer));
      Stepped(c, ReconnectTimeout(timer));
    }

    method HandleConnectFailure(failure: Failure)
      modifies this`link
      ensures link == ConnectFailure(old(link), failure)
    {
      if !failure.retryable {
        link := link.(terminal := true);
        link := link.(status := Stopped);
        if failure.httpStatus == 401 || failure.httpStatus == 403 { RequestRevalidation(); }
        return;
      }
      ScheduleReconnect(if failure.httpStatus == 429 then failure.retryAfterMs else None);
    }

    /** The rest of an attempt that could not open a socket; `generation` is the one it captured. */
    method ConnectFailed(attempt: nat, generation: nat, failure: Failure)
      requires Valid() && attempt in link.attempts && link.attempts[attempt] == generation
      modifies this`link
      ensures Valid() && View() == Next(old(View()), AttemptFails(attempt, failure))
      ensures generation != link.generation ==> link == old(link).(attempts := old(link.attempts) - {attempt})
      ensures generation == link.generation ==> FollowedUp(old(link), link, failure)
      ensures var away := generation == link.generation && !failure.retryable && failure.httpStatus in {401, 403};
        && link.revalidations == old(link.revalidations) + Count(away && !old(link.revalidationRequested))
        && (away ==> link.revalidationRequested)
    {
      ghost var c := View();
      ReachableInv(c);
      link := link.(attempts := link.attempts - {attempt});
      if link.enabled && generation == link.generation { HandleConnectFailure(failure); }
      FreeSlot(generation);
      if generation == c.link.generation { FailureFollowsUp(c, attempt, failure); }
      GenerationKept(c.link, attempt, failure);
      RevalidatesExactly(c, AttemptFails(attempt, failure));
      Stepped(c, AttemptFails(attempt, failure));
    }

    /** The rest of an attempt that has its socket; `failing` are the rooms whose join would throw. */
    method ConnectSucceeded(attempt: nat, generation: nat, state: ReadyState, failing: set<string>)
      returns (ghost cut: Option<set<string>>)
      requires Valid() && attempt in link.attempts && link.attempts[attempt] == generation
      modifies this
      ensures CutOk(old(View()), cut)
      ensures Valid() && View() == Next(old(View()), AttemptOpens(attempt, state, cut))
      ensures generation == old(link.generation) ==> link.socket == Some(old(link.nextId)) && link.connectInFlight.None?
      ensures generation != old(link.generation) ==>
        link.socket == old(link.socket) && link.connectInFlight == old(link.connectInFlight)
    {
      ghost var c := View();
      cut := FinishConnect(attempt, generation, state, failing);
      ReachableInv(c);
      if generation == c.link.generation {
        CurrentAttemptInstalls(c, AttemptOpens(attempt, state, cut));
      } else {
        StaleAttemptHarmless(c, AttemptOpens(attempt, state, cut), attempt);
      }
      Stepped(c, AttemptOpens(attempt, state, cut));
    }

    method FinishConnect(attempt: nat, generation: nat, state: ReadyState, failing: set<string>)
      returns (ghost cut: Option<set<string>>)
      requires attempt in link.attempts && link.attempts[attempt] == generation
      modifies this
      ensures CutOk(old(View()), cut)
      ensures View() == Installed(old(View()), attempt, state, cut)
    {
      ghost var c := View();
      var s := link.nextId;
      link := link.(attempts := link.attempts - {attempt}, nextId := s + 1);
      if !link.enabled || generation != link.generation {
        cut := None;
        InstalledStale(c, attempt, state, cut);
        CloseSocket(Some(s));
        FreeSlot(generation);
      } else {
        assert View() == AttemptTaken(c, attempt);
        cut := InstallSocket(s, generation, state, failing);
        InstalledFresh(c, attempt, state, cut);
        FreeSlot(generation);
      }
    }

    /** The attempt of the current generation leaves its slot. */
    method FreeSlot(generation: nat)
      modifies this`link
      ensures View() == if generation == old(link.generation) then SlotFreed(old(View())) else old(View())
    {
      if generation == link.generation { link := link.(connectInFlight := None); }
    }

    method InstallSocket(s: nat, generation: nat, state: ReadyState, failing: set<string>)
      returns (ghost cut: Option<set<string>>)
      requires generation == link.generation
      modifies this
      ensures CutOk(old(View()), cut)
      ensures var c1 := WithSocketIn(old(View()), s, state);
        SlotFreed(View()) == if state == Open then Opened(SlotFreed(c1), s, cut) else SlotFreed(c1)
      ensures link.generation == generation
    {
      cut := None;
      link := link.(socket := Some(s));
      link := link.(listeners := link.listeners[s := generation]);
      rooms := rooms.(ready := rooms.ready[s := state]);
      ghost var c1 := View();
      if state == Open { cut := HandleOpen(s, generation, failing); }
      OpenedThenFreed(c1, s, cut);
      OpenedGeneration(c1, s, cut);
    }

    method HandleOpen(s: nat, generation: nat, failing: set<string>) returns (ghost cut: Option<set<string>>)
      requires s in link.listeners && link.listeners[s] == generation
      requires IsOpen(rooms, Some(s))
      modifies this
      ensures CutOk(old(View()), cut)
      ensures View() == Opened(old(View()), s, cut)
    {
      cut := None;
      if link.socket != Some(s) || generation != link.generation { return; }
      link := link.(revalidationRequested := false);
      link := link.(status := Connected, reconnectAttempt := 0);
      cut := JoinRooms(s, failing);
    }

    /** The browser reports a socket open and calls its listener. */
    method SocketOpened(s: nat, generation: nat, failing: set<string>) returns (ghost cut: Option<set<string>>)
      requires Valid() && s in link.listeners && link.listeners[s] == generation
      requires s in rooms.ready && rooms.ready[s] == Opening
      modifies this
      ensures CutOk(old(View()), cut)
      ensures Valid() && View() == Next(old(View()), SocketOpens(s, cut))
      ensures IsOpen(rooms, link.socket) ==> JoinedOn(rooms, link.socket.value) == rooms.references.Keys
    {
      ghost var c := View();
      rooms := rooms.(ready := rooms.ready[s := Open]);
      cut := HandleOpen(s, generation, failing);
      Stepped(c, SocketOpens(s, cut));
      ReachableInv(View());
    }

    method JoinRooms(s: nat, failing: set<string>) returns (ghost cut: Option<set<string>>)
      requires link.socket == Some(s) && IsOpen(rooms, Some(s))
      modifies this`rooms
      ensures cut.Some? ==> cut.value <= rooms.references.Keys
      ensures rooms == RoomsOpened(old(rooms), s, cut)
    {
      ghost var r, done := rooms, {};
      var left := rooms.references.Keys;
      cut := None;
      rooms := rooms.(joined := rooms.joined[s := JoinedOn(rooms, s)]);
      assert JoinedOn(r, s) + done == JoinedOn(r, s);
      while left != {}
        invariant left !! done && left + done == r.references.Keys
        invariant cut.Some? ==> cut.value <= done && rooms == RoomsOpened(r, s, cut)
        invariant cut.None? ==> rooms == r.(joined := r.joined[s := JoinedOn(r, s) + done])
        decreases left
      {
        var room :| room in left;
        if cut.None? && room in failing { cut := Some(done); }
        assert JoinedOn(r, s) + done + {room} == JoinedOn(r, s) + (done + {room});
        SendControl(true, room, room in failing);
        left, done := left - {room}, done + {room};
      }
    }

    /** The browser reports a socket closed and calls its listener. */
    method SocketClosed(s: nat, generation: nat, code: int)
      requires Valid() && s in link.listeners && link.listeners[s] == generation && s in rooms.ready
      modifies this
      ensures Valid() && View() == Next(old(View()), SocketCloses(s, code))
      ensures old(IsCurrent(link, s)) ==>
        && link.socket.None? && AllAnswered(old(mail), mail, Failed("connection_closed", code !in {1008, 4001, 4003}))
        && (if code in {1008, 4001, 4003} then link.terminal else link.reconnectTimer.Some?)
      ensures link.revalidations == old(link.revalidations) +
        Count(old(IsCurrent(link, s)) && code in {1008, 4001, 4003} && !old(link.revalidationRequested))
      ensures old(IsCurrent(link, s)) && code in {1008, 4001, 4003} ==> link.revalidationRequested
      ensures !old(IsCurrent(link, s)) ==> link == old(link) && mail == old(mail)
    {
      ghost var c := View();
      ReachableInv(c);
      rooms := rooms.(ready := rooms.ready[s := Closed]);
      HandleClose(s, generation, code);
      CloseFollowsUp(c, s, code);
      RevalidatesExactly(c, SocketCloses(s, code));
      Stepped(c, SocketCloses(s, code));
    }

    method HandleClose(s: nat, generation: nat, code: int)
      requires PromisesDistinct(mail.pending) && s in link.listeners && link.listeners[s] == generation
      modifies this
      ensures View() == Lost(old(View()), s, code)
    {
      if link.socket != Some(s) || generation != link.generation { return; }
      link := link.(socket := None);
      RejectPending(Failed("connection_closed", !TerminalCode(code)));
      if !link.enabled { return; }
      if TerminalCode(code) {
        link := link.(terminal := true);
        link := link.(status := Stopped);
        RequestRevalidation();
        return;
      }
      ScheduleReconnect(None);
    }
  }
}
