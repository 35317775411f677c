/**
 The realtime client as a machine: one connection that is opened, lost and retried, the
 messages awaiting acknowledgement, and the rooms the user is in.

 The functions specify what each entry point and each callback makes of the client's state;
 `RealtimeObject` runs them field by field.
 */
module RealtimeMachine {
  import opened Wrappers

  const MAX_RECONNECT_DELAY_MS := 30_000

  /* ---------- the connection ---------- */

  datatype Status = Idle | Connecting | Connected | Waiting | Stopped

  /**
   Sockets, timers and connection attempts are named by numbers drawn from `nextId`.
   `attempts` are the attempts still under way and `timers` the armed reconnect timers, by
   delay; `listeners` has, for every socket ever installed, the generation its listeners
   captured.  `revalidations` counts the calls of the terminal-failure callback.
   */
  datatype Link = Link(
    socket: Option<nat>,
    reconnectTimer: Option<nat>,
    connectInFlight: Option<nat>,
    enabled: bool,
    terminal: bool,
    revalidationRequested: bool,
    visible: bool,
    online: bool,
    generation: nat,
    status: Status,
    reconnectAttempt: nat,
    attempts: map<nat, nat>,
    timers: map<nat, int>,
    listeners: map<nat, nat>,
    nextId: nat,
    revalidations: nat)

  datatype Failure = Failure(retryable: bool, httpStatus: int, retryAfterMs: Option<int>)

  predicate TerminalCode(code: int) { code in {1008, 4001, 4003} }

  predicate Wanted(l: Link) { l.enabled && !l.terminal && l.visible && l.online }

  function WithoutTimer(l: Link): Link {
    if l.reconnectTimer.Some? then l.(timers := l.timers - {l.reconnectTimer.value}, reconnectTimer := None) else l
  }

  function Connect(l: Link): Link {
    if !Wanted(l) || l.socket.Some? || l.connectInFlight.Some? then l
    else WithoutTimer(l).(
      status := Connecting,
      connectInFlight := Some(l.nextId),
      attempts := l.attempts[l.nextId := l.generation],
      nextId := l.nextId + 1)
  }

  function ConnectIfWaiting(l: Link): Link {
    if l.reconnectTimer.None? then Connect(l) else l
  }

  function VisibilitySet(l: Link, visible: bool): Link {
    var l1 := l.(visible := visible);
    if visible then ConnectIfWaiting(l1) else l1
  }

  function OnlineSet(l: Link, online: bool): Link {
    var l1 := l.(online := online);
    if online then ConnectIfWaiting(l1) else l1
  }

  function Started(l: Link): Link {
    if l.enabled then l
    else Connect(l.(enabled := true, terminal := false, revalidationRequested := false,
                    generation := l.generation + 1, status := Idle, reconnectAttempt := 0))
  }

  /** Drop whatever the current generation has, and open a new generation. */
  function Severed(l: Link): Link {
    WithoutTimer(l).(terminal := false, generation := l.generation + 1, socket := None, connectInFlight := None,
                     reconnectAttempt := 0)
  }

  predicate AlreadyStopped(l: Link) { !l.enabled && l.status == Stopped }

  function Ended(l: Link): Link {
    if AlreadyStopped(l) then l
    else Severed(l).(enabled := false, revalidationRequested := false, status := Stopped)
  }

  function Refreshed(l: Link): Link {
    if !l.enabled then l else Connect(Severed(l).(status := Idle))
  }

  function Power(base: nat, e: nat): nat {
    if e == 0 then 1 else base * Power(base, e - 1)
  }

  function Min(a: int, b: int): int { if a < b then a else b }

  /** The delay before the n-th attempt in a row. */
  function Backoff(n: nat): int {
    Min(1000 * Power(2, if n > 0 then n - 1 else 0), MAX_RECONNECT_DELAY_MS)
  }

  function ScheduleReconnect(l: Link, delay: Option<int>): Link {
    if !l.enabled || l.terminal then l
    else l.(
      status := Waiting,
      reconnectAttempt := l.reconnectAttempt + 1,
      reconnectTimer := Some(l.nextId),
      timers := l.timers[l.nextId := if delay.Some? then delay.value else Backoff(l.reconnectAttempt + 1)],
      nextId := l.nextId + 1)
  }

  function RequestRevalidation(l: Link): Link {
    if l.revalidationRequested then l else l.(revalidationRequested := true, revalidations := l.revalidations + 1)
  }

  function Rejected(l: Link): Link { l.(terminal := true, status := Stopped) }

  function ConnectFailure(l: Link, f: Failure): Link {
    if !f.retryable then
      if f.httpStatus == 401 || f.httpStatus == 403 then RequestRevalidation(Rejected(l)) else Rejected(l)
    else ScheduleReconnect(l, if f.httpStatus == 429 then f.retryAfterMs else None)
  }

  function SlotCleared(l: Link, generation: nat): Link {
    if generation == l.generation then l.(connectInFlight := None) else l
  }

  function AttemptFailed(l: Link, a: nat, f: Failure): Link
    requires a in l.attempts
  {
    var g := l.attempts[a];
    var l1 := l.(attempts := l.attempts - {a});
    SlotCleared(if l1.enabled && g == l1.generation then ConnectFailure(l1, f) else l1, g)
  }

  predicate Fresh(l: Link, g: nat) { l.enabled && g == l.generation }

  /** The attempt `a` has produced the socket `nextId`; a stale one is closed at once. */
  function AttemptOpened(l: Link, a: nat): Link
    requires a in l.attempts
  {
    var g, s := l.attempts[a], l.nextId;
    var l1 := l.(attempts := l.attempts - {a}, nextId := l.nextId + 1);
    SlotCleared(if Fresh(l, g) then l1.(socket := Some(s), listeners := l.listeners[s := g]) else l1, g)
  }

  predicate IsCurrent(l: Link, s: nat) {
    s in l.listeners && l.socket == Some(s) && l.listeners[s] == l.generation
  }

  function HandleOpen(l: Link, s: nat): Link {
    if IsCurrent(l, s) then l.(revalidationRequested := false, status := Connected, reconnectAttempt := 0) else l
  }

  function HandleClose(l: Link, s: nat, code: int): Link {
    if !IsCurrent(l, s) then l
    else if !l.enabled then l.(socket := None)
    else if TerminalCode(code) then RequestRevalidation(Rejected(l.(socket := None)))
    else ScheduleReconnect(l.(socket := None), None)
  }

  function TimerFired(l: Link, t: nat): Link {
    Connect(l.(timers := l.timers - {t}, reconnectTimer := None))
  }

  /* ---------- messages awaiting acknowledgement ---------- */

  datatype Outcome = Resolved(message: string) | Failed(code: string, retryable: bool)

  datatype Pending = Pending(promise: nat, timer: nat)
  datatype Deadline = Deadline(clientMessageId: string, promise: nat)

  /** `outcomes` lists, for each promise ever returned, the settlements it has received. */
  datatype Mail = Mail(
    pending: map<string, Pending>,
    deadlines: map<nat, Deadline>,
    nextTimer: nat,
    outcomes: seq<seq<Outcome>>)

  function Recorded(outcomes: seq<seq<Outcome>>, promise: nat, o: Outcome): seq<seq<Outcome>> {
    if promise < |outcomes| then outcomes[promise := outcomes[promise] + [o]] else outcomes
  }

  function Settled(m: Mail, key: string, o: Outcome): Mail {
    if key !in m.pending then m
    else
      var p := m.pending[key];
      m.(pending := m.pending - {key}, deadlines := m.deadlines - {p.timer}, outcomes := Recorded(m.outcomes, p.promise, o))
  }

  predicate Awaited(pending: map<string, Pending>, keys: set<string>, p: nat) {
    exists k :: k in keys && k in pending && pending[k].promise == p
  }

  function TimersOf(pending: map<string, Pending>, keys: set<string>): set<nat> {
    set k | k in keys && k in pending :: pending[k].timer
  }

  /** The messages named by `keys` all settle with the same outcome. */
  function AllSettled(m: Mail, keys: set<string>, o: Outcome): Mail {
    m.(pending := m.pending - keys,
       deadlines := m.deadlines - TimersOf(m.pending, keys),
       outcomes := seq(|m.outcomes|, p requires 0 <= p < |m.outcomes| =>
                         if Awaited(m.pending, keys, p) then m.outcomes[p] + [o] else m.outcomes[p]))
  }

  function Dropped(m: Mail, o: Outcome): Mail { AllSettled(m, m.pending.Keys, o) }

  function RejectedNow(m: Mail, o: Outcome): Mail {
    m.(outcomes := m.outcomes + [[o]])
  }

  function Queued(m: Mail, key: string): Mail {
    m.(pending := m.pending[key := Pending(|m.outcomes|, m.nextTimer)],
       deadlines := m.deadlines[m.nextTimer := Deadline(key, |m.outcomes|)],
       nextTimer := m.nextTimer + 1,
       outcomes := m.outcomes + [[]])
  }

  function Sent(m: Mail, key: string, connected: bool, fails: bool): Mail {
    if !connected then RejectedNow(m, Failed("not_connected", true))
    else if key in m.pending then RejectedNow(m, Failed("duplicate_client_message_id", false))
    else if fails then Settled(Queued(m, key), key, Failed("send_failed", true))
    else Queued(m, key)
  }

  function TimedOut(m: Mail, t: nat): Mail
    requires t in m.deadlines
  {
    var d := m.deadlines[t];
    m.(pending := m.pending - {d.clientMessageId}, deadlines := m.deadlines - {t},
       outcomes := Recorded(m.outcomes, d.promise, Failed("ack_timeout", true)))
  }

  /* ---------- rooms ---------- */

  datatype ReadyState = Opening | Open | Closed

  /** `ready` is the state of each socket; `joined` the rooms its joins and leaves, in order, amount to. */
  datatype Rooms = Rooms(references: map<string, nat>, ready: map<nat, ReadyState>, joined: map<nat, set<string>>)

  predicate IsOpen(r: Rooms, s: Option<nat>) {
    s.Some? && s.value in r.ready && r.ready[s.value] == Open
  }

  function JoinedOn(r: Rooms, s: nat): set<string> {
    if s in r.joined then r.joined[s] else {}
  }

  /** A control message: a join or a leave.  A send that throws closes the socket. */
  function Controlled(r: Rooms, s: Option<nat>, join: bool, room: string, fails: bool): Rooms {
    if !IsOpen(r, s) then r
    else if fails then r.(ready := r.ready[s.value := Closed])
    else r.(joined := r.joined[s.value := if join then JoinedOn(r, s.value) + {room} else JoinedOn(r, s.value) - {room}])
  }

  function References(r: Rooms, room: string): nat {
    if room in r.references then r.references[room] else 0
  }

  function Joined(r: Rooms, s: Option<nat>, room: string, fails: bool): Rooms {
    var n := References(r, room);
    var r1 := r.(references := r.references[room := n + 1]);
    if n == 0 then Controlled(r1, s, true, room, fails) else r1
  }

  function Left(r: Rooms, s: Option<nat>, room: string, fails: bool): Rooms {
    var n := References(r, room);
    if n > 1 then r.(references := r.references[room := n - 1])
    else Controlled(r.(references := r.references - {room}), s, false, room, fails)
  }

  /** On open every room is joined; `cut` says which were, when a send threw on the way. */
  function RoomsOpened(r: Rooms, s: nat, cut: Option<set<string>>): Rooms {
    if cut.None? then r.(joined := r.joined[s := JoinedOn(r, s) + r.references.Keys])
    else r.(joined := r.joined[s := JoinedOn(r, s) + cut.value], ready := r.ready[s := Closed])
  }

  function SocketIs(r: Rooms, s: Option<nat>, state: ReadyState): Rooms {
    if s.Some? then r.(ready := r.ready[s.value := state]) else r
  }

  /* ---------- the client ---------- */

  datatype Client = Client(link: Link, mail: Mail, rooms: Rooms)

  predicate Init(c: Client) {
    && c.link == Link(None, None, None, false, false, false, true, true, 0, Stopped, 0, map[], map[], map[], 0, 0)
    && c.mail == Mail(map[], map[], 0, [])
    && c.rooms == Rooms(map[], map[], map[])
  }

  datatype Step =
    | Start
    | Stop
    | RefreshAuthentication
    | SetVisible(visible: bool)
    | SetOnline(online: bool)
    | Join(room: string, fails: bool)
    | Leave(room: string, fails: bool)
    | SendMessage(clientMessageId: string, fails: bool)
    | Acknowledge(clientMessageId: string, outcome: Outcome)
    | AckTimeout(timer: nat)
    | ReconnectTimeout(timer: nat)
    | AttemptFails(attempt: nat, failure: Failure)
    | AttemptOpens(attempt: nat, state: ReadyState, cut: Option<set<string>>)
    | SocketOpens(socket: nat, cut: Option<set<string>>)
    | SocketCloses(socket: nat, code: int)

  predicate CutOk(c: Client, cut: Option<set<string>>) {
    cut.Some? ==> cut.value <= c.rooms.references.Keys
  }

  predicate Enabled(c: Client, step: Step) {
    match step
    case AckTimeout(t) => t in c.mail.deadlines
    case ReconnectTimeout(t) => t in c.link.timers
    case AttemptFails(a, _) => a in c.link.attempts
    case AttemptOpens(a, _, cut) => a in c.link.attempts && CutOk(c, cut)
    case SocketOpens(s, cut) => s in c.rooms.ready && c.rooms.ready[s] == Opening && CutOk(c, cut)
    case SocketCloses(s, _) => s in c.rooms.ready
    case _ => true
  }

  /** The open handler: only the socket in use reacts. */
  function Opened(c: Client, s: nat, cut: Option<set<string>>): Client {
    if IsCurrent(c.link, s)
    then c.(link := HandleOpen(c.link, s), rooms := RoomsOpened(c.rooms, s, cut))
    else c
  }

  /** The continuation of an attempt whose socket is there. */
  function Installed(c: Client, a: nat, state: ReadyState, cut: Option<set<string>>): Client
    requires a in c.link.attempts
  {
    var s := c.link.nextId;
    if !Fresh(c.link, c.link.attempts[a]) then
      c.(link := AttemptOpened(c.link, a), rooms := SocketIs(c.rooms, Some(s), Closed))
    else
      var c1 := c.(link := AttemptOpened(c.link, a), rooms := SocketIs(c.rooms, Some(s), state));
      if state == Open then Opened(c1, s, cut) else c1
  }

  function Halted(c: Client): Client {
    var l, m := Ended(c.link), Dropped(c.mail, Failed("session_ended", false));
    var r := c.rooms.(references := map[]);
    Client(l, m, if AlreadyStopped(c.link) then r else SocketIs(r, c.link.socket, Closed))
  }

  function Renewed(c: Client): Client {
    if !c.link.enabled then c
    else Client(Refreshed(c.link), Dropped(c.mail, Failed("auth_refreshed", true)), SocketIs(c.rooms, c.link.socket, Closed))
  }

  /** The close handler: only the socket in use reacts. */
  function Lost(c: Client, s: nat, code: int): Client {
    if IsCurrent(c.link, s)
    then c.(link := HandleClose(c.link, s, code), mail := Dropped(c.mail, Failed("connection_closed", !TerminalCode(code))))
    else c
  }

  function Next(c: Client, step: Step): Client
    requires Enabled(c, step)
  {
    match step
    case Start => c.(link := Started(c.link))
    case Stop => Halted(c)
    case RefreshAuthentication => Renewed(c)
    case SetVisible(v) => c.(link := VisibilitySet(c.link, v))
    case SetOnline(o) => c.(link := OnlineSet(c.link, o))
    case Join(room, fails) => c.(rooms := Joined(c.rooms, c.link.socket, room, fails))
    case Leave(room, fails) => c.(rooms := Left(c.rooms, c.link.socket, room, fails))
    case SendMessage(key, fails) => c.(mail := Sent(c.mail, key, IsOpen(c.rooms, c.link.socket), fails))
    case Acknowledge(key, o) => c.(mail := Settled(c.mail, key, o))
    case AckTimeout(t) => c.(mail := TimedOut(c.mail, t))
    case ReconnectTimeout(t) => c.(link := TimerFired(c.link, t))
    case AttemptFails(a, f) => c.(link := AttemptFailed(c.link, a, f))
    case AttemptOpens(a, state, cut) => Installed(c, a, state, cut)
    case SocketOpens(s, cut) => Opened(c.(rooms := SocketIs(c.rooms, Some(s), Open)), s, cut)
    case SocketCloses(s, code) => Lost(c.(rooms := SocketIs(c.rooms, Some(s), Closed)), s, code)
  }

  predicate CanRun(c: Client, steps: seq<Step>)
    decreases |steps|
  {
    steps == [] || (Enabled(c, steps[0]) && CanRun(Next(c, steps[0]), steps[1..]))
  }

  function Run(c: Client, steps: seq<Step>): Client
    requires CanRun(c, steps)
    decreases |steps|
  {
    if steps == [] then c else Run(Next(c, steps[0]), steps[1..])
  }

  ghost predicate Reachable(c: Client) {
    exists c0: Client, steps: seq<Step> :: Init(c0) && CanRun(c0, steps) && Run(c0, steps) == c
  }
}
