/** The chat command engine as a state machine: one command in flight, a queue behind it, timeouts, reconnection.
    The browser's side (its sockets, its live timers, the clock) is part of the state, so that a run may interleave
    them in any order. */
module ChatSocketSpec {
  import opened Options

  type SocketId = nat
  type TimerId = nat

  datatype ReadyState = Connecting | Open | Closing | Closed

  datatype Action = OpenDM(peer: int) | ListDMs | CloseDM | SearchUsers | OtherAction(name: string)

  /** `id` names the caller's promise: the number of commands accepted before it. */
  datatype Command = Command(id: nat, action: Action)
  datatype Pending = Pending(cmd: Command, requestId: nat, timer: TimerId)
  datatype Sent = Sent(requestId: nat, cmd: nat)

  datatype How = Answered(requestId: Option<int>) | Failed(requestId: Option<int>) | Replied | TimedOut | Disconnected
  datatype Settlement = Settlement(cmd: nat, how: How, at: int)

  /** `cmd` remembers which command a timeout was started for; the callback itself does not look at it. */
  datatype Timer = CommandTimeout(due: int, cmd: nat) | Reconnect(due: int)

  /** Server messages as far as commands are concerned; every other event is a Push. */
  datatype Message =
    | Ack(requestId: Option<int>)
    | Error(requestId: Option<int>)
    | DMOpened(peer: int)
    | DMList
    | DMClosed
    | UserSearch
    | Push

  const COMMAND_TIMEOUT_MS := 10000

  datatype State = State(
    // fields of the client
    socket: Option<SocketId>,
    pending: Option<Pending>,
    queue: seq<Command>,
    nextRequestId: nat,
    connectionPromise: Option<SocketId>,
    reconnectAttempt: nat,
    reconnectTimer: Option<TimerId>,
    closedByUser: bool,
    // the browser
    now: int,
    sockets: map<SocketId, ReadyState>,
    timers: map<TimerId, Timer>,
    nextHandle: nat,
    retries: set<SocketId>, // sockets whose opening or failure a reconnect attempt awaits
    // what has happened
    accepted: nat,
    sent: seq<Sent>,
    settled: seq<Settlement>,
    delays: seq<nat>) // of the current series of reconnect attempts

  const INITIAL := State(None, None, [], 1, None, 0, None, false, 0, map[], map[], 0, {}, 0, [], [], [])

  predicate IsOpen(s: State) {
    s.socket.Some? && s.socket.value in s.sockets && s.sockets[s.socket.value] == Open
  }

  // ----- Commands -----

  function FlushQueue(s: State): State {
    if !IsOpen(s) || s.pending.Some? || s.queue == [] then s else SendNext(s)
  }

  /** The next command leaves the queue, under a fresh request id. */
  function Dequeued(s: State): State
    requires s.queue != []
  {
    s.(queue := s.queue[1..], nextRequestId := s.nextRequestId + 1)
  }

  function WithTimer(s: State, timer: Timer): State {
    s.(timers := s.timers[s.nextHandle := timer], nextHandle := s.nextHandle + 1)
  }

  /** The command is in flight, with the newest timer as its own. */
  function InTransit(s: State, next: Command, requestId: nat, timer: TimerId): State {
    s.(pending := Some(Pending(next, requestId, timer)), sent := s.sent + [Sent(requestId, next.id)])
  }

  function SendNext(s: State): State
    requires s.queue != []
  {
    var timed := WithTimer(Dequeued(s), CommandTimeout(s.now + COMMAND_TIMEOUT_MS, s.queue[0].id));
    InTransit(timed, s.queue[0], s.nextRequestId, s.nextHandle)
  }

  /** Resolve or reject the pending command; either way its own timer is cleared. */
  function Settle(s: State, how: How): State
    requires s.pending.Some?
  {
    s.(pending := None,
       timers := s.timers - {s.pending.value.timer},
       settled := s.settled + [Settlement(s.pending.value.cmd.id, how, s.now)])
  }

  function SettleAndFlush(s: State, how: How): State
    requires s.pending.Some?
  {
    FlushQueue(Settle(s, how))
  }

  function Rejections(queue: seq<Command>, now: int): seq<Settlement> {
    if queue == [] then [] else [Settlement(queue[0].id, Disconnected, now)] + Rejections(queue[1..], now)
  }

  function RejectAllPending(s: State): State {
    var s1 := if s.pending.Some? then Settle(s, Disconnected) else s;
    s1.(queue := [], settled := s1.settled + Rejections(s1.queue, s1.now))
  }

  /** The message carries an id, and it is not the pending command's. */
  predicate Stale(s: State, requestId: Option<int>) {
    requestId.Some? && s.pending.Some? && s.pending.value.requestId != requestId.value
  }

  function HandleSocketError(s: State, requestId: Option<int>): State {
    if Stale(s, requestId) || s.pending.None? then s else SettleAndFlush(s, Failed(requestId))
  }

  function HandleAck(s: State, requestId: Option<int>): State {
    if Stale(s, requestId) || s.pending.None? then s else SettleAndFlush(s, Answered(requestId))
  }

  function HandleReply(s: State, action: Action): State {
    if s.pending.Some? && s.pending.value.cmd.action == action then SettleAndFlush(s, Replied) else s
  }

  function HandleMessage(s: State, m: Message): State {
    match m
    case Ack(id) => HandleAck(s, id)
    case Error(id) => HandleSocketError(s, id)
    case DMOpened(peer) => HandleReply(s, OpenDM(peer))
    case DMList => HandleReply(s, ListDMs)
    case DMClosed => HandleReply(s, CloseDM)
    case UserSearch => HandleReply(s, SearchUsers)
    case Push => s
  }

  function Accepted(s: State, action: Action): State {
    s.(queue := s.queue + [Command(s.accepted, action)], accepted := s.accepted + 1)
  }

  /** Refused at once (and not accepted) while the socket is not open. */
  function SendCommand(s: State, action: Action): State {
    if !IsOpen(s) then s
    else FlushQueue(Accepted(s, action))
  }

  /** The timeout acts on whatever is pending when it fires. */
  function CommandTimerFired(s: State, t: TimerId): State {
    var s1 := s.(timers := s.timers - {t});
    if s1.pending.Some? then SettleAndFlush(s1, TimedOut) else s1
  }

  // ----- Connections -----

  function Pow2(n: nat): nat { if n == 0 then 1 else 2 * Pow2(n - 1) }

  function BackoffBase(attempt: nat): nat
    requires attempt > 0
  {
    var d := 500 * Pow2(attempt - 1);
    if 15000 <= d then 15000 else d
  }

  function ScheduleReconnect(s: State, jitter: nat): State {
    if s.closedByUser || s.reconnectTimer.Some? then s
    else
      var attempt := s.reconnectAttempt + 1;
      var delay := BackoffBase(attempt) + jitter;
      WithTimer(s, Reconnect(s.now + delay)).(
        reconnectAttempt := attempt, reconnectTimer := Some(s.nextHandle), delays := s.delays + [delay])
  }

  /** The promise returned is already resolved (None) or settles with the named socket. */
  function Connect(s: State): (State, Option<SocketId>) {
    if IsOpen(s) then (s, None)
    else if s.connectionPromise.Some? then (s, s.connectionPromise)
    else
      var ws := s.nextHandle;
      (s.(closedByUser := false,
          nextHandle := ws + 1,
          sockets := s.sockets[ws := Connecting],
          socket := Some(ws),
          connectionPromise := Some(ws)),
       Some(ws))
  }

  function Restored(s: State): State { s.(reconnectAttempt := 0, delays := []) }

  function ReconnectTimerFired(s: State, t: TimerId): State {
    var (s1, promise) := Connect(s.(timers := s.timers - {t}, reconnectTimer := None));
    if promise.None? then Restored(s1) else s1.(retries := s1.retries + {promise.value})
  }

  function Opened(s: State, ws: SocketId): State {
    Resolved(FlushQueue(s.(sockets := s.sockets[ws := Open], connectionPromise := None)), ws)
  }

  /** The promise of `ws` resolves for the attempt that awaits it, if any. */
  function Resolved(s: State, ws: SocketId): State {
    if ws in s.retries then Restored(s.(retries := s.retries - {ws})) else s
  }

  /** The error event, when the connection failed: the awaiting attempt, if any, schedules the next one. */
  function ErrorEvent(s: State, ws: SocketId, jitter: nat): State {
    var s1 := s.(connectionPromise := None);
    if ws in s1.retries then ScheduleReconnect(s1.(retries := s1.retries - {ws}), jitter) else s1
  }

  function CloseEvent(s: State, jitter: nat): State {
    var s1 := RejectAllPending(s.(connectionPromise := None));
    if s1.closedByUser then s1 else ScheduleReconnect(s1, jitter)
  }

  function Dropped(s: State, ws: SocketId, failed: bool, jitter: nat): State {
    var s1 := s.(sockets := s.sockets[ws := Closed]);
    CloseEvent(if failed then ErrorEvent(s1, ws, jitter) else s1, jitter)
  }

  function CancelReconnect(s: State): State {
    s.(closedByUser := true,
       timers := if s.reconnectTimer.Some? then s.timers - {s.reconnectTimer.value} else s.timers,
       reconnectTimer := None,
       connectionPromise := None)
  }

  function DetachSocket(s: State): State {
    s.(sockets := if s.socket.Some? && s.socket.value in s.sockets && s.sockets[s.socket.value] != Closed
                  then s.sockets[s.socket.value := Closing] else s.sockets,
       socket := None)
  }

  function Close(s: State): State { DetachSocket(RejectAllPending(CancelReconnect(s))) }

  // ----- Runs -----

  datatype Event =
    | Tick(to: int)
    | TimerFires(timer: TimerId)
    | UserSends(action: Action)
    | UserConnects
    | UserCloses
    | SocketOpens(ws: SocketId)
    | SocketStartsClosing(ws: SocketId)
    | SocketDrops(ws: SocketId, failed: bool, jitter: nat)
    | Delivers(ws: SocketId, message: Message)

  predicate Enabled(s: State, e: Event) {
    match e
    case Tick(to) => s.now <= to
    case TimerFires(t) => t in s.timers && s.timers[t].due <= s.now
    case SocketOpens(ws) => ws in s.sockets && s.sockets[ws] == Connecting
    case SocketStartsClosing(ws) => ws in s.sockets && s.sockets[ws] == Open
    case SocketDrops(ws, failed, jitter) => ws in s.sockets && s.sockets[ws] != Closed && jitter < 500
    case Delivers(ws, m) => ws in s.sockets && s.sockets[ws] == Open
    case _ => true
  }

  function Step(s: State, e: Event): State {
    match e
    case Tick(to) => s.(now := to)
    case TimerFires(t) =>
      if t in s.timers && s.timers[t].CommandTimeout? then CommandTimerFired(s, t) else ReconnectTimerFired(s, t)
    case UserSends(action) => SendCommand(s, action)
    case UserConnects => Connect(s).0
    case UserCloses => Close(s)
    case SocketOpens(ws) => Opened(s, ws)
    case SocketStartsClosing(ws) => s.(sockets := s.sockets[ws := Closing])
    case SocketDrops(ws, failed, jitter) => Dropped(s, ws, failed, jitter)
    case Delivers(ws, m) => HandleMessage(s, m)
  }

  predicate IsRun(s: State, es: seq<Event>)
    decreases es
  {
    es == [] || (Enabled(s, es[0]) && IsRun(Step(s, es[0]), es[1..]))
  }

  function After(s: State, es: seq<Event>): State
    decreases es
  {
    if es == [] then s else After(Step(s, es[0]), es[1..])
  }
}
