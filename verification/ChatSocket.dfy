/** The client object itself: its methods update the fields one by one and are proved to take the steps of
    ChatSocketSpec. */
module ChatSockets {
  import opened Options
  import opened ChatSocketSpec
  import Proofs = ChatSocketProofs

  class ChatSocket {
    var socket: Option<SocketId>
    var pending: Option<Pending>
    var queue: seq<Command>
    var nextRequestId: nat
    var connectionPromise: Option<SocketId>
    var reconnectAttempt: nat
    var reconnectTimer: Option<TimerId>
    var closedByUser: bool

    // The browser's clock, sockets and live timers, and the reconnect attempts awaiting a promise.
    var now: int
    var sockets: map<SocketId, ReadyState>
    var timers: map<TimerId, Timer>
    var nextHandle: nat
    var retries: set<SocketId>

    var accepted: nat // names the promise handed to the next caller
    ghost var sent: seq<Sent>
    ghost var settled: seq<Settlement>
    ghost var delays: seq<nat>

    ghost function View(): State
      reads this
    {
      State(socket, pending, queue, nextRequestId, connectionPromise, reconnectAttempt, reconnectTimer, closedByUser,
            now, sockets, timers, nextHandle, retries, accepted, sent, settled, delays)
    }

    constructor ()
      ensures View() == INITIAL && Proofs.Inv(View())
    {
      socket, pending, queue, nextRequestId, connectionPromise := None, None, [], 1, None;
      reconnectAttempt, reconnectTimer, closedByUser := 0, None, false;
      now, sockets, timers, nextHandle, retries := 0, map[], map[], 0, {};
      accepted, sent, settled, delays := 0, [], [], [];
    }

    predicate Ready()
      reads this
    {
      socket.Some? && socket.value in sockets && sockets[socket.value] == Open
    }

    method SetTimeout(timer: Timer) returns (t: TimerId)
      modifies this`timers, this`nextHandle
      ensures t == old(nextHandle) && View() == WithTimer(old(View()), timer)
    {
      t := nextHandle;
      nextHandle := nextHandle + 1;
      timers := timers[t := timer];
    }

    method FlushQueue()
      modifies this`queue, this`nextRequestId, this`timers, this`nextHandle, this`pending, this`sent
      ensures View() == ChatSocketSpec.FlushQueue(old(View()))
    {
      if !Ready() || pending.Some? || queue == [] {
        return;
      }
      SendNext();
    }

    method SendNext()
      requires queue != []
      modifies this`queue, this`nextRequestId, this`timers, this`nextHandle, this`pending, this`sent
      ensures View() == ChatSocketSpec.SendNext(old(View()))
    {
      var next, requestId := TakeNext();
      var timeoutId := SetTimeout(CommandTimeout(now + COMMAND_TIMEOUT_MS, next.id));
      PutInTransit(next, requestId, timeoutId);
    }

    method TakeNext() returns (next: Command, requestId: nat)
      requires queue != []
      modifies this`queue, this`nextRequestId
      ensures next == old(queue)[0] && requestId == old(nextRequestId)
      ensures View() == Dequeued(old(View()))
    {
      next := queue[0];
      queue := queue[1..];
      requestId := nextRequestId;
      nextRequestId := nextRequestId + 1;
    }

    method PutInTransit(next: Command, requestId: nat, timeoutId: TimerId)
      modifies this`pending, this`sent
      ensures View() == InTransit(old(View()), next, requestId, timeoutId)
    {
      pending := Some(Pending(next, requestId, timeoutId));
      sent := sent + [Sent(requestId, next.id)];
    }

    /** The pending entry's resolve and reject: clear the timeout, then settle the caller's promise. */
    method SettlePending(ghost how: How)
      requires pending.Some?
      modifies this`timers, this`settled, this`pending
      ensures View() == Settle(old(View()), how)
    {
      timers := timers - {pending.value.timer};
      settled := settled + [Settlement(pending.value.cmd.id, how, now)];
      pending := None;
    }

    method RejectAllPending()
      modifies this`timers, this`settled, this`pending, this`queue
      ensures View() == ChatSocketSpec.RejectAllPending(old(View()))
    {
      if pending.Some? {
        SettlePending(Disconnected);
      }
      ghost var s1 := View();
      var queued := queue;
      queue := [];
      var i := 0;
      assert queued[0..] == queued;
      while i < |queued|
        invariant 0 <= i <= |queued|
        invariant settled + Rejections(queued[i..], now) == s1.settled + Rejections(queued, now)
        modifies this`settled
      {
        assert queued[i..][1..] == queued[i+1..];
        settled := settled + [Settlement(queued[i].id, Disconnected, now)];
        i := i + 1;
      }
    }

    method HandleSocketError(requestId: Option<int>)
      modifies this
      ensures View() == ChatSocketSpec.HandleSocketError(old(View()), requestId)
    {
      if requestId.Some? && pending.Some? && pending.value.requestId != requestId.value {
        return;
      }
      if pending.Some? {
        SettlePending(Failed(requestId));
        FlushQueue();
      }
    }

    method OnMessage(m: Message)
      modifies this
      ensures View() == HandleMessage(old(View()), m)
    {
      match m
      case Ack(requestId) =>
        if pending.Some? {
          if requestId.Some? && requestId.value != pending.value.requestId {
            return;
          }
          SettlePending(Answered(requestId));
          FlushQueue();
        }
      case Error(requestId) =>
        HandleSocketError(requestId);
      case DMOpened(peer) =>
        ReplyTo(OpenDM(peer));
      case DMList =>
        ReplyTo(ListDMs);
      case DMClosed =>
        ReplyTo(CloseDM);
      case UserSearch =>
        ReplyTo(SearchUsers);
      case Push =>
    }

    method ReplyTo(action: Action)
      modifies this
      ensures View() == HandleReply(old(View()), action)
    {
      if pending.Some? && pending.value.cmd.action == action {
        SettlePending(Replied);
        FlushQueue();
      }
    }

    method SendCommand(action: Action) returns (isAccepted: bool)
      modifies this
      ensures View() == ChatSocketSpec.SendCommand(old(View()), action)
      ensures isAccepted == old(Ready())
    {
      isAccepted := Ready();
      if isAccepted {
        queue := queue + [Command(accepted, action)];
        accepted := accepted + 1;
        FlushQueue();
      }
    }

    method CommandTimerFired(t: TimerId)
      modifies this
      ensures View() == ChatSocketSpec.CommandTimerFired(old(View()), t)
    {
      timers := timers - {t};
      if pending.None? {
        return;
      }
      SettlePending(TimedOut);
      FlushQueue();
    }

    method ScheduleReconnect(jitter: nat)
      modifies this`reconnectAttempt, this`reconnectTimer, this`timers, this`nextHandle, this`delays
      ensures View() == ChatSocketSpec.ScheduleReconnect(old(View()), jitter)
    {
      if closedByUser || reconnectTimer.Some? {
        return;
      }
      reconnectAttempt := reconnectAttempt + 1;
      var delay := BackoffBase(reconnectAttempt) + jitter;
      var timer := SetTimeout(Reconnect(now + delay));
      reconnectTimer := Some(timer);
      delays := delays + [delay];
    }

    method Connect() returns (promise: Option<SocketId>)
      modifies this`closedByUser, this`nextHandle, this`sockets, this`socket, this`connectionPromise
      ensures (View(), promise) == ChatSocketSpec.Connect(old(View()))
    {
      if Ready() {
        return None;
      }
      if connectionPromise.Some? {
        return connectionPromise;
      }
      closedByUser := false;
      var ws := nextHandle;
      nextHandle := nextHandle + 1;
      sockets := sockets[ws := Connecting];
      socket := Some(ws);
      connectionPromise := Some(ws);
      return connectionPromise;
    }

    method ReconnectTimerFired(t: TimerId)
      modifies this
      ensures View() == ChatSocketSpec.ReconnectTimerFired(old(View()), t)
    {
      timers := timers - {t};
      reconnectTimer := None;
      var promise := Connect();
      if promise.None? {
        ReconnectSucceeded();
      } else {
        retries := retries + {promise.value};
      }
    }

    method ReconnectSucceeded()
      modifies this`reconnectAttempt, this`delays
      ensures View() == Restored(old(View()))
    {
      reconnectAttempt := 0;
      delays := [];
    }

    method OnOpen(ws: SocketId)
      modifies this
      ensures View() == Opened(old(View()), ws)
    {
      sockets := sockets[ws := Open];
      connectionPromise := None;
      FlushQueue();
      PromiseResolved(ws);
    }

    /** Runs the continuation of the reconnect attempt that awaits `ws`, if there is one. */
    method PromiseResolved(ws: SocketId)
      modifies this`retries, this`reconnectAttempt, this`delays
      ensures View() == Resolved(old(View()), ws)
    {
      if ws in retries {
        retries := retries - {ws};
        ReconnectSucceeded();
      }
    }

    method OnError(ws: SocketId, jitter: nat)
      modifies this
      ensures View() == ErrorEvent(old(View()), ws, jitter)
    {
      connectionPromise := None;
      if ws in retries {
        retries := retries - {ws};
        ScheduleReconnect(jitter);
      }
    }

    method OnClose(jitter: nat)
      modifies this
      ensures View() == CloseEvent(old(View()), jitter)
    {
      connectionPromise := None;
      RejectAllPending();
      if !closedByUser {
        ScheduleReconnect(jitter);
      }
    }

    /** The socket is gone: the error event if the connection failed, then the close event. */
    method OnDropped(ws: SocketId, failed: bool, jitter: nat)
      modifies this
      ensures View() == Dropped(old(View()), ws, failed, jitter)
    {
      sockets := sockets[ws := Closed];
      if failed {
        OnError(ws, jitter);
      }
      OnClose(jitter);
    }

    method Close()
      modifies this
      ensures View() == ChatSocketSpec.Close(old(View()))
    {
      StopReconnecting();
      RejectAllPending();
      AbandonSocket();
    }

    method StopReconnecting()
      modifies this`closedByUser, this`timers, this`reconnectTimer, this`connectionPromise
      ensures View() == CancelReconnect(old(View()))
    {
      closedByUser := true;
      if reconnectTimer.Some? {
        timers := timers - {reconnectTimer.value};
        reconnectTimer := None;
      }
      connectionPromise := None;
    }

    method AbandonSocket()
      modifies this`sockets, this`socket
      ensures View() == DetachSocket(old(View()))
    {
      if socket.Some? && socket.value in sockets && sockets[socket.value] != Closed {
        sockets := sockets[socket.value := Closing];
      }
      socket := None;
    }
  }
}
