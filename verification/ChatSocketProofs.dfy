/** What every run of the chat command engine keeps. */
module ChatSocketProofs {
  import opened Options
  import opened ChatSocketSpec

  // ----- Invariants -----

  function InFlight(s: State): nat { if s.pending.Some? then 1 else 0 }

  /** Commands accepted so far are, in submission order: the settled ones, the pending one, the queued ones. */
  ghost predicate Conserved(s: State) {
    && (forall i :: 0 <= i < |s.settled| ==> s.settled[i].cmd == i)
    && (s.pending.Some? ==> s.pending.value.cmd.id == |s.settled|)
    && (forall i :: 0 <= i < |s.queue| ==> s.queue[i].id == |s.settled| + InFlight(s) + i)
    && s.accepted == |s.settled| + InFlight(s) + |s.queue|
  }

  /** The only live timers are the pending command's own and the one reconnect timer. */
  ghost predicate TimersOwned(s: State) {
    && (forall t :: t in s.timers ==> t < s.nextHandle)
    && (forall t :: t in s.timers && s.timers[t].CommandTimeout? ==> s.pending.Some? && s.pending.value.timer == t)
    && (forall t :: t in s.timers && s.timers[t].Reconnect? ==> s.reconnectTimer == Some(t))
    && (s.pending.Some? ==>
          var t := s.pending.value.timer;
          && t in s.timers && s.timers[t].CommandTimeout?
          && s.timers[t].cmd == s.pending.value.cmd.id && s.timers[t].due <= s.now + COMMAND_TIMEOUT_MS)
    && (s.reconnectTimer.Some? ==> s.reconnectTimer.value in s.timers && s.timers[s.reconnectTimer.value].Reconnect?)
  }

  /** Commands go out in submission order under increasing request ids; an answer that names an id settles
      the command sent under it. */
  ghost predicate RequestsOwned(s: State) {
    && (forall i, j :: 0 <= i < j < |s.sent| ==>
          s.sent[i].requestId < s.sent[j].requestId && s.sent[i].cmd < s.sent[j].cmd)
    && (forall i :: 0 <= i < |s.sent| ==>
          s.sent[i].requestId < s.nextRequestId && s.sent[i].cmd < |s.settled| + InFlight(s))
    && (s.pending.Some? ==> Sent(s.pending.value.requestId, s.pending.value.cmd.id) in s.sent)
    && (forall i :: 0 <= i < |s.settled| ==> AnsweredByItsOwn(s, s.settled[i]))
  }

  ghost predicate AnsweredByItsOwn(s: State, x: Settlement) {
    ((x.how.Answered? || x.how.Failed?) && x.how.requestId.Some?) ==>
      (x.how.requestId.value >= 0 && Sent(x.how.requestId.value, x.cmd) in s.sent)
  }

  /** At rest, a queue behind an open socket is waiting for a pending command. */
  ghost predicate Progressing(s: State) {
    IsOpen(s) && s.queue != [] ==> s.pending.Some?
  }

  ghost predicate Reconnecting(s: State) {
    && (s.closedByUser ==> s.reconnectTimer.None? && s.socket.None?)
    && (s.socket.Some? ==> s.socket.value in s.sockets)
    && (forall ws :: ws in s.sockets ==> ws < s.nextHandle)
    && (s.connectionPromise.Some? ==> s.socket == s.connectionPromise && s.sockets[s.socket.value] == Connecting)
    // a dropped connection is always being retried
    && (s.socket.Some? && s.sockets[s.socket.value] == Closed ==> s.reconnectTimer.Some?)
  }

  /** The n-th attempt in a row waits between its backoff base and 500 ms more. */
  ghost predicate BackedOff(s: State) {
    && |s.delays| == s.reconnectAttempt
    && forall i :: 0 <= i < |s.delays| ==> BackoffBase(i + 1) <= s.delays[i] < BackoffBase(i + 1) + 500
  }

  ghost predicate Inv(s: State) {
    Conserved(s) && TimersOwned(s) && RequestsOwned(s) && Progressing(s) && Reconnecting(s) && BackedOff(s)
  }

  // ----- Each operation keeps them -----

  lemma FlushKeeps(s: State)
    requires Conserved(s) && TimersOwned(s) && RequestsOwned(s)
    ensures var r := FlushQueue(s); Conserved(r) && TimersOwned(r) && RequestsOwned(r) && Progressing(r)
    ensures Reconnecting(s) ==> Reconnecting(FlushQueue(s))
    ensures BackedOff(s) ==> BackedOff(FlushQueue(s))
  {
    FlushKeepsRequests(s);
  }

  lemma FlushKeepsRequests(s: State)
    requires Conserved(s) && RequestsOwned(s)
    ensures RequestsOwned(FlushQueue(s))
  {
    var r := FlushQueue(s);
    if r != s {
      assert r.sent[|s.sent|] == Sent(s.nextRequestId, s.queue[0].id);
      assert forall x :: x in s.sent ==> x in r.sent;
      assert forall i :: 0 <= i < |r.settled| ==> AnsweredByItsOwn(s, r.settled[i]);
    }
  }

  lemma SettleKeeps(s: State, how: How)
    requires Conserved(s) && TimersOwned(s) && RequestsOwned(s) && s.pending.Some?
    requires how.Answered? || how.Failed? ==> how.requestId.Some? ==> how.requestId.value == s.pending.value.requestId
    ensures var r := Settle(s, how); Conserved(r) && TimersOwned(r) && RequestsOwned(r)
  {
    var r := Settle(s, how);
    forall i | 0 <= i < |r.settled|
      ensures AnsweredByItsOwn(r, r.settled[i])
    {
      assert i < |s.settled| ==> AnsweredByItsOwn(s, s.settled[i]);
    }
  }

  lemma {:induction false} RejectionsInOrder(queue: seq<Command>, now: int)
    ensures |Rejections(queue, now)| == |queue|
    ensures forall i :: 0 <= i < |queue| ==> Rejections(queue, now)[i] == Settlement(queue[i].id, Disconnected, now)
    decreases queue
  {
    if queue != [] {
      RejectionsInOrder(queue[1..], now);
    }
  }

  lemma RejectAllKeeps(s: State)
    requires Conserved(s) && TimersOwned(s) && RequestsOwned(s)
    ensures var r := RejectAllPending(s); Conserved(r) && TimersOwned(r) && RequestsOwned(r) && Progressing(r)
    ensures |RejectAllPending(s).settled| == s.accepted
  {
    var s1 := if s.pending.Some? then Settle(s, Disconnected) else s;
    if s.pending.Some? {
      SettleKeeps(s, Disconnected);
    }
    RejectionsInOrder(s1.queue, s1.now);
    var r := RejectAllPending(s);
    forall i | 0 <= i < |r.settled|
      ensures r.settled[i].cmd == i && AnsweredByItsOwn(r, r.settled[i])
    {
      assert i < |s1.settled| ==> AnsweredByItsOwn(s1, s1.settled[i]);
    }
  }

  lemma SettleAndFlushKeeps(s: State, how: How)
    requires Inv(s) && s.pending.Some?
    requires how.Answered? || how.Failed? ==> how.requestId.Some? ==> how.requestId.value == s.pending.value.requestId
    ensures Inv(SettleAndFlush(s, how))
  {
    SettleKeeps(s, how);
    FlushKeeps(Settle(s, how));
  }

  lemma MessageKeeps(s: State, m: Message)
    requires Inv(s)
    ensures Inv(HandleMessage(s, m))
  {
    if HandleMessage(s, m) != s {
      SettleAndFlushKeeps(s, match m case Ack(id) => Answered(id) case Error(id) => Failed(id) case _ => Replied);
    }
  }

  lemma AcceptKeeps(s: State, action: Action)
    requires Inv(s)
    ensures var r := Accepted(s, action);
            Conserved(r) && TimersOwned(r) && RequestsOwned(r) && Reconnecting(r) && BackedOff(r)
  {
    SameRequests(s, Accepted(s, action));
  }

  lemma SendKeeps(s: State, action: Action)
    requires Inv(s)
    ensures Inv(SendCommand(s, action))
  {
    if IsOpen(s) {
      AcceptKeeps(s, action);
      FlushKeeps(Accepted(s, action));
    }
  }

  lemma CommandTimeoutKeeps(s: State, t: TimerId)
    requires Inv(s) && t in s.timers && s.timers[t].CommandTimeout?
    ensures CommandTimerFired(s, t) == SettleAndFlush(s, TimedOut)
    ensures Inv(CommandTimerFired(s, t))
  {
    assert s.timers - {t} - {t} == s.timers - {t};
    SettleAndFlushKeeps(s, TimedOut);
  }

  lemma ScheduleKeeps(s: State, jitter: nat)
    requires Conserved(s) && TimersOwned(s) && RequestsOwned(s) && Progressing(s) && BackedOff(s) && jitter < 500
    ensures var r := ScheduleReconnect(s, jitter);
            && Conserved(r) && TimersOwned(r) && RequestsOwned(r) && Progressing(r) && BackedOff(r)
            && (s.closedByUser || r.reconnectTimer.Some?)
            && (s.closedByUser ==> r == s)
  {
    SameRequests(s, ScheduleReconnect(s, jitter));
  }

  /** Request ownership depends on four fields only. */
  lemma SameRequests(s: State, r: State)
    requires r.sent == s.sent && r.settled == s.settled && r.nextRequestId == s.nextRequestId && r.pending == s.pending
    ensures RequestsOwned(r) == RequestsOwned(s)
  {
    assert forall x :: AnsweredByItsOwn(r, x) == AnsweredByItsOwn(s, x);
  }

  lemma ConnectKeeps(s: State)
    requires Inv(s)
    ensures Inv(Connect(s).0)
  {
    SameRequests(s, Connect(s).0);
  }

  lemma ReconnectTimeoutKeeps(s: State, t: TimerId)
    requires Inv(s) && t in s.timers && s.timers[t].Reconnect?
    ensures Inv(ReconnectTimerFired(s, t))
  {
    SameRequests(s, ReconnectTimerFired(s, t));
  }

  lemma RestoredKeeps(s: State, ws: SocketId)
    requires Inv(s)
    ensures Inv(Restored(s.(retries := s.retries - {ws})))
  {
    SameRequests(s, Restored(s.(retries := s.retries - {ws})));
  }

  lemma OpenedKeeps(s: State, ws: SocketId)
    requires Inv(s) && Enabled(s, SocketOpens(ws))
    ensures Inv(Opened(s, ws))
  {
    var s0 := s.(sockets := s.sockets[ws := Open], connectionPromise := None);
    SameRequests(s, s0);
    assert Reconnecting(s0) && BackedOff(s0);
    FlushKeeps(s0);
    RestoredKeeps(FlushQueue(s0), ws);
  }

  lemma CloseEventKeeps(s: State, jitter: nat)
    requires BeforeCloseEvent(s) && jitter < 500
    ensures Inv(CloseEvent(s, jitter))
  {
    var s0 := s.(connectionPromise := None);
    SameRequests(s, s0);
    RejectAllKeeps(s0);
    ScheduleKeeps(RejectAllPending(s0), jitter);
  }

  /** What the close event needs; only a closed socket without a reconnect timer may be amiss. */
  ghost predicate BeforeCloseEvent(s: State) {
    && Conserved(s) && TimersOwned(s) && RequestsOwned(s) && BackedOff(s)
    && (s.closedByUser ==> s.reconnectTimer.None? && s.socket.None?)
    && (s.socket.Some? ==> s.socket.value in s.sockets)
    && (forall ws :: ws in s.sockets ==> ws < s.nextHandle)
  }

  lemma ErrorEventKeeps(s: State, ws: SocketId, jitter: nat)
    requires BeforeCloseEvent(s) && jitter < 500 && (IsOpen(s) ==> Progressing(s))
    ensures BeforeCloseEvent(ErrorEvent(s, ws, jitter))
  {
    if ws in s.retries {
      var s1 := s.(connectionPromise := None, retries := s.retries - {ws});
      SameRequests(s, s1);
      ScheduleKeeps(s1, jitter);
    } else {
      SameRequests(s, s.(connectionPromise := None));
    }
  }

  lemma DroppedKeeps(s: State, ws: SocketId, failed: bool, jitter: nat)
    requires Inv(s) && Enabled(s, SocketDrops(ws, failed, jitter))
    ensures Inv(Dropped(s, ws, failed, jitter))
  {
    var s1 := s.(sockets := s.sockets[ws := Closed]);
    SameRequests(s, s1);
    assert BeforeCloseEvent(s1);
    if failed {
      ErrorEventKeeps(s1, ws, jitter);
    }
    CloseEventKeeps(if failed then ErrorEvent(s1, ws, jitter) else s1, jitter);
  }

  lemma CloseKeeps(s: State)
    requires Inv(s)
    ensures Inv(Close(s))
  {
    var s1 := CancelReconnect(s);
    SameRequests(s, s1);
    RejectAllKeeps(s1);
    SameRequests(RejectAllPending(s1), Close(s));
  }

  lemma StepKeeps(s: State, e: Event)
    requires Inv(s) && Enabled(s, e)
    ensures Inv(Step(s, e))
  {
    match e
    case Tick(to) => SameRequests(s, Step(s, e));
    case TimerFires(t) =>
      if s.timers[t].CommandTimeout? { CommandTimeoutKeeps(s, t); } else { ReconnectTimeoutKeeps(s, t); }
    case UserSends(action) => SendKeeps(s, action);
    case UserConnects => ConnectKeeps(s);
    case UserCloses => CloseKeeps(s);
    case SocketOpens(ws) => OpenedKeeps(s, ws);
    case SocketStartsClosing(ws) => SameRequests(s, Step(s, e));
    case SocketDrops(ws, failed, jitter) => DroppedKeeps(s, ws, failed, jitter);
    case Delivers(ws, m) => MessageKeeps(s, m);
  }

  lemma {:induction false} RunKeeps(s: State, es: seq<Event>)
    requires Inv(s) && IsRun(s, es)
    ensures Inv(After(s, es))
    decreases es
  {
    if es != [] {
      StepKeeps(s, es[0]);
      RunKeeps(Step(s, es[0]), es[1..]);
    }
  }

  /** Every run from a fresh client. */
  lemma EveryRunIsSound(es: seq<Event>)
    requires IsRun(INITIAL, es)
    ensures Inv(After(INITIAL, es))
  {
    RunKeeps(INITIAL, es);
  }

  // ----- Settling -----

  lemma SettleAndFlushAppends(s: State, how: How)
    requires s.pending.Some?
    ensures s.settled <= SettleAndFlush(s, how).settled && s.sent <= SettleAndFlush(s, how).sent
  {
  }

  lemma RejectAllAppends(s: State)
    ensures s.settled <= RejectAllPending(s).settled && s.sent == RejectAllPending(s).sent
  {
    var s1 := if s.pending.Some? then Settle(s, Disconnected) else s;
    assert s.settled <= s1.settled <= s1.settled + Rejections(s1.queue, s1.now);
  }

  lemma DropAppends(s: State, ws: SocketId, failed: bool, jitter: nat)
    ensures s.settled <= Dropped(s, ws, failed, jitter).settled && s.sent == Dropped(s, ws, failed, jitter).sent
  {
    var s1 := s.(sockets := s.sockets[ws := Closed]);
    RejectAllAppends((if failed then ErrorEvent(s1, ws, jitter) else s1).(connectionPromise := None));
  }

  lemma CloseAppends(s: State)
    ensures s.settled <= Close(s).settled && s.sent == Close(s).sent
  {
    RejectAllAppends(CancelReconnect(s));
  }

  lemma StepOnlyAppends(s: State, e: Event)
    requires Inv(s) && Enabled(s, e)
    ensures s.settled <= Step(s, e).settled && s.sent <= Step(s, e).sent
  {
    match e
    case TimerFires(t) =>
      if s.timers[t].CommandTimeout? {
        CommandTimeoutKeeps(s, t);
        SettleAndFlushAppends(s, TimedOut);
      }
    case Delivers(ws, m) =>
      if HandleMessage(s, m) != s {
        SettleAndFlushAppends(s, match m case Ack(id) => Answered(id) case Error(id) => Failed(id) case _ => Replied);
      }
    case SocketDrops(ws, failed, jitter) => DropAppends(s, ws, failed, jitter);
    case UserCloses => CloseAppends(s);
    case _ =>
  }

  /** What has been settled stays settled the same way, and what has been sent stays sent. */
  lemma {:induction false} SettledIsFinal(s: State, es: seq<Event>)
    requires Inv(s) && IsRun(s, es)
    ensures s.settled <= After(s, es).settled && s.sent <= After(s, es).sent
    decreases es
  {
    if es != [] {
      StepKeeps(s, es[0]);
      StepOnlyAppends(s, es[0]);
      SettledIsFinal(Step(s, es[0]), es[1..]);
    }
  }

  /** A timeout rejects the command it was started for, although its callback takes whatever is pending. */
  lemma TimeoutRejectsItsOwn(s: State, t: TimerId)
    requires Inv(s) && Enabled(s, TimerFires(t)) && s.timers[t].CommandTimeout?
    ensures Step(s, TimerFires(t)).settled == s.settled + [Settlement(s.timers[t].cmd, TimedOut, s.now)]
    ensures Sent(s.pending.value.requestId, s.timers[t].cmd) in s.sent
  {
    CommandTimeoutKeeps(s, t);
  }

  predicate IsAnswer(m: Message, requestId: Option<int>) {
    m == Ack(requestId) || m == Error(requestId)
  }

  /** An answer that carries the id of the command it answers settles that command or nothing. */
  lemma AnswerSettlesItsOwn(s: State, requestId: nat, cmd: nat, m: Message)
    requires Inv(s) && Sent(requestId, cmd) in s.sent && IsAnswer(m, Some(requestId))
    ensures var r := HandleMessage(s, m);
            if s.pending.Some? && s.pending.value.cmd.id == cmd then
              var how := if m.Ack? then Answered(Some(requestId)) else Failed(Some(requestId));
              r.settled == s.settled + [Settlement(cmd, how, s.now)]
            else r == s
  {
    if s.pending.Some? {
      IdsAreUnique(s, Sent(requestId, cmd), Sent(s.pending.value.requestId, s.pending.value.cmd.id));
    }
  }

  lemma IdsAreUnique(s: State, x: Sent, y: Sent)
    requires RequestsOwned(s) && x in s.sent && y in s.sent
    ensures x.requestId == y.requestId <==> x.cmd == y.cmd
  {
    var i :| 0 <= i < |s.sent| && s.sent[i] == x;
    var j :| 0 <= j < |s.sent| && s.sent[j] == y;
    assert i < j || i == j || j < i;
  }

  predicate SettlesAnother(s: State, m: Message, cmd: nat) {
    var r := HandleMessage(s, m);
    |r.settled| > |s.settled| && r.settled[|s.settled|].cmd != cmd
  }

  /** An answer to `cmd` settles a different command exactly when the server left the id out and `cmd` is no
      longer the one in flight. */
  lemma MisdeliveredIff(s: State, requestId: nat, cmd: nat, carried: Option<int>, m: Message)
    requires Inv(s) && Sent(requestId, cmd) in s.sent
    requires (carried == None || carried == Some(requestId)) && IsAnswer(m, carried)
    ensures SettlesAnother(s, m, cmd) <==> (carried == None && s.pending.Some? && s.pending.value.cmd.id != cmd)
  {
    if carried.Some? {
      AnswerSettlesItsOwn(s, requestId, cmd, m);
    }
  }

  /** It happens: the first command times out, the second is sent, and the late answer to the first, which carries
      no id, resolves the second. */
  lemma LateAnonymousAnswerIsMisdelivered()
    ensures exists es :: IsRun(INITIAL, es) && After(INITIAL, es).settled
              == [Settlement(0, TimedOut, 10000), Settlement(1, Answered(None), 10000)]
  {
    var first, second := OtherAction("get_messages"), OtherAction("get_servers");
    var late := LateAnswer(BothSent(first, second), first, second);
    var es := BothAreSent(first, second, late);
  }

  /** A fresh client has connected and sent one command, with another one waiting. */
  function BothSent(first: Action, second: Action): State {
    State(Some(0), Some(Pending(Command(0, first), 1, 1)), [Command(1, second)], 2, None, 0, None, false,
          0, map[0 := Open], map[1 := CommandTimeout(10000, 0)], 2, {}, 2, [Sent(1, 0)], [], [])
  }

  lemma BothAreSent(first: Action, second: Action, rest: seq<Event>) returns (es: seq<Event>)
    requires IsRun(BothSent(first, second), rest)
    ensures IsRun(INITIAL, es) && After(INITIAL, es) == After(BothSent(first, second), rest)
  {
    var s1 := Step(INITIAL, UserConnects);
    var s2 := Step(s1, SocketOpens(0));
    assert s2 == INITIAL.(socket := Some(0), sockets := map[0 := Open], nextHandle := 1);
    var s3 := Step(s2, UserSends(first));
    assert s3 == BothSent(first, second).(queue := [], accepted := 1);
    assert Step(s3, UserSends(second)) == BothSent(first, second);
    es := RunFirst(s3, UserSends(second), rest);
    es := RunFirst(s2, UserSends(first), es);
    es := RunFirst(s1, SocketOpens(0), es);
    es := RunFirst(INITIAL, UserConnects, es);
  }

  lemma LateAnswer(s: State, first: Action, second: Action) returns (es: seq<Event>)
    requires s.pending == Some(Pending(Command(0, first), 1, 1)) && s.queue == [Command(1, second)]
    requires IsOpen(s) && s.socket == Some(0) && s.now == 0 && s.settled == []
    requires 1 in s.timers && s.timers[1] == CommandTimeout(10000, 0)
    ensures IsRun(s, es)
    ensures After(s, es).settled == [Settlement(0, TimedOut, 10000), Settlement(1, Answered(None), 10000)]
  {
    var s1 := Step(s, Tick(10000));
    var s2 := Step(s1, TimerFires(1));
    assert s2.pending.Some? && s2.pending.value.cmd == Command(1, second);
    assert s2.settled == [Settlement(0, TimedOut, 10000)];
    var late := Delivers(0, Ack(None));
    assert Step(s2, late).settled == s2.settled + [Settlement(1, Answered(None), 10000)];
    es := RunFirst(s2, late, []);
    es := RunFirst(s1, TimerFires(1), es);
    es := RunFirst(s, Tick(10000), es);
  }

  lemma RunFirst(s: State, e: Event, rest: seq<Event>) returns (es: seq<Event>)
    requires Enabled(s, e) && IsRun(Step(s, e), rest)
    ensures IsRun(s, es) && After(s, es) == After(Step(s, e), rest)
  {
    es := [e] + rest;
    assert es[1..] == rest;
  }

  /** The replies that say what was done, but not to which request. */
  predicate IsReply(m: Message, action: Action) {
    || (action.OpenDM? && m == DMOpened(action.peer))
    || (action == ListDMs && m == DMList)
    || (action == CloseDM && m == DMClosed)
    || (action == SearchUsers && m == UserSearch)
  }

  /** A reply to `cmd` settles a different command exactly when the one in flight is another with the same action; it
      settles `cmd` itself exactly when that is still in flight, and nothing otherwise. */
  lemma ReplyMisdeliveredIff(s: State, cmd: Command, m: Message)
    requires IsReply(m, cmd.action)
    requires (s.pending.Some? && s.pending.value.cmd.id == cmd.id ==> s.pending.value.cmd == cmd)
    ensures SettlesAnother(s, m, cmd.id) <==>
            s.pending.Some? && s.pending.value.cmd.id != cmd.id && s.pending.value.cmd.action == cmd.action
    ensures HandleMessage(s, m) == s <==> s.pending.None? || s.pending.value.cmd.action != cmd.action
    ensures s.pending.Some? && s.pending.value.cmd == cmd ==>
            HandleMessage(s, m).settled == s.settled + [Settlement(cmd.id, Replied, s.now)]
  {
    if s.pending.Some? && s.pending.value.cmd.action == cmd.action {
      SettleAndFlushAppends(s, Replied);
      assert HandleMessage(s, m).settled == s.settled + [Settlement(s.pending.value.cmd.id, Replied, s.now)];
    }
  }

  /** It happens: a search times out, a second one is sent, and the first one's late result answers it. */
  lemma LateReplyIsMisdelivered()
    ensures exists es :: IsRun(INITIAL, es) && After(INITIAL, es).settled
              == [Settlement(0, TimedOut, 10000), Settlement(1, Replied, 10000)]
  {
    var late := LateReply(BothSent(SearchUsers, SearchUsers));
    var es := BothAreSent(SearchUsers, SearchUsers, late);
  }

  lemma LateReply(s: State) returns (es: seq<Event>)
    requires s.pending == Some(Pending(Command(0, SearchUsers), 1, 1)) && s.queue == [Command(1, SearchUsers)]
    requires IsOpen(s) && s.socket == Some(0) && s.now == 0 && s.settled == []
    requires 1 in s.timers && s.timers[1] == CommandTimeout(10000, 0)
    ensures IsRun(s, es)
    ensures After(s, es).settled == [Settlement(0, TimedOut, 10000), Settlement(1, Replied, 10000)]
  {
    var s1 := Step(s, Tick(10000));
    var s2 := Step(s1, TimerFires(1));
    assert s2.pending.Some? && s2.pending.value.cmd == Command(1, SearchUsers);
    assert s2.settled == [Settlement(0, TimedOut, 10000)];
    var late := Delivers(0, UserSearch);
    assert Step(s2, late).settled == s2.settled + [Settlement(1, Replied, 10000)];
    es := RunFirst(s2, late, []);
    es := RunFirst(s1, TimerFires(1), es);
    es := RunFirst(s, Tick(10000), es);
  }

  // ----- The socket must be open -----

  predicate OnOpenSocket(s: State) {
    exists ws :: ws in s.sockets && s.socket == Some(ws) && s.sockets[ws] == Open
  }

  /** A command submitted while the client's socket is not open is refused and changes nothing. One submitted on an open
      socket is accepted: it is the next to be settled, in flight or queued. */
  lemma SubmittedIff(s: State, action: Action)
    requires Inv(s)
    ensures var s' := SendCommand(s, action);
            if OnOpenSocket(s) then
              && s'.accepted == s.accepted + 1 && s'.settled == s.settled
              && (s.pending.Some? ==> s'.queue == s.queue + [Command(s.accepted, action)] && s'.sent == s.sent)
              && (s.pending.None? ==> s'.pending.Some? && s'.pending.value.cmd == Command(s.accepted, action)
                                      && s'.sent == s.sent + [Sent(s.nextRequestId, s.accepted)])
            else s' == s
  {
    if OnOpenSocket(s) && s.pending.None? {
      assert s.queue == [];
      assert Accepted(s, action).queue[0] == Command(s.accepted, action);
    }
  }

  lemma FlushNeedsOpen(s: State)
    ensures FlushQueue(s).sent != s.sent ==> OnOpenSocket(FlushQueue(s))
  {
  }

  /** Commands go out on an open socket only, whatever triggers it. */
  lemma SendsNeedAnOpenSocket(s: State, e: Event)
    requires Inv(s) && Enabled(s, e)
    ensures Step(s, e).sent != s.sent ==> OnOpenSocket(Step(s, e))
  {
    match e
    case TimerFires(t) =>
      if s.timers[t].CommandTimeout? {
        CommandTimeoutKeeps(s, t);
        FlushNeedsOpen(Settle(s, TimedOut));
      }
    case Delivers(ws, m) =>
      if HandleMessage(s, m) != s {
        FlushNeedsOpen(Settle(s, match m case Ack(id) => Answered(id) case Error(id) => Failed(id) case _ => Replied));
      }
    case UserSends(action) => if IsOpen(s) { FlushNeedsOpen(Accepted(s, action)); }
    case SocketOpens(ws) => FlushNeedsOpen(s.(sockets := s.sockets[ws := Open], connectionPromise := None));
    case SocketDrops(ws, failed, jitter) => DropAppends(s, ws, failed, jitter);
    case UserCloses => CloseAppends(s);
    case _ =>
  }

  // ----- How long a command can wait -----

  /** The clock has not passed a live command timer. */
  ghost predicate Timely(s: State) {
    forall t :: t in s.timers && s.timers[t].CommandTimeout? ==> s.now <= s.timers[t].due
  }

  ghost predicate StaysOpenAndTimely(s: State, es: seq<Event>)
    decreases es
  {
    IsOpen(s) && Timely(s) && (es == [] || StaysOpenAndTimely(Step(s, es[0]), es[1..]))
  }

  /** Command `cmd` was settled by `limit`, or is bound to be: each command ahead of it costs one timeout at most. */
  ghost predicate DueBy(s: State, cmd: nat, limit: int) {
    && cmd < s.accepted
    && if cmd < |s.settled| then s.settled[cmd].at <= limit
       else
         && s.pending.Some? && s.pending.value.timer in s.timers
         && s.timers[s.pending.value.timer].due + (cmd - |s.settled|) * COMMAND_TIMEOUT_MS <= limit
  }

  lemma SettlingKeepsDue(s: State, how: How, cmd: nat, limit: int)
    requires Inv(s) && s.pending.Some? && IsOpen(s) && Timely(s) && DueBy(s, cmd, limit)
    ensures DueBy(SettleAndFlush(s, how), cmd, limit)
  {
    var s1 := Settle(s, how);
    assert s1.settled[..|s.settled|] == s.settled;
    if cmd > |s.settled| {
      assert s1.queue != [];
      assert (cmd - |s.settled|) * COMMAND_TIMEOUT_MS == (cmd - |s1.settled|) * COMMAND_TIMEOUT_MS + COMMAND_TIMEOUT_MS;
    }
  }

  lemma DropKeepsDue(s: State, ws: SocketId, failed: bool, jitter: nat, cmd: nat, limit: int)
    requires Inv(s) && Enabled(s, SocketDrops(ws, failed, jitter)) && Timely(s) && DueBy(s, cmd, limit)
    ensures DueBy(Dropped(s, ws, failed, jitter), cmd, limit)
  {
    var s1 := s.(sockets := s.sockets[ws := Closed]);
    var s2 := (if failed then ErrorEvent(s1, ws, jitter) else s1).(connectionPromise := None);
    var s3 := if s2.pending.Some? then Settle(s2, Disconnected) else s2;
    RejectionsInOrder(s3.queue, s3.now);
    var r := Dropped(s, ws, failed, jitter);
    assert r.settled == s3.settled + Rejections(s3.queue, s3.now);
    if |s.settled| <= cmd {
      assert s.now <= s.timers[s.pending.value.timer].due;
      assert r.settled[cmd].at == s.now;
    }
  }

  lemma StepKeepsDue(s: State, e: Event, cmd: nat, limit: int)
    requires Inv(s) && Enabled(s, e) && IsOpen(s) && Timely(s) && IsOpen(Step(s, e)) && DueBy(s, cmd, limit)
    ensures DueBy(Step(s, e), cmd, limit)
  {
    match e
    case TimerFires(t) =>
      if s.timers[t].CommandTimeout? {
        CommandTimeoutKeeps(s, t);
        SettlingKeepsDue(s, TimedOut, cmd, limit);
      }
    case SocketDrops(ws, failed, jitter) => DropKeepsDue(s, ws, failed, jitter, cmd, limit);
    case Delivers(ws, m) =>
      if HandleMessage(s, m) != s {
        var how := match m case Ack(id) => Answered(id) case Error(id) => Failed(id) case _ => Replied;
        SettlingKeepsDue(s, how, cmd, limit);
      }
    case _ =>
  }

  lemma {:induction false} RunKeepsDue(s: State, es: seq<Event>, cmd: nat, limit: int)
    requires Inv(s) && IsRun(s, es) && StaysOpenAndTimely(s, es) && DueBy(s, cmd, limit)
    ensures DueBy(After(s, es), cmd, limit) && Timely(After(s, es)) && Inv(After(s, es))
    decreases es
  {
    if es != [] {
      StepKeeps(s, es[0]);
      StepKeepsDue(s, es[0], cmd, limit);
      RunKeepsDue(Step(s, es[0]), es[1..], cmd, limit);
    }
  }

  /** A command submitted with k commands ahead of it is settled within (k + 1) timeouts, as long as the socket stays
      open and command timers fire on time. */
  lemma BoundedWait(s: State, action: Action, es: seq<Event>)
    requires Inv(s) && IsOpen(s) && Timely(s)
    requires IsRun(SendCommand(s, action), es) && StaysOpenAndTimely(SendCommand(s, action), es)
    ensures var ahead := InFlight(s) + |s.queue|;
            var limit := s.now + (ahead + 1) * COMMAND_TIMEOUT_MS;
            var end := After(SendCommand(s, action), es);
            && (s.accepted < |end.settled| ==> end.settled[s.accepted].at <= limit)
            && (end.now > limit ==> s.accepted < |end.settled|)
  {
    var s1 := SendCommand(s, action);
    SendKeeps(s, action);
    var ahead := InFlight(s) + |s.queue|;
    var limit := s.now + (ahead + 1) * COMMAND_TIMEOUT_MS;
    assert s.accepted == |s.settled| + ahead;
    assert DueBy(s1, s.accepted, limit);
    RunKeepsDue(s1, es, s.accepted, limit);
  }

  // ----- Reconnecting -----

  lemma Pow2Grows(a: nat, b: nat)
    requires a <= b
    ensures Pow2(a) <= Pow2(b)
  {
  }

  /** Waits grow up to the cap. */
  lemma BackoffGrows(a: nat, b: nat)
    requires 0 < a <= b
    ensures 500 <= BackoffBase(a) <= BackoffBase(b) <= 15000
  {
    Pow2Grows(0, a - 1);
    Pow2Grows(a - 1, b - 1);
  }

  // ----- Connecting twice -----

  /** Another socket than `ws` opens or drops. */
  predicate Interferes(e: Event, ws: SocketId) { (e.SocketOpens? || e.SocketDrops?) && e.ws != ws }

  /** `ws` is the client's socket and still connecting. */
  predicate ConnectingOn(s: State, ws: SocketId) {
    s.socket == Some(ws) && ws in s.sockets && s.sockets[ws] == Connecting
  }

  /** While `ws` is being connected its promise is kept, exactly as long as nothing has interfered. */
  ghost predicate Awaits(s: State, ws: SocketId, undisturbed: bool) {
    && ws < s.nextHandle && ws in s.sockets
    && (ConnectingOn(s, ws) ==> (s.connectionPromise == Some(ws) <==> undisturbed))
  }

  /** Nothing about connections is different, and old handles stay old. */
  predicate SameConnections(s: State, s': State) {
    && s'.socket == s.socket && s'.sockets == s.sockets && s'.connectionPromise == s.connectionPromise
    && s'.retries == s.retries && s'.reconnectTimer == s.reconnectTimer && s'.delays == s.delays
    && s'.closedByUser == s.closedByUser && s'.reconnectAttempt == s.reconnectAttempt
    && s'.nextHandle >= s.nextHandle && s'.now == s.now
  }

  lemma FlushSame(s: State)
    ensures SameConnections(s, FlushQueue(s))
  {
  }

  lemma SettleSame(s: State, how: How)
    requires s.pending.Some?
    ensures SameConnections(s, SettleAndFlush(s, how))
  {
    FlushSame(Settle(s, how));
  }

  /** Commands, answers and their timeouts leave connections alone. */
  lemma CommandSame(s: State, e: Event)
    requires Inv(s) && Enabled(s, e)
    requires e.Tick? || e.UserSends? || e.Delivers? || (e.TimerFires? && s.timers[e.timer].CommandTimeout?)
    ensures SameConnections(s, Step(s, e).(now := s.now))
  {
    match e
    case UserSends(action) => FlushSame(Accepted(s, action));
    case Delivers(ws, m) =>
      if HandleMessage(s, m) != s {
        SettleSame(s, match m case Ack(id) => Answered(id) case Error(id) => Failed(id) case _ => Replied);
      }
    case TimerFires(t) =>
      CommandTimeoutKeeps(s, t);
      SettleSame(s, TimedOut);
    case _ =>
  }

  lemma DropConnections(s: State, ws: SocketId, failed: bool, jitter: nat)
    ensures var s' := Dropped(s, ws, failed, jitter);
            && s'.socket == s.socket && s'.sockets == s.sockets[ws := Closed] && s'.connectionPromise.None?
            && s'.nextHandle >= s.nextHandle
  {
  }

  lemma StepAwaits(s: State, e: Event, ws: SocketId, undisturbed: bool)
    requires Inv(s) && Enabled(s, e) && Awaits(s, ws, undisturbed)
    ensures Awaits(Step(s, e), ws, undisturbed && !Interferes(e, ws))
  {
    match e
    case SocketDrops(x, failed, jitter) => DropConnections(s, x, failed, jitter);
    case TimerFires(t) => if s.timers[t].CommandTimeout? { CommandSame(s, e); }
    case SocketOpens(x) => OpenConnections(s, x);
    case UserConnects =>
    case UserCloses =>
    case SocketStartsClosing(x) =>
    case _ => CommandSame(s, e);
  }

  lemma OpenConnections(s: State, ws: SocketId)
    ensures var s' := Opened(s, ws);
            && s'.socket == s.socket && s'.sockets == s.sockets[ws := Open] && s'.connectionPromise.None?
            && s'.nextHandle >= s.nextHandle
  {
    FlushSame(s.(sockets := s.sockets[ws := Open], connectionPromise := None));
  }

  lemma {:induction false} RunAwaits(s: State, es: seq<Event>, ws: SocketId, undisturbed: bool)
    requires Inv(s) && IsRun(s, es) && Awaits(s, ws, undisturbed)
    ensures Inv(After(s, es))
    ensures Awaits(After(s, es), ws, undisturbed && forall e :: e in es ==> !Interferes(e, ws))
    decreases es
  {
    if es != [] {
      StepKeeps(s, es[0]);
      StepAwaits(s, es[0], ws, undisturbed);
      RunAwaits(Step(s, es[0]), es[1..], ws, undisturbed && !Interferes(es[0], ws));
      assert es == [es[0]] + es[1..];
    }
  }

  /** A client that has begun to connect does not open a second socket while the first is still connecting, unless and
      only unless another, older socket has opened or dropped in between: its event handlers forget the promise of the
      new one. */
  lemma ConnectIsNotRepeatedIff(s: State, es: seq<Event>)
    requires Inv(s) && !IsOpen(s) && s.connectionPromise.None? && IsRun(Connect(s).0, es)
    requires ConnectingOn(After(Connect(s).0, es), s.nextHandle)
    ensures var s' := After(Connect(s).0, es);
            && Connect(s).1 == Some(s.nextHandle)
            && (if forall e :: e in es ==> !Interferes(e, s.nextHandle) then Connect(s') == (s', Some(s.nextHandle))
                else Connect(s').0.socket == Some(s'.nextHandle) != s'.socket)
  {
    ConnectKeeps(s);
    RunAwaits(Connect(s).0, es, s.nextHandle, true);
  }

  /** It happens: the connection begins to close, the user connects anew, and the close event of the old socket makes a
      third one be opened beside the second. */
  lemma SecondConnection()
    ensures exists es ::
              && IsRun(INITIAL, es)
              && After(INITIAL, es).socket == Some(3)
              && After(INITIAL, es).sockets == map[0 := Closed, 1 := Connecting, 3 := Connecting]
  {
    var s1 := Step(INITIAL, UserConnects);
    var s2 := Step(s1, SocketOpens(0));
    var s3 := Step(s2, SocketStartsClosing(0));
    var s4 := Step(s3, UserConnects);
    assert s4 == INITIAL.(socket := Some(1), sockets := map[0 := Closing, 1 := Connecting], nextHandle := 2,
                          connectionPromise := Some(1));
    var drop := SocketDrops(0, false, 0);
    DropConnections(s4, 0, false, 0);
    var s5 := Step(s4, drop);
    assert s5.nextHandle == 3;
    var s6 := Step(s5, UserConnects);
    var es := RunFirst(s5, UserConnects, []);
    es := RunFirst(s4, drop, es);
    es := RunFirst(s3, UserConnects, es);
    es := RunFirst(s2, SocketStartsClosing(0), es);
    es := RunFirst(s1, SocketOpens(0), es);
    es := RunFirst(INITIAL, UserConnects, es);
    assert After(INITIAL, es) == s6;
  }

  // ----- Closing -----

  /** After close() nothing is pending, queued or scheduled, ... */
  ghost predicate Quiet(s: State) {
    && s.closedByUser && s.socket.None? && s.pending.None? && s.queue == []
    && s.reconnectTimer.None? && s.timers == map[]
  }

  lemma CloseIsQuiet(s: State)
    requires Inv(s)
    ensures Quiet(Close(s)) && |Close(s).settled| == s.accepted
    ensures Close(s).sockets.Keys == s.sockets.Keys
    ensures forall ws :: ws in s.sockets ==>
              Close(s).sockets[ws] == if s.socket == Some(ws) && s.sockets[ws] != Closed then Closing else s.sockets[ws]
  {
    CloseKeeps(s);
    var r := Close(s);
    assert r.timers.Keys == {};
    assert |r.settled| == r.accepted;
  }

  /** ... and nothing stirs until connect() is called again, whatever the old sockets still report. */
  lemma {:induction false} ClosedStaysQuiet(s: State, es: seq<Event>)
    requires Inv(s) && Quiet(s) && IsRun(s, es) && UserConnects !in es
    ensures Quiet(After(s, es)) && After(s, es).sent == s.sent && After(s, es).settled == s.settled
    decreases es
  {
    if es != [] {
      StepKeeps(s, es[0]);
      assert es[0] in es;
      QuietStep(s, es[0]);
      ClosedStaysQuiet(Step(s, es[0]), es[1..]);
    }
  }

  lemma QuietStep(s: State, e: Event)
    requires Inv(s) && Quiet(s) && Enabled(s, e) && e != UserConnects
    ensures Quiet(Step(s, e)) && Step(s, e).sent == s.sent && Step(s, e).settled == s.settled
  {
  }

  /** While the user has not closed it, a client that ever tried to connect is connected, connecting, closing, or
      has a reconnect attempt scheduled; and there is never more than one such attempt. */
  lemma NeverStranded(es: seq<Event>)
    requires IsRun(INITIAL, es)
    ensures var s := After(INITIAL, es);
            && (s.socket.Some? ==> s.socket.value in s.sockets)
            && (s.socket.Some? && s.sockets[s.socket.value] == Closed ==>
                  s.reconnectTimer.Some? && s.reconnectTimer.value in s.timers)
            && (forall t, u :: t in s.timers && u in s.timers && s.timers[t].Reconnect? && s.timers[u].Reconnect? ==>
                t == u)
            && (s.closedByUser ==> forall t :: t in s.timers ==> !s.timers[t].Reconnect?)
  {
    EveryRunIsSound(es);
  }
}
