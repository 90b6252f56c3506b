/** How long reconnect attempts wait, told by the events of a run alone. */
module ChatSocketBackoff {
  import opened Options
  import opened ChatSocketSpec
  import opened ChatSocketProofs

  /** What an onlooker notes down: the sockets that a fired reconnect timer left connecting, and the waits of the
      attempts scheduled since the last of those that opened. */
  datatype Notes = Notes(retried: set<SocketId>, waits: seq<int>)

  const NOTHING_NOTED := Notes({}, [])

  predicate IsRetry(s: State, e: Event) {
    e.TimerFires? && e.timer in s.timers && s.timers[e.timer].Reconnect?
  }

  /** A retried socket opens, or a retry finds the client's socket open. */
  predicate IsRestoration(s: State, e: Event, n: Notes) {
    (e.SocketOpens? && e.ws in n.retried) || (IsRetry(s, e) && IsOpen(s))
  }

  /** The client's socket, if it is connecting. */
  function Connecting(s: State): set<SocketId> {
    set ws | ws in s.sockets && s.socket == Some(ws) && s.sockets[ws] == ReadyState.Connecting
  }

  /** How long the attempts wait that appear between two states. */
  function NewWaits(s: State, s': State): seq<int> {
    if s'.reconnectTimer.Some? && s'.reconnectTimer != s.reconnectTimer && s'.reconnectTimer.value in s'.timers
    then [s'.timers[s'.reconnectTimer.value].due - s'.now] else []
  }

  function Noted(s: State, e: Event, n: Notes): Notes {
    var s' := Step(s, e);
    Notes(if IsRetry(s, e) then n.retried + Connecting(s') else n.retried,
          (if IsRestoration(s, e, n) then [] else n.waits) + NewWaits(s, s'))
  }

  function NotesAfter(s: State, es: seq<Event>, n: Notes): Notes
    decreases es
  {
    if es == [] then n else NotesAfter(Step(s, es[0]), es[1..], Noted(s, es[0], n))
  }

  /** The notes agree with what the client itself remembers. */
  ghost predicate Agrees(s: State, n: Notes) {
    && n.waits == s.delays
    && (forall ws :: ws in s.sockets && s.sockets[ws] == ReadyState.Connecting ==>
        (ws in n.retried <==> ws in s.retries))
    && (forall ws :: ws in n.retried || ws in s.retries ==> ws < s.nextHandle)
  }

  /** A step that leaves the reconnect timer and the browser's connections alone. */
  lemma SameAgrees(s: State, s': State, n: Notes)
    requires Agrees(s, n) && s'.reconnectTimer == s.reconnectTimer && s'.delays == s.delays
    requires s'.sockets == s.sockets && s'.retries == s.retries && s'.nextHandle >= s.nextHandle
    ensures Agrees(s', n) && NewWaits(s, s') == []
  {
  }

  lemma RejectAllSame(s: State)
    ensures SameConnections(s, RejectAllPending(s))
    ensures RejectAllPending(s).timers == if s.pending.Some? then s.timers - {s.pending.value.timer} else s.timers
  {
  }

  lemma CommandAgrees(s: State, e: Event, n: Notes)
    requires Inv(s) && Agrees(s, n) && Enabled(s, e)
    requires e.Tick? || e.UserSends? || e.Delivers? || (e.TimerFires? && s.timers[e.timer].CommandTimeout?)
    ensures Agrees(Step(s, e), Noted(s, e, n))
  {
    CommandSame(s, e);
    SameAgrees(s, Step(s, e), n);
    assert n.waits + [] == n.waits;
  }

  lemma RetryAgrees(s: State, t: TimerId, n: Notes)
    requires Inv(s) && Agrees(s, n) && Enabled(s, TimerFires(t)) && s.timers[t].Reconnect?
    ensures Agrees(Step(s, TimerFires(t)), Noted(s, TimerFires(t), n))
  {
    var s' := Step(s, TimerFires(t));
    if !IsOpen(s) {
      assert s'.socket.Some? && Connecting(s') == {s'.socket.value};
    } else {
      assert Connecting(s') == {};
    }
    assert n.waits + [] == n.waits;
  }

  lemma OpensAgrees(s: State, ws: SocketId, n: Notes)
    requires Inv(s) && Agrees(s, n) && Enabled(s, SocketOpens(ws))
    ensures Agrees(Step(s, SocketOpens(ws)), Noted(s, SocketOpens(ws), n))
  {
    assert n.waits + [] == n.waits;
  }

  lemma ScheduledWait(s: State, jitter: nat)
    requires TimersOwned(s)
    ensures var s' := ScheduleReconnect(s, jitter);
            && NewWaits(s, s') == (if s.closedByUser || s.reconnectTimer.Some? then []
                                   else [BackoffBase(s.reconnectAttempt + 1) + jitter])
            && s'.delays == s.delays + NewWaits(s, s')
  {
  }

  /** An attempt scheduled before or after everything is rejected. */
  lemma RejectedWait(s: State, jitter: nat)
    requires TimersOwned(s)
    ensures var s1 := RejectAllPending(ScheduleReconnect(s, jitter));
            NewWaits(s, s1) == NewWaits(s, ScheduleReconnect(s, jitter))
    ensures var s2 := ScheduleReconnect(RejectAllPending(s), jitter);
            NewWaits(s, s2) == NewWaits(s, ScheduleReconnect(s, jitter))
            && s2.delays == s.delays + NewWaits(s, s2)
  {
    RejectAllSame(s);
    RejectAllSame(ScheduleReconnect(s, jitter));
    ScheduledWait(s, jitter);
  }

  function WithoutSocket(s: State, ws: SocketId): State {
    s.(sockets := s.sockets[ws := Closed], connectionPromise := None)
  }

  /** A drop schedules at most one attempt: by its error event, or else by its close event. */
  lemma DropIs(s: State, ws: SocketId, failed: bool, jitter: nat)
    ensures Dropped(s, ws, failed, jitter) ==
            if failed && ws in s.retries
            then CloseEvent(ScheduleReconnect(WithoutSocket(s, ws).(retries := s.retries - {ws}), jitter), jitter)
            else CloseEvent(WithoutSocket(s, ws), jitter)
  {
  }

  /** Between the states at most one attempt has been scheduled, and noted. */
  predicate Schedules(s: State, s': State) { s'.delays == s.delays + NewWaits(s, s') && s'.nextHandle >= s.nextHandle }

  lemma SchedulesFrom(s: State, s1: State, s': State)
    requires s1.delays == s.delays && s1.reconnectTimer == s.reconnectTimer && s1.nextHandle == s.nextHandle
    requires Schedules(s1, s')
    ensures Schedules(s, s')
  {
  }

  lemma DropSchedules(s: State, ws: SocketId, failed: bool, jitter: nat)
    requires TimersOwned(s)
    ensures var s' := Dropped(s, ws, failed, jitter);
            Schedules(s, s') && s'.sockets == s.sockets[ws := Closed] && s.retries - {ws} <= s'.retries <= s.retries
  {
    DropIs(s, ws, failed, jitter);
    var s1 := WithoutSocket(s, ws);
    if failed && ws in s.retries {
      var s2 := s1.(retries := s.retries - {ws});
      FailedDrop(s2, jitter);
      SchedulesFrom(s, s2, CloseEvent(ScheduleReconnect(s2, jitter), jitter));
    } else {
      QuietDrop(s1, jitter);
      SchedulesFrom(s, s1, CloseEvent(s1, jitter));
    }
  }

  lemma QuietDrop(s: State, jitter: nat)
    requires TimersOwned(s) && s.connectionPromise.None?
    ensures var s' := CloseEvent(s, jitter);
            Schedules(s, s') && s'.sockets == s.sockets && s'.retries == s.retries
  {
    RejectedWait(s, jitter);
    RejectAllSame(s);
    assert CloseEvent(s, jitter) == ScheduleReconnect(RejectAllPending(s), jitter);
  }

  lemma FailedDrop(s: State, jitter: nat)
    requires TimersOwned(s) && s.connectionPromise.None?
    ensures var s' := CloseEvent(ScheduleReconnect(s, jitter), jitter);
            Schedules(s, s') && s'.sockets == s.sockets && s'.retries == s.retries
  {
    var s1 := ScheduleReconnect(s, jitter);
    RejectAllSame(s1);
    ScheduledWait(s, jitter);
    RejectedWait(s, jitter);
    assert CloseEvent(s1, jitter) == RejectAllPending(s1);
  }

  lemma DropAgrees(s: State, ws: SocketId, failed: bool, jitter: nat, n: Notes)
    requires Inv(s) && Agrees(s, n) && Enabled(s, SocketDrops(ws, failed, jitter))
    ensures Agrees(Step(s, SocketDrops(ws, failed, jitter)), Noted(s, SocketDrops(ws, failed, jitter), n))
  {
    DropSchedules(s, ws, failed, jitter);
  }

  lemma UserAgrees(s: State, e: Event, n: Notes)
    requires Inv(s) && Agrees(s, n) && Enabled(s, e) && (e.UserConnects? || e.UserCloses? || e.SocketStartsClosing?)
    ensures Agrees(Step(s, e), Noted(s, e, n))
  {
    assert n.waits + [] == n.waits;
  }

  lemma StepAgrees(s: State, e: Event, n: Notes)
    requires Inv(s) && Agrees(s, n) && Enabled(s, e)
    ensures Agrees(Step(s, e), Noted(s, e, n))
  {
    match e
    case TimerFires(t) => if s.timers[t].Reconnect? { RetryAgrees(s, t, n); } else { CommandAgrees(s, e, n); }
    case SocketOpens(ws) => OpensAgrees(s, ws, n);
    case SocketDrops(ws, failed, jitter) => DropAgrees(s, ws, failed, jitter, n);
    case UserConnects => UserAgrees(s, e, n);
    case UserCloses => UserAgrees(s, e, n);
    case SocketStartsClosing(ws) => UserAgrees(s, e, n);
    case _ => CommandAgrees(s, e, n);
  }

  lemma {:induction false} RunAgrees(s: State, es: seq<Event>, n: Notes)
    requires Inv(s) && IsRun(s, es) && Agrees(s, n)
    ensures Agrees(After(s, es), NotesAfter(s, es, n)) && Inv(After(s, es))
    decreases es
  {
    if es != [] {
      StepKeeps(s, es[0]);
      StepAgrees(s, es[0], n);
      RunAgrees(Step(s, es[0]), es[1..], Noted(s, es[0], n));
    }
  }

  lemma BaseDoubles(n: nat)
    requires n > 0
    ensures BackoffBase(n + 1) == if 2 * BackoffBase(n) < 15000 then 2 * BackoffBase(n) else 15000
  {
    assert Pow2(n) == 2 * Pow2(n - 1);
  }

  /** In every run the n-th attempt scheduled since a retried socket last opened waits for 500 ms doubled n - 1 times,
      at most 15 seconds, and up to 500 ms more; so the first one after such an opening waits for 500 ms again. */
  lemma WaitsDoubleSinceTheLastRestoration(es: seq<Event>)
    requires IsRun(INITIAL, es)
    ensures var waits := NotesAfter(INITIAL, es, NOTHING_NOTED).waits;
            && (waits != [] ==> 500 <= waits[0] < 1000)
            && (forall i :: 0 <= i < |waits| ==> BackoffBase(i + 1) <= waits[i] < BackoffBase(i + 1) + 500)
    ensures BackoffBase(1) == 500
    ensures forall n :: n > 0 ==>
              BackoffBase(n + 1) == if 2 * BackoffBase(n) < 15000 then 2 * BackoffBase(n) else 15000
  {
    EveryRunIsSound([]);
    RunAgrees(INITIAL, es, NOTHING_NOTED);
    forall n | n > 0
      ensures BackoffBase(n + 1) == if 2 * BackoffBase(n) < 15000 then 2 * BackoffBase(n) else 15000
    {
      BaseDoubles(n);
    }
    assert BackoffBase(1) == 500;
  }
}
