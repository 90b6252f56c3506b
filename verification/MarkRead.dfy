/** Read marks: at most one unforced send per channel every two seconds, without losing or reordering marks. */
module MarkRead {
  import opened Options

  const MARK_READ_THROTTLE_MS := 2000

  type TimerId = nat

  datatype Timer = Timer(channel: int, due: int)

  /** One call of the socket's mark-read command. It reaches the server only if the socket is open. */
  datatype Send = Send(channel: int, id: int, at: int, flushed: bool, delivered: bool)

  /** `live` are the timers the runtime still has to fire; `log` and `asked` record, for the statements only, every send
      and the highest id ever asked for. */
  datatype State = State(
    pending: map<int, int>,
    lastSent: map<int, int>,
    lastSentAt: map<int, int>,
    timers: map<int, TimerId>,
    live: map<TimerId, Timer>,
    nextTimer: TimerId,
    now: int,
    open: bool,
    log: seq<Send>,
    asked: map<int, int>)

  function Get(m: map<int, int>, channel: int): int { if channel in m then m[channel] else 0 }

  // ----- The operations -----

  /** `flushed` tells a send that a flush asked for from a throttled one. */
  function AfterSend(s: State, channel: int, flushed: bool): State {
    if channel !in s.pending then s
    else
      var id := s.pending[channel];
      if id <= Get(s.lastSent, channel) then s.(pending := s.pending - {channel})
      else s.(log := s.log + [Send(channel, id, s.now, flushed, s.open)],
              lastSent := s.lastSent[channel := id],
              lastSentAt := s.lastSentAt[channel := s.now],
              pending := s.pending - {channel})
  }

  function WithoutTimer(s: State, channel: int): State {
    if channel !in s.timers then s
    else s.(live := s.live - {s.timers[channel]}, timers := s.timers - {channel})
  }

  function AfterFlush(s: State, channel: int): State { AfterSend(WithoutTimer(s, channel), channel, true) }

  /** Flushes the channels that have a timer, in the order given. */
  function AfterFlushAll(s: State, order: seq<int>): State
    decreases order
  {
    if order == [] then s else AfterFlushAll(AfterFlush(s, order[0]), order[1..])
  }

  /** What is left of the throttle. */
  function Delay(s: State, channel: int): int { MARK_READ_THROTTLE_MS - (s.now - Get(s.lastSentAt, channel)) }

  function WithTimer(s: State, channel: int): State {
    s.(timers := s.timers[channel := s.nextTimer],
       live := s.live[s.nextTimer := Timer(channel, s.now + Delay(s, channel))],
       nextTimer := s.nextTimer + 1)
  }

  /** A mark waiting to be scheduled. */
  function AfterPending(s: State, channel: int, id: int): State { s.(pending := s.pending[channel := id]) }

  function AfterSchedule(s: State, channel: int, id: int, force: bool): State {
    if id <= Get(s.lastSent, channel) then s
    else
      var s := AfterPending(s, channel, id);
      if force then AfterFlush(s, channel)
      else if s.now - Get(s.lastSentAt, channel) >= MARK_READ_THROTTLE_MS then AfterSend(s, channel, false)
      else if channel in s.timers then s
      else WithTimer(s, channel)
  }

  function AfterAsking(s: State, channel: int, id: int): State {
    s.(asked := s.asked[channel := if id > Get(s.asked, channel) then id else Get(s.asked, channel)])
  }

  function AfterMark(s: State, channel: int, id: int, force: bool): State {
    if channel <= 0 || id <= 0 then s else AfterSchedule(AfterAsking(s, channel, id), channel, id, force)
  }

  /** The timer's callback. */
  function AfterTimer(s: State, t: TimerId): State
    requires t in s.live
  {
    var channel := s.live[t].channel;
    AfterSend(s.(live := s.live - {t}, timers := s.timers - {channel}), channel, false)
  }

  // ----- Runs -----

  datatype Event =
    | Mark(channel: int, id: int, force: bool)
    | TimerFires(timer: TimerId)
    | LeaveChannel(channel: int)
    | HidePage(order: seq<int>)
    | TimePasses(to: int)
    | SocketTurns(open: bool)

  ghost predicate Lists(order: seq<int>, channels: set<int>) {
    && (forall c :: c in order <==> c in channels)
    && (forall i, j :: 0 <= i < j < |order| ==> order[i] != order[j])
  }

  ghost predicate Enabled(s: State, e: Event) {
    match e
    case TimerFires(t) => t in s.live && s.live[t].due <= s.now
    case HidePage(order) => Lists(order, s.timers.Keys)
    case TimePasses(to) => to >= s.now
    case _ => true
  }

  ghost function Step(s: State, e: Event): State
    requires Enabled(s, e)
  {
    match e
    case Mark(channel, id, force) => AfterMark(s, channel, id, force)
    case TimerFires(t) => AfterTimer(s, t)
    case LeaveChannel(channel) => AfterFlush(s, channel)
    case HidePage(order) => AfterFlushAll(s, order)
    case TimePasses(to) => s.(now := to)
    case SocketTurns(open) => s.(open := open)
  }

  function Start(now: nat, open: bool): State {
    State(map[], map[], map[], map[], map[], 0, now, open, [], map[])
  }

  ghost predicate Runs(s: State, es: seq<Event>)
    decreases es
  {
    es == [] || (Enabled(s, es[0]) && Runs(Step(s, es[0]), es[1..]))
  }

  ghost function Run(s: State, es: seq<Event>): State
    requires Runs(s, es)
    decreases es
  {
    if es == [] then s else Run(Step(s, es[0]), es[1..])
  }

  // ----- What every run keeps -----

  /** The map's timers are exactly the live ones, one per channel. */
  predicate TimersOwned(s: State) {
    && (forall c :: c in s.timers ==> s.timers[c] in s.live && s.live[s.timers[c]].channel == c)
    && (forall t :: t in s.live ==>
          t < s.nextTimer && s.live[t].channel in s.timers && s.timers[s.live[t].channel] == t)
  }

  /** A pending id is newer than the last one sent and has a timer. The channel in `but` is excused. */
  predicate PendingTimed(s: State, but: set<int>) {
    forall c :: c in s.pending ==> s.pending[c] > Get(s.lastSent, c) && (c in s.timers || c in but)
  }

  function Latest(log: seq<Send>, channel: int): Option<Send> {
    if log == [] then None
    else if log[|log|-1].channel == channel then Some(log[|log|-1])
    else Latest(log[..|log|-1], channel)
  }

  /** The maps remember each channel's latest send. */
  ghost predicate Remembers(s: State) {
    && s.now >= 0
    && (forall c :: c in s.lastSent <==> c in s.lastSentAt)
    && (forall c :: c in s.lastSent <==> Latest(s.log, c).Some?)
    && (forall c :: c in s.lastSent ==>
          && s.lastSent[c] == Latest(s.log, c).value.id && s.lastSentAt[c] == Latest(s.log, c).value.at
          && s.lastSent[c] > 0 && 0 <= s.lastSentAt[c] <= s.now)
  }

  predicate SentBefore(s: State, m: Send) {
    m.channel in s.lastSent && m.channel in s.lastSentAt && m.id <= s.lastSent[m.channel]
        && m.at <= s.lastSentAt[m.channel]
  }

  /** Ids go out in strictly increasing order. */
  predicate Increasing(log: seq<Send>) {
    && (forall i :: 0 <= i < |log| ==> log[i].id > 0)
    && forall i, j :: 0 <= i < j < |log| && log[i].channel == log[j].channel ==> log[i].id < log[j].id
  }

  /** Nothing waits on the channel for longer than the throttle. */
  predicate TimersSoon(s: State) {
    forall t :: t in s.live ==> s.live[t].due <= Get(s.lastSentAt, s.live[t].channel) + MARK_READ_THROTTLE_MS
  }

  ghost predicate InvBut(s: State, but: set<int>) {
    && TimersOwned(s)
    && PendingTimed(s, but)
    && Remembers(s)
    && (forall i :: 0 <= i < |s.log| ==> SentBefore(s, s.log[i]))
    && Increasing(s.log)
    && TimersSoon(s)
  }

  ghost predicate Inv(s: State) { InvBut(s, {}) }

  lemma LatestOneMore(log: seq<Send>, m: Send)
    ensures forall c :: Latest(log + [m], c) == if m.channel == c then Some(m) else Latest(log, c)
  {
    assert (log + [m])[..|log|] == log;
  }

  lemma OneMoreIsNewer(s: State, m: Send)
    requires Increasing(s.log) && (forall i :: 0 <= i < |s.log| ==> SentBefore(s, s.log[i]))
    requires m.id > Get(s.lastSent, m.channel) && m.id > 0
    ensures Increasing(s.log + [m])
  {
    forall i | 0 <= i < |s.log| && s.log[i].channel == m.channel ensures s.log[i].id < m.id {
      assert SentBefore(s, s.log[i]);
    }
  }

  lemma SendKeeps(s: State, channel: int, flushed: bool)
    requires InvBut(s, {channel})
    ensures Inv(AfterSend(s, channel, flushed))
  {
    if channel in s.pending {
      var m := Send(channel, s.pending[channel], s.now, flushed, s.open);
      OneMoreIsNewer(s, m);
      OneMoreIsBefore(s, m, AfterSend(s, channel, flushed));
      SendRemembers(s, channel, flushed);
      SendKeepsTimers(s, channel, flushed);
    }
  }

  lemma SendKeepsTimers(s: State, channel: int, flushed: bool)
    requires TimersOwned(s) && PendingTimed(s, {channel}) && Remembers(s) && TimersSoon(s) && channel in s.pending
    ensures var r := AfterSend(s, channel, flushed); TimersOwned(r) && PendingTimed(r, {}) && TimersSoon(r)
  {
  }

  lemma SendRemembers(s: State, channel: int, flushed: bool)
    requires Remembers(s) && channel in s.pending && s.pending[channel] > Get(s.lastSent, channel)
    ensures Remembers(AfterSend(s, channel, flushed))
  {
    LatestOneMore(s.log, Send(channel, s.pending[channel], s.now, flushed, s.open));
  }

  lemma OneMoreIsBefore(s: State, m: Send, s': State)
    requires forall i :: 0 <= i < |s.log| ==> SentBefore(s, s.log[i])
    requires forall c :: c in s.lastSent ==> c in s.lastSentAt && s.lastSentAt[c] <= m.at
    requires m.id > Get(s.lastSent, m.channel) && s'.log == s.log + [m]
    requires s'.lastSent == s.lastSent[m.channel := m.id] && s'.lastSentAt == s.lastSentAt[m.channel := m.at]
    ensures forall i :: 0 <= i < |s'.log| ==> SentBefore(s', s'.log[i])
  {
    forall i | 0 <= i < |s'.log| ensures SentBefore(s', s'.log[i]) {
      if i < |s.log| {
        assert SentBefore(s, s.log[i]);
      }
    }
  }

  lemma ClearKeeps(s: State, channel: int)
    requires InvBut(s, {channel})
    ensures InvBut(WithoutTimer(s, channel), {channel})
  {
  }

  lemma FlushKeeps(s: State, channel: int)
    requires InvBut(s, {channel})
    ensures Inv(AfterFlush(s, channel))
  {
    ClearKeeps(s, channel);
    SendKeeps(WithoutTimer(s, channel), channel, true);
  }

  lemma {:induction false} FlushAllKeeps(s: State, order: seq<int>)
    requires Inv(s)
    ensures Inv(AfterFlushAll(s, order))
    decreases order
  {
    if order != [] {
      FlushKeeps(s, order[0]);
      FlushAllKeeps(AfterFlush(s, order[0]), order[1..]);
    }
  }

  lemma PendingKeeps(s: State, channel: int, id: int)
    requires Inv(s) && id > Get(s.lastSent, channel)
    ensures InvBut(AfterPending(s, channel, id), {channel})
  {
  }

  lemma WithTimerKeeps(s: State, channel: int)
    requires InvBut(s, {channel}) && channel !in s.timers
    ensures Inv(WithTimer(s, channel))
  {
  }

  lemma AskKeeps(s: State, channel: int, id: int)
    requires Inv(s)
    ensures Inv(AfterAsking(s, channel, id))
  {
  }

  lemma ScheduleKeeps(s: State, channel: int, id: int, force: bool)
    requires Inv(s)
    ensures Inv(AfterSchedule(s, channel, id, force))
  {
    if id > Get(s.lastSent, channel) {
      PendingKeeps(s, channel, id);
      var waiting := AfterPending(s, channel, id);
      if force {
        FlushKeeps(waiting, channel);
      } else if s.now - Get(s.lastSentAt, channel) >= MARK_READ_THROTTLE_MS {
        SendKeeps(waiting, channel, false);
      } else if channel in s.timers {
        HasTimer(waiting, channel);
      } else {
        WithTimerKeeps(waiting, channel);
      }
    }
  }

  lemma HasTimer(s: State, channel: int)
    requires InvBut(s, {channel}) && channel in s.timers
    ensures Inv(s)
  {
  }

  lemma FireKeeps(s: State, t: TimerId)
    requires Inv(s) && t in s.live
    ensures Inv(AfterTimer(s, t))
  {
    var channel := s.live[t].channel;
    ClearKeeps(s, channel);
    SendKeeps(WithoutTimer(s, channel), channel, false);
  }

  lemma StepKeeps(s: State, e: Event)
    requires Inv(s) && Enabled(s, e)
    ensures Inv(Step(s, e))
  {
    match e
    case Mark(channel, id, force) =>
      if channel > 0 && id > 0 {
        AskKeeps(s, channel, id);
        ScheduleKeeps(AfterAsking(s, channel, id), channel, id, force);
      }
    case TimerFires(t) => FireKeeps(s, t);
    case LeaveChannel(channel) => FlushKeeps(s, channel);
    case HidePage(order) => FlushAllKeeps(s, order);
    case _ =>
  }

  lemma {:induction false} RunKeeps(s: State, es: seq<Event>)
    requires Inv(s) && Runs(s, es)
    ensures Inv(Run(s, es))
    decreases es
  {
    if es != [] {
      StepKeeps(s, es[0]);
      RunKeeps(Step(s, es[0]), es[1..]);
    }
  }

  /** In every run the ids sent for a channel strictly increase, and every pending id is newer than all of them and has
      a live timer of its own that is due within the throttle. */
  lemma MarksGoForward(now: nat, open: bool, es: seq<Event>)
    requires Runs(Start(now, open), es)
    ensures var s := Run(Start(now, open), es);
            && Increasing(s.log)
            && forall c :: c in s.pending ==>
                 && (forall m :: m in s.log && m.channel == c ==> m.id < s.pending[c])
                 && c in s.timers && s.timers[c] in s.live && s.live[s.timers[c]].channel == c
                 && s.live[s.timers[c]].due <= s.now + MARK_READ_THROTTLE_MS
  {
    RunKeeps(Start(now, open), es);
    var s := Run(Start(now, open), es);
    forall c, m | c in s.pending && m in s.log && m.channel == c ensures m.id < s.pending[c] {
      var i :| 0 <= i < |s.log| && s.log[i] == m;
      assert SentBefore(s, s.log[i]);
    }
  }

  // ----- No mark is lost -----

  /** The id the channel has been told to report, sent or about to be. */
  function Reached(s: State, channel: int): int {
    if channel in s.pending then s.pending[channel] else Get(s.lastSent, channel)
  }

  ghost predicate NothingLost(s: State) { forall c :: Reached(s, c) == Get(s.asked, c) }

  /** A mark older than the pending one but newer than the last sent: it replaces the pending one. */
  predicate Backward(s: State, e: Event) {
    e.Mark? && e.channel > 0 && e.channel in s.pending && Get(s.lastSent, e.channel) < e.id < s.pending[e.channel]
  }

  predicate Fresh(s: State, channel: int) {
    channel in s.pending ==> s.pending[channel] > Get(s.lastSent, channel)
  }

  ghost predicate SamePlaces(s: State, s': State) {
    s'.asked == s.asked && s'.open == s.open && forall c :: Reached(s', c) == Reached(s, c)
  }

  lemma SendReaches(s: State, channel: int, flushed: bool)
    requires Fresh(s, channel)
    ensures var s' := AfterSend(s, channel, flushed);
            SamePlaces(s, s') && s'.pending == s.pending - {channel} && s'.timers == s.timers
  {
  }

  lemma FlushReaches(s: State, channel: int)
    requires Fresh(s, channel)
    ensures var s' := AfterFlush(s, channel);
            SamePlaces(s, s') && s'.pending == s.pending - {channel} && s'.timers == s.timers - {channel}
  {
    var cleared := WithoutTimer(s, channel);
    assert SamePlaces(s, cleared) && cleared.timers == s.timers - {channel};
    SendReaches(cleared, channel, true);
  }

  lemma {:induction false} FlushAllReaches(s: State, order: seq<int>)
    requires Inv(s)
    ensures var s' := AfterFlushAll(s, order);
            && (forall c :: c in s'.timers ==> c in s.timers && c !in order)
            && SamePlaces(s, s')
    decreases order
  {
    if order != [] {
      FlushReaches(s, order[0]);
      FlushKeeps(s, order[0]);
      FlushAllReaches(AfterFlush(s, order[0]), order[1..]);
    }
  }

  lemma NoTimersNothingPending(s: State)
    requires Inv(s) && s.timers == map[]
    ensures s.pending == map[] && s.live == map[]
  {
    TimersCover(s);
    assert s.live.Keys == {} && s.pending.Keys == {};
  }

  lemma TimersCover(s: State)
    requires Inv(s)
    ensures s.pending.Keys <= s.timers.Keys
    ensures s.live.Keys == set c | c in s.timers :: s.timers[c]
  {
    var owned := set c | c in s.timers :: s.timers[c];
    forall t ensures t in s.live.Keys <==> t in owned {
      if t in s.live {
        assert s.live[t].channel in s.timers && s.timers[s.live[t].channel] == t;
      }
      if t in owned {
        var c :| c in s.timers && s.timers[c] == t;
      }
    }
    forall c | c in s.pending ensures c in s.timers.Keys {
      assert c !in {};
    }
  }

  /** Flushing visits only the channels that have a timer, and yet leaves nothing pending and no timer, and loses
      nothing: each channel's last sent id is the id it had reached. */
  lemma FlushAllEmpties(s: State, order: seq<int>)
    requires Inv(s) && Lists(order, s.timers.Keys)
    ensures var s' := AfterFlushAll(s, order);
            && s'.pending == map[] && s'.timers == map[] && s'.live == map[]
            && forall c :: Get(s'.lastSent, c) == Reached(s, c)
  {
    FlushAllReaches(s, order);
    FlushAllKeeps(s, order);
    var s' := AfterFlushAll(s, order);
    forall c ensures c !in s'.timers {
      assert c in s'.timers ==> c in s.timers && c !in order;
      assert c in s.timers.Keys <==> c in order;
    }
    NoTimersNothingPending(s');
    forall c ensures Get(s'.lastSent, c) == Reached(s, c) {
      assert Reached(s', c) == Reached(s, c);
    }
  }

  lemma PendingReaches(s: State, channel: int, id: int)
    ensures forall c :: Reached(AfterPending(s, channel, id), c) == if c == channel then id else Reached(s, c)
  {
  }

  lemma ScheduleReaches(s: State, channel: int, id: int, force: bool)
    ensures var s' := AfterSchedule(s, channel, id, force);
            && s'.asked == s.asked && s'.open == s.open
            && forall c :: Reached(s', c) == if c == channel && id > Get(s.lastSent, c) then id else Reached(s, c)
  {
    if id > Get(s.lastSent, channel) {
      var waiting := AfterPending(s, channel, id);
      PendingReaches(s, channel, id);
      if force {
        FlushReaches(waiting, channel);
      } else if s.now - Get(s.lastSentAt, channel) >= MARK_READ_THROTTLE_MS {
        SendReaches(waiting, channel, false);
      }
    }
  }

  lemma TimerReaches(s: State, t: TimerId)
    requires Inv(s) && t in s.live
    ensures SamePlaces(s, AfterTimer(s, t))
  {
    var channel := s.live[t].channel;
    var cleared := s.(live := s.live - {t}, timers := s.timers - {channel});
    assert SamePlaces(s, cleared);
    SendReaches(cleared, channel, false);
  }

  /** Only a mark moves a channel, to the mark's id unless a newer one was sent already. */
  lemma StepReaches(s: State, e: Event)
    requires Inv(s) && Enabled(s, e)
    ensures if e.Mark? then MarkMoves(s, Step(s, e), e.channel, e.id) else SamePlaces(s, Step(s, e).(open := s.open))
  {
    match e
    case Mark(channel, id, force) => MarkReaches(s, channel, id, force);
    case TimerFires(t) => TimerReaches(s, t);
    case LeaveChannel(channel) => FlushReaches(s, channel);
    case HidePage(order) => FlushAllReaches(s, order);
    case TimePasses(to) => assert SamePlaces(s, Step(s, e));
    case SocketTurns(open) => assert SamePlaces(s, Step(s, e).(open := s.open));
  }

  ghost predicate MarkMoves(s: State, s': State, channel: int, id: int) {
    && (forall c :: Reached(s', c) == if c == channel && c > 0 && id > Get(s.lastSent, c) then id else Reached(s, c))
    && (forall c :: Get(s'.asked, c) ==
          if c == channel && c > 0 && id > 0 && id > Get(s.asked, c) then id else Get(s.asked, c))
  }

  lemma MarkReaches(s: State, channel: int, id: int, force: bool)
    requires Remembers(s)
    ensures MarkMoves(s, AfterMark(s, channel, id, force), channel, id)
  {
    if channel > 0 && id > 0 {
      var asked := AfterAsking(s, channel, id);
      assert forall c :: Reached(asked, c) == Reached(s, c);
      ScheduleReaches(asked, channel, id, force);
    }
  }

  lemma StepLosesIff(s: State, e: Event)
    requires Inv(s) && Enabled(s, e) && NothingLost(s)
    ensures NothingLost(Step(s, e)) <==> !Backward(s, e)
  {
    StepReaches(s, e);
    if e.Mark? {
      assert Reached(s, e.channel) == Get(s.asked, e.channel);
      assert NothingLost(Step(s, e)) ==> Reached(Step(s, e), e.channel) == Get(Step(s, e).asked, e.channel);
    }
  }

  ghost predicate AlwaysKeepsAll(s: State, es: seq<Event>)
    requires Runs(s, es)
    decreases es
  {
    NothingLost(s) && (es == [] || AlwaysKeepsAll(Step(s, es[0]), es[1..]))
  }

  ghost predicate NeverBackward(s: State, es: seq<Event>)
    requires Runs(s, es)
    decreases es
  {
    es == [] || (!Backward(s, es[0]) && NeverBackward(Step(s, es[0]), es[1..]))
  }

  ghost predicate Ascending(s: State, es: seq<Event>)
    requires Runs(s, es)
    decreases es
  {
    es == [] || ((es[0].Mark? ==> es[0].id >= Get(s.asked, es[0].channel)) && Ascending(Step(s, es[0]), es[1..]))
  }

  lemma {:induction false} LossRun(s: State, es: seq<Event>)
    requires Inv(s) && Runs(s, es) && NothingLost(s)
    ensures AlwaysKeepsAll(s, es) <==> NeverBackward(s, es)
    decreases es
  {
    if es != [] {
      StepLosesIff(s, es[0]);
      StepKeeps(s, es[0]);
      if !Backward(s, es[0]) {
        LossRun(Step(s, es[0]), es[1..]);
      }
    }
  }

  /** All along a run the newest mark asked for is the one sent last or pending, exactly when no mark ever falls between
      the last sent id and a pending one. */
  lemma NothingIsLostIff(now: nat, open: bool, es: seq<Event>)
    requires Runs(Start(now, open), es)
    ensures AlwaysKeepsAll(Start(now, open), es) <==> NeverBackward(Start(now, open), es)
  {
    LossRun(Start(now, open), es);
  }

  lemma {:induction false} AscendingRun(s: State, es: seq<Event>)
    requires Inv(s) && Runs(s, es) && NothingLost(s) && Ascending(s, es)
    ensures AlwaysKeepsAll(s, es)
    decreases es
  {
    if es != [] {
      assert es[0].Mark? ==> Reached(s, es[0].channel) == Get(s.asked, es[0].channel);
      StepLosesIff(s, es[0]);
      StepKeeps(s, es[0]);
      AscendingRun(Step(s, es[0]), es[1..]);
    }
  }

  /** Marks that never go back per channel are never lost. */
  lemma AscendingMarksAreKept(now: nat, open: bool, es: seq<Event>)
    requires Runs(Start(now, open), es) && Ascending(Start(now, open), es)
    ensures AlwaysKeepsAll(Start(now, open), es)
  {
    AscendingRun(Start(now, open), es);
  }

  /** What the scheduler alone would do with marks 5, then 9, then 7 within one throttle window: 7 is sent and 9 never
      is. The hook never asks for that. */
  lemma BackwardMarkLosesTheNewer()
    ensures var es := [Mark(1, 5, false), Mark(1, 9, false), Mark(1, 7, false), HidePage([1])];
            && Runs(Start(5000, true), es)
            && var s := Run(Start(5000, true), es);
               s.log == [Send(1, 5, 5000, false, true), Send(1, 7, 5000, true, true)] && s.pending == map[]
                   && s.asked[1] == 9
  {
    var s0 := Start(5000, true);
    var s1 := Step(s0, Mark(1, 5, false));
    assert s1 == s0.(log := [Send(1, 5, 5000, false, true)], lastSent := map[1 := 5], lastSentAt := map[1 := 5000],
                     asked := map[1 := 5]);
    NewerIsReplaced(s1);
    var es := [Mark(1, 5, false), Mark(1, 9, false), Mark(1, 7, false), HidePage([1])];
    assert es[1..] == [Mark(1, 9, false), Mark(1, 7, false), HidePage([1])];
  }

  lemma NewerIsReplaced(s1: State)
    requires s1 == Start(5000, true).(log := [Send(1, 5, 5000, false, true)], lastSent := map[1 := 5],
                                      lastSentAt := map[1 := 5000], asked := map[1 := 5])
    ensures var es := [Mark(1, 9, false), Mark(1, 7, false), HidePage([1])];
            && Runs(s1, es)
            && var s := Run(s1, es);
               s.log == [Send(1, 5, 5000, false, true), Send(1, 7, 5000, true, true)] && s.pending == map[]
                   && s.asked[1] == 9
  {
    var es := [Mark(1, 9, false), Mark(1, 7, false), HidePage([1])];
    var s2 := Step(s1, es[0]);
    assert s2 == s1.(pending := map[1 := 9], timers := map[1 := 0], live := map[0 := Timer(1, 7000)], nextTimer := 1,
                     asked := map[1 := 9]);
    var s3 := Step(s2, es[1]);
    assert s3 == s2.(pending := map[1 := 7]);
    var s4 := Step(s3, es[2]);
    assert s4 == AfterFlushAll(AfterFlush(s3, 1), []);
    assert es[1..] == [Mark(1, 7, false), HidePage([1])] && es[1..][1..] == [HidePage([1])] && es[1..][1..][1..] == [];
    assert Runs(s3, es[1..][1..]) && Run(s3, es[1..][1..]) == s4;
  }

  // ----- The hook's own marks -----

  /** The hook keeps the newest id it has seen of each channel; `known` is that map. */
  datatype Hook = Hook(s: State, known: map<int, int>)

  /** A live message (from this user, or in a channel that is open on a visible page), the open channel's list looked
      at, or anything else that is no mark. */
  datatype HookEvent =
    | Incoming(channel: int, id: int, own: bool, shown: bool)
    | Looks(channel: int, loadedLast: int)
    | Other(e: Event)

  function Larger(a: int, b: int): int { if a > b then a else b }

  function AfterIncoming(h: Hook, channel: int, id: int, own: bool, shown: bool): Hook {
    Hook(if !own && shown then AfterMark(h.s, channel, id, false) else h.s,
         if id > Get(h.known, channel) then h.known[channel := id] else h.known)
  }

  function AfterLook(h: Hook, channel: int, loadedLast: int): Hook {
    var id := Larger(Get(h.known, channel), loadedLast);
    if channel <= 0 || id <= 0 then h
    else Hook(AfterMark(h.s, channel, id, false), h.known[channel := id])
  }

  ghost predicate HookEnabled(h: Hook, e: HookEvent) { e.Other? ==> !e.e.Mark? && Enabled(h.s, e.e) }

  ghost function HookStep(h: Hook, e: HookEvent): Hook
    requires HookEnabled(h, e)
  {
    match e
    case Incoming(channel, id, own, shown) => AfterIncoming(h, channel, id, own, shown)
    case Looks(channel, loadedLast) => AfterLook(h, channel, loadedLast)
    case Other(e) => Hook(Step(h.s, e), h.known)
  }

  ghost predicate HookRuns(h: Hook, es: seq<HookEvent>)
    decreases es
  {
    es == [] || (HookEnabled(h, es[0]) && HookRuns(HookStep(h, es[0]), es[1..]))
  }

  ghost function HookAfter(h: Hook, es: seq<HookEvent>): Hook
    requires HookRuns(h, es)
    decreases es
  {
    if es == [] then h else HookAfter(HookStep(h, es[0]), es[1..])
  }

  /** The newest id the hook has seen of the channel: in a live message, or looked at in its list. */
  function SeenOf(es: seq<HookEvent>, channel: int): (id: int)
    ensures id >= 0
  {
    if es == [] then 0
    else
      var before := SeenOf(es[..|es|-1], channel);
      match es[|es|-1]
      case Incoming(c, id, own, shown) => if c == channel then Larger(before, id) else before
      case Looks(c, loadedLast) => if c == channel && c > 0 then Larger(before, loadedLast) else before
      case Other(e) => before
  }

  /** The newest id that has been shown to the user: in another's live message on the open channel's visible page, or
      when the open channel was looked at, everything seen of it by then. */
  function ShownOf(es: seq<HookEvent>, channel: int): (id: int)
    ensures id >= 0
  {
    if es == [] then 0
    else
      var before := ShownOf(es[..|es|-1], channel);
      match es[|es|-1]
      case Incoming(c, id, own, shown) => if c == channel && c > 0 && !own && shown then Larger(before, id) else before
      case Looks(c, loadedLast) => if c == channel && c > 0 then Larger(before, SeenOf(es, channel)) else before
      case Other(e) => before
  }

  lemma {:induction false} HookAfterLast(h: Hook, es: seq<HookEvent>)
    requires HookRuns(h, es) && es != []
    ensures HookRuns(h, es[..|es|-1])
    ensures HookEnabled(HookAfter(h, es[..|es|-1]), es[|es|-1])
    ensures HookAfter(h, es) == HookStep(HookAfter(h, es[..|es|-1]), es[|es|-1])
    decreases |es|
  {
    if |es| > 1 {
      HookAfterLast(HookStep(h, es[0]), es[1..]);
      assert es[1..][..|es|-2] == es[..|es|-1][1..];
    }
  }

  lemma LookAsks(h: Hook, channel: int, loadedLast: int)
    requires Inv(h.s) && channel > 0 && Get(h.known, channel) >= 0
    ensures var h' := AfterLook(h, channel, loadedLast);
            var id := Larger(Get(h.known, channel), loadedLast);
            && (forall c :: Get(h'.known, c) == if c == channel then id else Get(h.known, c))
            && (forall c :: Get(h'.s.asked, c) ==
                  if c == channel && id > 0 then Larger(Get(h.s.asked, c), id) else Get(h.s.asked, c))
  {
    var id := Larger(Get(h.known, channel), loadedLast);
    if id > 0 { MarkReaches(h.s, channel, id, false); }
  }

  lemma IncomingAsks(h: Hook, channel: int, id: int, own: bool, shown: bool)
    requires Inv(h.s)
    ensures var h' := AfterIncoming(h, channel, id, own, shown);
            && (forall c :: Get(h'.known, c) == if c == channel then Larger(Get(h.known, c), id) else Get(h.known, c))
            && (forall c :: Get(h'.s.asked, c) ==
                  if c == channel && c > 0 && id > 0 && !own && shown then Larger(Get(h.s.asked, c), id)
                  else Get(h.s.asked, c))
  {
    MarkReaches(h.s, channel, id, false);
  }

  lemma OtherAsksNothing(s: State, e: Event)
    requires Inv(s) && Enabled(s, e) && !e.Mark?
    ensures Step(s, e).asked == s.asked
  {
    StepReaches(s, e);
  }

  ghost predicate AskedForShown(h: Hook, es: seq<HookEvent>) {
    && Inv(h.s)
    && (forall c :: Get(h.known, c) == SeenOf(es, c))
    && (forall c :: Get(h.s.asked, c) == ShownOf(es, c))
  }

  lemma HookStepAsks(h: Hook, es: seq<HookEvent>, e: HookEvent)
    requires AskedForShown(h, es) && HookEnabled(h, e)
    ensures AskedForShown(HookStep(h, e), es + [e])
  {
    assert (es + [e])[..|es|] == es;
    HookStepInv(h, e);
    match e
    case Incoming(channel, id, own, shown) => IncomingAsks(h, channel, id, own, shown);
    case Looks(channel, loadedLast) => if channel > 0 { LookAsks(h, channel, loadedLast); }
    case Other(e) => OtherAsksNothing(h.s, e);
  }

  lemma HookStepInv(h: Hook, e: HookEvent)
    requires Inv(h.s) && HookEnabled(h, e)
    ensures Inv(HookStep(h, e).s)
  {
    match e
    case Incoming(channel, id, own, shown) => StepKeeps(h.s, Mark(channel, id, false));
    case Looks(channel, loadedLast) => StepKeeps(h.s, Mark(channel, Larger(Get(h.known, channel), loadedLast), false));
    case Other(e) => StepKeeps(h.s, e);
  }

  lemma {:induction false} HookRunAsks(h: Hook, es: seq<HookEvent>)
    requires HookRuns(h, es) && AskedForShown(h, [])
    ensures AskedForShown(HookAfter(h, es), es)
    decreases |es|
  {
    if es != [] {
      var before := es[..|es|-1];
      HookAfterLast(h, es);
      HookRunAsks(h, before);
      HookStepAsks(HookAfter(h, before), before, es[|es|-1]);
      assert es == before + [es[|es|-1]];
    }
  }

  /** In every run the hook knows the newest id it has seen, and has asked for exactly the newest one shown to the
      user. */
  lemma TheHookAsksForWhatIsShown(now: nat, open: bool, es: seq<HookEvent>, channel: int)
    requires HookRuns(Hook(Start(now, open), map[]), es)
    ensures var h := HookAfter(Hook(Start(now, open), map[]), es);
            Get(h.known, channel) == SeenOf(es, channel) && Get(h.s.asked, channel) == ShownOf(es, channel)
  {
    HookRunAsks(Hook(Start(now, open), map[]), es);
  }

  /** Live ids come in order: none is older than what the channel has shown already. */
  predicate InOrder(h: Hook, e: HookEvent) { e.Incoming? ==> e.id >= Get(h.known, e.channel) }

  ghost predicate AllInOrder(h: Hook, es: seq<HookEvent>)
    requires HookRuns(h, es)
    decreases es
  {
    es == [] || (InOrder(h, es[0]) && AllInOrder(HookStep(h, es[0]), es[1..]))
  }

  ghost predicate HookLosesNothing(h: Hook, es: seq<HookEvent>)
    requires HookRuns(h, es)
    decreases es
  {
    NothingLost(h.s) && (es == [] || HookLosesNothing(HookStep(h, es[0]), es[1..]))
  }

  /** The hook never asks for an id beyond the newest it has seen. */
  ghost predicate HookInv(h: Hook) {
    Inv(h.s) && NothingLost(h.s) && forall c :: Get(h.s.asked, c) <= Larger(Get(h.known, c), 0)
  }

  lemma AscendingMarkKeeps(s: State, channel: int, id: int)
    requires Inv(s) && NothingLost(s) && id >= Get(s.asked, channel)
    ensures Inv(AfterMark(s, channel, id, false)) && NothingLost(AfterMark(s, channel, id, false))
    ensures forall c :: Get(AfterMark(s, channel, id, false).asked, c)
                        == if c == channel && c > 0 && id > 0 then id else Get(s.asked, c)
  {
    StepKeeps(s, Mark(channel, id, false));
    StepLosesIff(s, Mark(channel, id, false));
    MarkReaches(s, channel, id, false);
    assert Reached(s, channel) == Get(s.asked, channel);
  }

  lemma HookStepKeeps(h: Hook, e: HookEvent)
    requires HookInv(h) && HookEnabled(h, e) && InOrder(h, e)
    ensures HookInv(HookStep(h, e))
  {
    match e
    case Incoming(channel, id, own, shown) => IncomingKeeps(h, channel, id, own, shown);
    case Looks(channel, loadedLast) => LookKeeps(h, channel, loadedLast);
    case Other(e) => OtherKeeps(h, e);
  }

  lemma IncomingKeeps(h: Hook, channel: int, id: int, own: bool, shown: bool)
    requires HookInv(h) && id >= Get(h.known, channel)
    ensures HookInv(AfterIncoming(h, channel, id, own, shown))
  {
    if !own && shown && id > 0 { AscendingMarkKeeps(h.s, channel, id); }
  }

  lemma LookKeeps(h: Hook, channel: int, loadedLast: int)
    requires HookInv(h)
    ensures HookInv(AfterLook(h, channel, loadedLast))
  {
    var id := Larger(Get(h.known, channel), loadedLast);
    if channel > 0 && id > 0 { AscendingMarkKeeps(h.s, channel, id); }
  }

  lemma OtherKeeps(h: Hook, e: Event)
    requires HookInv(h) && Enabled(h.s, e) && !e.Mark?
    ensures HookInv(Hook(Step(h.s, e), h.known))
  {
    StepKeeps(h.s, e);
    StepLosesIff(h.s, e);
    StepReaches(h.s, e);
    assert Step(h.s, e).asked == h.s.asked;
  }

  lemma {:induction false} HookRunKeeps(h: Hook, es: seq<HookEvent>)
    requires HookInv(h) && HookRuns(h, es) && AllInOrder(h, es)
    ensures HookLosesNothing(h, es)
    decreases es
  {
    if es != [] {
      HookStepKeeps(h, es[0]);
      HookRunKeeps(HookStep(h, es[0]), es[1..]);
    }
  }

  /** The hook's two callers of markChannelRead never lose a mark, as long as live messages arrive in order. */
  lemma TheHookLosesNothing(now: nat, open: bool, es: seq<HookEvent>)
    requires HookRuns(Hook(Start(now, open), map[]), es) && AllInOrder(Hook(Start(now, open), map[]), es)
    ensures HookLosesNothing(Hook(Start(now, open), map[]), es)
  {
    HookRunKeeps(Hook(Start(now, open), map[]), es);
  }

  // ----- What the server learns -----

  /** The channel's read position at the server: the newest id that was delivered. */
  function ServerRead(log: seq<Send>, channel: int): (r: int)
    ensures r >= 0
  {
    if log == [] then 0
    else
      var m, before := log[|log|-1], ServerRead(log[..|log|-1], channel);
      if m.channel == channel && m.delivered && m.id > before then m.id else before
  }

  lemma {:induction false} ServerReadBelow(log: seq<Send>, channel: int, top: int)
    requires top > 0 && forall i :: 0 <= i < |log| && log[i].channel == channel ==> log[i].id < top
    ensures ServerRead(log, channel) < top
  {
    if log != [] {
      ServerReadBelow(log[..|log|-1], channel, top);
    }
  }

  lemma {:induction false} ServerReadIsLatestIff(log: seq<Send>, channel: int)
    requires Increasing(log)
    ensures var latest := Latest(log, channel);
            && (latest.None? ==> ServerRead(log, channel) == 0)
            && (latest.Some? ==> ServerRead(log, channel) <= latest.value.id)
            && (latest.Some? ==> (ServerRead(log, channel) == latest.value.id <==> latest.value.delivered))
  {
    if log != [] {
      var m, front := log[|log|-1], log[..|log|-1];
      ServerReadIsLatestIff(front, channel);
      if m.channel == channel && m.id > 0 {
        ServerReadBelow(front, channel, m.id);
      }
    }
  }

  predicate Delivered(m: Option<Send>) { m.Some? && m.value.delivered }

  lemma FlushDelivers(s: State, channel: int)
    requires Inv(s) && s.open
    ensures forall c :: if c == channel && c in s.pending then Delivered(Latest(AfterFlush(s, channel).log, c))
                        else Latest(AfterFlush(s, channel).log, c) == Latest(s.log, c)
  {
    if channel in s.pending {
      LatestOneMore(s.log, Send(channel, s.pending[channel], s.now, true, s.open));
    }
  }

  lemma {:induction false} FlushAllDelivers(s: State, order: seq<int>, channel: int)
    requires Inv(s) && s.open
    ensures channel in order && channel in s.pending ==> Delivered(Latest(AfterFlushAll(s, order).log, channel))
    ensures channel !in s.pending ==> Latest(AfterFlushAll(s, order).log, channel) == Latest(s.log, channel)
    decreases order
  {
    if order != [] {
      FlushDelivers(s, order[0]);
      FlushReaches(s, order[0]);
      FlushKeeps(s, order[0]);
      FlushAllDelivers(AfterFlush(s, order[0]), order[1..], channel);
    }
  }

  /** After any run that lost nothing, hiding the page while the socket is open brings the server to the newest mark of
      a channel, exactly when that mark was still pending or had been sent on an open socket. */
  lemma HidingThePageInformsTheServerIff(now: nat, open: bool, es: seq<Event>, order: seq<int>, channel: int)
    requires Runs(Start(now, open), es)
    requires var s := Run(Start(now, open), es);
             NothingLost(s) && s.open && Lists(order, s.timers.Keys) && channel in s.asked
    ensures var s := Run(Start(now, open), es);
            ServerRead(AfterFlushAll(s, order).log, channel) == s.asked[channel] <==>
            channel in s.pending || Delivered(Latest(s.log, channel))
  {
    var s := Run(Start(now, open), es);
    RunKeeps(Start(now, open), es);
    AskedIsPositive(Start(now, open), es, channel);
    FlushAllDelivers(s, order, channel);
    FlushAllEmpties(s, order);
    FlushAllKeeps(s, order);
    var s' := AfterFlushAll(s, order);
    assert Reached(s, channel) == Get(s.asked, channel);
    assert channel in s.pending ==> channel in s.timers.Keys;
    ServerReadIsLatestIff(s'.log, channel);
    assert channel in s'.lastSent;
  }

  lemma {:induction false} AskedIsPositive(s: State, es: seq<Event>, channel: int)
    requires Runs(s, es) && Inv(s) && (channel in s.asked ==> s.asked[channel] > 0)
    ensures channel in Run(s, es).asked ==> Run(s, es).asked[channel] > 0
    decreases es
  {
    if es != [] {
      StepKeeps(s, es[0]);
      StepAskedIsPositive(s, es[0], channel);
      AskedIsPositive(Step(s, es[0]), es[1..], channel);
    }
  }

  lemma StepAskedIsPositive(s: State, e: Event, channel: int)
    requires Enabled(s, e) && Inv(s) && (channel in s.asked ==> s.asked[channel] > 0)
    ensures channel in Step(s, e).asked ==> Step(s, e).asked[channel] > 0
  {
    StepReaches(s, e);
    if e.Mark? {
      if e.channel > 0 && e.id > 0 {
        ScheduleReaches(AfterAsking(s, e.channel, e.id), e.channel, e.id, e.force);
      }
    } else {
      assert Step(s, e).asked == s.asked;
    }
  }

  /** A mark sent while the socket is closed is remembered as sent: asking for it again does nothing, so the server
      never learns of it unless a newer mark follows. */
  lemma UndeliveredMarkIsNotRetried(s: State, channel: int, force: bool)
    requires Inv(s) && channel > 0 && !s.open && channel in s.pending
    ensures var s' := AfterFlush(s, channel).(open := true);
            && ServerRead(s'.log, channel) < s.pending[channel]
            && AfterMark(s', channel, s.pending[channel], force).log == s'.log
            && channel !in AfterMark(s', channel, s.pending[channel], force).pending
  {
    FlushKeeps(s, channel);
    var s1 := AfterFlush(s, channel);
    LatestOneMore(s.log, Send(channel, s.pending[channel], s.now, true, false));
    ServerReadIsLatestIff(s1.log, channel);
  }

  /** Marks 5 and 9, then the connection drops and the channel is left: 9 is sent into the closed socket, and after the
      reconnection asking for it again does nothing. The server stays at 5. */
  lemma MarkIsLostOnAClosedSocket()
    ensures var es := [Mark(1, 5, false), Mark(1, 9, false), SocketTurns(false), LeaveChannel(1), SocketTurns(true),
                       Mark(1, 9, false)];
            && Runs(Start(5000, true), es)
            && var s := Run(Start(5000, true), es);
               ServerRead(s.log, 1) == 5 && s.asked[1] == 9 && s.pending == map[] && s.open
  {
    var s0 := Start(5000, true);
    var s1 := Step(s0, Mark(1, 5, false));
    assert s1 == s0.(log := [Send(1, 5, 5000, false, true)], lastSent := map[1 := 5], lastSentAt := map[1 := 5000],
                     asked := map[1 := 5]);
    LaterMarkIsLost(s1);
    var rest := [Mark(1, 9, false), SocketTurns(false), LeaveChannel(1), SocketTurns(true), Mark(1, 9, false)];
    RunFirst(s0, Mark(1, 5, false), rest);
    assert [Mark(1, 5, false)] + rest ==
      [Mark(1, 5, false), Mark(1, 9, false), SocketTurns(false), LeaveChannel(1), SocketTurns(true), Mark(1, 9, false)];
  }

  lemma RunFirst(s: State, e: Event, rest: seq<Event>)
    requires Enabled(s, e) && Runs(Step(s, e), rest)
    ensures Runs(s, [e] + rest) && Run(s, [e] + rest) == Run(Step(s, e), rest)
  {
    assert ([e] + rest)[1..] == rest;
  }

  lemma LaterMarkIsLost(s1: State)
    requires s1 == Start(5000, true).(log := [Send(1, 5, 5000, false, true)], lastSent := map[1 := 5],
                                      lastSentAt := map[1 := 5000], asked := map[1 := 5])
    ensures var es := [Mark(1, 9, false), SocketTurns(false), LeaveChannel(1), SocketTurns(true), Mark(1, 9, false)];
            && Runs(s1, es)
            && var s := Run(s1, es);
               ServerRead(s.log, 1) == 5 && s.asked[1] == 9 && s.pending == map[] && s.open
  {
    var e := Mark(1, 9, false);
    var s2 := Step(s1, e);
    assert s2 == s1.(pending := map[1 := 9], timers := map[1 := 0], live := map[0 := Timer(1, 7000)], nextTimer := 1,
                     asked := map[1 := 9]);
    var s3 := Step(s2, SocketTurns(false));
    var s4 := Step(s3, LeaveChannel(1));
    var log := [Send(1, 5, 5000, false, true), Send(1, 9, 5000, true, false)];
    assert s4.log == log && s4.lastSent == map[1 := 9] && s4.pending == map[];
    var s5 := Step(s4, SocketTurns(true));
    var s6 := Step(s5, e);
    assert s6.log == log;
    assert log[..1] == [Send(1, 5, 5000, false, true)] && log[..1][..0] == [];
    assert ServerRead(log[..1], 1) == 5;
    RunFirst(s5, e, []);
    RunFirst(s4, SocketTurns(true), [e]);
    RunFirst(s3, LeaveChannel(1), [SocketTurns(true), e]);
    RunFirst(s2, SocketTurns(false), [LeaveChannel(1), SocketTurns(true), e]);
    RunFirst(s1, e, [SocketTurns(false), LeaveChannel(1), SocketTurns(true), e]);
    assert [e] + [] == [e] && [SocketTurns(true)] + [e] == [SocketTurns(true), e];
    assert [LeaveChannel(1)] + [SocketTurns(true), e] == [LeaveChannel(1), SocketTurns(true), e];
    assert [SocketTurns(false)] + [LeaveChannel(1), SocketTurns(true), e]
      == [SocketTurns(false), LeaveChannel(1), SocketTurns(true), e];
    assert [e] + [SocketTurns(false), LeaveChannel(1), SocketTurns(true), e]
      == [e, SocketTurns(false), LeaveChannel(1), SocketTurns(true), e];
  }

  // ----- The throttle -----

  /** Each timer is set for the moment the throttle ends, and every unforced send kept its distance. */
  ghost predicate Throttled(s: State) {
    && (forall t :: t in s.live ==> s.live[t].due == Get(s.lastSentAt, s.live[t].channel) + MARK_READ_THROTTLE_MS)
    && Spaced(s.log)
  }

  predicate Spaced(log: seq<Send>) {
    forall i, j :: 0 <= i < j < |log| && log[i].channel == log[j].channel && !log[j].flushed
      ==> log[j].at - log[i].at >= MARK_READ_THROTTLE_MS
  }

  /** Timers that are due fire before anyone marks a channel. */
  ghost predicate Prompt(s: State, e: Event) {
    e.Mark? ==> forall t :: t in s.live ==> s.live[t].due > s.now
  }

  ghost predicate PromptRun(s: State, es: seq<Event>)
    requires Runs(s, es)
    decreases es
  {
    es == [] || (Prompt(s, es[0]) && PromptRun(Step(s, es[0]), es[1..]))
  }

  lemma SendThrottled(s: State, channel: int, flushed: bool)
    requires InvBut(s, {channel}) && Throttled(s) && channel !in s.timers
    requires flushed || s.now - Get(s.lastSentAt, channel) >= MARK_READ_THROTTLE_MS
    ensures Throttled(AfterSend(s, channel, flushed))
  {
  }

  lemma FlushThrottled(s: State, channel: int)
    requires InvBut(s, {channel}) && Throttled(s)
    ensures Throttled(AfterFlush(s, channel))
  {
    ClearKeeps(s, channel);
    SendThrottled(WithoutTimer(s, channel), channel, true);
  }

  ghost predicate KeepsTime(s: State) { Inv(s) && Throttled(s) }

  lemma FlushKeepsTime(s: State, channel: int)
    requires KeepsTime(s)
    ensures KeepsTime(AfterFlush(s, channel))
  {
    FlushKeeps(s, channel);
    FlushThrottled(s, channel);
  }

  lemma {:induction false} FlushAllKeepsTime(s: State, order: seq<int>)
    requires KeepsTime(s)
    ensures KeepsTime(AfterFlushAll(s, order))
    decreases order
  {
    if order != [] {
      FlushKeepsTime(s, order[0]);
      FlushAllKeepsTime(AfterFlush(s, order[0]), order[1..]);
    }
  }

  lemma WithTimerThrottled(s: State, channel: int)
    requires Throttled(s)
    ensures Throttled(WithTimer(s, channel))
  {
  }

  lemma PromptHasNoTimer(s: State, channel: int)
    requires KeepsTime(s) && (forall t :: t in s.live ==> s.live[t].due > s.now)
    requires s.now - Get(s.lastSentAt, channel) >= MARK_READ_THROTTLE_MS
    ensures channel !in s.timers
  {
  }

  lemma ScheduleThrottled(s: State, channel: int, id: int, force: bool)
    requires KeepsTime(s) && (forall t :: t in s.live ==> s.live[t].due > s.now)
    ensures Throttled(AfterSchedule(s, channel, id, force))
  {
    if id > Get(s.lastSent, channel) {
      PendingKeeps(s, channel, id);
      var waiting := AfterPending(s, channel, id);
      assert Throttled(waiting);
      if force {
        FlushThrottled(waiting, channel);
      } else if s.now - Get(s.lastSentAt, channel) >= MARK_READ_THROTTLE_MS {
        PromptHasNoTimer(s, channel);
        SendThrottled(waiting, channel, false);
      } else if channel !in s.timers {
        WithTimerThrottled(waiting, channel);
      }
    }
  }

  lemma MarkThrottled(s: State, channel: int, id: int, force: bool)
    requires KeepsTime(s) && (forall t :: t in s.live ==> s.live[t].due > s.now)
    ensures Throttled(AfterMark(s, channel, id, force))
  {
    if channel > 0 && id > 0 {
      AskKeeps(s, channel, id);
      assert Throttled(AfterAsking(s, channel, id));
      ScheduleThrottled(AfterAsking(s, channel, id), channel, id, force);
    }
  }

  lemma TimerThrottled(s: State, t: TimerId)
    requires KeepsTime(s) && t in s.live && s.live[t].due <= s.now
    ensures Throttled(AfterTimer(s, t))
  {
    var channel := s.live[t].channel;
    ClearKeeps(s, channel);
    assert Throttled(WithoutTimer(s, channel));
    SendThrottled(WithoutTimer(s, channel), channel, false);
  }

  lemma StepThrottled(s: State, e: Event)
    requires KeepsTime(s) && Enabled(s, e) && Prompt(s, e)
    ensures KeepsTime(Step(s, e))
  {
    StepKeeps(s, e);
    match e
    case Mark(channel, id, force) => MarkThrottled(s, channel, id, force);
    case TimerFires(t) => TimerThrottled(s, t);
    case LeaveChannel(channel) => FlushKeepsTime(s, channel);
    case HidePage(order) => FlushAllKeepsTime(s, order);
    case _ => assert Throttled(Step(s, e));
  }

  lemma {:induction false} ThrottledRun(s: State, es: seq<Event>)
    requires KeepsTime(s) && Runs(s, es) && PromptRun(s, es)
    ensures KeepsTime(Run(s, es))
    decreases es
  {
    if es != [] {
      StepThrottled(s, es[0]);
      ThrottledRun(Step(s, es[0]), es[1..]);
    }
  }

  /** The timer fires for a pending id although its channel was sent to within the throttle. */
  predicate FiresEarly(s: State, e: Event) {
    e.TimerFires? && e.timer in s.live
    && var channel := s.live[e.timer].channel;
       channel in s.pending && channel in s.lastSentAt && s.now - s.lastSentAt[channel] < MARK_READ_THROTTLE_MS
  }

  predicate Distant(log: seq<Send>, m: Send) {
    forall i :: 0 <= i < |log| && log[i].channel == m.channel ==> m.at - log[i].at >= MARK_READ_THROTTLE_MS
  }

  lemma SpacedOneMore(log: seq<Send>, m: Send)
    requires Spaced(log)
    ensures Spaced(log + [m]) <==> m.flushed || Distant(log, m)
  {
    if Spaced(log + [m]) && !m.flushed {
      forall i | 0 <= i < |log| && log[i].channel == m.channel ensures m.at - log[i].at >= MARK_READ_THROTTLE_MS {
        assert (log + [m])[i] == log[i] && (log + [m])[|log|] == m;
      }
    }
  }

  lemma {:induction false} LatestIsLogged(log: seq<Send>, channel: int) returns (i: nat)
    requires Latest(log, channel).Some?
    ensures i < |log| && log[i] == Latest(log, channel).value && log[i].channel == channel
    decreases |log|
  {
    if log[|log|-1].channel == channel {
      i := |log| - 1;
    } else {
      i := LatestIsLogged(log[..|log|-1], channel);
    }
  }

  lemma DistantIff(s: State, m: Send)
    requires Remembers(s) && (forall i :: 0 <= i < |s.log| ==> SentBefore(s, s.log[i]))
    ensures Distant(s.log, m) <==>
        (m.channel in s.lastSentAt ==> m.at - s.lastSentAt[m.channel] >= MARK_READ_THROTTLE_MS)
  {
    if m.channel in s.lastSentAt {
      var i := LatestIsLogged(s.log, m.channel);
      forall j | 0 <= j < |s.log| && s.log[j].channel == m.channel ensures s.log[j].at <= s.lastSentAt[m.channel] {
        assert SentBefore(s, s.log[j]);
      }
    } else {
      forall j | 0 <= j < |s.log| ensures s.log[j].channel != m.channel {
        assert SentBefore(s, s.log[j]);
      }
    }
  }

  lemma SendSpacedIff(s: State, channel: int, flushed: bool)
    requires InvBut(s, {channel}) && Spaced(s.log)
    ensures Spaced(AfterSend(s, channel, flushed).log) <==>
            (channel in s.pending && !flushed && channel in s.lastSentAt ==>
             s.now - s.lastSentAt[channel] >= MARK_READ_THROTTLE_MS)
  {
    if channel in s.pending {
      var m := Send(channel, s.pending[channel], s.now, flushed, s.open);
      SpacedOneMore(s.log, m);
      DistantIff(s, m);
    }
  }

  lemma FlushSpaced(s: State, channel: int)
    requires InvBut(s, {channel}) && Spaced(s.log)
    ensures Spaced(AfterFlush(s, channel).log)
  {
    ClearKeeps(s, channel);
    SendSpacedIff(WithoutTimer(s, channel), channel, true);
  }

  lemma {:induction false} FlushAllSpaced(s: State, order: seq<int>)
    requires Inv(s) && Spaced(s.log)
    ensures Spaced(AfterFlushAll(s, order).log)
    decreases order
  {
    if order != [] {
      FlushKeeps(s, order[0]);
      FlushSpaced(s, order[0]);
      FlushAllSpaced(AfterFlush(s, order[0]), order[1..]);
    }
  }

  lemma ScheduleSpaced(s: State, channel: int, id: int, force: bool)
    requires Inv(s) && Spaced(s.log)
    ensures Spaced(AfterSchedule(s, channel, id, force).log)
  {
    if id > Get(s.lastSent, channel) {
      PendingKeeps(s, channel, id);
      var waiting := AfterPending(s, channel, id);
      if force {
        FlushSpaced(waiting, channel);
      } else if s.now - Get(s.lastSentAt, channel) >= MARK_READ_THROTTLE_MS {
        SendSpacedIff(waiting, channel, false);
      }
    }
  }

  lemma MarkSpaced(s: State, channel: int, id: int, force: bool)
    requires Inv(s) && Spaced(s.log)
    ensures Spaced(AfterMark(s, channel, id, force).log)
  {
    if channel > 0 && id > 0 {
      AskKeeps(s, channel, id);
      ScheduleSpaced(AfterAsking(s, channel, id), channel, id, force);
    }
  }

  lemma TimerSpacedIff(s: State, t: TimerId)
    requires Inv(s) && Spaced(s.log) && t in s.live
    ensures Spaced(AfterTimer(s, t).log) <==> !FiresEarly(s, TimerFires(t))
  {
    var channel := s.live[t].channel;
    ClearKeeps(s, channel);
    SendSpacedIff(WithoutTimer(s, channel), channel, false);
  }

  lemma StepSpacedIff(s: State, e: Event)
    requires Inv(s) && Enabled(s, e) && Spaced(s.log)
    ensures Spaced(Step(s, e).log) <==> !FiresEarly(s, e)
  {
    match e
    case Mark(channel, id, force) => MarkSpaced(s, channel, id, force);
    case TimerFires(t) => TimerSpacedIff(s, t);
    case LeaveChannel(channel) => FlushSpaced(s, channel);
    case HidePage(order) => FlushAllSpaced(s, order);
    case _ =>
  }

  ghost predicate NeverEarly(s: State, es: seq<Event>)
    requires Runs(s, es)
    decreases es
  {
    es == [] || (!FiresEarly(s, es[0]) && NeverEarly(Step(s, es[0]), es[1..]))
  }

  lemma {:induction false} FlushAllLogs(s: State, order: seq<int>)
    ensures s.log <= AfterFlushAll(s, order).log
    decreases order
  {
    if order != [] {
      FlushLogs(s, order[0]);
      FlushAllLogs(AfterFlush(s, order[0]), order[1..]);
    }
  }

  lemma StepLogs(s: State, e: Event)
    requires Enabled(s, e)
    ensures s.log <= Step(s, e).log
  {
    match e
    case Mark(channel, id, force) => ScheduleLogs(AfterAsking(s, channel, id), channel, id, force);
    case HidePage(order) => FlushAllLogs(s, order);
    case _ =>
  }

  lemma ScheduleLogs(s: State, channel: int, id: int, force: bool)
    ensures s.log <= AfterSchedule(s, channel, id, force).log
  {
    SendLogs(AfterPending(s, channel, id), channel, false);
    FlushLogs(AfterPending(s, channel, id), channel);
  }

  lemma SendLogs(s: State, channel: int, flushed: bool)
    ensures s.log <= AfterSend(s, channel, flushed).log
  {
  }

  lemma FlushLogs(s: State, channel: int)
    ensures s.log <= AfterFlush(s, channel).log
  {
    SendLogs(WithoutTimer(s, channel), channel, true);
  }

  lemma {:induction false} RunLogs(s: State, es: seq<Event>)
    requires Runs(s, es)
    ensures s.log <= Run(s, es).log
    decreases es
  {
    if es != [] {
      StepLogs(s, es[0]);
      RunLogs(Step(s, es[0]), es[1..]);
    }
  }

  lemma SpacedBefore(log: seq<Send>, longer: seq<Send>)
    requires log <= longer && Spaced(longer)
    ensures Spaced(log)
  {
  }

  lemma {:induction false} SpacedRun(s: State, es: seq<Event>)
    requires Inv(s) && Runs(s, es) && Spaced(s.log)
    ensures Spaced(Run(s, es).log) <==> NeverEarly(s, es)
    decreases es
  {
    if es != [] {
      var s' := Step(s, es[0]);
      StepSpacedIff(s, es[0]);
      StepKeeps(s, es[0]);
      if FiresEarly(s, es[0]) {
        RunLogs(s', es[1..]);
        if Spaced(Run(s', es[1..]).log) {
          SpacedBefore(s'.log, Run(s', es[1..]).log);
        }
      } else {
        SpacedRun(s', es[1..]);
      }
    }
  }

  /** Every send no flush asked for comes at least the throttle after every earlier send of its channel, exactly when no
      timer ever fires for a pending id within the throttle of its channel's last send. */
  lemma UnforcedSendsAreSpacedIff(now: nat, open: bool, es: seq<Event>)
    requires Runs(Start(now, open), es)
    ensures Spaced(Run(Start(now, open), es).log) <==> NeverEarly(Start(now, open), es)
  {
    SpacedRun(Start(now, open), es);
  }

  /** When due timers fire first, every send no flush asked for comes at least the throttle after every earlier send of
      its channel. */
  lemma UnforcedSendsAreSpaced(now: nat, open: bool, es: seq<Event>)
    requires Runs(Start(now, open), es) && PromptRun(Start(now, open), es)
    ensures Spaced(Run(Start(now, open), es).log)
  {
    ThrottledRun(Start(now, open), es);
  }

  /** A late timer breaks the throttle: a mark sent at once leaves the old timer running, and the next mark goes out
      when that timer fires, right behind it. */
  lemma LateTimerBreaksTheThrottle()
    ensures var es :=
        [Mark(1, 1, false), Mark(1, 2, false), TimePasses(7000), Mark(1, 3, false), Mark(1, 4, false), TimerFires(0)];
            && Runs(Start(5000, true), es)
            && !PromptRun(Start(5000, true), es)
            && !Spaced(Run(Start(5000, true), es).log)
  {
    var s0 := Start(5000, true);
    var s1 := Step(s0, Mark(1, 1, false));
    assert s1 == s0.(log := [Send(1, 1, 5000, false, true)], lastSent := map[1 := 1], lastSentAt := map[1 := 5000],
                     asked := map[1 := 1]);
    LateTimerIsPassed(s1);
    var es := [Mark(1, 1, false), Mark(1, 2, false), TimePasses(7000), Mark(1, 3, false), Mark(1, 4, false),
               TimerFires(0)];
    assert es[1..] == [Mark(1, 2, false), TimePasses(7000), Mark(1, 3, false), Mark(1, 4, false), TimerFires(0)];
  }

  lemma LateTimerIsPassed(s1: State)
    requires s1 == Start(5000, true).(log := [Send(1, 1, 5000, false, true)], lastSent := map[1 := 1],
                                      lastSentAt := map[1 := 5000],
                                      asked := map[1 := 1])
    ensures var es := [Mark(1, 2, false), TimePasses(7000), Mark(1, 3, false), Mark(1, 4, false), TimerFires(0)];
            Runs(s1, es) && !PromptRun(s1, es) && !Spaced(Run(s1, es).log)
  {
    var es := [Mark(1, 2, false), TimePasses(7000), Mark(1, 3, false), Mark(1, 4, false), TimerFires(0)];
    var s2 := Step(s1, es[0]);
    assert s2 == s1.(pending := map[1 := 2], timers := map[1 := 0], live := map[0 := Timer(1, 7000)], nextTimer := 1,
                     asked := map[1 := 2]);
    var es2 := es[1..];
    var s3 := Step(s2, es2[0]);
    var es3 := es2[1..];
    assert 0 in s3.live && !Prompt(s3, es3[0]);
    var s4 := Step(s3, es3[0]);
    LateTimerFires(s4, [Send(1, 1, 5000, false, true), Send(1, 3, 7000, false, true)]);
    assert es3[1..] == [Mark(1, 4, false), TimerFires(0)];
    assert Runs(s3, es3) && !PromptRun(s3, es3) && Run(s3, es3) == Run(s4, es3[1..]);
    assert Runs(s2, es2) && !PromptRun(s2, es2) && Run(s2, es2) == Run(s3, es3);
  }

  lemma LateTimerFires(s: State, log: seq<Send>)
    requires log == [Send(1, 1, 5000, false, true), Send(1, 3, 7000, false, true)]
    requires s.log == log && s.now == 7000 && s.open && s.live == map[0 := Timer(1, 7000)] && s.timers == map[1 := 0]
    requires s.lastSent == map[1 := 3] && s.lastSentAt == map[1 := 7000] && s.pending == map[]
    ensures var es := [Mark(1, 4, false), TimerFires(0)];
            Runs(s, es) && !Spaced(Run(s, es).log)
  {
    var es := [Mark(1, 4, false), TimerFires(0)];
    var s1 := Step(s, es[0]);
    assert s1.pending == map[1 := 4] && s1.live == s.live && s1.log == log && s1.lastSent == s.lastSent;
    assert es[1..] == [TimerFires(0)] && es[1..][1..] == [];
    var s2 := Step(s1, es[1]);
    assert s2.log == log + [Send(1, 4, 7000, false, true)];
    assert Run(s1, es[1..]) == s2;
    assert !Spaced(s2.log) by {
      assert s2.log[1].channel == s2.log[2].channel && !s2.log[2].flushed
             && s2.log[2].at - s2.log[1].at < MARK_READ_THROTTLE_MS;
    }
  }

  // ----- The hook's references -----

  class UseUnread {
    var pendingByChannel: map<int, int>
    var lastSentByChannel: map<int, int>
    var lastSentAtByChannel: map<int, int>
    var timerByChannel: map<int, TimerId>
    var live: map<TimerId, Timer>
    var nextTimer: TimerId
    var now: int
    var open: bool
    var log: seq<Send>
    ghost var asked: map<int, int>
    var lastMessageIdByChannel: map<int, int>

    ghost function HookView(): Hook
      reads this
    {
      Hook(View(), lastMessageIdByChannel)
    }

    ghost function View(): State
      reads this
    {
      State(pendingByChannel, lastSentByChannel, lastSentAtByChannel, timerByChannel, live, nextTimer, now, open, log,
            asked)
    }

    constructor (now: nat, open: bool)
      ensures HookView() == Hook(Start(now, open), map[])
    {
      pendingByChannel, lastSentByChannel, lastSentAtByChannel, timerByChannel := map[], map[], map[], map[];
      live, nextTimer := map[], 0;
      this.now, this.open := now, open;
      log, asked := [], map[];
      lastMessageIdByChannel := map[];
    }

    method SetTimeout(channel: int, delay: int) returns (t: TimerId)
      modifies this`live, this`nextTimer
      ensures t == old(nextTimer) && nextTimer == t + 1
      ensures live == old(live)[t := Timer(channel, now + delay)]
    {
      t := nextTimer;
      live := live[t := Timer(channel, now + delay)];
      nextTimer := nextTimer + 1;
    }

    method SendNow(channel: int, flushed: bool)
      modifies this`pendingByChannel, this`lastSentByChannel, this`lastSentAtByChannel, this`log
      ensures View() == AfterSend(old(View()), channel, flushed)
    {
      if channel !in pendingByChannel {
        return;
      }
      var id := pendingByChannel[channel];
      var lastSent := if channel in lastSentByChannel then lastSentByChannel[channel] else 0;
      if id <= lastSent {
        pendingByChannel := pendingByChannel - {channel};
        return;
      }
      log := log + [Send(channel, id, now, flushed, open)];
      lastSentByChannel := lastSentByChannel[channel := id];
      lastSentAtByChannel := lastSentAtByChannel[channel := now];
      pendingByChannel := pendingByChannel - {channel};
    }

    method FlushChannel(channel: int)
      modifies this
      ensures lastMessageIdByChannel == old(lastMessageIdByChannel)
      ensures View() == AfterFlush(old(View()), channel)
    {
      if channel in timerByChannel {
        live := live - {timerByChannel[channel]};
        timerByChannel := timerByChannel - {channel};
      }
      SendNow(channel, true);
    }

    /** `order` is the order in which the timer map lists its channels. */
    method FlushAll(order: seq<int>)
      requires Lists(order, timerByChannel.Keys)
      modifies this
      ensures View() == AfterFlushAll(old(View()), order)
      ensures Inv(old(View())) ==> pendingByChannel == map[] && timerByChannel == map[] && live == map[]
    {
      for i := 0 to |order|
        invariant AfterFlushAll(View(), order[i..]) == AfterFlushAll(old(View()), order)
      {
        FlushChannel(order[i]);
      }
      if Inv(old(View())) {
        FlushAllEmpties(old(View()), order);
      }
    }

    method ScheduleSend(channel: int, id: int, force: bool)
      modifies this
      ensures lastMessageIdByChannel == old(lastMessageIdByChannel)
      ensures View() == AfterSchedule(old(View()), channel, id, force)
    {
      var lastSent := if channel in lastSentByChannel then lastSentByChannel[channel] else 0;
      if id <= lastSent {
        return;
      }
      pendingByChannel := pendingByChannel[channel := id];
      if force {
        FlushChannel(channel);
        return;
      }
      var lastSentAt := if channel in lastSentAtByChannel then lastSentAtByChannel[channel] else 0;
      if now - lastSentAt >= MARK_READ_THROTTLE_MS {
        SendNow(channel, false);
        return;
      }
      if channel in timerByChannel {
        return;
      }
      var delay := MARK_READ_THROTTLE_MS - (now - lastSentAt);
      var timer := SetTimeout(channel, delay);
      timerByChannel := timerByChannel[channel := timer];
    }

    method MarkChannelRead(channel: int, id: int, force: bool)
      modifies this
      ensures lastMessageIdByChannel == old(lastMessageIdByChannel)
      ensures View() == AfterMark(old(View()), channel, id, force)
    {
      if channel <= 0 || id <= 0 {
        return;
      }
      asked := AfterAsking(View(), channel, id).asked;
      ScheduleSend(channel, id, force);
    }

    /** A live message. `shown` tells whether its channel is open on a visible page. */
    method OnMessage(channel: int, id: int, own: bool, shown: bool)
      modifies this
      ensures HookView() == AfterIncoming(old(HookView()), channel, id, own, shown)
    {
      var known := if channel in lastMessageIdByChannel then lastMessageIdByChannel[channel] else 0;
      if id > known {
        lastMessageIdByChannel := lastMessageIdByChannel[channel := id];
      }
      if own {
        return;
      }
      if shown {
        MarkChannelRead(channel, id, false);
      }
    }

    /** The open channel is looked at; `loadedLast` is the last id of its list, or 0. */
    method OnLook(channel: int, loadedLast: int)
      modifies this
      ensures HookView() == AfterLook(old(HookView()), channel, loadedLast)
    {
      if channel <= 0 {
        return;
      }
      var known := if channel in lastMessageIdByChannel then lastMessageIdByChannel[channel] else 0;
      var id := if known > loadedLast then known else loadedLast;
      if id > 0 {
        lastMessageIdByChannel := lastMessageIdByChannel[channel := id];
        MarkChannelRead(channel, id, false);
      }
    }

    /** The timer's callback. */
    method OnTimer(t: TimerId)
      requires t in live
      modifies this
      ensures View() == AfterTimer(old(View()), t)
    {
      var channel := live[t].channel;
      live := live - {t};
      timerByChannel := timerByChannel - {channel};
      SendNow(channel, false);
    }
  }
}
