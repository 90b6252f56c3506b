/** Session recovery: the runs that try to rejoin after a lost session, interleaved with leaves, channel switches,
    rejoins from the socket's own reconnect, and each other. Every await is a step of its own. */
module SfuRecovery {
  import opened Options

  type RunId = nat
  type CallId = nat

  /** What the user is shown about the call. */
  datatype Status = Unset | Reconnecting | Connected | Lost

  datatype Phase =
    | Sleeping(attempt: nat)  // in the backoff before this attempt
    | Rejoining(attempt: nat) // awaiting its call of rejoin
    | Leaving                 // gave up, awaiting leave
    | Done

  datatype Run = Run(generation: nat, channel: int, phase: Phase, rejoins: nat, leaves: nat)

  /** An invocation of rejoin, by a recovery run or by the socket's reconnect flow. */
  datatype Stage = Resuming | Joining | Opening
  datatype Call = Call(owner: Option<RunId>, channel: int, stage: Stage)

  const ATTEMPTS: nat := 3

  datatype State = State(
    socketOpen: bool,
    hasSession: bool, // a peer connection and a session id
    channel: int,
    handled: bool,    // sessionLostHandled
    generation: nat,  // recoveryGeneration
    runs: map<RunId, Run>,
    calls: map<CallId, Call>,
    nextId: nat,
    status: Status)

  const FRESH := State(false, false, 0, false, 0, map[], map[], 0, Unset)

  // ----- The client's functions, cut at their awaits -----

  function TornDown(s: State): State {
    s.(generation := s.generation + 1, hasSession := false, channel := 0)
  }

  function Established(s: State): State {
    s.(handled := false, status := Connected)
  }

  function SessionApplied(s: State, channel: int): State {
    Established(s).(hasSession := true, channel := channel)
  }

  function SessionLost(s: State): State {
    if s.handled || s.channel <= 0 then s
    else
      var s1 := s.(handled := true, nextId := s.nextId + 1);
      if !s.socketOpen then s1.(runs := s.runs[s.nextId := Run(s.generation, s.channel, Done, 0, 0)])
      else s1.(runs := s.runs[s.nextId := Run(s.generation, s.channel, Sleeping(0), 0, 0)], status := Reconnecting)
  }

  /** rejoin, up to its first await; a channel that is not positive makes it return at once. */
  function RejoinStarts(s: State, owner: Option<RunId>, channel: int): State {
    if channel <= 0 then Returned(s, owner, true)
    else
      var resume := s.hasSession && s.channel == channel;
      var s1 := if resume then s else TornDown(s);
      s1.(calls := s.calls[s.nextId := Call(owner, channel, if resume then Resuming else Joining)],
          nextId := s.nextId + 1)
  }

  /** Where a run goes once its rejoin has returned or thrown. */
  function NextPhase(generation: nat, run: Run, ok: bool): Phase
    requires run.phase.Rejoining?
  {
    if ok then Done
    else if run.phase.attempt + 1 < ATTEMPTS then Sleeping(run.phase.attempt + 1)
    else if run.generation == generation then Leaving
    else Done
  }

  function Returned(s: State, owner: Option<RunId>, ok: bool): State {
    if owner.None? || owner.value !in s.runs || !s.runs[owner.value].phase.Rejoining? then s
    else
      var run := s.runs[owner.value];
      var phase := NextPhase(s.generation, run, ok);
      s.(runs := s.runs[owner.value := run.(phase := phase, leaves := run.leaves + if phase == Leaving then 1 else 0)],
         status := if phase == Leaving then Lost else s.status)
  }

  function Woken(s: State, r: RunId): State
    requires r in s.runs && s.runs[r].phase.Sleeping?
  {
    var run := s.runs[r];
    if run.generation != s.generation || !s.socketOpen then s.(runs := s.runs[r := run.(phase := Done)])
    else
      RejoinStarts(s.(runs := s.runs[r := run.(phase := Rejoining(run.phase.attempt), rejoins := run.rejoins + 1)]),
                   Some(r), run.channel)
  }

  function ResumeReplied(s: State, c: CallId, ok: bool): State
    requires c in s.calls
  {
    if ok then Returned(Established(s).(calls := s.calls - {c}), s.calls[c].owner, true)
    else TornDown(s).(calls := s.calls[c := s.calls[c].(stage := Joining)])
  }

  /** The reply to join_voice; one without a session id makes applySession throw. */
  function JoinReplied(s: State, c: CallId, ok: bool, channel: int): State
    requires c in s.calls
  {
    if ok then SessionApplied(s, channel).(calls := s.calls[c := s.calls[c].(stage := Opening)])
    else Returned(s.(calls := s.calls - {c}), s.calls[c].owner, false)
  }

  function OpenReplied(s: State, c: CallId, ok: bool): State
    requires c in s.calls
  {
    Returned(s.(calls := s.calls - {c}), s.calls[c].owner, ok)
  }

  // ----- Runs -----

  datatype Event =
    | SocketChanges(open: bool)
    | SessionIsLost
    | Wakes(r: RunId)
    | ResumeReplies(c: CallId, ok: bool)
    | JoinReplies(c: CallId, ok: bool, toChannel: int)
    | OpenReplies(c: CallId, ok: bool)
    | LeaveTearsDown            // leave(), by the user, by a channel switch, or by a run that gave up
    | JoinApplies(toChannel: int) // join() has its reply
    | SocketRejoins(channel: int) // the socket's reconnect flow calls rejoin

  predicate Enabled(s: State, e: Event) {
    match e
    case Wakes(r) => r in s.runs && s.runs[r].phase.Sleeping?
    case ResumeReplies(c, ok) => c in s.calls && s.calls[c].stage == Resuming
    case JoinReplies(c, ok, channel) => c in s.calls && s.calls[c].stage == Joining
    case OpenReplies(c, ok) => c in s.calls && s.calls[c].stage == Opening
    case _ => true
  }

  function Step(s: State, e: Event): State
    requires Enabled(s, e)
  {
    match e
    case SocketChanges(open) => s.(socketOpen := open)
    case SessionIsLost => SessionLost(s)
    case Wakes(r) => Woken(s, r)
    case ResumeReplies(c, ok) => ResumeReplied(s, c, ok)
    case JoinReplies(c, ok, channel) => JoinReplied(s, c, ok, channel)
    case OpenReplies(c, ok) => OpenReplied(s, c, ok)
    case LeaveTearsDown => TornDown(s)
    case JoinApplies(channel) => SessionApplied(s, channel)
    case SocketRejoins(channel) => RejoinStarts(s, None, channel)
  }

  predicate IsRun(s: State, es: seq<Event>)
    decreases es
  {
    es == [] || (Enabled(s, es[0]) && IsRun(Step(s, es[0]), es[1..]))
  }

  function After(s: State, es: seq<Event>): State
    requires IsRun(s, es)
    decreases es
  {
    if es == [] then s else After(Step(s, es[0]), es[1..])
  }

  // ----- What every run keeps -----

  predicate Stale(s: State, run: Run) { run.generation < s.generation }

  /** A run's first rejoin is its only one: by the time rejoin throws, its own teardown has made the run stale. */
  predicate RunSound(s: State, run: Run) {
    && run.generation <= s.generation
    && run.channel > 0
    && run.leaves == 0
    && run.rejoins <= 1
    && match run.phase
       case Sleeping(i) => if run.rejoins == 0 then i == 0 else i == 1 && Stale(s, run)
       case Rejoining(i) => i == 0 && run.rejoins == 1
       case Leaving => false
       case Done => true
  }

  predicate CallSound(s: State, call: Call) {
    call.owner.Some? ==>
      && call.owner.value in s.runs
      && s.runs[call.owner.value].phase.Rejoining?
      && (call.stage != Resuming ==> Stale(s, s.runs[call.owner.value]))
  }

  ghost predicate Inv(s: State) {
    && (forall r :: r in s.runs ==> r < s.nextId && RunSound(s, s.runs[r]))
    && (forall c :: c in s.calls ==> c < s.nextId && CallSound(s, s.calls[c]))
    && (forall c, d :: c in s.calls && d in s.calls && c != d && s.calls[c].owner.Some? ==>
          s.calls[c].owner != s.calls[d].owner)
    && s.status != Lost
    && (s.status == Reconnecting ==> s.handled)
  }

  lemma TornDownKeeps(s: State)
    requires Inv(s)
    ensures Inv(TornDown(s))
    ensures forall r :: r in s.runs ==> Stale(TornDown(s), s.runs[r])
  {
  }

  lemma RejoinKeeps(s: State, owner: Option<RunId>, channel: int)
    requires Inv(s) && channel > 0
    requires owner.Some? ==> owner.value in s.runs && s.runs[owner.value].phase.Rejoining?
                             && forall c :: c in s.calls ==> s.calls[c].owner != owner
    ensures Inv(RejoinStarts(s, owner, channel))
  {
    TornDownKeeps(s);
  }

  lemma NextPhaseSound(s: State, run: Run, ok: bool)
    requires RunSound(s, run) && run.phase.Rejoining? && (ok || Stale(s, run))
    ensures RunSound(s, run.(phase := NextPhase(s.generation, run, ok))) && NextPhase(s.generation, run, ok) != Leaving
  {
  }

  lemma ReturnKeeps(s: State, c: CallId, ok: bool)
    requires Inv(s) && c in s.calls && (ok || s.calls[c].stage != Resuming)
    ensures Inv(Returned(s.(calls := s.calls - {c}), s.calls[c].owner, ok))
  {
    assert CallSound(s, s.calls[c]);
    var owner := s.calls[c].owner;
    if owner.Some? {
      var run := s.runs[owner.value];
      NextPhaseSound(s, run, ok);
      var r := Returned(s.(calls := s.calls - {c}), owner, ok);
      assert r == s.(calls := s.calls - {c},
                     runs := s.runs[owner.value := run.(phase := NextPhase(s.generation, run, ok))]);
      forall d | d in r.calls
        ensures CallSound(r, r.calls[d])
      {
        assert CallSound(s, s.calls[d]) && s.calls[d].owner != owner;
      }
    }
  }

  function WithRun(s: State, r: RunId, run: Run): State { s.(runs := s.runs[r := run]) }

  /** A run no rejoin belongs to may change on its own. */
  lemma IdleRunChanges(s: State, r: RunId, run: Run)
    requires Inv(s) && r in s.runs && !s.runs[r].phase.Rejoining? && RunSound(s, run)
    ensures Inv(WithRun(s, r, run)) && forall c :: c in s.calls ==> s.calls[c].owner != Some(r)
  {
    assert forall c :: c in s.calls ==> CallSound(s, s.calls[c]);
  }

  lemma WokenKeeps(s: State, r: RunId)
    requires Inv(s) && Enabled(s, Wakes(r))
    ensures Inv(Woken(s, r))
  {
    var run := s.runs[r];
    if run.generation == s.generation && s.socketOpen {
      var woken := run.(phase := Rejoining(run.phase.attempt), rejoins := run.rejoins + 1);
      IdleRunChanges(s, r, woken);
      RejoinKeeps(WithRun(s, r, woken), Some(r), run.channel);
    } else {
      IdleRunChanges(s, r, run.(phase := Done));
    }
  }

  lemma ResumeKeeps(s: State, c: CallId, ok: bool)
    requires Inv(s) && Enabled(s, ResumeReplies(c, ok))
    ensures Inv(ResumeReplied(s, c, ok))
  {
    if ok {
      ReturnKeeps(Established(s), c, true);
    } else {
      TornDownKeeps(s);
      StageKeeps(TornDown(s), c, Joining);
    }
  }

  lemma JoinKeeps(s: State, c: CallId, ok: bool, channel: int)
    requires Inv(s) && Enabled(s, JoinReplies(c, ok, channel))
    ensures Inv(JoinReplied(s, c, ok, channel))
  {
    if ok {
      assert CallSound(s, s.calls[c]);
      StageKeeps(SessionApplied(s, channel), c, Opening);
    } else {
      ReturnKeeps(s, c, false);
    }
  }

  lemma StageKeeps(s: State, c: CallId, stage: Stage)
    requires Inv(s) && c in s.calls
    requires s.calls[c].owner.Some? ==> s.calls[c].owner.value in s.runs && Stale(s, s.runs[s.calls[c].owner.value])
    ensures Inv(s.(calls := s.calls[c := s.calls[c].(stage := stage)]))
  {
    assert CallSound(s, s.calls[c]);
  }

  lemma LostKeeps(s: State)
    requires Inv(s)
    ensures Inv(SessionLost(s))
  {
    var r := SessionLost(s);
    forall c | c in r.calls
      ensures CallSound(r, r.calls[c])
    {
      assert CallSound(s, s.calls[c]);
    }
  }

  lemma StepKeeps(s: State, e: Event)
    requires Inv(s) && Enabled(s, e)
    ensures Inv(Step(s, e))
  {
    match e
    case Wakes(r) => WokenKeeps(s, r);
    case ResumeReplies(c, ok) => ResumeKeeps(s, c, ok);
    case JoinReplies(c, ok, channel) => JoinKeeps(s, c, ok, channel);
    case SessionIsLost => LostKeeps(s);
    case OpenReplies(c, ok) => ReturnKeeps(s, c, ok);
    case LeaveTearsDown => TornDownKeeps(s);
    case SocketRejoins(channel) => if channel > 0 { RejoinKeeps(s, None, channel); }
    case _ =>
  }

  lemma {:induction false} RunKeeps(s: State, es: seq<Event>)
    requires Inv(s) && IsRun(s, es)
    ensures Inv(After(s, es))
    decreases es
  {
    if es != [] {
      StepKeeps(s, es[0]);
      RunKeeps(Step(s, es[0]), es[1..]);
    }
  }

  // ----- When a recovery run starts -----

  /** A session has been established: resumed, joined, or joined again. */
  predicate Establishes(e: Event) { e.JoinApplies? || ((e.JoinReplies? || e.ResumeReplies?) && e.ok) }

  /** How many runs have been started since a session was last established. */
  function RunsStarted(s: State, es: seq<Event>, before: nat): nat
    requires IsRun(s, es)
    decreases es
  {
    if es == [] then before
    else
      var s' := Step(s, es[0]);
      RunsStarted(s', es[1..], if Establishes(es[0]) then 0 else before + |s'.runs.Keys - s.runs.Keys|)
  }

  /** A loss has been reported in a channel, and no session has been established since. */
  predicate LossReported(s: State, es: seq<Event>, before: bool)
    requires IsRun(s, es)
    decreases es
  {
    if es == [] then before
    else LossReported(Step(s, es[0]), es[1..],
                      !Establishes(es[0]) && (before || (es[0].SessionIsLost? && s.channel > 0)))
  }

  lemma ReportedStep(s: State, e: Event)
    requires Inv(s) && Enabled(s, e)
    ensures Step(s, e).handled <==> !Establishes(e) && (s.handled || (e.SessionIsLost? && s.channel > 0))
  {
  }

  lemma ReturnedKeys(s: State, owner: Option<RunId>, ok: bool)
    ensures Returned(s, owner, ok).runs.Keys == s.runs.Keys
  {
  }

  lemma OtherKeys(s: State, e: Event)
    requires Enabled(s, e) && !e.SessionIsLost?
    ensures Step(s, e).runs.Keys == s.runs.Keys
  {
    match e
    case Wakes(r) => WokenKeys(s, r);
    case ResumeReplies(c, ok) =>
      if ok { ReturnedKeys(Established(s).(calls := s.calls - {c}), s.calls[c].owner, true); }
    case JoinReplies(c, ok, channel) =>
      if !ok { ReturnedKeys(s.(calls := s.calls - {c}), s.calls[c].owner, false); }
    case OpenReplies(c, ok) => ReturnedKeys(s.(calls := s.calls - {c}), s.calls[c].owner, ok);
    case SocketRejoins(channel) => RejoinKeys(s, None, channel);
    case _ =>
  }

  lemma WokenKeys(s: State, r: RunId)
    requires Enabled(s, Wakes(r))
    ensures Woken(s, r).runs.Keys == s.runs.Keys
  {
    var run := s.runs[r];
    RejoinKeys(WithRun(s, r, run.(phase := Rejoining(run.phase.attempt), rejoins := run.rejoins + 1)), Some(r),
               run.channel);
  }

  lemma RejoinKeys(s: State, owner: Option<RunId>, channel: int)
    ensures RejoinStarts(s, owner, channel).runs.Keys == s.runs.Keys
  {
    ReturnedKeys(s, owner, true);
  }

  lemma LostStarts(s: State)
    requires Inv(s)
    ensures |SessionLost(s).runs.Keys - s.runs.Keys| == if !s.handled && s.channel > 0 then 1 else 0
  {
    var started := SessionLost(s).runs.Keys - s.runs.Keys;
    if !s.handled && s.channel > 0 {
      assert s.nextId !in s.runs;
      assert started == {s.nextId};
    } else {
      assert started == {};
    }
  }

  lemma SameStarts(s: State, s': State)
    requires s'.runs.Keys == s.runs.Keys
    ensures |s'.runs.Keys - s.runs.Keys| == 0
  {
    assert s'.runs.Keys - s.runs.Keys == {};
  }

  lemma StartsStep(s: State, e: Event)
    requires Inv(s) && Enabled(s, e)
    ensures |Step(s, e).runs.Keys - s.runs.Keys| == if e.SessionIsLost? && !s.handled && s.channel > 0 then 1 else 0
  {
    if e.SessionIsLost? {
      LostStarts(s);
    } else {
      OtherKeys(s, e);
      SameStarts(s, Step(s, e));
    }
  }

  lemma {:induction false} ReportedRun(s: State, es: seq<Event>)
    requires Inv(s) && IsRun(s, es)
    ensures Inv(After(s, es)) && After(s, es).handled == LossReported(s, es, s.handled)
    decreases es
  {
    if es != [] {
      StepKeeps(s, es[0]);
      ReportedStep(s, es[0]);
      ReportedRun(Step(s, es[0]), es[1..]);
    }
  }

  lemma {:induction false} StartsRun(s: State, es: seq<Event>, before: nat)
    requires Inv(s) && IsRun(s, es) && before <= (if s.handled then 1 else 0)
    ensures RunsStarted(s, es, before) <= 1
    decreases es
  {
    if es != [] {
      var s' := Step(s, es[0]);
      StepKeeps(s, es[0]);
      ReportedStep(s, es[0]);
      StartsStep(s, es[0]);
      StartsRun(s', es[1..], if Establishes(es[0]) then 0 else before + |s'.runs.Keys - s.runs.Keys|);
    }
  }

  /** At most one recovery run starts between two session establishments, whoever reports the loss and how often. */
  lemma OneRunPerSession(es: seq<Event>)
    requires IsRun(FRESH, es)
    ensures RunsStarted(FRESH, es, 0) <= 1
  {
    StartsRun(FRESH, es, 0);
  }

  /** In every run, a loss starts a recovery run for the current channel if and only if there is one, and no loss has
      been reported in a channel since a session was last established. The run begins in its backoff, with the user
      shown "reconnecting", when the socket is open; otherwise it is over at once. */
  lemma LossStartsARunIff(es: seq<Event>)
    requires IsRun(FRESH, es)
    ensures var s := After(FRESH, es);
            var s' := Step(s, SessionIsLost);
            && s.nextId !in s.runs
            && if s.channel > 0 && !LossReported(FRESH, es, false) then
                 && s'.runs == s.runs[s.nextId := Run(s.generation, s.channel,
                                                      if s.socketOpen then Sleeping(0) else Done, 0, 0)]
                 && s'.status == (if s.socketOpen then Reconnecting else s.status)
               else s' == s
  {
    ReportedRun(FRESH, es);
  }

  lemma {:induction false} RunInTwo(s: State, es: seq<Event>, fs: seq<Event>, before: bool)
    requires IsRun(s, es + fs)
    ensures IsRun(s, es) && IsRun(After(s, es), fs) && After(s, es + fs) == After(After(s, es), fs)
    ensures LossReported(s, es + fs, before) == LossReported(After(s, es), fs, LossReported(s, es, before))
    decreases es
  {
    if es == [] {
      assert es + fs == fs;
    } else {
      assert (es + fs)[0] == es[0] && (es + fs)[1..] == es[1..] + fs;
      RunInTwo(Step(s, es[0]), es[1..], fs,
               !Establishes(es[0]) && (before || (es[0].SessionIsLost? && s.channel > 0)));
    }
  }

  lemma {:induction false} NothingReported(s: State, es: seq<Event>)
    requires IsRun(s, es) && SessionIsLost !in es
    ensures !LossReported(s, es, false)
    decreases es
  {
    if es != [] {
      assert es[0] in es;
      NothingReported(Step(s, es[0]), es[1..]);
    }
  }

  /** Once a session is established again, the next loss on an open socket is recovered from, however many there were
      before. */
  lemma NextLossIsRecovered(es: seq<Event>, e: Event, fs: seq<Event>)
    requires Establishes(e) && SessionIsLost !in fs && IsRun(FRESH, es + ([e] + fs))
    requires var s := After(FRESH, es + ([e] + fs)); s.socketOpen && s.channel > 0
    ensures var s := After(FRESH, es + ([e] + fs));
            var s' := Step(s, SessionIsLost);
            && s.nextId !in s.runs && s'.status == Reconnecting
            && s'.runs == s.runs[s.nextId := Run(s.generation, s.channel, Sleeping(0), 0, 0)]
  {
    RunInTwo(FRESH, es, [e] + fs, false);
    var s := After(FRESH, es);
    assert ([e] + fs)[1..] == fs;
    NothingReported(Step(s, e), fs);
    LossStartsARunIff(es + ([e] + fs));
  }

  /** Recovery never makes its second attempt: a run calls rejoin at most once, never gives up by leaving, and the
      call is never reported lost. */
  lemma RecoveryTriesOnce(es: seq<Event>)
    requires IsRun(FRESH, es)
    ensures var s := After(FRESH, es);
            && s.status != Lost
            && forall r :: r in s.runs ==> s.runs[r].rejoins <= 1 && s.runs[r].leaves == 0
  {
    RunKeeps(FRESH, es);
  }

  // ----- What rejoining does -----

  /** A rejoin of the channel the client is in keeps its session and asks to resume it; of another channel, or without a
      session, it tears everything down and joins; of no channel it does nothing. */
  lemma RejoinResumesIff(s: State, channel: int)
    ensures var s' := Step(s, SocketRejoins(channel));
            if channel <= 0 then s' == s
            else
              && s'.calls == s.calls[s.nextId := Call(None, channel, if s.hasSession && s.channel == channel
                                                                    then Resuming else Joining)]
              && (s'.hasSession <==> s.hasSession && s.channel == channel)
              && (s'.hasSession ==> s'.channel == channel && s'.generation == s.generation)
              && (!s'.hasSession ==> s'.channel == 0 && s'.generation > s.generation)
  {
  }

  /** A run rejoins its channel exactly when it wakes up on an open socket and nothing has torn the session down since
      it started. */
  lemma RunRejoinsIff(s: State, e: Event, r: RunId)
    requires Inv(s) && Enabled(s, e) && r in s.runs
    ensures var s' := Step(s, e);
            && r in s'.runs && s'.runs[r].channel == s.runs[r].channel
            && (s'.runs[r].rejoins > s.runs[r].rejoins <==> e == Wakes(r) && s.socketOpen && !Stale(s, s.runs[r]))
            && (s'.runs[r].rejoins > s.runs[r].rejoins ==>
                  s.nextId in s'.calls && s'.calls[s.nextId].owner == Some(r)
                  && s'.calls[s.nextId].channel == s.runs[r].channel)
  {
    assert RunSound(s, s.runs[r]);
    if e.Wakes? { assert RunSound(s, s.runs[e.r]); }
  }

  /** The call has had its join reply. */
  predicate Joined(s: State, c: CallId) { c < s.nextId && (c in s.calls ==> s.calls[c].stage == Opening) }

  lemma {:induction false} JoinedForGood(s: State, es: seq<Event>, c: CallId)
    requires Joined(s, c) && IsRun(s, es)
    ensures forall e :: e in es ==> !(e.JoinReplies? && e.c == c) && !(e.ResumeReplies? && e.c == c)
    decreases es
  {
    if es != [] {
      assert Joined(Step(s, es[0]), c);
      JoinedForGood(Step(s, es[0]), es[1..], c);
      assert es == [es[0]] + es[1..];
    }
  }

  /** A call's join is answered once, and what it waits for next is its peer connection. */
  lemma JoinIsAnsweredOnce(s: State, c: CallId, ok: bool, channel: int, es: seq<Event>)
    requires Inv(s) && Enabled(s, JoinReplies(c, ok, channel)) && IsRun(Step(s, JoinReplies(c, ok, channel)), es)
    ensures forall e :: e in es ==> !(e.JoinReplies? && e.c == c) && !(e.ResumeReplies? && e.c == c)
    ensures Enabled(Step(s, JoinReplies(c, ok, channel)), OpenReplies(c, true)) <==> ok
  {
    JoinedForGood(Step(s, JoinReplies(c, ok, channel)), es, c);
  }

  /** Had rejoining not made the run stale, it would be tried three times, and then the user would be told that the call
      is lost and leave. */
  lemma AttemptsOfACurrentRun(s: State, r: RunId)
    requires r in s.runs && s.runs[r].generation == s.generation && s.runs[r].phase.Rejoining?
    ensures var s', i := Returned(s, Some(r), false), s.runs[r].phase.attempt;
            && (i < 2 ==> s'.runs[r].phase == Sleeping(i + 1) && s'.status == s.status)
            && (i == 2 ==> s'.runs[r].phase == Leaving && s'.status == Lost)
            && (i == 2 ==> s'.runs[r].leaves == s.runs[r].leaves + 1)
    ensures Returned(s, Some(r), true).runs[r].phase == Done
  {
  }

  /** The same run, with no further rejoin or leave. */
  predicate Unmoved(s: State, s': State, r: RunId) {
    r in s.runs && r in s'.runs && s.generation <= s'.generation &&
    s'.runs[r].generation == s.runs[r].generation &&
    s'.runs[r].rejoins == s.runs[r].rejoins && s'.runs[r].leaves == s.runs[r].leaves
  }

  lemma ReturnedUnmoved(s: State, owner: Option<RunId>, ok: bool, r: RunId)
    requires r in s.runs && Stale(s, s.runs[r])
    ensures Unmoved(s, Returned(s, owner, ok), r)
  {
  }

  lemma StaleStep(s: State, e: Event, r: RunId)
    requires Inv(s) && Enabled(s, e) && r in s.runs && Stale(s, s.runs[r])
    ensures Unmoved(s, Step(s, e), r)
  {
    match e
    case ResumeReplies(c, ok) =>
      if ok { ReturnedUnmoved(Established(s).(calls := s.calls - {c}), s.calls[c].owner, true, r); }
    case JoinReplies(c, ok, channel) =>
      if !ok { ReturnedUnmoved(s.(calls := s.calls - {c}), s.calls[c].owner, false, r); }
    case OpenReplies(c, ok) => ReturnedUnmoved(s.(calls := s.calls - {c}), s.calls[c].owner, ok, r);
    case SocketRejoins(channel) => assert Returned(s, None, true) == s;
    case Wakes(w) =>
      assert RunSound(s, s.runs[w]);
      if w != r { OtherWakes(s, w, r); }
    case _ =>
  }

  lemma OtherWakes(s: State, w: RunId, r: RunId)
    requires Inv(s) && Enabled(s, Wakes(w)) && r in s.runs && w != r
    ensures Unmoved(s, Woken(s, w), r)
  {
    assert RunSound(s, s.runs[w]);
  }

  /** A run whose generation has passed never calls rejoin or leave again. */
  lemma {:induction false} StaleRunIsSilent(s: State, es: seq<Event>, r: RunId)
    requires Inv(s) && IsRun(s, es) && r in s.runs && Stale(s, s.runs[r])
    ensures var end := After(s, es);
            && r in end.runs && end.runs[r].rejoins == s.runs[r].rejoins && end.runs[r].leaves == s.runs[r].leaves
    decreases es
  {
    if es != [] {
      StaleStep(s, es[0], r);
      StepKeeps(s, es[0]);
      StaleRunIsSilent(Step(s, es[0]), es[1..], r);
    }
  }

  lemma FirstStep(s: State, e: Event, rest: seq<Event>) returns (es: seq<Event>)
    requires Enabled(s, e) && IsRun(Step(s, e), rest)
    ensures es == [e] + rest && IsRun(s, es) && After(s, es) == After(Step(s, e), rest)
  {
    es := [e] + rest;
    assert es[1..] == rest;
  }

  /** What a failed recovery leaves behind, event by event: the session is lost, resume and join both fail, the second
      wake-up finds the run stale. No run and no call is left, there is no session, and the user is shown
      "reconnecting", with nothing left to change that. */
  lemma FailedRecoveryStaysReconnecting()
    ensures exists es ::
              IsRun(FRESH, es) &&
              var s := After(FRESH, es);
              && s.status == Reconnecting && !s.hasSession && s.socketOpen && s.calls == map[]
              && (forall r :: r in s.runs ==> s.runs[r].phase == Done)
  {
    var s1 := Step(FRESH, SocketChanges(true));
    var s2 := Step(s1, JoinApplies(5));
    var s3 := Step(s2, SessionIsLost);
    assert s3.runs == map[0 := Run(0, 5, Sleeping(0), 0, 0)];
    var s4 := Step(s3, Wakes(0));
    assert s4.calls == map[1 := Call(Some(0), 5, Resuming)];
    var s5 := Step(s4, ResumeReplies(1, false));
    assert s5.calls == map[1 := Call(Some(0), 5, Joining)] && s5.runs == map[0 := Run(0, 5, Rejoining(0), 1, 0)];
    var s6 := Step(s5, JoinReplies(1, false, 0));
    assert s6.runs == map[0 := Run(0, 5, Sleeping(1), 1, 0)] && s6.calls == map[];
    var s7 := Step(s6, Wakes(0));
    assert s7.runs == map[0 := Run(0, 5, Done, 1, 0)] && s7.calls == map[];
    var r6 := FirstStep(s6, Wakes(0), []);
    var r5 := FirstStep(s5, JoinReplies(1, false, 0), r6);
    var r4 := FirstStep(s4, ResumeReplies(1, false), r5);
    var r3 := FirstStep(s3, Wakes(0), r4);
    var r2 := FirstStep(s2, SessionIsLost, r3);
    var r1 := FirstStep(s1, JoinApplies(5), r2);
    var es := FirstStep(FRESH, SocketChanges(true), r1);
    assert After(FRESH, es) == s7;
  }

  // ----- What a stale run can still do -----

  predicate Rejoins(e: Event) { e.JoinApplies? || e.SocketRejoins? }

  predicate NoNewJoin(es: seq<Event>) { forall e :: e in es ==> !Rejoins(e) }

  predicate JoinSucceeds(e: Event) { e.JoinReplies? && e.ok }

  ghost predicate EverInCall(s: State, es: seq<Event>)
    requires IsRun(s, es)
    decreases es
  {
    s.hasSession || (es != [] && EverInCall(Step(s, es[0]), es[1..]))
  }

  lemma OutOfCallStep(s: State, e: Event)
    requires !s.hasSession && Enabled(s, e) && !Rejoins(e)
    ensures Step(s, e).hasSession <==> JoinSucceeds(e)
  {
  }

  lemma {:induction false} OutOfCallIff(s: State, es: seq<Event>)
    requires !s.hasSession && IsRun(s, es) && NoNewJoin(es)
    ensures EverInCall(s, es) <==> exists e :: e in es && JoinSucceeds(e)
    decreases es
  {
    if es != [] {
      assert es == [es[0]] + es[1..];
      OutOfCallStep(s, es[0]);
      if !JoinSucceeds(es[0]) {
        OutOfCallIff(Step(s, es[0]), es[1..]);
      }
    }
  }

  /** A rejoin that can still end in a session: it awaits its resume or its join reply. */
  predicate CanReturn(s: State) { exists c :: c in s.calls && s.calls[c].stage != Opening }

  /** Out of the call for good: no session, nothing that can return, and every run stale. */
  ghost predicate Left(s: State) {
    && !s.hasSession && s.channel == 0 && !CanReturn(s)
    && forall r :: r in s.runs ==> Stale(s, s.runs[r])
  }

  lemma {:induction false} LeftForGood(s: State, es: seq<Event>)
    requires Left(s) && IsRun(s, es) && NoNewJoin(es)
    ensures !EverInCall(s, es)
    decreases es
  {
    if es != [] {
      assert es[0] in es;
      LeftStep(s, es[0]);
      LeftForGood(Step(s, es[0]), es[1..]);
    }
  }

  lemma LeftStep(s: State, e: Event)
    requires Left(s) && Enabled(s, e) && !Rejoins(e)
    ensures Left(Step(s, e))
  {
  }

  /** A call that awaits a reply brings the session back when its replies come. */
  lemma ReturnsByReplies(s: State, c: CallId) returns (es: seq<Event>)
    requires c in s.calls && s.calls[c].stage != Opening
    ensures IsRun(s, es) && NoNewJoin(es) && EverInCall(s, es)
    ensures After(s, es).hasSession && After(s, es).status == Connected
  {
    var reply := JoinReplies(c, true, 5);
    if s.calls[c].stage == Joining {
      es := FirstStep(s, reply, []);
      OutOfCallEnds(s, es);
    } else {
      var s1 := Step(s, ResumeReplies(c, false));
      es := FirstStep(s1, reply, []);
      es := FirstStep(s, ResumeReplies(c, false), es);
      OutOfCallEnds(s, es);
    }
  }

  lemma {:induction false} OutOfCallEnds(s: State, es: seq<Event>)
    requires IsRun(s, es) && After(s, es).hasSession
    ensures EverInCall(s, es)
    decreases es
  {
    if es != [] {
      OutOfCallEnds(Step(s, es[0]), es[1..]);
    }
  }

  /** Some continuation without a new join is back in a call. */
  ghost predicate MayReturn(s: State) {
    exists es :: IsRun(s, es) && NoNewJoin(es) && EverInCall(s, es)
  }

  /** A leave can be undone, with nobody joining again, exactly when at that moment a rejoin is awaiting its resume or
      its join reply: the run behind it is stale by then, but applying the reply asks nobody. */
  lemma LeaveIsUndoneIff(s: State)
    requires Inv(s)
    ensures MayReturn(TornDown(s)) <==> CanReturn(s)
  {
    TornDownKeeps(s);
    if CanReturn(s) {
      var c :| c in s.calls && s.calls[c].stage != Opening;
      var es := ReturnsByReplies(TornDown(s), c);
    } else {
      forall es | IsRun(TornDown(s), es) && NoNewJoin(es) ensures !EverInCall(TornDown(s), es) {
        LeftForGood(TornDown(s), es);
      }
    }
  }

  /** And then it is undone by a join reply that succeeds. */
  lemma LeaveIsUndoneByReply(s: State, es: seq<Event>)
    requires IsRun(TornDown(s), es) && NoNewJoin(es)
    ensures EverInCall(TornDown(s), es) <==> exists e :: e in es && JoinSucceeds(e)
  {
    OutOfCallIff(TornDown(s), es);
  }

  /** It happens: the user leaves while recovery awaits its join reply, and is back in the call when the reply comes. */
  lemma LeaveIsUndone()
    ensures exists es ::
              IsRun(FRESH, es) &&
              var left := TornDown(After(FRESH, es));
              var reply := JoinReplies(1, true, 5);
              Enabled(left, reply) && !left.hasSession && Step(left, reply).hasSession && Step(left, reply).channel == 5
  {
    var s1 := Step(FRESH, SocketChanges(true));
    var s2 := Step(s1, JoinApplies(5));
    var s3 := Step(s2, SessionIsLost);
    var s4 := Step(s3, Wakes(0));
    assert s4.calls == map[1 := Call(Some(0), 5, Resuming)];
    var s5 := Step(s4, ResumeReplies(1, false));
    assert s5.calls == map[1 := Call(Some(0), 5, Joining)];
    var r4 := FirstStep(s4, ResumeReplies(1, false), []);
    var r3 := FirstStep(s3, Wakes(0), r4);
    var r2 := FirstStep(s2, SessionIsLost, r3);
    var r1 := FirstStep(s1, JoinApplies(5), r2);
    var es := FirstStep(FRESH, SocketChanges(true), r1);
    assert After(FRESH, es) == s5;
  }

  // ----- Reconnecting for good -----

  /** Something that can still end the reconnecting: a rejoin that awaits a reply, or a run in its backoff that is not
      stale. */
  predicate Hopeful(s: State) {
    CanReturn(s) || exists r :: r in s.runs && s.runs[r].phase.Sleeping? && !Stale(s, s.runs[r])
  }

  /** Reconnecting, with nothing left that could change that. */
  ghost predicate Stuck(s: State) { Inv(s) && s.status == Reconnecting && !Hopeful(s) }

  lemma StuckStep(s: State, e: Event)
    requires Stuck(s) && Enabled(s, e) && !Rejoins(e)
    ensures Stuck(Step(s, e))
  {
    StepKeeps(s, e);
    match e
    case OpenReplies(c, ok) => OpeningEnds(s, c, ok);
    case Wakes(r) => assert RunSound(s, s.runs[r]);
    case _ =>
  }

  lemma OpeningEnds(s: State, c: CallId, ok: bool)
    requires Stuck(s) && c in s.calls && s.calls[c].stage == Opening
    ensures var s' := OpenReplied(s, c, ok); s'.status == Reconnecting && !Hopeful(s')
  {
    assert CallSound(s, s.calls[c]);
    var owner := s.calls[c].owner;
    if owner.Some? {
      assert RunSound(s, s.runs[owner.value]);
    }
  }

  lemma {:induction false} StuckForGood(s: State, es: seq<Event>)
    requires Stuck(s) && IsRun(s, es) && NoNewJoin(es)
    ensures After(s, es).status == Reconnecting
    decreases es
  {
    if es != [] {
      assert es[0] in es;
      StuckStep(s, es[0]);
      StuckForGood(Step(s, es[0]), es[1..]);
    }
  }

  /** A run in its backoff wakes up on an open socket, and its rejoin succeeds. */
  lemma WakesAndReturns(s: State, r: RunId) returns (es: seq<Event>)
    requires Inv(s) && r in s.runs && s.runs[r].phase.Sleeping? && !Stale(s, s.runs[r])
    ensures IsRun(s, es) && NoNewJoin(es) && After(s, es).status == Connected
  {
    assert RunSound(s, s.runs[r]);
    var s1 := Step(s, SocketChanges(true));
    var s2 := Step(s1, Wakes(r));
    assert s1.nextId in s2.calls && s2.calls[s1.nextId].stage != Opening;
    es := ReturnsByReplies(s2, s1.nextId);
    es := FirstStep(s1, Wakes(r), es);
    es := FirstStep(s, SocketChanges(true), es);
  }

  /** Some continuation without a new join shows the user a connected call. */
  ghost predicate MayReconnect(s: State) {
    exists es :: IsRun(s, es) && NoNewJoin(es) && After(s, es).status == Connected
  }

  lemma ReconnectingIff(s: State)
    requires Inv(s) && s.status == Reconnecting
    ensures MayReconnect(s) <==> Hopeful(s)
  {
    if CanReturn(s) {
      var c :| c in s.calls && s.calls[c].stage != Opening;
      var es := ReturnsByReplies(s, c);
    } else if Hopeful(s) {
      var r :| r in s.runs && s.runs[r].phase.Sleeping? && !Stale(s, s.runs[r]);
      var es := WakesAndReturns(s, r);
    } else {
      forall es | IsRun(s, es) && NoNewJoin(es) ensures After(s, es).status != Connected {
        StuckForGood(s, es);
      }
    }
  }

  /** In every run that ends with the user shown "reconnecting": with nobody joining again the call can come back
      exactly when a rejoin is awaiting its resume or join reply, or a run that is not stale is in its backoff.
      Otherwise the user is shown "reconnecting" for good. */
  lemma ReconnectingForGoodIff(es: seq<Event>)
    requires IsRun(FRESH, es) && After(FRESH, es).status == Reconnecting
    ensures MayReconnect(After(FRESH, es)) <==> Hopeful(After(FRESH, es))
  {
    RunKeeps(FRESH, es);
    ReconnectingIff(After(FRESH, es));
  }

  // ----- The client object -----

  class SfuCallClient {
    var socketOpen: bool
    var hasSession: bool
    var currentChannelID: int
    var sessionLostHandled: bool
    var recoveryGeneration: nat
    var callStatus: Status
    // suspended recovery runs and rejoin calls
    var runs: map<RunId, Run>
    var calls: map<CallId, Call>
    var nextId: nat

    ghost function View(): State
      reads this
    {
      State(socketOpen, hasSession, currentChannelID, sessionLostHandled, recoveryGeneration, runs, calls, nextId,
            callStatus)
    }

    constructor ()
      ensures View() == FRESH
    {
      socketOpen, hasSession, currentChannelID, sessionLostHandled := false, false, 0, false;
      recoveryGeneration, callStatus, runs, calls, nextId := 0, Unset, map[], map[], 0;
    }

    method TeardownPeerConnection()
      modifies this
      ensures View() == TornDown(old(View()))
    {
      recoveryGeneration := recoveryGeneration + 1;
      hasSession := false;
      currentChannelID := 0;
    }

    method MarkEstablished()
      modifies this
      ensures View() == Established(old(View()))
    {
      sessionLostHandled := false;
      callStatus := Connected;
    }

    method ApplySession(channel: int)
      modifies this
      ensures View() == SessionApplied(old(View()), channel)
    {
      MarkEstablished();
      hasSession := true;
      currentChannelID := channel;
    }

    method HandleSessionLost()
      modifies this
      ensures View() == SessionLost(old(View()))
    {
      if sessionLostHandled || currentChannelID <= 0 {
        return;
      }
      sessionLostHandled := true;
      var r := nextId;
      nextId := nextId + 1;
      if !socketOpen {
        runs := runs[r := Run(recoveryGeneration, currentChannelID, Done, 0, 0)];
        return;
      }
      callStatus := Reconnecting;
      runs := runs[r := Run(recoveryGeneration, currentChannelID, Sleeping(0), 0, 0)];
    }

    method Rejoin(owner: Option<RunId>, channel: int)
      modifies this
      ensures View() == RejoinStarts(old(View()), owner, channel)
    {
      if channel <= 0 {
        OnRejoinReturned(owner, true);
        return;
      }
      var stage := Resuming;
      if !(hasSession && currentChannelID == channel) {
        TeardownPeerConnection();
        stage := Joining;
      }
      calls := calls[nextId := Call(owner, channel, stage)];
      nextId := nextId + 1;
    }

    method OnRejoinReturned(owner: Option<RunId>, ok: bool)
      modifies this
      ensures View() == Returned(old(View()), owner, ok)
    {
      if owner.None? || owner.value !in runs || !runs[owner.value].phase.Rejoining? {
        return;
      }
      var r, run := owner.value, runs[owner.value];
      if ok {
        runs := runs[r := run.(phase := Done)];
        return;
      }
      if run.phase.attempt + 1 < ATTEMPTS {
        runs := runs[r := run.(phase := Sleeping(run.phase.attempt + 1))];
        return;
      }
      if run.generation == recoveryGeneration {
        callStatus := Lost;
        runs := runs[r := run.(phase := Leaving, leaves := run.leaves + 1)];
        return;
      }
      runs := runs[r := run.(phase := Done)];
    }

    method OnBackoffElapsed(r: RunId)
      requires r in runs && runs[r].phase.Sleeping?
      modifies this
      ensures View() == Woken(old(View()), r)
    {
      var run := runs[r];
      if run.generation != recoveryGeneration || !socketOpen {
        runs := runs[r := run.(phase := Done)];
        return;
      }
      runs := runs[r := run.(phase := Rejoining(run.phase.attempt), rejoins := run.rejoins + 1)];
      Rejoin(Some(r), run.channel);
    }

    method OnResumeReply(c: CallId, ok: bool)
      requires c in calls
      modifies this
      ensures View() == ResumeReplied(old(View()), c, ok)
    {
      var call := calls[c];
      if ok {
        MarkEstablished();
        calls := calls - {c};
        OnRejoinReturned(call.owner, true);
        return;
      }
      TeardownPeerConnection();
      calls := calls[c := call.(stage := Joining)];
    }

    method OnJoinReply(c: CallId, ok: bool, channel: int)
      requires c in calls
      modifies this
      ensures View() == JoinReplied(old(View()), c, ok, channel)
    {
      var call := calls[c];
      if !ok {
        calls := calls - {c};
        OnRejoinReturned(call.owner, false);
        return;
      }
      ApplySession(channel);
      calls := calls[c := call.(stage := Opening)];
    }

    method OnOpenReply(c: CallId, ok: bool)
      requires c in calls
      modifies this
      ensures View() == OpenReplied(old(View()), c, ok)
    {
      var call := calls[c];
      calls := calls - {c};
      OnRejoinReturned(call.owner, ok);
    }
  }
}
