/** ICE candidates and the signal queue: tasks run one at a time, but each suspends at every await, and the session can
    be torn down and replaced while a task is suspended. */
module SfuCandidates {
  import opened Options
  import opened SfuTypes

  datatype Candidate = Candidate(session: SessionId, name: nat)
  datatype Signal = Description(session: SessionId) | RemoteCandidate(c: Candidate)
  datatype PeerConnection = PeerConnection(session: SessionId, remoteDescription: bool)
  datatype Applied = Applied(session: SessionId, c: Candidate)

  /** Where the running task is suspended. */
  datatype Work =
    | Idle
    | SettingRemote(session: SessionId)
    | Adding(rest: seq<Candidate>) // still to be handed over by the loop of flushPendingCandidates

  datatype State = State(
    sessionID: SessionId,
    pc: Option<PeerConnection>,
    pending: seq<Candidate>,
    signals: seq<Signal>,
    work: Work,
    used: set<SessionId>,     // session ids issued so far
    received: seq<Candidate>, // candidates taken in for a session, in order
    applied: seq<Applied>)    // candidates handed to a connection that has a remote description

  const FRESH := State(0, None, [], [], Idle, {}, [], [])

  predicate Connected(s: State) { s.pc.Some? && s.pc.value.remoteDescription }

  // ----- The handlers -----

  /** addIceCandidate on whatever connection the client has now: without one, or without its remote description, it
      fails, and the candidate is gone. */
  function HandOver(s: State, c: Candidate): State {
    if Connected(s) then s.(applied := s.applied + [Applied(s.pc.value.session, c)]) else s
  }

  function HandOverFirst(s: State, cs: seq<Candidate>): State {
    if cs == [] then s.(work := Idle) else HandOver(s, cs[0]).(work := Adding(cs[1..]))
  }

  function HandleCandidate(s: State, c: Candidate): State {
    if c.session != s.sessionID then s
    else
      var s1 := s.(received := s.received + [c]);
      if !Connected(s) then s1.(pending := s.pending + [c]) else HandOverFirst(s1, [c])
  }

  function HandleDescription(s: State, session: SessionId): State {
    if s.pc.None? || session != s.sessionID then s else s.(work := SettingRemote(session))
  }

  function StartTask(s: State): State
    requires s.work.Idle? && s.signals != []
  {
    var s1 := s.(signals := s.signals[1..]);
    match s.signals[0]
    case Description(session) => HandleDescription(s1, session)
    case RemoteCandidate(c) => HandleCandidate(s1, c)
  }

  function FlushPending(s: State): State {
    if s.pc.None? || s.pending == [] then s.(work := Adding([])) // an offer still has its answer to send
    else HandOverFirst(s.(pending := []), s.pending)
  }

  /** setRemoteDescription settles, on the connection it was called on. */
  function RemoteSettled(s: State, ok: bool): State
    requires s.work.SettingRemote?
  {
    if !ok then s.(work := Idle)
    else if s.pc.Some? && s.pc.value.session == s.work.session then
      FlushPending(s.(pc := Some(s.pc.value.(remoteDescription := true))))
    else FlushPending(s)
  }

  function AddSettled(s: State): State
    requires s.work.Adding?
  {
    HandOverFirst(s, s.work.rest)
  }

  function TornDown(s: State): State { s.(sessionID := 0, pc := None, pending := []) }

  function SessionOpened(s: State, session: SessionId): State {
    s.(sessionID := session, pc := Some(PeerConnection(session, false)), used := s.used + {session})
  }

  // ----- Runs -----

  datatype Event =
    | SignalArrives(signal: Signal)
    | TaskStarts
    | RemoteSettles(ok: bool)
    | AddSettles
    | Teardown
    | OpenSession(session: SessionId)

  /** Session ids are never empty and never reissued. A session may be opened over a live one, as two overlapping joins
      do. */
  predicate Enabled(s: State, e: Event) {
    match e
    case SignalArrives(Description(session)) => session != 0
    case SignalArrives(RemoteCandidate(c)) => c.session != 0
    case TaskStarts => s.work.Idle? && s.signals != []
    case RemoteSettles(ok) => s.work.SettingRemote?
    case AddSettles => s.work.Adding?
    case Teardown => true
    case OpenSession(session) => session != 0 && session !in s.used
  }

  function Step(s: State, e: Event): State
    requires Enabled(s, e)
  {
    match e
    case SignalArrives(signal) => s.(signals := s.signals + [signal])
    case TaskStarts => StartTask(s)
    case RemoteSettles(ok) => RemoteSettled(s, ok)
    case AddSettles => AddSettled(s)
    case Teardown => TornDown(s)
    case OpenSession(session) => SessionOpened(s, session)
  }

  predicate IsRun(s: State, es: seq<Event>)
    decreases es
  {
    es == [] || (Enabled(s, es[0]) && IsRun(Step(s, es[0]), es[1..]))
  }

  function After(s: State, es: seq<Event>): State
    requires IsRun(s, es)
    decreases es
  {
    if es == [] then s else After(Step(s, es[0]), es[1..])
  }

  // ----- What every run keeps -----

  function Of(cs: seq<Candidate>, session: SessionId): seq<Candidate> {
    if cs == [] then []
    else Of(cs[..|cs|-1], session) + (if cs[|cs|-1].session == session then [cs[|cs|-1]] else [])
  }

  function AppliedTo(log: seq<Applied>, session: SessionId): seq<Candidate> {
    if log == [] then []
    else AppliedTo(log[..|log|-1], session) + (if log[|log|-1].session == session then [log[|log|-1].c] else [])
  }

  function InHand(s: State): seq<Candidate> { if s.work.Adding? then s.work.rest else [] }

  ghost predicate AllOf(cs: seq<Candidate>, session: SessionId) {
    forall c :: c in cs ==> c.session == session
  }

  /** Of the live session's candidates, those applied, then those in the loop's hand, then those buffered are exactly
      those received, in arrival order. */
  ghost predicate NoneLost(s: State) {
    s.sessionID != 0 ==>
      Of(s.received, s.sessionID)
        == AppliedTo(s.applied, s.sessionID) + Of(InHand(s), s.sessionID) + Of(s.pending, s.sessionID)
  }

  /** Every candidate applied went to its own session's connection. */
  ghost predicate OwnConnection(s: State) { forall a :: a in s.applied ==> a.c.session == a.session }

  /** What was buffered for earlier sessions comes first. */
  ghost predicate OwnLast(cs: seq<Candidate>, session: SessionId) {
    forall i, j :: 0 <= i < j < |cs| && cs[i].session == session ==> cs[j].session == session
  }

  ghost predicate NoneOf(cs: seq<Candidate>, session: SessionId) { forall c :: c in cs ==> c.session != session }

  ghost predicate AllUsed(cs: seq<Candidate>, used: set<SessionId>) { forall c :: c in cs ==> c.session in used }

  ghost predicate Structure(s: State) {
    && (s.sessionID == 0 ==> s.pc.None? && s.pending == [])
    && (s.sessionID != 0 ==> s.pc.Some? && s.pc.value.session == s.sessionID && s.sessionID in s.used)
    && OwnLast(s.pending, s.sessionID)
    && (Connected(s) ==> s.pending == [])
    && 0 !in s.used
    && AllUsed(s.pending, s.used) && AllUsed(s.received, s.used)
    && AllUsed(InHand(s), s.used)
    && (forall a :: a in s.applied ==> a.session in s.used)
    && (forall x :: x in s.signals ==> if x.Description? then x.session != 0 else x.c.session != 0)
    && (s.work.SettingRemote? ==> s.work.session in s.used)
    && (s.work.SettingRemote? && s.work.session != s.sessionID ==>
          !Connected(s) && NoneOf(s.pending, s.sessionID))
    && InHandPlaced(s)
  }

  /** What the loop still holds is the live session's if and only if its connection has a remote description: the task
      that would set another one waits behind this one. */
  ghost predicate InHandPlaced(s: State) {
    forall c :: c in InHand(s) ==> (c.session == s.sessionID <==> Connected(s))
  }

  ghost predicate Inv(s: State) { Structure(s) && NoneLost(s) && OwnConnection(s) }

  lemma {:induction false} OfAppend(a: seq<Candidate>, b: seq<Candidate>, session: SessionId)
    ensures Of(a + b, session) == Of(a, session) + Of(b, session)
    decreases |b|
  {
    if b == [] {
      assert a + b == a;
    } else {
      var n := |b| - 1;
      assert (a + b)[..|a + b| - 1] == a + b[..n];
      OfAppend(a, b[..n], session);
    }
  }

  lemma {:induction false} OfAll(cs: seq<Candidate>, session: SessionId)
    requires AllOf(cs, session)
    ensures Of(cs, session) == cs
    decreases |cs|
  {
    if cs != [] {
      OfAll(cs[..|cs|-1], session);
    }
  }

  lemma {:induction false} OfNone(cs: seq<Candidate>, session: SessionId)
    requires forall c :: c in cs ==> c.session != session
    ensures Of(cs, session) == []
    decreases |cs|
  {
    if cs != [] {
      OfNone(cs[..|cs|-1], session);
    }
  }

  lemma {:induction false} AppliedToNone(log: seq<Applied>, session: SessionId)
    requires forall a :: a in log ==> a.session != session
    ensures AppliedTo(log, session) == []
    decreases |log|
  {
    if log != [] {
      AppliedToNone(log[..|log|-1], session);
    }
  }

  lemma AppliedOneMore(log: seq<Applied>, a: Applied, session: SessionId)
    ensures AppliedTo(log + [a], session) == AppliedTo(log, session) + (if a.session == session then [a.c] else [])
  {
    assert (log + [a])[..|log|] == log;
  }

  lemma OfFirst(cs: seq<Candidate>, session: SessionId)
    requires cs != []
    ensures Of(cs, session) == (if cs[0].session == session then [cs[0]] else []) + Of(cs[1..], session)
  {
    assert cs == [cs[0]] + cs[1..];
    OfAppend([cs[0]], cs[1..], session);
    assert Of([], session) == [];
  }

  lemma HandedOverNotLost(s: State, cs: seq<Candidate>)
    requires cs != [] && NoneLost(s.(work := Adding(cs)))
    requires if Connected(s) then s.pc.value.session == s.sessionID && cs[0].session == s.sessionID
             else cs[0].session != s.sessionID
    ensures NoneLost(HandOverFirst(s, cs))
  {
    OfFirst(cs, s.sessionID);
    var applied, rest := AppliedTo(s.applied, s.sessionID), Of(cs[1..], s.sessionID);
    if Connected(s) {
      AppliedOneMore(s.applied, Applied(s.sessionID, cs[0]), s.sessionID);
      Regroup(applied, [cs[0]], rest);
    } else {
      assert [] + rest == rest;
    }
  }

  lemma Regroup<T>(a: seq<T>, b: seq<T>, c: seq<T>)
    ensures a + (b + c) == (a + b) + c
  {
  }

  /** Handing over the first of `cs` when the rest stays in hand. */
  lemma HandOverKeeps(s: State, cs: seq<Candidate>)
    requires Structure(s.(work := Adding(cs))) && NoneLost(s.(work := Adding(cs)))
    requires OwnConnection(s)
    ensures Inv(HandOverFirst(s, cs))
  {
    if cs != [] {
      FirstIsPlaced(s, cs);
      HandOverStructure(s, cs);
      HandedOverNotLost(s, cs);
    }
  }

  lemma FirstIsPlaced(s: State, cs: seq<Candidate>)
    requires cs != [] && Structure(s.(work := Adding(cs)))
    ensures (Connected(s) <==> cs[0].session == s.sessionID) && cs[0].session in s.used
    ensures AllUsed(cs[1..], s.used) && forall c :: c in cs[1..] ==> (c.session == s.sessionID <==> Connected(s))
  {
    assert cs[0] in InHand(s.(work := Adding(cs)));
    assert forall c :: c in cs[1..] ==> c in InHand(s.(work := Adding(cs)));
  }

  lemma HandOverStructure(s: State, cs: seq<Candidate>)
    requires cs != [] && Structure(s.(work := Adding(cs)))
    ensures Structure(HandOverFirst(s, cs))
  {
    FirstIsPlaced(s, cs);
  }

  lemma BufferedKeeps(s: State, c: Candidate)
    requires Inv(s) && s.work.Idle? && c.session != 0 && c.session == s.sessionID && !Connected(s)
    ensures Inv(HandleCandidate(s, c))
  {
    BufferedNotLost(s, c);
    BufferedStructure(s, c);
  }

  function Buffered(s: State, c: Candidate): State { s.(received := s.received + [c], pending := s.pending + [c]) }

  lemma BufferedNotLost(s: State, c: Candidate)
    requires NoneLost(s) && c.session == s.sessionID
    ensures NoneLost(Buffered(s, c))
  {
    ReceivedOneMore(s.received, c);
    ReceivedOneMore(s.pending, c);
    Regroup(AppliedTo(s.applied, s.sessionID) + Of(InHand(s), s.sessionID), Of(s.pending, s.sessionID), [c]);
  }

  lemma BufferedStructure(s: State, c: Candidate)
    requires Structure(s) && c.session != 0 && c.session == s.sessionID && !Connected(s) && s.work.Idle?
    ensures Structure(Buffered(s, c))
  {
  }

  lemma HandedOverKeeps(s: State, c: Candidate)
    requires Inv(s) && s.work.Idle? && c.session != 0 && c.session == s.sessionID && Connected(s)
    ensures Inv(HandleCandidate(s, c))
  {
    var s1 := s.(received := s.received + [c]);
    TakenNotLost(s, s1.(work := Adding([c])), c);
    TakenInHand(s, s1.(work := Adding([c])), c);
    HandOverKeeps(s1, [c]);
  }

  lemma TakenNotLost(s: State, s2: State, c: Candidate)
    requires NoneLost(s) && s.work.Idle? && c.session == s.sessionID && s.pending == []
    requires s2 == s.(received := s.received + [c], work := Adding([c]))
    ensures NoneLost(s2)
  {
    ReceivedOneMore(s.received, c);
    assert Of([], s.sessionID) == [];
  }

  lemma TakenInHand(s: State, s2: State, c: Candidate)
    requires Structure(s) && s.work.Idle? && c.session != 0 && c.session == s.sessionID && Connected(s)
    requires s2 == s.(received := s.received + [c], work := Adding([c]))
    ensures Structure(s2)
  {
  }

  lemma CandidateKeeps(s: State, c: Candidate)
    requires Inv(s) && s.work.Idle? && c.session != 0
    ensures Inv(HandleCandidate(s, c))
  {
    if c.session == s.sessionID {
      if Connected(s) { HandedOverKeeps(s, c); } else { BufferedKeeps(s, c); }
    }
  }

  lemma ReceivedOneMore(cs: seq<Candidate>, c: Candidate)
    ensures Of(cs + [c], c.session) == Of(cs, c.session) + [c] && Of([c], c.session) == [c]
  {
    OfAppend(cs, [c], c.session);
    assert [c][..0] == [];
  }

  /** The live connection gets its remote description, and only its own candidates are buffered: they move into the
      loop's hand. */
  lemma LiveDescriptionKeeps(s: State)
    requires Inv(s) && s.work == SettingRemote(s.sessionID) && s.pc.Some? && AllOf(s.pending, s.sessionID)
    ensures Inv(FlushPending(s.(pc := Some(s.pc.value.(remoteDescription := true)))))
  {
    var s1 := s.(pc := Some(s.pc.value.(remoteDescription := true)));
    assert Of([], s.sessionID) == [];
    if s.pending != [] {
      var s2 := s1.(pending := []);
      BufferNotLost(s, s2.(work := Adding(s.pending)));
      HandOverKeeps(s2, s.pending);
    }
  }

  /** A description settles on a connection that is gone, and what is buffered for other sessions is wasted. */
  lemma StaleDescriptionKeeps(s: State)
    requires Inv(s) && s.work.SettingRemote? && s.work.session != s.sessionID
    ensures Inv(FlushPending(s))
  {
    assert Of([], s.sessionID) == [];
    if s.pending != [] {
      var s2 := s.(pending := []);
      BufferNotLost(s, s2.(work := Adding(s.pending)));
      HandOverKeeps(s2, s.pending);
    }
  }

  lemma BufferNotLost(s: State, s3: State)
    requires NoneLost(s) && s.work.SettingRemote?
    requires s3 == s.(pc := s3.pc, pending := [], work := Adding(s.pending))
    ensures NoneLost(s3)
  {
    assert InHand(s) == [] && Of([], s.sessionID) == [];
    Empties(AppliedTo(s.applied, s.sessionID), Of(s.pending, s.sessionID));
  }

  lemma Empties<T>(a: seq<T>, b: seq<T>)
    ensures a + [] + b == a + b + []
  {
  }

  lemma RemoteKeeps(s: State, ok: bool)
    requires Inv(s) && s.work.SettingRemote? && !Misdirects(s, RemoteSettles(ok))
    ensures Inv(RemoteSettled(s, ok))
  {
    if ok {
      if s.work.session == s.sessionID { LiveDescriptionKeeps(s); } else { StaleDescriptionKeeps(s); }
    }
  }

  /** A remote description settles on the live connection while candidates of another session are buffered. */
  predicate Misdirects(s: State, e: Event) {
    && e.RemoteSettles? && e.ok && s.work == SettingRemote(s.sessionID)
    && exists c :: c in s.pending && c.session != s.sessionID
  }

  /** Then the first of them goes to the live connection at once. */
  lemma MisdirectedNow(s: State, e: Event)
    requires Inv(s) && Enabled(s, e) && Misdirects(s, e)
    ensures Step(s, e).applied == s.applied + [Applied(s.sessionID, s.pending[0])]
    ensures s.pending[0].session != s.sessionID
  {
    var c :| c in s.pending && c.session != s.sessionID;
    var i :| 0 <= i < |s.pending| && s.pending[i] == c;
  }

  /** Whatever was buffered before, a new session starts with none of its own candidates anywhere. */
  lemma OpenKeeps(s: State, session: SessionId)
    requires Inv(s) && session != 0 && session !in s.used
    ensures Inv(SessionOpened(s, session))
  {
    OfNone(s.received, session);
    OfNone(InHand(s), session);
    OfNone(s.pending, session);
    AppliedToNone(s.applied, session);
  }

  lemma StepKeeps(s: State, e: Event)
    requires Inv(s) && Enabled(s, e) && !Misdirects(s, e)
    ensures Inv(Step(s, e))
  {
    match e
    case SignalArrives(signal) => SignalKeeps(s, signal);
    case TaskStarts => TaskKeeps(s);
    case RemoteSettles(ok) => RemoteKeeps(s, ok);
    case AddSettles => HandOverKeeps(s, s.work.rest);
    case Teardown => TeardownKeeps(s);
    case OpenSession(session) => OpenKeeps(s, session);
  }

  lemma TeardownKeeps(s: State)
    requires Inv(s)
    ensures Inv(TornDown(s))
  {
  }

  lemma SignalKeeps(s: State, signal: Signal)
    requires Inv(s) && Enabled(s, SignalArrives(signal))
    ensures Inv(Step(s, SignalArrives(signal)))
  {
  }

  lemma TaskKeeps(s: State)
    requires Inv(s) && s.work.Idle? && s.signals != []
    ensures Inv(StartTask(s))
  {
    var s1 := s.(signals := s.signals[1..]);
    assert s.signals[0] in s.signals;
    assert Structure(s1) && NoneLost(s1) && OwnConnection(s1);
    if s.signals[0].RemoteCandidate? {
      CandidateKeeps(s1, s.signals[0].c);
    }
  }

  // ----- The same, told by the signals -----

  /** What the events of a run say: the session opened last, unless torn down since; the signals that have arrived and
      whose tasks have not started; and the candidates of that session whose tasks have started since it was opened. */
  datatype Log = Log(live: SessionId, queue: seq<Signal>, taken: seq<Candidate>)

  const NO_LOG := Log(0, [], [])

  function Logged(g: Log, e: Event): Log {
    match e
    case SignalArrives(signal) => g.(queue := g.queue + [signal])
    case TaskStarts =>
      if g.queue == [] then g
      else Log(g.live, g.queue[1..],
               if g.queue[0].RemoteCandidate? && g.queue[0].c.session == g.live then g.taken + [g.queue[0].c]
               else g.taken)
    case Teardown => Log(0, g.queue, [])
    case OpenSession(session) => Log(session, g.queue, [])
    case _ => g
  }

  function LogOf(es: seq<Event>, g: Log): Log
    decreases es
  {
    if es == [] then g else LogOf(es[1..], Logged(g, es[0]))
  }

  /** The client has taken in exactly what the events say. */
  ghost predicate TakesIn(s: State, g: Log) {
    && g.live == s.sessionID && g.queue == s.signals
    && 0 !in s.used && (s.sessionID != 0 ==> s.sessionID in s.used)
    && AllUsed(s.received, s.used)
    && (forall x :: x in s.signals ==> x.Description? || x.c.session != 0)
    && g.taken == if s.sessionID == 0 then [] else Of(s.received, s.sessionID)
  }

  lemma TaskTakesIn(s: State, g: Log)
    requires TakesIn(s, g) && Enabled(s, TaskStarts)
    ensures TakesIn(StartTask(s), Logged(g, TaskStarts))
  {
    assert s.signals[0] in s.signals;
    if s.signals[0].RemoteCandidate? {
      ReceivedOneMore(s.received, s.signals[0].c);
    }
  }

  lemma StepTakesIn(s: State, e: Event, g: Log)
    requires TakesIn(s, g) && Enabled(s, e)
    ensures TakesIn(Step(s, e), Logged(g, e))
  {
    match e
    case TaskStarts => TaskTakesIn(s, g);
    case OpenSession(session) => OfNone(s.received, session);
    case _ =>
  }

  lemma {:induction false} RunTakesIn(s: State, es: seq<Event>, g: Log)
    requires TakesIn(s, g) && IsRun(s, es)
    ensures TakesIn(After(s, es), LogOf(es, g))
    decreases es
  {
    if es != [] {
      StepTakesIn(s, es[0], g);
      RunTakesIn(Step(s, es[0]), es[1..], Logged(g, es[0]));
    }
  }

  /** Each session's candidates have reached its own connection only. Of the live session's candidates whose tasks have
      started, those applied, then those in the loop's hand, then those buffered are all there are, in the order of
      their signals; none waits once a remote description is set. */
  ghost predicate Sound(s: State, g: Log) {
    && OwnConnection(s)
    && (g.live != 0 ==> g.taken == AppliedTo(s.applied, g.live) + Of(InHand(s), g.live) + Of(s.pending, g.live))
    && (Connected(s) ==> s.pending == [])
    && (Connected(s) && InHand(s) == [] && g.live != 0 ==> g.taken == AppliedTo(s.applied, g.live))
  }

  predicate NeverMisdirects(s: State, es: seq<Event>)
    requires IsRun(s, es)
    decreases es
  {
    es == [] || (!Misdirects(s, es[0]) && NeverMisdirects(Step(s, es[0]), es[1..]))
  }

  lemma InvIsSound(s: State, g: Log)
    requires Inv(s) && TakesIn(s, g)
    ensures Sound(s, g)
  {
    assert Of([], s.sessionID) == [];
  }

  lemma {:induction false} AppliedGrows(s: State, es: seq<Event>)
    requires IsRun(s, es)
    ensures s.applied <= After(s, es).applied
    decreases es
  {
    if es != [] {
      assert s.applied <= Step(s, es[0]).applied;
      AppliedGrows(Step(s, es[0]), es[1..]);
    }
  }

  lemma {:induction false} RunKeepsIff(s: State, es: seq<Event>)
    requires Inv(s) && IsRun(s, es)
    ensures OwnConnection(After(s, es)) <==> NeverMisdirects(s, es)
    ensures NeverMisdirects(s, es) ==> Inv(After(s, es))
    decreases es
  {
    if es != [] {
      if Misdirects(s, es[0]) {
        MisdirectedNow(s, es[0]);
        AppliedGrows(Step(s, es[0]), es[1..]);
        assert Step(s, es[0]).applied[|s.applied|] == Applied(s.sessionID, s.pending[0]);
        assert After(s, es).applied[|s.applied|] == Applied(s.sessionID, s.pending[0]);
      } else {
        StepKeeps(s, es[0]);
        RunKeepsIff(Step(s, es[0]), es[1..]);
      }
    }
  }

  /** However teardowns, reconnects and overlapping joins cut into suspended tasks: some candidate has been applied to
      another session's connection if and only if at some moment a remote description settled on the live connection
      while candidates of another session were buffered. In every other run the live session's candidates, counted by
      their signals, are all applied to its own connection, in hand or buffered, in order. */
  lemma CandidatesReachTheirConnectionIff(es: seq<Event>)
    requires IsRun(FRESH, es)
    ensures OwnConnection(After(FRESH, es)) <==> NeverMisdirects(FRESH, es)
    ensures Sound(After(FRESH, es), LogOf(es, NO_LOG)) <==> NeverMisdirects(FRESH, es)
  {
    RunKeepsIff(FRESH, es);
    RunTakesIn(FRESH, es, NO_LOG);
    if NeverMisdirects(FRESH, es) {
      InvIsSound(After(FRESH, es), LogOf(es, NO_LOG));
    }
  }

  // ----- What a task does with its signal -----

  function AllApplied(session: SessionId, cs: seq<Candidate>): seq<Applied> {
    seq(|cs|, i requires 0 <= i < |cs| => Applied(session, cs[i]))
  }

  /** The task of a live candidate hands it to the connection that has a remote description, or else buffers it; the
      task of any other candidate does nothing. */
  lemma CandidateTask(s: State, c: Candidate)
    requires Inv(s) && Enabled(s, TaskStarts) && s.signals[0] == RemoteCandidate(c)
    ensures var s' := Step(s, TaskStarts);
            && s'.signals == s.signals[1..]
            && s'.applied == (if c.session == s.sessionID && Connected(s) then s.applied + [Applied(s.sessionID, c)]
                              else s.applied)
            && s'.pending == (if c.session == s.sessionID && !Connected(s) then s.pending + [c] else s.pending)
            && (s'.work.Idle? <==> c.session != s.sessionID || !Connected(s))
  {
    assert s.signals[0] in s.signals;
    if c.session == s.sessionID && Connected(s) {
      assert [c][0] == c;
    }
  }

  lemma FirstStep(s: State, e: Event, rest: seq<Event>) returns (es: seq<Event>)
    requires Enabled(s, e) && IsRun(Step(s, e), rest)
    ensures es == [e] + rest && IsRun(s, es) && After(s, es) == After(Step(s, e), rest)
  {
    es := [e] + rest;
    assert es[1..] == rest;
  }

  /** The loop hands over one candidate per settled call, and then the task is over. */
  lemma {:induction false} LoopFinishes(s: State) returns (es: seq<Event>)
    requires s.work.Adding? && Connected(s)
    ensures IsRun(s, es) && |es| == |s.work.rest| + 1 && (forall e :: e in es ==> e == AddSettles)
    ensures After(s, es) == s.(work := Idle, applied := s.applied + AllApplied(s.pc.value.session, s.work.rest))
    decreases |s.work.rest|
  {
    var rest, session := s.work.rest, s.pc.value.session;
    var s' := Step(s, AddSettles);
    if rest == [] {
      assert s.applied + AllApplied(session, rest) == s.applied;
      es := FirstStep(s, AddSettles, []);
    } else {
      assert s' == s.(work := Adding(rest[1..]), applied := s.applied + [Applied(session, rest[0])]);
      es := LoopFinishes(s');
      FirstApplied(s.applied, session, rest);
      es := FirstStep(s, AddSettles, es);
    }
  }

  /** Its description taken, the live connection has been given the first buffered candidate. */
  lemma DescriptionTaken(s: State)
    requires Inv(s) && s.sessionID != 0 && Enabled(s, TaskStarts) && s.signals[0] == Description(s.sessionID)
    ensures var s1 := Step(s, TaskStarts);
            && Enabled(s1, RemoteSettles(false)) && Step(s1, RemoteSettles(false)) == s.(signals := s.signals[1..])
            && var s2 := Step(s1, RemoteSettles(true));
               && s2.work.Adding? && Connected(s2) && s2.pc.value.session == s.sessionID
               && s2.pending == [] && s2.signals == s.signals[1..]
               && s2.applied + AllApplied(s.sessionID, s2.work.rest) == s.applied + AllApplied(s.sessionID, s.pending)
  {
    var s1 := Step(s, TaskStarts);
    var s2 := Step(s1, RemoteSettles(true));
    if s.pending == [] {
      assert s2.applied == s.applied && s2.work == Adding([]);
    } else {
      assert s2.applied == s.applied + [Applied(s.sessionID, s.pending[0])] && s2.work == Adding(s.pending[1..]);
      FirstApplied(s.applied, s.sessionID, s.pending);
    }
  }

  lemma FirstApplied(log: seq<Applied>, session: SessionId, cs: seq<Candidate>)
    requires cs != []
    ensures log + [Applied(session, cs[0])] + AllApplied(session, cs[1..]) == log + AllApplied(session, cs)
  {
    assert AllApplied(session, cs) == [Applied(session, cs[0])] + AllApplied(session, cs[1..]);
  }

  /** A description of the live session, once it settles, makes the connection take candidates, and everything buffered
      is applied in order before the next task; one that fails changes nothing but the queue. */
  lemma DescriptionTask(s: State) returns (es: seq<Event>)
    requires Inv(s) && s.sessionID != 0 && Enabled(s, TaskStarts) && s.signals[0] == Description(s.sessionID)
    ensures var s1 := Step(s, TaskStarts);
            && Enabled(s1, RemoteSettles(false)) && Step(s1, RemoteSettles(false)) == s.(signals := s.signals[1..])
    ensures IsRun(s, [TaskStarts, RemoteSettles(true)] + es) && forall e :: e in es ==> e == AddSettles
    ensures var s' := After(s, [TaskStarts, RemoteSettles(true)] + es);
            && s'.work == Idle && Connected(s') && s'.pending == [] && s'.signals == s.signals[1..]
            && s'.applied == s.applied + AllApplied(s.sessionID, s.pending)
  {
    DescriptionTaken(s);
    var s1 := Step(s, TaskStarts);
    var s2 := Step(s1, RemoteSettles(true));
    es := LoopFinishes(s2);
    var es1 := FirstStep(s1, RemoteSettles(true), es);
    var es0 := FirstStep(s, TaskStarts, es1);
    assert es0 == [TaskStarts, RemoteSettles(true)] + es;
  }

  // ----- Overlapping sessions -----

  /** A session opened while candidates of the one before are still buffered. */
  predicate Overlaps(s: State, e: Event) { e.OpenSession? && s.pending != [] }

  predicate NeverOverlaps(s: State, es: seq<Event>)
    requires IsRun(s, es)
    decreases es
  {
    es == [] || (!Overlaps(s, es[0]) && NeverOverlaps(Step(s, es[0]), es[1..]))
  }

  lemma NoOverlapStep(s: State, e: Event)
    requires Inv(s) && Enabled(s, e) && AllOf(s.pending, s.sessionID) && !Overlaps(s, e)
    ensures AllOf(Step(s, e).pending, Step(s, e).sessionID)
  {
  }

  lemma {:induction false} NoOverlapRun(s: State, es: seq<Event>)
    requires Inv(s) && IsRun(s, es) && AllOf(s.pending, s.sessionID) && NeverOverlaps(s, es)
    ensures NeverMisdirects(s, es)
    decreases es
  {
    if es != [] {
      StepKeeps(s, es[0]);
      NoOverlapStep(s, es[0]);
      NoOverlapRun(Step(s, es[0]), es[1..]);
    }
  }

  /** Only a session opened while another's candidates are buffered can lead there. */
  lemma WithoutOverlapsNothingIsMisdirected(es: seq<Event>)
    requires IsRun(FRESH, es) && NeverOverlaps(FRESH, es)
    ensures Sound(After(FRESH, es), LogOf(es, NO_LOG))
  {
    NoOverlapRun(FRESH, es);
    CandidatesReachTheirConnectionIff(es);
  }

  /** It happens: a candidate of session 1 is buffered, session 2 is opened over it, and when the description of session
      2 settles its connection is given session 1's candidate. */
  lemma OverlapMisdirects()
    ensures var c := Candidate(1, 0);
            exists es :: IsRun(FRESH, es) && After(FRESH, es).applied == [Applied(2, c)]
  {
    var c := Candidate(1, 0);
    var s1 := Step(FRESH, OpenSession(1));
    var s2 := Step(s1, SignalArrives(RemoteCandidate(c)));
    var s3 := Step(s2, TaskStarts);
    assert s3.pending == [c] && s3.signals == [];
    var s4 := Step(s3, OpenSession(2));
    var s5 := Step(s4, SignalArrives(Description(2)));
    var s6 := Step(s5, TaskStarts);
    assert s6.work == SettingRemote(2) && s6.pending == [c];
    var s7 := Step(s6, RemoteSettles(true));
    assert s7.applied == [Applied(2, c)];
    var es := FirstStep(s6, RemoteSettles(true), []);
    es := FirstStep(s5, TaskStarts, es);
    es := FirstStep(s4, SignalArrives(Description(2)), es);
    es := FirstStep(s3, OpenSession(2), es);
    es := FirstStep(s2, TaskStarts, es);
    es := FirstStep(s1, SignalArrives(RemoteCandidate(c)), es);
    es := FirstStep(FRESH, OpenSession(1), es);
    assert After(FRESH, es) == s7;
  }

  // ----- The client object -----

  class SfuCallClient {
    var sessionID: SessionId
    var pc: Option<PeerConnection>
    var pendingCandidates: seq<Candidate>
    var signalQueue: seq<Signal>
    var work: Work
    ghost var used: set<SessionId>
    ghost var received: seq<Candidate>
    ghost var applied: seq<Applied>

    ghost function View(): State
      reads this
    {
      State(sessionID, pc, pendingCandidates, signalQueue, work, used, received, applied)
    }

    constructor ()
      ensures View() == FRESH
    {
      sessionID, pc, pendingCandidates, signalQueue, work := 0, None, [], [], Idle;
      used, received, applied := {}, [], [];
    }

    method EnqueueSignal(signal: Signal)
      modifies this
      ensures View() == old(View()).(signals := old(signalQueue) + [signal])
    {
      signalQueue := signalQueue + [signal];
    }

    /** The next task of the signal queue runs to its first await, or to its end. */
    method RunNextTask()
      requires work.Idle? && signalQueue != []
      modifies this
      ensures View() == StartTask(old(View()))
    {
      var signal := signalQueue[0];
      signalQueue := signalQueue[1..];
      match signal
      case Description(session) =>
        if pc.None? || session != sessionID {
          return;
        }
        work := SettingRemote(session);
      case RemoteCandidate(c) =>
        HandleServerCandidate(c);
    }

    method HandleServerCandidate(c: Candidate)
      modifies this
      ensures View() == HandleCandidate(old(View()), c)
    {
      if c.session != sessionID {
        return;
      }
      received := received + [c];
      if pc.None? || !pc.value.remoteDescription {
        pendingCandidates := pendingCandidates + [c];
        return;
      }
      AddIceCandidate(c);
      work := Adding([]);
      assert [c][1..] == [];
    }

    method AddIceCandidate(c: Candidate)
      modifies this
      ensures View() == HandOver(old(View()), c)
    {
      if pc.Some? && pc.value.remoteDescription {
        applied := applied + [Applied(pc.value.session, c)];
      }
    }

    method OnRemoteDescriptionSettled(ok: bool)
      requires work.SettingRemote?
      modifies this
      ensures View() == RemoteSettled(old(View()), ok)
    {
      if !ok {
        work := Idle;
        return;
      }
      if pc.Some? && pc.value.session == work.session {
        pc := Some(pc.value.(remoteDescription := true));
      }
      FlushPendingCandidates();
    }

    method FlushPendingCandidates()
      modifies this
      ensures View() == FlushPending(old(View()))
    {
      if pc.None? || pendingCandidates == [] {
        work := Adding([]);
        return;
      }
      var pending := pendingCandidates;
      pendingCandidates := [];
      AddIceCandidate(pending[0]);
      work := Adding(pending[1..]);
    }

    method OnAddSettled()
      requires work.Adding?
      modifies this
      ensures View() == AddSettled(old(View()))
    {
      var rest := work.rest;
      if rest == [] {
        work := Idle;
      } else {
        AddIceCandidate(rest[0]);
        work := Adding(rest[1..]);
      }
    }

    method TeardownPeerConnection()
      modifies this
      ensures View() == TornDown(old(View()))
    {
      pc := None;
      sessionID := 0;
      pendingCandidates := [];
    }

    method OpenPeerConnection(session: SessionId)
      modifies this
      ensures View() == SessionOpened(old(View()), session)
    {
      sessionID := session;
      pc := Some(PeerConnection(session, false));
      used := used + {session};
    }
  }
}
