/** Which simulcast layer the call client asks the SFU for, as participants publish, speak and leave. */
module SfuSubscriptions {
  import opened SfuTypes

  datatype Quality = Low | High
  datatype Request = Request(session: SessionId, key: Key)

  datatype State = State(
    sessionID: SessionId,
    channel: int,
    self: int,
    subscribed: set<Key>,
    pending: set<Key>,
    speakers: set<int>,
    flushScheduled: bool,
    requested: map<Request, Quality>) // the latest quality asked for, per session and source

  function Fresh(self: int): State { State(0, 0, self, {}, {}, {}, false, map[]) }

  // ----- The handlers -----

  function QualityFor(speakers: set<int>, key: Key): Quality {
    if key.source != Camera then High else if key.user in speakers then High else Low
  }

  /** The requests once every one of `keys` has been asked for. */
  function Asked(requested: map<Request, Quality>, session: SessionId, speakers: set<int>,
                 keys: set<Key>): map<Request, Quality> {
    requested + map k | k in keys :: Request(session, k) := QualityFor(speakers, k)
  }

  /** `now` is `was` once exactly the sources in `keys` have been asked for. */
  predicate AsksExactly(was: map<Request, Quality>, now: map<Request, Quality>, session: SessionId, speakers: set<int>,
                        keys: set<Key>) {
    && (forall r :: r in was ==> r in now)
    && (forall r :: r in now ==>
          if r.session == session && r.key in keys then now[r] == QualityFor(speakers, r.key)
          else r in was && now[r] == was[r])
    && (forall k :: k in keys ==> Request(session, k) in now)
  }

  lemma AskOneMore(was: map<Request, Quality>, now: map<Request, Quality>, session: SessionId, speakers: set<int>,
                   keys: set<Key>, key: Key)
    requires AsksExactly(was, now, session, speakers, keys)
    ensures AsksExactly(was, now[Request(session, key) := QualityFor(speakers, key)], session, speakers, keys + {key})
  {
  }

  lemma AllAsked(was: map<Request, Quality>, now: map<Request, Quality>, session: SessionId, speakers: set<int>,
                 keys: set<Key>)
    requires AsksExactly(was, now, session, speakers, keys)
    ensures now == Asked(was, session, speakers, keys)
  {
  }

  function Published(s: State, channel: int, key: Key, video: bool): State {
    if channel != s.channel || key.user == s.self || !video || key in s.subscribed then s
    else s.(pending := s.pending + {key}, flushScheduled := true)
  }

  function Flush(s: State): State {
    var s1 := s.(flushScheduled := false, pending := {});
    if s.sessionID == 0 then s1
    else s1.(subscribed := s.subscribed + s.pending,
             requested := Asked(s.requested, s.sessionID, s.speakers, s.pending))
  }

  function Affected(was: set<int>, next: set<int>): set<int> { (next - was) + (was - next) }

  function CamerasOf(keys: set<Key>, users: set<int>): set<Key> {
    set k | k in keys && k.source == Camera && k.user in users
  }

  /** Asking again concerns those who have begun or stopped speaking. */
  lemma AffectedIff(was: set<int>, next: set<int>, user: int)
    ensures user in Affected(was, next) <==> (user in was) != (user in next)
  {
  }

  lemma CamerasOneMore(keys: set<Key>, users: set<int>, user: int)
    ensures CamerasOf(keys, users + {user})
         == CamerasOf(keys, users) + if Key(user, Camera) in keys then {Key(user, Camera)} else {}
  {
  }

  function SpeakersChanged(s: State, channel: int, next: set<int>): State {
    if channel != s.channel || next == s.speakers then s
    else if s.sessionID == 0 then s.(speakers := next)
    else s.(speakers := next,
            requested := Asked(s.requested, s.sessionID, next, CamerasOf(s.subscribed, Affected(s.speakers, next))))
  }

  function Without(keys: set<Key>, user: int): set<Key> { set k | k in keys && k.user != user }

  function UserLeft(s: State, channel: int, user: int): State {
    if channel != s.channel then s
    else s.(subscribed := Without(s.subscribed, user), pending := Without(s.pending, user))
  }

  /** A subscribe command came back with an error, possibly long after. */
  function SubscribeFailed(s: State, key: Key): State { s.(subscribed := s.subscribed - {key}) }

  function TornDown(s: State): State {
    s.(sessionID := 0, channel := 0, subscribed := {}, pending := {}, speakers := {}, flushScheduled := false)
  }

  function SessionApplied(s: State, session: SessionId, channel: int): State {
    s.(sessionID := session, channel := channel)
  }

  // ----- Runs -----

  datatype Event =
    | TrackPublished(channel: int, key: Key, video: bool)
    | FlushTimerFires
    | ActiveSpeakers(channel: int, users: set<int>)
    | VoiceUserLeft(channel: int, user: int)
    | SubscribeError(key: Key)
    | Teardown
    | ApplySession(session: SessionId, toChannel: int)

  /** Session ids are never empty and never reissued. A session may be applied over a live one. */
  ghost predicate Enabled(s: State, e: Event) {
    match e
    case FlushTimerFires => s.flushScheduled
    case ApplySession(session, channel) => session != 0 && session != s.sessionID && Unused(s, session)
    case _ => true
  }

  ghost predicate Unused(s: State, session: SessionId) { forall k :: Request(session, k) !in s.requested }

  function Step(s: State, e: Event): State {
    match e
    case TrackPublished(channel, key, video) => Published(s, channel, key, video)
    case FlushTimerFires => Flush(s)
    case ActiveSpeakers(channel, users) => SpeakersChanged(s, channel, users)
    case VoiceUserLeft(channel, user) => UserLeft(s, channel, user)
    case SubscribeError(key) => SubscribeFailed(s, key)
    case Teardown => TornDown(s)
    case ApplySession(session, channel) => SessionApplied(s, session, channel)
  }

  ghost predicate IsRun(s: State, es: seq<Event>)
    decreases es
  {
    es == [] || (Enabled(s, es[0]) && IsRun(Step(s, es[0]), es[1..]))
  }

  function After(s: State, es: seq<Event>): State
    decreases es
  {
    if es == [] then s else After(Step(s, es[0]), es[1..])
  }

  // ----- What every run keeps -----

  /** In the current session every subscribed source was last asked for at the quality it should have now:
      a camera is "high" exactly while its user is an active speaker. */
  ghost predicate Tracks(s: State) {
    forall k :: k in s.subscribed ==>
      Request(s.sessionID, k) in s.requested
      && (s.requested[Request(s.sessionID, k)] == High <==> (k.source == Camera ==> k.user in s.speakers))
  }

  ghost predicate Inv(s: State) {
    && Tracks(s)
    && s.subscribed !! s.pending
    && (s.sessionID == 0 ==> s.subscribed == {})
    && (s.pending != {} ==> s.flushScheduled)
  }

  /** A session applied while the one before still has subscriptions. */
  predicate Overlaps(s: State, e: Event) { e.ApplySession? && s.subscribed != {} }

  lemma StepKeeps(s: State, e: Event)
    requires Inv(s) && Enabled(s, e)
    ensures Inv(Step(s, e)) <==> !Overlaps(s, e)
  {
    if e.ApplySession? {
      OverlappingSessionIff(s, e.session, e.toChannel);
    }
  }

  ghost predicate AlwaysInv(s: State, es: seq<Event>)
    decreases es
  {
    Inv(s) && (es == [] || AlwaysInv(Step(s, es[0]), es[1..]))
  }

  predicate NeverOverlaps(s: State, es: seq<Event>)
    decreases es
  {
    es == [] || (!Overlaps(s, es[0]) && NeverOverlaps(Step(s, es[0]), es[1..]))
  }

  lemma {:induction false} RunKeepsIff(s: State, es: seq<Event>)
    requires Inv(s) && IsRun(s, es)
    ensures AlwaysInv(s, es) <==> NeverOverlaps(s, es)
    decreases es
  {
    if es != [] {
      StepKeeps(s, es[0]);
      if Inv(Step(s, es[0])) {
        RunKeepsIff(Step(s, es[0]), es[1..]);
      }
    }
  }

  /** From a fresh client, after every event, unless and only unless a session is applied while the one before still has
      subscriptions. */
  lemma QualityFollowsSpeakersIff(self: int, es: seq<Event>)
    requires IsRun(Fresh(self), es)
    ensures AlwaysInv(Fresh(self), es) <==> NeverOverlaps(Fresh(self), es)
  {
    RunKeepsIff(Fresh(self), es);
  }

  // ----- The same, told by the events -----

  /** The channel and the session applied last, unless torn down since. */
  function ChannelOf(es: seq<Event>): int {
    if es == [] then 0
    else match es[|es|-1]
      case ApplySession(session, channel) => channel
      case Teardown => 0
      case _ => ChannelOf(es[..|es|-1])
  }

  function SessionOf(es: seq<Event>): SessionId {
    if es == [] then 0
    else match es[|es|-1]
      case ApplySession(session, channel) => session
      case Teardown => 0
      case _ => SessionOf(es[..|es|-1])
  }

  /** The users last reported to be speaking in the channel. */
  function SpeakersOf(es: seq<Event>): set<int> {
    if es == [] then {}
    else
      var before := es[..|es|-1];
      match es[|es|-1]
      case ActiveSpeakers(channel, users) => if channel == ChannelOf(before) then users else SpeakersOf(before)
      case Teardown => {}
      case _ => SpeakersOf(before)
  }

  predicate Publishes(self: int, before: seq<Event>, e: Event, key: Key) {
    e.TrackPublished? && e.channel == ChannelOf(before) && e.key == key && e.video && key.user != self
  }

  predicate UserGone(before: seq<Event>, e: Event, key: Key) {
    e.Teardown? || (e.VoiceUserLeft? && e.channel == ChannelOf(before) && e.user == key.user)
  }

  /** The source has been published, and neither has its user left since nor has subscribing to it failed. */
  predicate Wanted(self: int, es: seq<Event>, key: Key)
    decreases |es|, 1
  {
    es != [] &&
    var before, e := es[..|es|-1], es[|es|-1];
    if UserGone(before, e, key) then false
    else if Publishes(self, before, e, key) then true
    else if e.SubscribeError? && e.key == key then Waiting(self, before, key)
    else if e.FlushTimerFires? && SessionOf(before) == 0 then Wanted(self, before, key) && !Waiting(self, before, key)
    else Wanted(self, before, key)
  }

  /** And the debounce timer has not fired since. */
  predicate Waiting(self: int, es: seq<Event>, key: Key)
    decreases |es|, 0
  {
    es != [] &&
    var before, e := es[..|es|-1], es[|es|-1];
    if UserGone(before, e, key) || e.FlushTimerFires? then false
    else Waiting(self, before, key) || (Publishes(self, before, e, key) && !Wanted(self, before, key))
  }

  /** A source has begun to wait, and the timer has neither fired nor been cleared since. */
  predicate TimerRuns(self: int, es: seq<Event>) {
    es != [] &&
    var before, e := es[..|es|-1], es[|es|-1];
    if e.FlushTimerFires? || e.Teardown? then false
    else TimerRuns(self, before)
         || (e.TrackPublished? && Publishes(self, before, e, e.key)
             && (Waiting(self, before, e.key) || !Wanted(self, before, e.key)))
  }

  lemma {:induction false} AfterLast(s: State, es: seq<Event>)
    requires es != []
    ensures After(s, es) == Step(After(s, es[..|es|-1]), es[|es|-1])
    decreases |es|
  {
    if |es| > 1 {
      AfterLast(Step(s, es[0]), es[1..]);
      assert es[1..][..|es|-2] == es[..|es|-1][1..];
    }
  }

  ghost predicate TellsOf(self: int, es: seq<Event>, s: State) {
    && s.self == self && s.channel == ChannelOf(es) && s.sessionID == SessionOf(es) && s.speakers == SpeakersOf(es)
    && s.subscribed !! s.pending
  }

  ghost predicate TellsOfKey(self: int, es: seq<Event>, s: State, key: Key) {
    && (key in s.subscribed + s.pending <==> Wanted(self, es, key))
    && (key in s.pending <==> Waiting(self, es, key))
  }

  lemma StepTellsOfKey(self: int, es: seq<Event>, s: State, e: Event, key: Key)
    requires TellsOf(self, es, s) && TellsOfKey(self, es, s, key)
    ensures TellsOfKey(self, es + [e], Step(s, e), key)
  {
    assert (es + [e])[..|es|] == es;
  }

  lemma StepTellsOf(self: int, es: seq<Event>, s: State, e: Event)
    requires TellsOf(self, es, s)
    ensures TellsOf(self, es + [e], Step(s, e))
  {
    assert (es + [e])[..|es|] == es;
  }

  lemma StepTellsOfTimer(self: int, es: seq<Event>, s: State, e: Event)
    requires TellsOf(self, es, s) && s.flushScheduled == TimerRuns(self, es)
    requires e.TrackPublished? ==> TellsOfKey(self, es, s, e.key)
    ensures Step(s, e).flushScheduled == TimerRuns(self, es + [e])
  {
    assert (es + [e])[..|es|] == es && (es + [e])[|es|] == e;
  }

  /** What a client holds after any events is what the events say. */
  lemma {:induction false} EventsTell(self: int, es: seq<Event>)
    ensures TellsOf(self, es, After(Fresh(self), es)) && After(Fresh(self), es).flushScheduled == TimerRuns(self, es)
    ensures forall key :: TellsOfKey(self, es, After(Fresh(self), es), key)
    decreases |es|
  {
    if es != [] {
      var before, e := es[..|es|-1], es[|es|-1];
      var s := After(Fresh(self), before);
      EventsTell(self, before);
      AfterLast(Fresh(self), es);
      assert es == before + [e];
      forall key ensures TellsOfKey(self, es, After(Fresh(self), es), key) {
        StepTellsOfKey(self, before, s, e, key);
      }
      StepTellsOf(self, before, s, e);
      assert e.TrackPublished? ==> TellsOfKey(self, before, s, e.key);
      StepTellsOfTimer(self, before, s, e);
    }
  }

  lemma {:induction false} LastInv(s: State, es: seq<Event>)
    requires AlwaysInv(s, es)
    ensures Inv(After(s, es))
    decreases es
  {
    if es != [] {
      LastInv(Step(s, es[0]), es[1..]);
    }
  }

  /** In every run in which no session is applied over subscriptions: a source that was published to the channel by a
      user who has not left, and not since the debounce timer last fired, has been asked for in the current session; a
      camera last at "high" quality exactly if its user is among the last reported speakers, anything else at "high".
      */
  lemma RequestsFollowTheEvents(self: int, es: seq<Event>, key: Key)
    requires IsRun(Fresh(self), es) && NeverOverlaps(Fresh(self), es)
    requires Wanted(self, es, key) && !Waiting(self, es, key)
    ensures var requested, request := After(Fresh(self), es).requested, Request(SessionOf(es), key);
            && request in requested
            && (requested[request] == High <==> (key.source == Camera ==> key.user in SpeakersOf(es)))
  {
    EventsTell(self, es);
    QualityFollowsSpeakersIff(self, es);
    LastInv(Fresh(self), es);
    var s := After(Fresh(self), es);
    assert TellsOfKey(self, es, s, key);
  }

  /** A user who left can be subscribed to again: their next track is queued, not skipped as a duplicate. */
  lemma ReturningUserIsRequeued(s: State, key: Key)
    requires key.user != s.self
    ensures key in Published(UserLeft(s, s.channel, key.user), s.channel, key, true).pending
  {
  }

  /** Establishing a new session over a live one keeps the requests in step exactly when nothing is subscribed yet:
      subscriptions made in the old session are never repeated in the new one. */
  lemma OverlappingSessionIff(s: State, session: SessionId, channel: int)
    requires Inv(s) && session != 0 && Unused(s, session)
    ensures Inv(SessionApplied(s, session, channel)) <==> s.subscribed == {}
  {
    if s.subscribed != {} {
      var k :| k in s.subscribed;
      assert Request(session, k) !in s.requested;
    }
  }

  /** Such an overlap, event by event: user 7's camera is subscribed in session 1 and never asked for in session 2. */
  lemma OverlapLosesTrack()
    ensures var key := Key(7, Camera);
            var live := After(Fresh(1), [ApplySession(1, 5), TrackPublished(5, key, true), FlushTimerFires]);
            var replaced := SessionApplied(live, 2, 6);
            && IsRun(Fresh(1), [ApplySession(1, 5), TrackPublished(5, key, true), FlushTimerFires])
            && key in replaced.subscribed && Request(2, key) !in replaced.requested
  {
    var key := Key(7, Camera);
    var e1, e2, e3 := ApplySession(1, 5), TrackPublished(5, key, true), FlushTimerFires;
    var es := [e1, e2, e3];
    assert es[1..] == [e2, e3] && [e2, e3][1..] == [e3] && [e3][1..] == [];
    var s1 := Step(Fresh(1), e1);
    var s2 := Step(s1, e2);
    var s3 := Step(s2, e3);
    assert IsRun(s2, [e3]) && IsRun(s1, [e2, e3]);
    assert After(s3, []) == s3 && After(s2, [e3]) == s3;
    assert After(s1, [e2, e3]) == After(s2, [e3]);
    assert After(Fresh(1), es) == s3;
  }

  lemma NonEmpty(users: set<int>)
    ensures users == {} || exists u :: u in users
  {
    if forall u :: u !in users {
      assert users == {};
    }
  }

  // ----- The client object -----

  class SfuCallClient {
    const selfUserID: int
    var sessionID: SessionId
    var currentChannelID: int
    var subscribedVideo: set<Key>
    var pendingVideoSubscriptions: set<Key>
    var activeSpeakers: set<int>
    var subscribeDebounceTimer: bool
    var requested: map<Request, Quality>

    ghost function View(): State
      reads this
    {
      State(sessionID, currentChannelID, selfUserID, subscribedVideo, pendingVideoSubscriptions, activeSpeakers,
            subscribeDebounceTimer, requested)
    }

    constructor (self: int)
      ensures View() == Fresh(self)
    {
      selfUserID := self;
      sessionID, currentChannelID := 0, 0;
      subscribedVideo, pendingVideoSubscriptions, activeSpeakers := {}, {}, {};
      subscribeDebounceTimer, requested := false, map[];
    }

    function QualityForSource(key: Key): Quality
      reads this
    {
      if key.source != Camera then High else if key.user in activeSpeakers then High else Low
    }

    method SendSubscribeVideo(key: Key, quality: Quality)
      modifies this`requested
      ensures requested == old(requested)[Request(sessionID, key) := quality]
    {
      requested := requested[Request(sessionID, key) := quality];
    }

    method HandleTrackPublished(channel: int, key: Key, video: bool)
      modifies this
      ensures View() == Published(old(View()), channel, key, video)
    {
      if channel != currentChannelID || key.user == selfUserID {
        return;
      }
      if !video || key in subscribedVideo {
        return;
      }
      pendingVideoSubscriptions := pendingVideoSubscriptions + {key};
      if !subscribeDebounceTimer {
        subscribeDebounceTimer := true;
      }
    }

    /** The debounce timer's callback. */
    method FlushPendingSubscriptions()
      modifies this
      ensures View() == Flush(old(View()))
    {
      subscribeDebounceTimer := false;
      if sessionID == 0 {
        pendingVideoSubscriptions := {};
        return;
      }
      var pending := pendingVideoSubscriptions;
      pendingVideoSubscriptions := {};
      SubscribeAll(pending);
      AllAsked(old(requested), requested, sessionID, activeSpeakers, pending);
    }

    method Subscribe(key: Key, ghost requested0: map<Request, Quality>, ghost asked: set<Key>)
      requires AsksExactly(requested0, requested, sessionID, activeSpeakers, asked)
      modifies this`subscribedVideo, this`requested
      ensures subscribedVideo == old(subscribedVideo) + {key}
      ensures AsksExactly(requested0, requested, sessionID, activeSpeakers, asked + {key})
    {
      AskOneMore(requested0, requested, sessionID, activeSpeakers, asked, key);
      subscribedVideo := subscribedVideo + {key};
      SendSubscribeVideo(key, QualityForSource(key));
    }

    method SubscribeAll(keys: set<Key>)
      modifies this`subscribedVideo, this`requested
      ensures subscribedVideo == old(subscribedVideo) + keys
      ensures AsksExactly(old(requested), requested, sessionID, activeSpeakers, keys)
    {
      ghost var subscribed0, requested0 := subscribedVideo, requested;
      var todo := keys;
      while todo != {}
        invariant todo <= keys && subscribedVideo == subscribed0 + (keys - todo)
        invariant AsksExactly(requested0, requested, sessionID, activeSpeakers, keys - todo)
        decreases |todo|
      {
        var key :| key in todo;
        Subscribe(key, requested0, keys - todo);
        assert keys - (todo - {key}) == keys - todo + {key};
        todo := todo - {key};
      }
      assert keys - todo == keys;
    }

    method HandleActiveSpeakers(channel: int, users: set<int>)
      modifies this
      ensures View() == SpeakersChanged(old(View()), channel, users)
    {
      if channel != currentChannelID {
        return;
      }
      var affected := (users - activeSpeakers) + (activeSpeakers - users);
      if affected == {} {
        assert users == activeSpeakers;
        return;
      }
      activeSpeakers := users;
      if sessionID == 0 {
        return;
      }
      RetargetCameras(affected);
      AllAsked(old(requested), requested, sessionID, activeSpeakers, CamerasOf(subscribedVideo, affected));
    }

    /** Asks again for the subscribed cameras of `users`. */
    method RetargetCameras(users: set<int>)
      modifies this`requested
      ensures AsksExactly(old(requested), requested, sessionID, activeSpeakers, CamerasOf(subscribedVideo, users))
    {
      ghost var requested0, seen: set<int> := requested, {};
      var todo := users;
      while todo != {}
        invariant seen + todo == users
        invariant AsksExactly(requested0, requested, sessionID, activeSpeakers, CamerasOf(subscribedVideo, seen))
        decreases |todo|
      {
        NonEmpty(todo);
        var user :| user in todo;
        var key := Key(user, Camera);
        CamerasOneMore(subscribedVideo, seen, user);
        if key in subscribedVideo {
          AskOneMore(requested0, requested, sessionID, activeSpeakers, CamerasOf(subscribedVideo, seen), key);
          SendSubscribeVideo(key, QualityForSource(key));
        }
        todo, seen := todo - {user}, seen + {user};
      }
      assert seen == users;
    }

    method HandleVoiceUserLeft(channel: int, user: int)
      modifies this
      ensures View() == UserLeft(old(View()), channel, user)
    {
      if channel != currentChannelID {
        return;
      }
      subscribedVideo := RemoveUser(subscribedVideo, user);
      pendingVideoSubscriptions := RemoveUser(pendingVideoSubscriptions, user);
    }

    static method RemoveUser(keys: set<Key>, user: int) returns (left: set<Key>)
      ensures left == Without(keys, user)
    {
      left := keys;
      var todo := keys;
      while todo != {}
        invariant todo <= left <= keys
        invariant forall k :: k in keys && k !in todo ==> (k in left <==> k.user != user)
        decreases |todo|
      {
        var key :| key in todo;
        if key.user == user {
          left := left - {key};
        }
        todo := todo - {key};
      }
    }

    method OnSubscribeError(key: Key)
      modifies this
      ensures View() == SubscribeFailed(old(View()), key)
    {
      subscribedVideo := subscribedVideo - {key};
    }

    method TeardownPeerConnection()
      modifies this
      ensures View() == TornDown(old(View()))
    {
      sessionID := 0;
      if subscribeDebounceTimer {
        subscribeDebounceTimer := false;
      }
      subscribedVideo := {};
      pendingVideoSubscriptions := {};
      activeSpeakers := {};
      currentChannelID := 0;
    }

    method ApplySession(session: SessionId, channel: int)
      modifies this
      ensures View() == SessionApplied(old(View()), session, channel)
    {
      sessionID := session;
      currentChannelID := channel;
    }
  }
}
