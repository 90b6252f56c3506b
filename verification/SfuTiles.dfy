/** Which of a participant's tracks are in the one stream their tile shows. */
module SfuTiles {
  import opened Options
  import opened SfuTypes

  datatype Track = Track(id: nat, video: bool)
  type StreamId = nat

  /** The last camera and screen tracks that arrived for a participant. */
  datatype Slots = Slots(camera: Option<Track>, screen: Option<Track>)

  /** What a track's `onended` handler was last set up for; `slot` is empty for the audio path. */
  datatype Binding = Binding(user: int, slot: Option<Source>, stream: StreamId)

  datatype State = State(
    channel: int,
    self: int,
    remoteStreams: map<int, StreamId>,
    streams: map<StreamId, set<Track>>,
    slots: map<int, Slots>,
    hidden: set<Key>,
    ended: set<Track>,
    bindings: map<Track, Binding>,
    nextStream: StreamId,
    shown: map<int, StreamId>) // what the interface was last given for each participant

  function Fresh(self: int, channel: int): State {
    State(channel, self, map[], map[], map[], {}, {}, map[], 0, map[])
  }

  // ----- Reconciliation -----

  function SlotsOf(s: State, user: int): Slots { if user in s.slots then s.slots[user] else Slots(None, None) }

  predicate Available(s: State, user: int, source: Source, track: Option<Track>) {
    track.Some? && track.value !in s.ended && Key(user, source) !in s.hidden
  }

  /** The live unhidden screen, else the live unhidden camera, else nothing. */
  function Desired(s: State, user: int): Option<Track> {
    var slots := SlotsOf(s, user);
    if Available(s, user, Screen, slots.screen) then slots.screen
    else if Available(s, user, Camera, slots.camera) then slots.camera
    else None
  }

  function Members(t: Option<Track>): set<Track> { if t.Some? then {t.value} else {} }

  function AudioIn(tracks: set<Track>): set<Track> { set t | t in tracks && !t.video }

  function VideoIn(tracks: set<Track>): set<Track> { set t | t in tracks && t.video }

  function Tracks(s: State, stream: StreamId): set<Track> { if stream in s.streams then s.streams[stream] else {} }

  function Reconciled(s: State, user: int, stream: StreamId): State {
    s.(streams := s.streams[stream := AudioIn(Tracks(s, stream)) + Members(Desired(s, user))])
  }

  /** The participant's stream is handed to the interface. */
  function Handed(s: State, user: int, stream: StreamId): State { s.(shown := s.shown[user := stream]) }

  function Refreshed(s: State, user: int): State {
    if user in s.remoteStreams then Handed(Reconciled(s, user, s.remoteStreams[user]), user, s.remoteStreams[user])
    else s
  }

  // ----- The handlers -----

  predicate VideoSlot(source: Source) { source == Camera || source == Screen }

  function WithStream(s: State, user: int): State {
    if user in s.remoteStreams then s
    else s.(remoteStreams := s.remoteStreams[user := s.nextStream],
            streams := s.streams[s.nextStream := {}],
            nextStream := s.nextStream + 1)
  }

  function SetSlot(slots: Slots, source: Source, track: Option<Track>): Slots {
    if source == Camera then slots.(camera := track) else slots.(screen := track)
  }

  function SlotTrack(slots: Slots, source: Source): Option<Track> {
    if source == Camera then slots.camera else slots.screen
  }

  /** A video track takes its slot and its handler, before anything is reconciled. */
  function WithSlot(s: State, user: int, source: Source, track: Track): State
    requires user in s.remoteStreams
  {
    s.(slots := s.slots[user := SetSlot(SlotsOf(s, user), source, Some(track))],
       bindings := s.bindings[track := Binding(user, Some(source), s.remoteStreams[user])])
  }

  /** The ended track leaves its slot, before anything is reconciled. */
  function SlotCleared(s: State, track: Track, b: Binding): State
    requires b.slot.Some?
  {
    var s1 := s.(ended := s.ended + {track});
    if b.user in s1.slots && SlotTrack(s1.slots[b.user], b.slot.value) == Some(track)
    then s1.(slots := s1.slots[b.user := SetSlot(s1.slots[b.user], b.slot.value, None)]) else s1
  }

  /** A track added beside the slots: audio, or video from neither a camera nor a screen. */
  function WithLoose(s: State, user: int, track: Track): State
    requires user in s.remoteStreams
  {
    var stream := s.remoteStreams[user];
    s.(streams := s.streams[stream := Tracks(s, stream) + {track}],
       bindings := s.bindings[track := Binding(user, None, stream)])
  }

  function TrackArrived(s: State, user: int, source: Source, track: Track): State {
    if user == s.self then s
    else
      var s1 := WithStream(s, user);
      var stream := s1.remoteStreams[user];
      Handed(if track.video && VideoSlot(source) then Reconciled(WithSlot(s1, user, source, track), user, stream)
             else WithLoose(s1, user, track),
             user, stream)
  }

  function TrackEnded(s: State, track: Track): State {
    var s1 := s.(ended := s.ended + {track});
    if track !in s.bindings then s1
    else
      var b := s.bindings[track];
      Handed(if b.slot.None? then s1.(streams := s1.streams[b.stream := Tracks(s1, b.stream) - {track}])
             else Reconciled(SlotCleared(s, track, b), b.user, b.stream),
             b.user, b.stream)
  }

  /** A published or unpublished event from the room, for a participant other than this client. */
  function PublishChanged(s: State, channel: int, user: int, source: Source, published: bool): State {
    if channel != s.channel || user == s.self || !VideoSlot(source) then s
    else
      var key := Key(user, source);
      Refreshed(s.(hidden := if published then s.hidden - {key} else s.hidden + {key}), user)
  }

  function UserLeft(s: State, channel: int, user: int): State {
    if channel != s.channel then s
    else s.(slots := s.slots - {user}, remoteStreams := s.remoteStreams - {user},
            shown := if user in s.remoteStreams then s.shown - {user} else s.shown,
            hidden := set k | k in s.hidden && k.user != user)
  }

  /** Closing the peer connection ends its tracks without any event. */
  function TornDown(s: State, silenced: set<Track>): State {
    s.(remoteStreams := map[], slots := map[], hidden := {}, channel := 0, ended := s.ended + silenced,
       shown := s.shown - s.remoteStreams.Keys)
  }

  // ----- Runs -----

  datatype Event =
    | Arrives(user: int, source: Source, track: Track)
    | Ends(track: Track)
    | Publish(channel: int, user: int, source: Source)
    | Unpublish(channel: int, user: int, source: Source)
    | Leaves(channel: int, user: int)
    | Teardown(silenced: set<Track>)
    | Joins(toChannel: int)

  function Step(s: State, e: Event): State {
    match e
    case Arrives(user, source, track) => TrackArrived(s, user, source, track)
    case Ends(track) => TrackEnded(s, track)
    case Publish(channel, user, source) => PublishChanged(s, channel, user, source, true)
    case Unpublish(channel, user, source) => PublishChanged(s, channel, user, source, false)
    case Leaves(channel, user) => UserLeft(s, channel, user)
    case Teardown(silenced) => TornDown(s, silenced)
    case Joins(channel) => s.(channel := channel)
  }

  predicate Holds(s: State, user: int, track: Track) {
    SlotsOf(s, user).camera == Some(track) || SlotsOf(s, user).screen == Some(track)
  }

  function WithEnded(s: State, track: Track): State { s.(ended := s.ended + {track}) }

  /** The participant's tile shows the track, and the track's handler is not the one that would replace it there: it was
      last set up for another stream, or as a loose track's although there is other video to show. */
  predicate LeavesBehind(s: State, track: Track, u: int) {
    && u in s.remoteStreams && Desired(s, u) == Some(track)
    && !(track in s.bindings && s.bindings[track].stream == s.remoteStreams[u]
         && (s.bindings[track].slot.Some? || Desired(WithEnded(s, track), u).None?))
  }

  /** A video track arrives that is neither camera nor screen, and is not the one shown; or a track ends and a tile that
      shows it is left behind. */
  predicate Mismatch(s: State, e: Event) {
    match e
    case Arrives(user, source, track) =>
      user != s.self && track.video && !VideoSlot(source) && Desired(s, user) != Some(track)
    case Ends(track) => exists u :: u in s.remoteStreams && LeavesBehind(s, track, u)
    case _ => false
  }

  // ----- What every run keeps -----

  /** Every tile's stream holds exactly the desired video track, or no video at all. */
  ghost predicate TilesRight(s: State) {
    forall u :: u in s.remoteStreams ==> VideoIn(Tracks(s, s.remoteStreams[u])) == Members(Desired(s, u))
  }

  ghost predicate Linked(s: State) {
    && (forall u :: u in s.remoteStreams ==> s.remoteStreams[u] in s.streams)
    && (forall u, v :: u in s.remoteStreams && v in s.remoteStreams && u != v ==>
        s.remoteStreams[u] != s.remoteStreams[v])
    && (forall i :: i in s.streams ==> i < s.nextStream)
    && (forall u :: u in s.slots ==> u in s.remoteStreams)
    && (forall t :: t in s.bindings ==> Bound(s, s.bindings[t]))
    && (forall u, t {:trigger Holds(s, u, t)} :: Holds(s, u, t) ==> t.video)
  }

  ghost predicate Bound(s: State, b: Binding) {
    && b.stream in s.streams
    && (b.slot.Some? ==> VideoSlot(b.slot.value))
    && (forall u :: u in s.remoteStreams && s.remoteStreams[u] == b.stream ==> u == b.user)
  }

  ghost predicate Inv(s: State) { TilesRight(s) && Linked(s) }

  lemma VideoAfter(audio: set<Track>, desired: Option<Track>)
    requires forall t :: t in audio ==> !t.video
    requires desired.Some? ==> desired.value.video
    ensures VideoIn(audio + Members(desired)) == Members(desired)
    ensures AudioIn(audio + Members(desired)) == audio
  {
  }

  lemma DesiredIsHeld(s: State, user: int)
    requires Linked(s) && Desired(s, user).Some?
    ensures Holds(s, user, Desired(s, user).value) && Desired(s, user).value.video
  {
    assert Holds(s, user, Desired(s, user).value);
  }

  /** Reconciling a user's own stream makes their tile right and leaves the other tiles and all audio alone. */
  lemma ReconciledIsRight(s: State, user: int)
    requires Linked(s) && user in s.remoteStreams
    requires forall u :: u in s.remoteStreams && u != user ==>
               VideoIn(Tracks(s, s.remoteStreams[u])) == Members(Desired(s, u))
    ensures Inv(Reconciled(s, user, s.remoteStreams[user]))
  {
    var stream := s.remoteStreams[user];
    var r := Reconciled(s, user, stream);
    if Desired(s, user).Some? {
      DesiredIsHeld(s, user);
    }
    VideoAfter(AudioIn(Tracks(s, stream)), Desired(s, user));
    SameDesired(s, r);
    assert forall u, t :: Holds(r, u, t) == Holds(s, u, t);
    assert forall t :: t in s.bindings ==> Bound(s, s.bindings[t]);
  }

  lemma SameDesired(s: State, r: State)
    requires r.slots == s.slots && r.hidden == s.hidden && r.ended == s.ended
    ensures forall u :: Desired(r, u) == Desired(s, u)
  {
  }

  lemma WithStreamKeeps(s: State, user: int)
    requires Inv(s)
    ensures Inv(WithStream(s, user)) && user in WithStream(s, user).remoteStreams
    ensures WithStream(s, user).slots == s.slots
    ensures forall u :: Desired(WithStream(s, user), u) == Desired(s, u)
  {
    SameDesired(s, WithStream(s, user));
    if user !in s.remoteStreams {
      NewStreamLinked(s, user);
      NewStreamRight(s, user);
    }
  }

  lemma NewStreamLinked(s: State, user: int)
    requires Linked(s) && user !in s.remoteStreams
    ensures Linked(WithStream(s, user))
  {
    var r := WithStream(s, user);
    assert forall u, t :: Holds(r, u, t) == Holds(s, u, t);
    assert forall t :: t in s.bindings ==> Bound(s, s.bindings[t]);
  }

  lemma NewStreamRight(s: State, user: int)
    requires Inv(s) && user !in s.remoteStreams
    ensures TilesRight(WithStream(s, user))
  {
    SameDesired(s, WithStream(s, user));
    assert VideoIn({}) == {};
  }

  lemma SlotLinked(s: State, user: int, source: Source, track: Track)
    requires Linked(s) && user in s.remoteStreams && track.video && VideoSlot(source)
    ensures Linked(WithSlot(s, user, source, track))
  {
    var r := WithSlot(s, user, source, track);
    forall u, t | Holds(r, u, t) ensures t.video {
      if t != track {
        assert Holds(s, u, t);
      }
    }
    assert forall t :: t in s.bindings ==> Bound(s, s.bindings[t]);
  }

  /** What the interface is given has no part in the tiles. */
  lemma HandedSame(s: State, user: int, stream: StreamId)
    ensures Linked(Handed(s, user, stream)) <==> Linked(s)
    ensures TilesRight(Handed(s, user, stream)) <==> TilesRight(s)
  {
    var r := Handed(s, user, stream);
    SameDesired(s, r);
    assert forall u, t :: Holds(r, u, t) == Holds(s, u, t);
    assert forall b :: Bound(r, b) == Bound(s, b);
  }

  lemma VideoArrivalKeeps(s: State, user: int, source: Source, track: Track)
    requires Inv(s) && user != s.self && track.video && VideoSlot(source)
    ensures Inv(TrackArrived(s, user, source, track))
  {
    var s1 := WithStream(s, user);
    WithStreamKeeps(s, user);
    SlotLinked(s1, user, source, track);
    SlotReconciles(s1, user, source, track);
    var stream := s1.remoteStreams[user];
    HandedSame(Reconciled(WithSlot(s1, user, source, track), user, stream), user, stream);
  }

  lemma SlotReconciles(s: State, user: int, source: Source, track: Track)
    requires TilesRight(s) && user in s.remoteStreams && Linked(WithSlot(s, user, source, track))
    ensures Inv(Reconciled(WithSlot(s, user, source, track), user, s.remoteStreams[user]))
  {
    var r := WithSlot(s, user, source, track);
    assert forall u :: u != user ==> SlotsOf(r, u) == SlotsOf(s, u) && Desired(r, u) == Desired(s, u);
    ReconciledIsRight(r, user);
  }

  lemma LooseLinked(s: State, user: int, track: Track)
    requires Linked(s) && user in s.remoteStreams
    ensures Linked(WithLoose(s, user, track))
  {
    var r := WithLoose(s, user, track);
    assert forall u, t :: Holds(r, u, t) == Holds(s, u, t);
    assert forall t :: t in s.bindings ==> Bound(s, s.bindings[t]);
  }

  lemma LooseRightIff(s: State, user: int, track: Track)
    requires Inv(s) && user in s.remoteStreams
    ensures TilesRight(WithLoose(s, user, track)) <==> !track.video || Desired(s, user) == Some(track)
  {
    var r, stream := WithLoose(s, user, track), s.remoteStreams[user];
    SameDesired(s, r);
    assert VideoIn(Tracks(r, stream)) == VideoIn(Tracks(s, stream)) + if track.video then {track} else {};
    assert track.video ==> track in VideoIn(Tracks(r, stream));
  }

  lemma ArrivalIff(s: State, user: int, source: Source, track: Track)
    requires Inv(s)
    ensures Linked(TrackArrived(s, user, source, track))
    ensures TilesRight(TrackArrived(s, user, source, track)) <==> !Mismatch(s, Arrives(user, source, track))
  {
    if user != s.self {
      if track.video && VideoSlot(source) {
        VideoArrivalKeeps(s, user, source, track);
      } else {
        var s1 := WithStream(s, user);
        WithStreamKeeps(s, user);
        LooseLinked(s1, user, track);
        LooseRightIff(s1, user, track);
        HandedSame(WithLoose(s1, user, track), user, s1.remoteStreams[user]);
      }
    }
  }

  lemma ClearedLinked(s: State, track: Track, b: Binding)
    requires Linked(s) && b.slot.Some?
    ensures Linked(SlotCleared(s, track, b))
  {
    var r := SlotCleared(s, track, b);
    assert forall u, t :: Holds(r, u, t) ==> Holds(s, u, t);
    assert forall t :: t in s.bindings ==> Bound(s, s.bindings[t]);
  }

  /** Clearing an ended track's slot changes nothing more about what is desired. */
  lemma ClearedDesired(s: State, track: Track, b: Binding, u: int)
    requires b.slot.Some?
    ensures Desired(SlotCleared(s, track, b), u) == Desired(WithEnded(s, track), u)
  {
  }

  lemma DesiredWithoutTrack(s: State, u: int, track: Track)
    ensures Desired(s, u) != Some(track) ==> Desired(WithEnded(s, track), u) == Desired(s, u)
    ensures Desired(WithEnded(s, track), u) != Some(track)
  {
  }

  lemma SameLinks(s: State, r: State)
    requires Linked(s) && r.remoteStreams == s.remoteStreams && r.streams.Keys == s.streams.Keys && r.slots == s.slots
    requires r.bindings == s.bindings && r.nextStream == s.nextStream
    ensures Linked(r)
  {
    assert forall u, t :: Holds(r, u, t) == Holds(s, u, t);
    assert forall t :: t in s.bindings ==> Bound(s, s.bindings[t]);
  }

  lemma ReconciledLinked(s: State, user: int, stream: StreamId)
    requires Linked(s) && stream in s.streams
    ensures Linked(Handed(Reconciled(s, user, stream), user, stream))
  {
    SameLinks(s, Handed(Reconciled(s, user, stream), user, stream));
  }

  lemma EndedLinked(s: State, track: Track)
    requires Linked(s)
    ensures Linked(TrackEnded(s, track))
  {
    var r := TrackEnded(s, track);
    if track in s.bindings {
      var b := s.bindings[track];
      assert Bound(s, b);
      if b.slot.Some? {
        ClearedLinked(s, track, b);
        ReconciledLinked(SlotCleared(s, track, b), b.user, b.stream);
      } else {
        SameLinks(s, r);
      }
    } else {
      SameLinks(s, r);
    }
  }

  /** When a track ends, a participant's tile stays right unless and only unless it was showing that track, and the
      track's handler does not put their tile right. */
  lemma EndedTileIff(s: State, track: Track, u: int)
    requires Inv(s) && u in s.remoteStreams
    ensures var r := TrackEnded(s, track);
            && r.remoteStreams == s.remoteStreams
            && (VideoIn(Tracks(r, r.remoteStreams[u])) == Members(Desired(r, u)) <==> !LeavesBehind(s, track, u))
  {
    DesiredWithoutTrack(s, u, track);
    if track in s.bindings {
      assert Bound(s, s.bindings[track]);
      if s.bindings[track].slot.Some? { SlotEndIff(s, track, u); } else { LooseEndIff(s, track, u); }
    } else {
      SameDesired(WithEnded(s, track), TrackEnded(s, track));
      assert track in Members(Some(track));
    }
  }

  lemma SlotEndIff(s: State, track: Track, u: int)
    requires Inv(s) && u in s.remoteStreams && track in s.bindings && s.bindings[track].slot.Some?
    ensures var r := TrackEnded(s, track);
            VideoIn(Tracks(r, r.remoteStreams[u])) == Members(Desired(r, u)) <==> !LeavesBehind(s, track, u)
  {
    var b, r := s.bindings[track], TrackEnded(s, track);
    var cleared := SlotCleared(s, track, b);
    assert Bound(s, b);
    SameDesired(cleared, r);
    ClearedDesired(s, track, b, u);
    DesiredWithoutTrack(s, u, track);
    if b.stream == s.remoteStreams[u] {
      ClearedLinked(s, track, b);
      if Desired(cleared, u).Some? { DesiredIsHeld(cleared, u); }
      VideoAfter(AudioIn(Tracks(cleared, b.stream)), Desired(cleared, u));
    } else {
      assert track in Members(Some(track));
    }
  }

  lemma LooseEndIff(s: State, track: Track, u: int)
    requires Inv(s) && u in s.remoteStreams && track in s.bindings && s.bindings[track].slot.None?
    ensures var r := TrackEnded(s, track);
            VideoIn(Tracks(r, r.remoteStreams[u])) == Members(Desired(r, u)) <==> !LeavesBehind(s, track, u)
  {
    var b, r := s.bindings[track], TrackEnded(s, track);
    SameDesired(WithEnded(s, track), r);
    DesiredWithoutTrack(s, u, track);
    if b.stream == s.remoteStreams[u] {
      assert VideoIn(Tracks(r, b.stream)) == VideoIn(Tracks(s, b.stream)) - {track};
    } else {
      assert track in Members(Some(track));
    }
  }

  lemma EndedIff(s: State, track: Track)
    requires Inv(s)
    ensures Linked(TrackEnded(s, track))
    ensures TilesRight(TrackEnded(s, track)) <==> !Mismatch(s, Ends(track))
  {
    EndedLinked(s, track);
    forall u | u in s.remoteStreams
      ensures var r := TrackEnded(s, track);
              && r.remoteStreams == s.remoteStreams
              && (VideoIn(Tracks(r, r.remoteStreams[u])) == Members(Desired(r, u)) <==> !LeavesBehind(s, track, u))
    {
      EndedTileIff(s, track, u);
    }
    assert TrackEnded(s, track).remoteStreams == s.remoteStreams;
  }

  lemma PublishKeeps(s: State, channel: int, user: int, source: Source, published: bool)
    requires Inv(s)
    ensures Inv(PublishChanged(s, channel, user, source, published))
  {
    var key := Key(user, source);
    var s1 := s.(hidden := if published then s.hidden - {key} else s.hidden + {key});
    assert forall u, t :: Holds(s1, u, t) == Holds(s, u, t);
    assert forall t :: t in s.bindings ==> Bound(s, s.bindings[t]);
    assert forall u :: u != user ==> Desired(s1, u) == Desired(s, u);
    if user in s1.remoteStreams {
      assert Linked(s1);
      ReconciledIsRight(s1, user);
      HandedSame(Reconciled(s1, user, s1.remoteStreams[user]), user, s1.remoteStreams[user]);
    } else {
      assert Inv(s1);
    }
  }

  lemma LeaveKeeps(s: State, channel: int, user: int)
    requires Inv(s)
    ensures Inv(UserLeft(s, channel, user))
  {
    var r := UserLeft(s, channel, user);
    assert forall u :: u != user ==> Desired(r, u) == Desired(s, u);
    assert forall u, t :: Holds(r, u, t) ==> Holds(s, u, t);
    assert forall t :: t in s.bindings ==> Bound(s, s.bindings[t]);
  }

  lemma TeardownKeeps(s: State, silenced: set<Track>)
    requires Inv(s)
    ensures Inv(TornDown(s, silenced))
  {
    assert forall u, t :: !Holds(TornDown(s, silenced), u, t);
    assert forall t :: t in s.bindings ==> Bound(s, s.bindings[t]);
  }

  /** After an event the tiles are right unless and only unless it is a mismatch. */
  lemma StepRightIff(s: State, e: Event)
    requires Inv(s)
    ensures Linked(Step(s, e))
    ensures TilesRight(Step(s, e)) <==> !Mismatch(s, e)
  {
    match e
    case Arrives(user, source, track) => ArrivalIff(s, user, source, track);
    case Ends(track) => EndedIff(s, track);
    case Publish(channel, user, source) => PublishKeeps(s, channel, user, source, true);
    case Unpublish(channel, user, source) => PublishKeeps(s, channel, user, source, false);
    case Leaves(channel, user) => LeaveKeeps(s, channel, user);
    case Teardown(silenced) => TeardownKeeps(s, silenced);
    case Joins(channel) =>
      SameDesired(s, Step(s, e));
      SameLinks(s, Step(s, e));
  }

  ghost predicate AlwaysRight(s: State, es: seq<Event>)
    decreases es
  {
    TilesRight(s) && (es == [] || AlwaysRight(Step(s, es[0]), es[1..]))
  }

  predicate NeverMismatched(s: State, es: seq<Event>)
    decreases es
  {
    es == [] || (!Mismatch(s, es[0]) && NeverMismatched(Step(s, es[0]), es[1..]))
  }

  lemma {:induction false} RunRightIff(s: State, es: seq<Event>)
    requires Inv(s)
    ensures AlwaysRight(s, es) <==> NeverMismatched(s, es)
    decreases es
  {
    if es != [] {
      StepRightIff(s, es[0]);
      if !Mismatch(s, es[0]) {
        RunRightIff(Step(s, es[0]), es[1..]);
      }
    }
  }

  /** Whatever the order of arrivals, publications, endings, leaves and teardowns, each tile always shows the live
      unhidden screen, else the live unhidden camera, else no video, never two videos; unless and only unless a video
      track arrives that is neither camera nor screen and is not the one shown, or a track ends whose handler belongs
      elsewhere. */
  lemma TilesAreAlwaysRightIff(self: int, channel: int, es: seq<Event>)
    ensures AlwaysRight(Fresh(self, channel), es) <==> NeverMismatched(Fresh(self, channel), es)
  {
    var s := Fresh(self, channel);
    assert forall u, t :: !Holds(s, u, t);
    RunRightIff(s, es);
  }

  /** Only an audio track's own arrival or end changes which audio a stream carries. */
  lemma AudioIsUntouched(s: State, e: Event, stream: StreamId)
    requires Linked(s) && stream in s.streams
    requires (e.Arrives? || e.Ends?) ==> e.track.video
    ensures AudioIn(Tracks(Step(s, e), stream)) == AudioIn(s.streams[stream])
  {
    match e
    case Arrives(user, source, track) =>
      if user != s.self {
        if user !in s.remoteStreams { NewStreamLinked(s, user); }
        var s1 := WithStream(s, user);
        if VideoSlot(source) {
          SlotLinked(s1, user, source, track);
          ReconcileSparesAudio(WithSlot(s1, user, source, track), user, s1.remoteStreams[user], stream);
        }
      }
    case Ends(track) =>
      if track in s.bindings {
        var b := s.bindings[track];
        assert Bound(s, b);
        if b.slot.Some? {
          ClearedLinked(s, track, b);
          ReconcileSparesAudio(SlotCleared(s, track, b), b.user, b.stream, stream);
        }
      }
    case Publish(channel, user, source) => PublishSparesAudio(s, user, s.hidden - {Key(user, source)}, stream);
    case Unpublish(channel, user, source) => PublishSparesAudio(s, user, s.hidden + {Key(user, source)}, stream);
    case _ =>
  }

  lemma ReconcileSparesAudio(s: State, user: int, reconciled: StreamId, stream: StreamId)
    requires Linked(s)
    ensures AudioIn(Tracks(Reconciled(s, user, reconciled), stream)) == AudioIn(Tracks(s, stream))
  {
    SlotsAreVideo(s);
    VideoAfter(AudioIn(Tracks(s, reconciled)), Desired(s, user));
  }

  lemma PublishSparesAudio(s: State, user: int, hidden: set<Key>, stream: StreamId)
    requires Linked(s)
    ensures AudioIn(Tracks(Refreshed(s.(hidden := hidden), user), stream)) == AudioIn(Tracks(s, stream))
  {
    var r := s.(hidden := hidden);
    assert forall u, t :: Holds(r, u, t) == Holds(s, u, t);
    assert forall t :: t in s.bindings ==> Bound(s, s.bindings[t]);
    assert Linked(r);
    if user in r.remoteStreams {
      ReconcileSparesAudio(r, user, r.remoteStreams[user], stream);
    }
  }

  lemma SlotsAreVideo(s: State)
    requires Linked(s)
    ensures forall u :: Desired(s, u).Some? ==> Desired(s, u).value.video
  {
    forall u | Desired(s, u).Some? ensures Desired(s, u).value.video {
      DesiredIsHeld(s, u);
    }
  }

  // ----- The same, told by the events -----

  function After(s: State, es: seq<Event>): State
    decreases es
  {
    if es == [] then s else After(Step(s, es[0]), es[1..])
  }

  lemma {:induction false} AfterLast(s: State, es: seq<Event>)
    requires es != []
    ensures After(s, es) == Step(After(s, es[..|es|-1]), es[|es|-1])
    decreases |es|
  {
    if |es| > 1 {
      AfterLast(Step(s, es[0]), es[1..]);
      assert es[1..][..|es|-2] == es[..|es|-1][1..];
    }
  }

  /** The client and the channel it was in before any event. */
  datatype Seat = Seat(self: int, channel: int)

  /** The channel joined last, unless torn down since. */
  function ChannelOf(seat: Seat, es: seq<Event>): int {
    if es == [] then seat.channel
    else match es[|es|-1]
      case Joins(channel) => channel
      case Teardown(silenced) => 0
      case _ => ChannelOf(seat, es[..|es|-1])
  }

  predicate UserGone(seat: Seat, before: seq<Event>, e: Event, user: int) {
    e.Teardown? || (e.Leaves? && e.channel == ChannelOf(seat, before) && e.user == user)
  }

  /** The room reports about this source of another participant, to the channel the client is in. */
  predicate Reports(seat: Seat, before: seq<Event>, e: Event, key: Key) {
    (e.Publish? || e.Unpublish?) && e.channel == ChannelOf(seat, before) && e.user != seat.self
    && Key(e.user, e.source) == key && (e.source == Camera || e.source == Screen)
  }

  /** The last report about the source, since its participant last left and since the last teardown, was that it is no
      longer published. */
  predicate Unpublished(seat: Seat, es: seq<Event>, key: Key) {
    es != [] &&
    var before, e := es[..|es|-1], es[|es|-1];
    if UserGone(seat, before, e, key.user) then false
    else if Reports(seat, before, e, key) then e.Unpublish?
    else Unpublished(seat, before, key)
  }

  /** The track that arrived last for a participant's source, since they last left and since the last teardown. */
  function LastTrack(seat: Seat, es: seq<Event>, user: int, source: Source): Option<Track> {
    if es == [] then None
    else
      var before, e := es[..|es|-1], es[|es|-1];
      if UserGone(seat, before, e, user) then None
      else if e.Arrives? && e.user == user != seat.self && e.source == source && e.track.video then Some(e.track)
      else LastTrack(seat, before, user, source)
  }

  predicate EndsTrack(e: Event, track: Track) { e == Ends(track) || (e.Teardown? && track in e.silenced) }

  predicate EverEnded(es: seq<Event>, track: Track) { exists e :: e in es && EndsTrack(e, track) }

  /** That track, if it has not ended and its source is published. */
  ghost function Live(seat: Seat, es: seq<Event>, user: int, source: Source): Option<Track> {
    var last := LastTrack(seat, es, user, source);
    if last.Some? && !EverEnded(es, last.value) && !Unpublished(seat, es, Key(user, source)) then last else None
  }

  /** What a participant's tile is to show. */
  ghost function TileTrack(seat: Seat, es: seq<Event>, user: int): Option<Track> {
    var screen := Live(seat, es, user, Screen);
    if screen.Some? then screen else Live(seat, es, user, Camera)
  }

  /** A participant has a stream from their first track on, until they leave or everything is torn down. */
  predicate HasTile(seat: Seat, es: seq<Event>, user: int) {
    es != [] &&
    var before, e := es[..|es|-1], es[|es|-1];
    if UserGone(seat, before, e, user) then false
    else (e.Arrives? && e.user == user != seat.self) || HasTile(seat, before, user)
  }

  /** The participant a track arrived for last. */
  function LastOwner(seat: Seat, es: seq<Event>, track: Track): Option<int> {
    if es == [] then None
    else
      var e := es[|es|-1];
      if e.Arrives? && e.track == track && e.user != seat.self then Some(e.user)
      else LastOwner(seat, es[..|es|-1], track)
  }

  /** An audio track of the participant's present stream: it has arrived for them, and has not ended since as theirs. */
  predicate Heard(seat: Seat, es: seq<Event>, user: int, track: Track) {
    es != [] &&
    var before, e := es[..|es|-1], es[|es|-1];
    if UserGone(seat, before, e, user) then false
    else if e.Arrives? && e.user == user != seat.self && e.track == track then true
    else if e == Ends(track) then Heard(seat, before, user, track) && LastOwner(seat, before, track) != Some(user)
    else Heard(seat, before, user, track)
  }

  // What the client holds is what the events say, one fact at a time.

  ghost predicate TellsPlace(seat: Seat, es: seq<Event>, s: State) {
    s.self == seat.self && s.channel == ChannelOf(seat, es)
  }

  ghost predicate TellsHidden(seat: Seat, es: seq<Event>, s: State) {
    forall key :: key in s.hidden <==> Unpublished(seat, es, key)
  }

  ghost predicate TellsEnded(es: seq<Event>, s: State) { forall t :: t in s.ended <==> EverEnded(es, t) }

  function SlotOf(s: State, user: int, source: Source): Option<Track> { SlotTrack(SlotsOf(s, user), source) }

  ghost predicate TellsSlot(seat: Seat, es: seq<Event>, s: State, user: int, source: Source) {
    var slot, last := SlotOf(s, user, source), LastTrack(seat, es, user, source);
    slot == last || (slot.None? && last.Some? && last.value in s.ended)
  }

  ghost predicate TellsTiles(seat: Seat, es: seq<Event>, s: State) {
    forall u :: u in s.remoteStreams <==> HasTile(seat, es, u)
  }

  ghost predicate TellsAudio(seat: Seat, es: seq<Event>, s: State, user: int, track: Track) {
    && (user in s.remoteStreams ==> (track in Tracks(s, s.remoteStreams[user]) <==> Heard(seat, es, user, track)))
    && (Heard(seat, es, user, track) && LastOwner(seat, es, track) == Some(user) ==>
          user in s.remoteStreams && track in s.bindings && s.bindings[track].stream == s.remoteStreams[user])
  }

  ghost predicate TellsOwner(seat: Seat, es: seq<Event>, s: State, track: Track) {
    && (track in s.bindings <==> LastOwner(seat, es, track).Some?)
    && (track in s.bindings ==>
          s.bindings[track].user == LastOwner(seat, es, track).value && s.bindings[track].slot.None?)
  }

  lemma StepPlace(seat: Seat, es: seq<Event>, s: State, e: Event)
    requires TellsPlace(seat, es, s)
    ensures TellsPlace(seat, es + [e], Step(s, e))
  {
    assert (es + [e])[..|es|] == es;
  }

  lemma StepHidden(seat: Seat, es: seq<Event>, s: State, e: Event)
    requires TellsPlace(seat, es, s) && TellsHidden(seat, es, s)
    ensures TellsHidden(seat, es + [e], Step(s, e))
  {
    assert (es + [e])[..|es|] == es;
  }

  lemma EndedAfter(s: State, e: Event, track: Track)
    ensures track in Step(s, e).ended <==> track in s.ended || EndsTrack(e, track)
  {
  }

  lemma StepEnded(es: seq<Event>, s: State, e: Event)
    requires TellsEnded(es, s)
    ensures TellsEnded(es + [e], Step(s, e))
  {
    forall t ensures t in Step(s, e).ended <==> EverEnded(es + [e], t) {
      EndedAfter(s, e, t);
      if EverEnded(es, t) {
        var x :| x in es && EndsTrack(x, t);
        assert x in es + [e];
      }
      assert e in es + [e];
    }
  }

  lemma ArrivalSlot(s: State, user: int, source: Source, e: Event)
    requires e.Arrives? && VideoSlot(source)
    ensures SlotOf(Step(s, e), user, source) ==
            if e.user == user != s.self && e.track.video && e.source == source then Some(e.track)
            else SlotOf(s, user, source)
  {
    if e.user != s.self {
      assert SlotsOf(WithStream(s, e.user), user) == SlotsOf(s, user);
    }
  }

  lemma EndSlot(s: State, user: int, source: Source, track: Track)
    requires VideoSlot(source)
    ensures var s' := Step(s, Ends(track));
            || SlotOf(s', user, source) == SlotOf(s, user, source)
            || (SlotOf(s, user, source) == Some(track) && SlotOf(s', user, source).None? && track in s'.ended)
  {
  }

  lemma OtherSlot(s: State, user: int, source: Source, e: Event)
    requires !e.Arrives? && !e.Ends?
    ensures SlotOf(Step(s, e), user, source) ==
            if e.Teardown? || (e.Leaves? && e.channel == s.channel && e.user == user) then None
            else SlotOf(s, user, source)
  {
  }

  lemma StepSlot(seat: Seat, es: seq<Event>, s: State, e: Event, user: int, source: Source)
    requires TellsPlace(seat, es, s) && TellsSlot(seat, es, s, user, source) && VideoSlot(source)
    ensures TellsSlot(seat, es + [e], Step(s, e), user, source)
  {
    assert (es + [e])[..|es|] == es && (es + [e])[|es|] == e;
    if e.Arrives? {
      ArrivalSlot(s, user, source, e);
    } else if e.Ends? {
      EndSlot(s, user, source, e.track);
    } else {
      OtherSlot(s, user, source, e);
    }
    forall t ensures t in s.ended ==> t in Step(s, e).ended { EndedAfter(s, e, t); }
  }

  lemma StepTiles(seat: Seat, es: seq<Event>, s: State, e: Event)
    requires TellsPlace(seat, es, s) && TellsTiles(seat, es, s)
    ensures TellsTiles(seat, es + [e], Step(s, e))
  {
    assert (es + [e])[..|es|] == es;
  }

  lemma StepOwner(seat: Seat, es: seq<Event>, s: State, e: Event, track: Track)
    requires TellsPlace(seat, es, s) && TellsOwner(seat, es, s, track) && !track.video
    ensures TellsOwner(seat, es + [e], Step(s, e), track)
  {
    assert (es + [e])[..|es|] == es;
  }

  lemma PublishLinked(s: State, channel: int, user: int, source: Source, published: bool)
    requires Linked(s)
    ensures Linked(PublishChanged(s, channel, user, source, published))
  {
    var key := Key(user, source);
    var s1 := s.(hidden := if published then s.hidden - {key} else s.hidden + {key});
    SameLinks(s, s1);
    if user in s.remoteStreams { ReconciledLinked(s1, user, s.remoteStreams[user]); }
  }

  lemma ArrivalLinked(s: State, user: int, source: Source, track: Track)
    requires Linked(s)
    ensures Linked(TrackArrived(s, user, source, track))
  {
    if user != s.self {
      if user !in s.remoteStreams { NewStreamLinked(s, user); }
      var s1 := WithStream(s, user);
      var stream := s1.remoteStreams[user];
      if track.video && VideoSlot(source) {
        SlotLinked(s1, user, source, track);
        ReconciledLinked(WithSlot(s1, user, source, track), user, stream);
      } else {
        LooseLinked(s1, user, track);
        SameLinks(WithLoose(s1, user, track), TrackArrived(s, user, source, track));
      }
    }
  }

  lemma RemovalLinked(s: State, e: Event)
    requires Linked(s) && (e.Leaves? || e.Teardown?)
    ensures Linked(Step(s, e))
  {
    var r := Step(s, e);
    assert forall u, t :: Holds(r, u, t) ==> Holds(s, u, t);
    assert forall t :: t in s.bindings ==> Bound(s, s.bindings[t]);
  }

  lemma LinkedStep(s: State, e: Event)
    requires Linked(s)
    ensures Linked(Step(s, e))
  {
    match e
    case Arrives(user, source, track) => ArrivalLinked(s, user, source, track);
    case Ends(track) => EndedLinked(s, track);
    case Publish(channel, user, source) => PublishLinked(s, channel, user, source, true);
    case Unpublish(channel, user, source) => PublishLinked(s, channel, user, source, false);
    case Joins(channel) => SameLinks(s, Step(s, e));
    case _ => RemovalLinked(s, e);
  }

  /** How an event changes whether a stream that already exists carries an audio track. */
  lemma CarriesAfter(s: State, e: Event, stream: StreamId, track: Track)
    requires Linked(s) && stream in s.streams && !track.video
    requires track in s.bindings ==> s.bindings[track].slot.None?
    ensures var s' := Step(s, e);
            track in Tracks(s', stream) <==>
              if e.Arrives? && e.track == track && e.user != s.self && e.user in s.remoteStreams
                 && s.remoteStreams[e.user] == stream then true
              else if e == Ends(track) && track in s.bindings && s.bindings[track].stream == stream then false
              else track in Tracks(s, stream)
  {
    var s' := Step(s, e);
    if !((e.Arrives? || e.Ends?) && !e.track.video) {
      AudioIsUntouched(s, e, stream);
      assert track in AudioIn(Tracks(s', stream)) <==> track in AudioIn(Tracks(s, stream));
    } else if e.Arrives? {
      AudioArrives(s, e, stream, track);
    } else {
      AudioEnds(s, e.track, stream, track);
    }
  }

  lemma AudioArrives(s: State, e: Event, stream: StreamId, track: Track)
    requires Linked(s) && stream in s.streams && !track.video && e.Arrives? && !e.track.video
    ensures track in Tracks(Step(s, e), stream) <==>
              track in Tracks(s, stream)
              || (e.track == track && e.user != s.self
                  && e.user in s.remoteStreams && s.remoteStreams[e.user] == stream)
  {
  }

  lemma AudioEnds(s: State, ended: Track, stream: StreamId, track: Track)
    requires Linked(s) && stream in s.streams && !track.video && !ended.video
    requires track in s.bindings ==> s.bindings[track].slot.None?
    ensures track in Tracks(TrackEnded(s, ended), stream) <==>
              track in Tracks(s, stream)
              && !(ended == track && track in s.bindings && s.bindings[track].stream == stream)
  {
    if ended in s.bindings && s.bindings[ended].slot.Some? {
      var b := s.bindings[ended];
      ClearedLinked(s, ended, b);
      ReconcileSparesAudio(SlotCleared(s, ended, b), b.user, b.stream, stream);
      assert track in AudioIn(Tracks(TrackEnded(s, ended), stream)) <==> track in AudioIn(Tracks(s, stream));
    }
  }

  /** Where a participant's stream comes from. */
  lemma StreamAfter(s: State, e: Event, user: int)
    requires Linked(s)
    ensures var s' := Step(s, e);
            && (user in s'.remoteStreams && user in s.remoteStreams ==> s'.remoteStreams[user] == s.remoteStreams[user])
            && (user in s'.remoteStreams && user !in s.remoteStreams ==>
                  e.Arrives? && e.user == user != s.self && s'.remoteStreams[user] == s.nextStream)
  {
  }

  lemma NewStreamCarries(s: State, user: int, source: Source, track: Track)
    requires Linked(s) && user !in s.remoteStreams && user != s.self
    ensures var tracks := Tracks(TrackArrived(s, user, source, track), s.nextStream);
            (forall t :: t in tracks && !t.video ==> t == track) && (!track.video ==> track in tracks)
  {
    if track.video && VideoSlot(source) {
      NewStreamLinked(s, user);
      var s1 := WithStream(s, user);
      SlotLinked(s1, user, source, track);
      ReconcileSparesAudio(WithSlot(s1, user, source, track), user, s.nextStream, s.nextStream);
      var tracks := Tracks(TrackArrived(s, user, source, track), s.nextStream);
      assert forall t :: t in tracks && !t.video ==> t in AudioIn(tracks);
    }
  }

  lemma StepAudio(seat: Seat, es: seq<Event>, s: State, e: Event, user: int, track: Track)
    requires Linked(s) && TellsPlace(seat, es, s) && TellsTiles(seat, es, s) && TellsOwner(seat, es, s, track)
    requires TellsAudio(seat, es, s, user, track) && !track.video
    ensures TellsAudio(seat, es + [e], Step(s, e), user, track)
  {
    StepTiles(seat, es, s, e);
    StreamAfter(s, e, user);
    if user in s.remoteStreams { StreamCarries(seat, es, s, e, user, track); }
    StepBound(seat, es, s, e, user, track);
    assert (es + [e])[..|es|] == es && (es + [e])[|es|] == e;
    if user !in s.remoteStreams {
      NoTileUnheard(seat, es, user, track);
      if e.Arrives? && e.user == user && user != s.self { NewStreamCarries(s, user, e.source, e.track); }
    }
  }

  lemma {:induction false} NoTileUnheard(seat: Seat, es: seq<Event>, user: int, track: Track)
    requires !HasTile(seat, es, user)
    ensures !Heard(seat, es, user, track)
    decreases |es|
  {
    if es != [] && !UserGone(seat, es[..|es|-1], es[|es|-1], user) {
      NoTileUnheard(seat, es[..|es|-1], user, track);
    }
  }

  lemma StreamCarries(seat: Seat, es: seq<Event>, s: State, e: Event, user: int, track: Track)
    requires Linked(s) && TellsPlace(seat, es, s) && TellsOwner(seat, es, s, track)
    requires TellsAudio(seat, es, s, user, track) && !track.video && user in s.remoteStreams
    ensures user in Step(s, e).remoteStreams ==>
              (track in Tracks(Step(s, e), s.remoteStreams[user]) <==> Heard(seat, es + [e], user, track))
  {
    assert (es + [e])[..|es|] == es && (es + [e])[|es|] == e;
    CarriesAfter(s, e, s.remoteStreams[user], track);
    if track in s.bindings { assert Bound(s, s.bindings[track]); }
    assert forall u :: u in s.remoteStreams && s.remoteStreams[u] == s.remoteStreams[user] ==> u == user;
  }

  lemma BindingAfter(s: State, e: Event, track: Track)
    requires !track.video
    ensures var s' := Step(s, e);
            if e.Arrives? && e.track == track && e.user != s.self then
              e.user in s'.remoteStreams && track in s'.bindings
              && s'.bindings[track].stream == s'.remoteStreams[e.user]
            else (track in s'.bindings <==> track in s.bindings)
                 && (track in s.bindings ==> s'.bindings[track] == s.bindings[track])
  {
  }

  lemma StepBound(seat: Seat, es: seq<Event>, s: State, e: Event, user: int, track: Track)
    requires Linked(s) && TellsPlace(seat, es, s) && TellsTiles(seat, es, s)
    requires TellsAudio(seat, es, s, user, track) && !track.video
    ensures Heard(seat, es + [e], user, track) && LastOwner(seat, es + [e], track) == Some(user) ==>
              var s' := Step(s, e);
              user in s'.remoteStreams && track in s'.bindings && s'.bindings[track].stream == s'.remoteStreams[user]
  {
    assert (es + [e])[..|es|] == es && (es + [e])[|es|] == e;
    BindingAfter(s, e, track);
    StreamAfter(s, e, user);
    StepTiles(seat, es, s, e);
    if Heard(seat, es + [e], user, track) && !Heard(seat, es, user, track) {
      assert e.Arrives? && e.track == track && e.user == user;
    }
  }

  lemma FreshInv(self: int, channel: int)
    ensures Inv(Fresh(self, channel))
  {
    assert forall u, t :: !Holds(Fresh(self, channel), u, t);
  }

  lemma {:induction false} EventsTell(seat: Seat, es: seq<Event>)
    ensures var s := After(Fresh(seat.self, seat.channel), es);
            Linked(s) && TellsPlace(seat, es, s) && TellsHidden(seat, es, s) && TellsEnded(es, s)
                && TellsTiles(seat, es, s)
    decreases |es|
  {
    var start := Fresh(seat.self, seat.channel);
    if es == [] {
      FreshInv(seat.self, seat.channel);
    } else {
      var before, e := es[..|es|-1], es[|es|-1];
      var s := After(start, before);
      EventsTell(seat, before);
      AfterLast(start, es);
      assert es == before + [e];
      LinkedStep(s, e);
      StepPlace(seat, before, s, e);
      StepHidden(seat, before, s, e);
      StepEnded(before, s, e);
      StepTiles(seat, before, s, e);
    }
  }

  lemma {:induction false} EventsTellSlot(seat: Seat, es: seq<Event>, user: int, source: Source)
    requires VideoSlot(source)
    ensures TellsSlot(seat, es, After(Fresh(seat.self, seat.channel), es), user, source)
    decreases |es|
  {
    if es != [] {
      var before, e := es[..|es|-1], es[|es|-1];
      EventsTell(seat, before);
      EventsTellSlot(seat, before, user, source);
      AfterLast(Fresh(seat.self, seat.channel), es);
      assert es == before + [e];
      StepSlot(seat, before, After(Fresh(seat.self, seat.channel), before), e, user, source);
    }
  }

  lemma {:induction false} EventsTellAudio(seat: Seat, es: seq<Event>, user: int, track: Track)
    requires !track.video
    ensures TellsOwner(seat, es, After(Fresh(seat.self, seat.channel), es), track)
    ensures TellsAudio(seat, es, After(Fresh(seat.self, seat.channel), es), user, track)
    decreases |es|
  {
    if es != [] {
      var before, e := es[..|es|-1], es[|es|-1];
      var s := After(Fresh(seat.self, seat.channel), before);
      EventsTell(seat, before);
      EventsTellAudio(seat, before, user, track);
      AfterLast(Fresh(seat.self, seat.channel), es);
      assert es == before + [e];
      StepOwner(seat, before, s, e, track);
      StepAudio(seat, before, s, e, user, track);
    }
  }

  lemma DesiredIsTileTrack(seat: Seat, es: seq<Event>, user: int)
    ensures Desired(After(Fresh(seat.self, seat.channel), es), user) == TileTrack(seat, es, user)
  {
    EventsTell(seat, es);
    EventsTellSlot(seat, es, user, Camera);
    EventsTellSlot(seat, es, user, Screen);
  }

  lemma {:induction false} LastRight(s: State, es: seq<Event>)
    requires AlwaysRight(s, es)
    ensures TilesRight(After(s, es))
    decreases es
  {
    if es != [] {
      LastRight(Step(s, es[0]), es[1..]);
    }
  }

  /** A source is hidden exactly when it was last reported as no longer published. */
  lemma HiddenIff(seat: Seat, es: seq<Event>, key: Key)
    ensures key in After(Fresh(seat.self, seat.channel), es).hidden <==> Unpublished(seat, es, key)
  {
    EventsTell(seat, es);
  }

  /** After every run without a mismatch, told by the events alone: a participant has a stream from their first track on
      until they leave, and it holds one video track or none. That is the screen that arrived last, if it has not ended
      and is published, or else such a camera, or else nothing. */
  lemma TileShowsWhatTheEventsSay(seat: Seat, es: seq<Event>, user: int)
    requires NeverMismatched(Fresh(seat.self, seat.channel), es)
    ensures var s := After(Fresh(seat.self, seat.channel), es);
            && (user in s.remoteStreams <==> HasTile(seat, es, user))
            && (user in s.remoteStreams ==>
                  VideoIn(Tracks(s, s.remoteStreams[user])) == Members(TileTrack(seat, es, user)))
  {
    EventsTell(seat, es);
    TilesAreAlwaysRightIff(seat.self, seat.channel, es);
    LastRight(Fresh(seat.self, seat.channel), es);
    DesiredIsTileTrack(seat, es, user);
  }

  /** And in every run, the audio tracks that have arrived for the participant and not ended since as theirs. */
  lemma StreamCarriesWhatTheEventsSay(seat: Seat, es: seq<Event>, user: int, track: Track)
    requires !track.video
    ensures var s := After(Fresh(seat.self, seat.channel), es);
            user in s.remoteStreams ==> (track in Tracks(s, s.remoteStreams[user]) <==> Heard(seat, es, user, track))
  {
    EventsTellAudio(seat, es, user, track);
  }

  /** The track that arrived last for the source, if it has not ended. */
  ghost function Playing(seat: Seat, es: seq<Event>, user: int, source: Source): Option<Track> {
    var last := LastTrack(seat, es, user, source);
    if last.Some? && !EverEnded(es, last.value) then last else None
  }

  lemma LiveAfterReport(seat: Seat, es: seq<Event>, e: Event, user: int, source: Source)
    requires e.Publish? || e.Unpublish?
    ensures Live(seat, es + [e], user, source) ==
            if !Reports(seat, es, e, Key(user, source)) then Live(seat, es, user, source)
            else if e.Publish? then Playing(seat, es, user, source)
            else None
  {
    ReportKeeps(seat, es, e, user);
  }

  /** Once a source is reported as no longer published, the tile shows the other source, if that is live, or nothing. */
  lemma UnpublishedIsNotShown(seat: Seat, es: seq<Event>, user: int, source: Source)
    requires VideoSlot(source) && user != seat.self
    ensures TileTrack(seat, es + [Unpublish(ChannelOf(seat, es), user, source)], user)
         == Live(seat, es, user, if source == Camera then Screen else Camera)
  {
    var e := Unpublish(ChannelOf(seat, es), user, source);
    LiveAfterReport(seat, es, e, user, Camera);
    LiveAfterReport(seat, es, e, user, Screen);
  }

  /** Once it is published again, a track that has not ended is shown; a camera's only if no screen is live. */
  lemma PublishedIsShown(seat: Seat, es: seq<Event>, user: int, source: Source)
    requires VideoSlot(source) && user != seat.self
    ensures var shown := TileTrack(seat, es + [Publish(ChannelOf(seat, es), user, source)], user);
            var track, screen := Playing(seat, es, user, source), Live(seat, es, user, Screen);
            && (source == Camera ==> shown == if screen.Some? then screen else track)
            && (source == Screen && track.Some? ==> shown == track)
  {
    var e := Publish(ChannelOf(seat, es), user, source);
    LiveAfterReport(seat, es, e, user, Camera);
    LiveAfterReport(seat, es, e, user, Screen);
  }

  lemma ReportKeeps(seat: Seat, es: seq<Event>, e: Event, user: int)
    requires e.Publish? || e.Unpublish?
    ensures forall source :: LastTrack(seat, es + [e], user, source) == LastTrack(seat, es, user, source)
    ensures forall t :: EverEnded(es + [e], t) <==> EverEnded(es, t)
    ensures forall key :: Unpublished(seat, es + [e], key) <==>
              if Reports(seat, es, e, key) then e.Unpublish? else Unpublished(seat, es, key)
  {
    assert (es + [e])[..|es|] == es && (es + [e])[|es|] == e;
    forall t ensures EverEnded(es + [e], t) <==> EverEnded(es, t) {
      if EverEnded(es, t) {
        var x :| x in es && EndsTrack(x, t);
        assert x in es + [e];
      }
    }
  }

  // ----- Where the client does not keep tiles right -----

  /** The track is handed over to `second` and then ends. */
  function Stolen(s: State, second: int, source: Source, track: Track): State {
    TrackEnded(TrackArrived(s, second, source, track), track)
  }

  lemma ArrivalElsewhere(s: State, second: int, source: Source, track: Track, u: int)
    requires Inv(s) && second != s.self && VideoSlot(source) && track.video && u != second && u in s.remoteStreams
    ensures var r := TrackArrived(s, second, source, track);
            && u in r.remoteStreams && Desired(r, u) == Desired(s, u) && r.remoteStreams[u] == s.remoteStreams[u]
            && r.bindings[track].stream == r.remoteStreams[second] != r.remoteStreams[u]
  {
    WithStreamKeeps(s, second);
    var s1 := WithStream(s, second);
    SameDesired(WithSlot(s1, second, source, track), TrackArrived(s, second, source, track));
    assert SlotsOf(WithSlot(s1, second, source, track), u) == SlotsOf(s, u);
  }

  lemma ArrivalHere(s: State, second: int, source: Source, track: Track)
    requires second != s.self && VideoSlot(source) && track.video
    ensures var r := TrackArrived(s, second, source, track);
            && r.remoteStreams == WithStream(s, second).remoteStreams
            && r.bindings[track] == Binding(second, Some(source), r.remoteStreams[second])
  {
  }

  /** A track handed to a second participant and then ended leaves the tiles right exactly when nobody else was showing
      it. */
  lemma StolenTrackIff(s: State, second: int, source: Source, track: Track)
    requires Inv(s) && second != s.self && VideoSlot(source) && track.video
    ensures TilesRight(Stolen(s, second, source, track)) <==>
            forall u :: u in s.remoteStreams && u != second ==> Desired(s, u) != Some(track)
  {
    var r := TrackArrived(s, second, source, track);
    VideoArrivalKeeps(s, second, source, track);
    EndedIff(r, track);
    ArrivalHere(s, second, source, track);
    assert !LeavesBehind(r, track, second);
    forall u | u in s.remoteStreams && u != second
      ensures LeavesBehind(r, track, u) <==> Desired(s, u) == Some(track)
    {
      ArrivalElsewhere(s, second, source, track, u);
    }
    assert forall u :: u in r.remoteStreams ==> u == second || u in s.remoteStreams;
    assert forall u :: u in s.remoteStreams ==> u in r.remoteStreams;
  }

  // ----- What the interface shows -----

  /** The interface shows exactly the streams that are the participants' own. */
  predicate ShownRight(s: State) { s.shown == s.remoteStreams }

  /** A track ends whose handler was set up for a stream that is no longer its participant's. */
  predicate StaleEnd(s: State, e: Event) {
    && e.Ends? && e.track in s.bindings
    && var b := s.bindings[e.track];
       !(b.user in s.remoteStreams && s.remoteStreams[b.user] == b.stream)
  }

  lemma StepShowsIff(s: State, e: Event)
    requires ShownRight(s)
    ensures ShownRight(Step(s, e)) <==> !StaleEnd(s, e)
  {
  }

  ghost predicate AlwaysShown(s: State, es: seq<Event>)
    decreases es
  {
    ShownRight(s) && (es == [] || AlwaysShown(Step(s, es[0]), es[1..]))
  }

  predicate NeverStale(s: State, es: seq<Event>)
    decreases es
  {
    es == [] || (!StaleEnd(s, es[0]) && NeverStale(Step(s, es[0]), es[1..]))
  }

  lemma {:induction false} RunShowsIff(s: State, es: seq<Event>)
    requires ShownRight(s)
    ensures AlwaysShown(s, es) <==> NeverStale(s, es)
    decreases es
  {
    if es != [] {
      StepShowsIff(s, es[0]);
      if !StaleEnd(s, es[0]) {
        RunShowsIff(Step(s, es[0]), es[1..]);
      }
    }
  }

  /** In every run the interface always shows the participants' own streams, unless and only unless a track ends whose
      handler belongs to a stream its participant had before leaving or before a teardown. */
  lemma InterfaceShowsOwnStreamsIff(self: int, channel: int, es: seq<Event>)
    ensures AlwaysShown(Fresh(self, channel), es) <==> NeverStale(Fresh(self, channel), es)
  {
    RunShowsIff(Fresh(self, channel), es);
  }

  // ----- Concrete runs -----

  lemma AfterOne(s: State, e: Event)
    ensures After(s, [e]) == Step(s, e)
  {
  }

  lemma AfterMore(s: State, e: Event, rest: seq<Event>)
    ensures After(s, [e] + rest) == After(Step(s, e), rest)
  {
    assert ([e] + rest)[1..] == rest;
  }

  lemma FirstVideo(user: int, t: Track)
    requires user != 1 && t.video
    ensures var s := Step(Fresh(1, 5), Arrives(user, Camera, t));
            Inv(s) && user in s.remoteStreams && Desired(s, user) == Some(t)
  {
    FreshInv(1, 5);
    StepRightIff(Fresh(1, 5), Arrives(user, Camera, t));
  }

  /** A camera track is handed from participant 7 to participant 8 and ends: tile 7 keeps showing it. */
  lemma StolenTrackFreezesTheTile()
    ensures var t := Track(1, true);
            !TilesRight(After(Fresh(1, 5), [Arrives(7, Camera, t), Arrives(8, Camera, t), Ends(t)]))
  {
    var t := Track(1, true);
    var e1, e2, e3 := Arrives(7, Camera, t), Arrives(8, Camera, t), Ends(t);
    FirstVideo(7, t);
    var s1 := Step(Fresh(1, 5), e1);
    StolenTrackIff(s1, 8, Camera, t);
    AfterThree(Fresh(1, 5), e1, e2, e3);
  }

  lemma AfterThree(s: State, e1: Event, e2: Event, e3: Event)
    ensures After(s, [e1, e2, e3]) == Step(Step(Step(s, e1), e2), e3)
  {
    AfterOne(Step(Step(s, e1), e2), e3);
    AfterMore(Step(s, e1), e2, [e3]);
    AfterMore(s, e1, [e2, e3]);
    assert [e2] + [e3] == [e2, e3] && [e1] + [e2, e3] == [e1, e2, e3];
  }

  /** A video track announced as a microphone's is added to the tile beside what it should show. */
  lemma StrayVideoIsShown()
    ensures !TilesRight(After(Fresh(1, 5), [Arrives(7, Mic, Track(1, true))]))
  {
    FreshInv(1, 5);
    StepRightIff(Fresh(1, 5), Arrives(7, Mic, Track(1, true)));
    AfterOne(Fresh(1, 5), Arrives(7, Mic, Track(1, true)));
  }

  /** Participant 7 leaves and comes back, and then a microphone track from before ends: the interface is given the old
      stream, although every tile's own stream is right. */
  lemma OldStreamIsShownAgain()
    ensures var mic := Track(1, false);
            var s := After(Step(Fresh(1, 5), Arrives(7, Mic, mic)),
                           [Leaves(5, 7), Arrives(7, Camera, Track(2, true)), Ends(mic)]);
            TilesRight(s) && s.remoteStreams == map[7 := 1] && s.shown == map[7 := 0]
  {
    var mic, camera := Track(1, false), Track(2, true);
    var e1, e2, e3, e4 := Arrives(7, Mic, mic), Leaves(5, 7), Arrives(7, Camera, camera), Ends(mic);
    FreshInv(1, 5);
    var s1 := Step(Fresh(1, 5), e1);
    StepRightIff(Fresh(1, 5), e1);
    assert s1.remoteStreams == map[7 := 0] && s1.bindings == map[mic := Binding(7, None, 0)] && s1.nextStream == 1;
    var s2 := Step(s1, e2);
    StepRightIff(s1, e2);
    assert s2.remoteStreams == map[] && s2.shown == map[];
    BackWithCamera(s2, mic, camera);
    AfterThree(s1, e2, e3, e4);
  }

  lemma BackWithCamera(s: State, mic: Track, camera: Track)
    requires Inv(s) && s.self == 1 && s.remoteStreams == map[] && s.shown == map[] && s.nextStream == 1
    requires s.bindings == map[mic := Binding(7, None, 0)] && !mic.video && camera.video
    ensures var r := Step(Step(s, Arrives(7, Camera, camera)), Ends(mic));
            TilesRight(r) && r.remoteStreams == map[7 := 1] && r.shown == map[7 := 0]
  {
    var s1 := Step(s, Arrives(7, Camera, camera));
    StepRightIff(s, Arrives(7, Camera, camera));
    assert s1.bindings[mic] == Binding(7, None, 0);
    if Desired(s1, 7) == Some(mic) { DesiredIsHeld(s1, 7); }
    StepRightIff(s1, Ends(mic));
  }

  // ----- The client object -----

  class SfuCallClient {
    const selfUserID: int
    var currentChannelID: int
    var remoteStreams: map<int, StreamId>
    var remoteVideoTracks: map<int, Slots>
    var hiddenRemoteVideo: set<Key>

    // The browser's media streams, its ended tracks and their `onended` handlers.
    var streams: map<StreamId, set<Track>>
    var ended: set<Track>
    var onended: map<Track, Binding>
    var nextStream: StreamId
    var shown: map<int, StreamId> // what the interface shows

    ghost function View(): State
      reads this
    {
      State(currentChannelID, selfUserID, remoteStreams, streams, remoteVideoTracks, hiddenRemoteVideo, ended, onended,
            nextStream, shown)
    }

    constructor (self: int, channel: int)
      ensures View() == Fresh(self, channel)
    {
      selfUserID, currentChannelID := self, channel;
      remoteStreams, remoteVideoTracks, hiddenRemoteVideo := map[], map[], {};
      streams, ended, onended, nextStream, shown := map[], {}, map[], 0, map[];
    }

    predicate IsAvailable(user: int, source: Source, track: Option<Track>)
      reads this
    {
      track.Some? && track.value !in ended && Key(user, source) !in hiddenRemoteVideo
    }

    method ReconcileRemoteVideo(user: int, stream: StreamId)
      modifies this`streams
      ensures View() == Reconciled(old(View()), user, stream)
    {
      var slots := if user in remoteVideoTracks then remoteVideoTracks[user] else Slots(None, None);
      var desired := if IsAvailable(user, Screen, slots.screen) then slots.screen
                     else if IsAvailable(user, Camera, slots.camera) then slots.camera
                     else None;
      var tracks := if stream in streams then streams[stream] else {};
      var kept := WithVideo(tracks, desired);
      streams := streams[stream := kept];
    }

    /** Removes the other videos, then adds the desired one if it is missing. */
    static method WithVideo(tracks: set<Track>, desired: Option<Track>) returns (kept: set<Track>)
      ensures kept == AudioIn(tracks) + Members(desired)
    {
      kept := tracks;
      var todo := tracks;
      while todo != {}
        invariant todo <= kept <= tracks
        invariant forall t :: t in tracks && t !in todo ==> (t in kept <==> !t.video || Some(t) == desired)
        decreases |todo|
      {
        var track :| track in todo;
        if track.video && Some(track) != desired {
          kept := kept - {track};
        }
        todo := todo - {track};
      }
      if desired.Some? && desired.value !in kept {
        kept := kept + {desired.value};
      }
      SameMembers(kept, tracks, desired);
    }

    /** The listener the interface passed in. */
    method OnRemoteStream(user: int, stream: StreamId)
      modifies this`shown
      ensures View() == Handed(old(View()), user, stream)
    {
      shown := shown[user := stream];
    }

    method RefreshRemoteVideo(user: int)
      modifies this`streams, this`shown
      ensures View() == Refreshed(old(View()), user)
    {
      if user in remoteStreams {
        ReconcileRemoteVideo(user, remoteStreams[user]);
        OnRemoteStream(user, remoteStreams[user]);
      }
    }

    method HideRemoteVideo(user: int, source: Source)
      modifies this`hiddenRemoteVideo, this`streams, this`shown
      ensures View() == Refreshed(old(View()).(hidden := old(hiddenRemoteVideo) + {Key(user, source)}), user)
    {
      hiddenRemoteVideo := hiddenRemoteVideo + {Key(user, source)};
      RefreshRemoteVideo(user);
    }

    method ReappearRemoteVideo(user: int, source: Source)
      modifies this`hiddenRemoteVideo, this`streams, this`shown
      ensures View() == Refreshed(old(View()).(hidden := old(hiddenRemoteVideo) - {Key(user, source)}), user)
    {
      hiddenRemoteVideo := hiddenRemoteVideo - {Key(user, source)};
      RefreshRemoteVideo(user);
    }

    method HandleTrackPublished(channel: int, user: int, source: Source)
      modifies this
      ensures View() == PublishChanged(old(View()), channel, user, source, true)
    {
      if channel != currentChannelID || user == selfUserID {
        return;
      }
      if source == Screen || source == Camera {
        ReappearRemoteVideo(user, source);
      }
    }

    method HandleTrackUnpublished(channel: int, user: int, source: Source)
      modifies this
      ensures View() == PublishChanged(old(View()), channel, user, source, false)
    {
      if channel != currentChannelID || user == selfUserID {
        return;
      }
      if source == Screen || source == Camera {
        HideRemoteVideo(user, source);
      }
    }

    method StreamFor(user: int) returns (stream: StreamId)
      modifies this
      ensures View() == WithStream(old(View()), user)
      ensures user in remoteStreams && stream == remoteStreams[user]
    {
      if user !in remoteStreams {
        stream := nextStream;
        nextStream := nextStream + 1;
        streams := streams[stream := {}];
        remoteStreams := remoteStreams[user := stream];
      }
      stream := remoteStreams[user];
    }

    method HandleTrack(user: int, source: Source, track: Track)
      modifies this
      ensures View() == TrackArrived(old(View()), user, source, track)
    {
      if user == selfUserID {
        return;
      }
      var stream := StreamFor(user);
      if track.video && (source == Camera || source == Screen) {
        var slots := if user in remoteVideoTracks then remoteVideoTracks[user] else Slots(None, None);
        slots := if source == Camera then slots.(camera := Some(track)) else slots.(screen := Some(track));
        remoteVideoTracks := remoteVideoTracks[user := slots];
        onended := onended[track := Binding(user, Some(source), stream)];
        ReconcileRemoteVideo(user, stream);
        OnRemoteStream(user, stream);
        return;
      }
      var tracks := if stream in streams then streams[stream] else {};
      streams := streams[stream := tracks + {track}];
      onended := onended[track := Binding(user, None, stream)];
      OnRemoteStream(user, stream);
    }

    /** The browser ends a remote track and runs its handler, if one is set. */
    method OnTrackEnded(track: Track)
      modifies this
      ensures View() == TrackEnded(old(View()), track)
    {
      ended := ended + {track};
      if track !in onended {
        return;
      }
      var b := onended[track];
      if b.slot.None? {
        var tracks := if b.stream in streams then streams[b.stream] else {};
        streams := streams[b.stream := tracks - {track}];
        OnRemoteStream(b.user, b.stream);
        return;
      }
      if b.user in remoteVideoTracks {
        var current := remoteVideoTracks[b.user];
        if b.slot.value == Camera {
          if current.camera == Some(track) {
            remoteVideoTracks := remoteVideoTracks[b.user := current.(camera := None)];
          }
        } else if current.screen == Some(track) {
          remoteVideoTracks := remoteVideoTracks[b.user := current.(screen := None)];
        }
      }
      ReconcileRemoteVideo(b.user, b.stream);
      OnRemoteStream(b.user, b.stream);
    }

    method HandleVoiceUserLeft(channel: int, user: int)
      modifies this
      ensures View() == UserLeft(old(View()), channel, user)
    {
      if channel != currentChannelID {
        return;
      }
      remoteVideoTracks := remoteVideoTracks - {user};
      if user in remoteStreams {
        remoteStreams := remoteStreams - {user};
        shown := shown - {user};
      }
      hiddenRemoteVideo := set k | k in hiddenRemoteVideo && k.user != user;
    }

    method TeardownPeerConnection(silenced: set<Track>)
      modifies this
      ensures View() == TornDown(old(View()), silenced)
    {
      ended := ended + silenced;
      shown := shown - remoteStreams.Keys;
      remoteStreams, remoteVideoTracks, hiddenRemoteVideo := map[], map[], {};
      currentChannelID := 0;
    }
  }

  lemma SameMembers(kept: set<Track>, tracks: set<Track>, desired: Option<Track>)
    requires forall t :: t in kept ==> t in tracks || Some(t) == desired
    requires forall t :: t in tracks ==> (t in kept <==> !t.video || Some(t) == desired)
    requires desired.Some? ==> desired.value in kept
    ensures kept == AudioIn(tracks) + Members(desired)
  {
  }
}
