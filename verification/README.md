# Chat, voice and rate-limit engines: a verified model

This project models the parts of the application that are small engines with state: code that interleaves timers, replies
and user actions, or that does real counting. Each module has a specification (a state, the events that may happen and
what each does), lemmas over all runs of those events, and, where the source is an object that updates its fields, a class
whose methods are proved to take exactly the specified steps.

| module | what it models |
|---|---|
| `TokenBuckets` | the per-client rate limiter and its background sweep of idle buckets |
| `Playlists` | Fisher-Yates shuffling, and next/previous over a play order |
| `ChatSocketSpec`, `ChatSocketProofs`, `ChatSocketBackoff`, `ChatSockets` | the chat command engine: one command in flight, a queue, timeouts, late answers, reconnection with backoff |
| `SfuSubscriptions` | which simulcast quality the call client asks for |
| `SfuTiles` | which video track each participant's tile shows |
| `SfuCandidates` | buffering of ICE candidates until there is a remote description |
| `SfuRecovery` | session recovery and its generation counter |
| `MessageWindow`, `MessageWindowProofs`, `MessageWindowRuns`, `MessageWindowLoading`, `MessageWindowTexts` | a channel's loaded messages against the server's history |
| `Hysteresis`, `CounterRuns`, `ConnectionQuality` | one connection-quality sample and the level displayed over time |
| `MarkRead` | the throttle of read marks |

`Options` and `SfuTypes` hold shared datatypes.

## Reading the model

- An event handler, together with the promise continuations that run before the next event, is one atomic step. Where a
  function really suspends (`SfuCandidates`, `SfuRecovery`, fetches in `MessageWindow`, reconnect attempts in
  `ChatSocketSpec`), every await is a step boundary, and anything may happen in between.
- Browser objects are abstract state: a socket is connecting, open, closing or closed; a track is live or ended; live
  timers are a map from handle to due time, and a timer may fire at any moment from its due time on.
- Fetches of messages go through the one command queue, so they are answered in the order they were begun. The server's
  loop saves a message and then announces it, and answers pages of older messages and reloads in between; pages of newer
  messages and windows around a message are read beside the loop (internal/service/server/hub.go:839-845), so their
  reading and their arrival are two steps of their own.
- Random numbers and clocks are parameters or events. Token counts, seconds and percentages are reals; counters, ids and
  milliseconds are unbounded integers.
- What a state remembers is also told by the events alone: `TileShowsWhatTheEventsSay`, `RequestsFollowTheEvents`,
  `CandidatesReachTheirConnectionIff`, `LossStartsARunIff`, `WaitsDoubleSinceTheLastRestoration` and
  `TheHookAsksForWhatIsShown` are about functions of the event sequence, not about fields that the same handlers set.
- `View()` is the abstract state of an object. Fields marked ghost, and the `log`, `received` and `applied` histories,
  exist only to state properties over whole runs.

## Where the code does less than it seems to promise

- The limiter's sweep (internal/middleware/token_bucket.go:112-131) is invisible, and the rate is kept, only for some
  configurations; `SweepsInvisibleIff` and `RateLimitedIff` say which.
- Session recovery announces up to three attempts (frontend/src/services/sfuCallClient.ts:636-640). `rejoin` raises the
  generation in its own teardown, so a failed first attempt ends the run: `RecoveryTriesOnce`,
  `FailedRecoveryStaysReconnecting`.
- An older socket that opens or closes makes the client forget that it is connecting, so that it opens a second socket
  beside the first: `ConnectIsNotRepeatedIff`, `SecondConnection`.
- An answer without a request id can settle another command: `MisdeliveredIff`, `ReplyMisdeliveredIff`.
- A page begun while a jump is outstanding corrupts the list: `OlderPageFitsIff`, `NewerArrivesIff` and
  `PageDuringJumpBreaksTheWindow`. A message announced while an answer is on its way can be lost or listed twice:
  `MissedMessageIff`, `DuplicateIff`, `LateAnswerLosesTheTail`. The server acknowledges no deletion, and the reload that
  follows keeps the old cursors: `RollbackIff`. A failed jump can leave a channel that never loads:
  `FailedJumpStrandsIff`, `StrandedForGood`.
- A read mark is lost when it is sent on a closed socket: `HidingThePageInformsTheServerIff`. The scheduler would also lose
  a pending mark to a smaller one, but the hook never asks for that: `NothingIsLostIff`, `TheHookLosesNothing`.
- A timer that fires late lets a mark out right behind another: `UnforcedSendsAreSpacedIff`.
- A leave is undone by the reply to a rejoin that was outstanding: `LeaveIsUndoneIff`. Reconnecting can be for good:
  `ReconnectingForGoodIff`.
- Applying a session over a live one loses subscriptions: `OverlappingSessionIff`, `OverlapLosesTrack`. It can also hand
  one session's candidates to another's connection: `CandidatesReachTheirConnectionIff`, `OverlapMisdirects`.
- A video track announced under another source, or handed to a second participant, leaves a wrong tile:
  `TilesAreAlwaysRightIff`, `StolenTrackIff`. A track that ends late shows a stream from before its participant left:
  `InterfaceShowsOwnStreamsIff`.

## Model

| member | source | states |
|---|---|---|
| `TokenBuckets.RateBound` | internal/middleware/token_bucket.go:69-99 | in any stretch of any run of calls and sweeps no key is granted more than a full bucket plus what refills during the stretch |
| `TokenBuckets.RateLimitedIff` | internal/middleware/token_bucket.go:69-131 | that bound holds for every key, run and stretch if and only if the capacity is at least one token and refilling for one cleanup interval fills a bucket |
| `TokenBuckets.UnsafeSweepOvergrants` | internal/middleware/token_bucket.go:112-131 | with a slower refill there is a run whose sweep lets one key through more often than the bound |
| `TokenBuckets.TinyBucketOvergrants` | internal/middleware/token_bucket.go:80-86 | with a capacity below one token the first call alone exceeds the bound |
| `TokenBuckets.SpendingIsBounded` | internal/middleware/token_bucket.go:77-98 | the same from any state: grants never exceed the tokens the key has plus the tokens it can gain |
| `TokenBuckets.StepLevel` | internal/middleware/token_bucket.go:89-98 | every call or safe sweep changes the spendable level of every key by exactly the token it grants, and grants exactly when that level is at least one |
| `TokenBuckets.KeysAreIndependent` | internal/middleware/token_bucket.go:69-99 | whatever other clients and the sweep do, a key is answered as one private bucket that is never swept |
| `TokenBuckets.BucketIsSharedIff` | internal/middleware/token_bucket.go:70-76 | two clients share a bucket if and only if they are the same, or each is the empty one or the one named "unknown" |
| `TokenBuckets.BucketIsKeptIff` | internal/middleware/token_bucket.go:85-129 | after any events a client has a bucket, last refilled when it last called, if and only if no sweep has come later than the interval after that call |
| `TokenBuckets.SafeSweepsAreInvisible` | internal/middleware/token_bucket.go:112-131 | when an idle bucket is always a full one, deleting the sweeps from a run changes no answer |
| `TokenBuckets.UnsafeSweepShows` | internal/middleware/token_bucket.go:112-131 | when a bucket can be idle before it is full, some run is answered differently with and without its sweep |
| `TokenBuckets.TinyBucketSweepShows` | internal/middleware/token_bucket.go:80-86 | the same for a capacity below one token: the first call is always allowed, so a sweep lets another one through |
| `TokenBuckets.SweepsInvisibleIff` | internal/middleware/token_bucket.go:112-131 | sweeps are invisible in all runs if and only if the capacity is at least one token and refilling for one cleanup interval fills a bucket |
| `TokenBuckets.TokenBucket.constructor` | internal/middleware/token_bucket.go:37-53 | a new limiter has no buckets and sweeps those idle for 300 seconds |
| `TokenBuckets.TokenBucket.Allow` | internal/middleware/token_bucket.go:69-99 | the heap of shared bucket objects changes, and the answer is given, exactly as the step on key-to-bucket maps that all lemmas are about; no other bucket is touched |
| `TokenBuckets.TokenBucket.Cleanup` | internal/middleware/token_bucket.go:112-131 | one tick deletes exactly the buckets idle for longer than the interval |
| `Playlists.ShuffleTracks` | frontend/src/services/playlistService.ts:7-14 | returns a new array holding the shuffle the draws determine and leaves the input unchanged |
| `Playlists.ShuffleRearranges` | frontend/src/services/playlistService.ts:7-14 | a shuffle is a permutation of its input |
| `Playlists.DrawsAreDetermined` | frontend/src/services/playlistService.ts:9-12 | on distinct items different draws give different orders |
| `Playlists.EveryOrderIsDrawn` | frontend/src/services/playlistService.ts:9-12 | every permutation of the input comes out of some draws |
| `Playlists.ShuffleIsUnbiased` | frontend/src/services/playlistService.ts:7-14 | on distinct items an order comes out of exactly one sequence of draws with each draw in [0, i] |
| `Playlists.NextAndPreviousUndoEachOther` | frontend/src/services/playlistService.ts:17-45 | previous undoes next wherever next is not null, and next undoes previous wherever previous is not null, for every order of all indices and every loop mode |
| `Playlists.WalkFollowsTheOrder` | frontend/src/services/playlistService.ts:17-30 | k presses of next from the start of the order lead to its k-th entry, wrapping only in mode "all" |
| `Playlists.WalkWithoutShuffle` | frontend/src/services/playlistService.ts:24-29 | without a shuffle order the tracks are played in queue order, wrapping only in mode "all" |
| `Playlists.WalkWithShuffle` | frontend/src/services/playlistService.ts:24-29 | with an order of all tracks they are played in that order, and an order of another length is ignored |
| `Playlists.NextOfAnUnknownTrack` | frontend/src/services/playlistService.ts:25-45 | a current track that is not in the order is followed by its first, and preceded by its last only in mode "all"; an empty queue has neither |
| `Playlists.PlaysEveryTrackOnce` | frontend/src/services/playlistService.ts:17-30 | when not looping over all, every track is played exactly once and then playback stops |
| `Playlists.LoopsWithPeriodN` | frontend/src/services/playlistService.ts:17-30 | in mode "all" the walk has period exactly n |
| `Playlists.ShuffleOrderIsAnOrder` | frontend/src/hooks/useMediaPlayer.ts:258-267 | the order installed when shuffle is switched on starts at the current track and contains every queue index exactly once |
| `Playlists.ShuffleWithoutATrackIsIgnored` | frontend/src/hooks/useMediaPlayer.ts:258-267 | switched on while no track is current, the order is one entry too long and playback goes on in queue order |
| `ChatSocketProofs.EveryRunIsSound` | frontend/src/services/chatSocket.ts:506-591 | after any run of timers, replies, sends, drops and reconnections: accepted commands are the settled, the pending and the queued ones in submission order; the only live timers are the pending command's own and at most one reconnect timer; commands were sent in order under increasing ids; an id in an answer belongs to the command it settled; a queue on an open socket waits for a pending command; each delay lies in its backoff interval |
| `ChatSocketProofs.StepKeeps` | frontend/src/services/chatSocket.ts:506-658 | every single event keeps all of these |
| `ChatSocketProofs.SettledIsFinal` | frontend/src/services/chatSocket.ts:525-547 | a command is settled at most once and its outcome never changes |
| `ChatSocketProofs.TimeoutRejectsItsOwn` | frontend/src/services/chatSocket.ts:520-530 | the timeout callback takes whatever is pending, and that is always the command the timer was started for |
| `ChatSocketProofs.AnswerSettlesItsOwn` | frontend/src/services/chatSocket.ts:570-591 | an ack or error that carries the id of the command it answers settles that command or nothing, in every reachable state |
| `ChatSocketProofs.MisdeliveredIff` | frontend/src/services/chatSocket.ts:906-916 | an answer settles another command if and only if it carries no id and its own command is no longer the one in flight |
| `ChatSocketProofs.LateAnonymousAnswerIsMisdelivered` | frontend/src/services/chatSocket.ts:906-916 | a concrete run in which a late answer without an id resolves the next command |
| `ChatSocketProofs.ReplyMisdeliveredIff` | frontend/src/services/chatSocket.ts:781-823 | a direct-message or search reply settles another command if and only if that one is in flight and has the same action (and, for open_dm, the same peer) |
| `ChatSocketProofs.LateReplyIsMisdelivered` | frontend/src/services/chatSocket.ts:816-823 | a concrete run in which the late result of a search answers the next one |
| `ChatSocketProofs.BoundedWait` | frontend/src/services/chatSocket.ts:506-554 | while the socket stays open and timers fire on time, a command with k commands ahead of it is settled within (k+1) timeouts |
| `ChatSocketProofs.SubmittedIff` | frontend/src/services/chatSocket.ts:1487-1496 | a command submitted while the client's socket is not open changes nothing; on an open socket it is accepted, and sent at once if nothing is in flight or else queued last |
| `ChatSocketProofs.SendsNeedAnOpenSocket` | frontend/src/services/chatSocket.ts:506-508 | whatever triggers it, commands go out on an open socket only |
| `ChatSocketProofs.BackoffGrows` | frontend/src/services/chatSocket.ts:610-614 | the base delay never shrinks with the attempt and stays in [500, 15000] |
| `ChatSocketBackoff.WaitsDoubleSinceTheLastRestoration` | frontend/src/services/chatSocket.ts:605-625 | in every run, told by the events: the n-th attempt scheduled since a retried socket last opened, or a retry found one open, waits for 500 ms doubled n-1 times, at most 15 s, and less than 500 ms more; so the first one after such an opening waits for 500 ms again |
| `ChatSocketProofs.CloseIsQuiet` | frontend/src/services/chatSocket.ts:938-948 | close() leaves nothing pending, queued or scheduled, every accepted command settled, and the client's socket closing |
| `ChatSocketProofs.ClosedStaysQuiet` | frontend/src/services/chatSocket.ts:605-608 | after close() nothing is scheduled, sent or settled until connect() is called, whatever old sockets still report |
| `ChatSocketProofs.NeverStranded` | frontend/src/services/chatSocket.ts:605-658 | at most one reconnect timer is ever live, none after close(), and a closed current socket always has one |
| `ChatSocketProofs.ConnectIsNotRepeatedIff` | frontend/src/services/chatSocket.ts:627-658 | after connect() has begun a connection, connect() returns the same promise for as long as that socket is connecting, if and only if no older socket has opened or dropped since; otherwise it opens another socket beside it |
| `ChatSocketProofs.SecondConnection` | frontend/src/services/chatSocket.ts:642-654 | a concrete run in which the close event of an old socket leads to two sockets connecting at once |
| `ChatSockets.ChatSocket.FlushQueue` | frontend/src/services/chatSocket.ts:506-554 | the object takes exactly the specified step: the next command goes out under a fresh id with a timer of its own |
| `ChatSockets.ChatSocket.RejectAllPending` | frontend/src/services/chatSocket.ts:556-568 | rejects the pending and then every queued command, in order |
| `ChatSockets.ChatSocket.HandleSocketError` | frontend/src/services/chatSocket.ts:570-591 | ignores an error for an abandoned command, otherwise rejects the pending one and sends the next |
| `ChatSockets.ChatSocket.OnMessage` | frontend/src/services/chatSocket.ts:781-923 | acks, errors and direct-message replies change the object as the specified step does |
| `ChatSockets.ChatSocket.SendCommand` | frontend/src/services/chatSocket.ts:1487-1496 | refuses while the socket is not open, otherwise queues and flushes |
| `ChatSockets.ChatSocket.CommandTimerFired` | frontend/src/services/chatSocket.ts:520-530 | the timeout callback |
| `ChatSockets.ChatSocket.ScheduleReconnect` | frontend/src/services/chatSocket.ts:605-625 | schedules at most one attempt, with the backoff delay |
| `ChatSockets.ChatSocket.ReconnectTimerFired` | frontend/src/services/chatSocket.ts:616-624 | the reconnect callback connects and awaits the outcome |
| `ChatSockets.ChatSocket.Connect` | frontend/src/services/chatSocket.ts:627-658 | an open or connecting client is left alone, otherwise a new socket replaces the old one |
| `ChatSockets.ChatSocket.OnOpen` | frontend/src/services/chatSocket.ts:642-646 | an opened socket flushes the queue and resolves the attempt that awaited it |
| `ChatSockets.ChatSocket.OnDropped` | frontend/src/services/chatSocket.ts:647-658 | a failed or closed socket rejects every command and schedules a reconnect unless the user closed |
| `ChatSockets.ChatSocket.Close` | frontend/src/services/chatSocket.ts:938-948 | cancels the reconnect, rejects every command and abandons the socket |
| `SfuSubscriptions.QualityFollowsSpeakersIff` | frontend/src/services/sfuCallClient.ts:744-806 | in every run, overlapping joins included: each subscribed source was last asked for, in the current session, at "high" exactly when it is no camera or its user is an active speaker, pending and subscribed keys are disjoint, without a session nothing is subscribed, and pending keys have a flush scheduled; all of this always, if and only if no session is ever applied while the one before has subscriptions |
| `SfuSubscriptions.StepKeeps` | frontend/src/services/sfuCallClient.ts:688-806 | one event keeps this if and only if it is not such an overlap |
| `SfuSubscriptions.EventsTell` | frontend/src/services/sfuCallClient.ts:688-806 | after any events: the sources subscribed or waiting are those published to the channel by another user who has not left since and for which subscribing has not failed since; those waiting are the ones the debounce timer has not fired for; the speakers are those of the last report for the channel; and the timer runs exactly since a source began to wait |
| `SfuSubscriptions.RequestsFollowTheEvents` | frontend/src/services/sfuCallClient.ts:688-806 | in every run without such overlaps: a source wanted by the events and no longer waiting was asked for in the current session, a camera last at "high" exactly if its user is among the last reported speakers, anything else at "high" |
| `SfuSubscriptions.AffectedIff` | frontend/src/services/sfuCallClient.ts:779-786 | asking again concerns exactly the users who began or stopped speaking |
| `SfuSubscriptions.ReturningUserIsRequeued` | frontend/src/services/sfuCallClient.ts:919-936 | a user who left is subscribed to again when their track is published again |
| `SfuSubscriptions.OverlappingSessionIff` | frontend/src/services/sfuCallClient.ts:315-339 | applying a new session over a live one keeps the requests in step if and only if nothing is subscribed |
| `SfuSubscriptions.OverlapLosesTrack` | frontend/src/services/sfuCallClient.ts:315-339 | a concrete run in which a camera subscribed in one session is never asked for in the session that replaces it |
| `SfuSubscriptions.SfuCallClient.HandleTrackPublished` | frontend/src/services/sfuCallClient.ts:688-714 | queues an unsubscribed remote video source and starts the debounce timer |
| `SfuSubscriptions.SfuCallClient.FlushPendingSubscriptions` | frontend/src/services/sfuCallClient.ts:744-760 | subscribes every pending source at its present quality, or forgets them without a session |
| `SfuSubscriptions.SfuCallClient.HandleActiveSpeakers` | frontend/src/services/sfuCallClient.ts:773-806 | asks again for exactly the subscribed cameras whose user started or stopped speaking |
| `SfuSubscriptions.SfuCallClient.HandleVoiceUserLeft` | frontend/src/services/sfuCallClient.ts:908-942 | forgets exactly the leaving user's sources |
| `SfuSubscriptions.SfuCallClient.TeardownPeerConnection` | frontend/src/services/sfuCallClient.ts:982-1010 | clears subscriptions, pending keys, speakers and the timer |
| `SfuTiles.TilesAreAlwaysRightIff` | frontend/src/services/sfuCallClient.ts:436-551 | in every run of arrivals, publications, endings, leaves and teardowns, every tile's stream always holds as its video exactly the live unhidden screen, else the live unhidden camera, else nothing, if and only if no video track arrives that is neither camera nor screen and not the one shown, and no track ends while a tile shows it whose stream its handler was not last set up for |
| `SfuTiles.StepRightIff` | frontend/src/services/sfuCallClient.ts:436-551 | one event leaves the tiles right if and only if it is no such mismatch |
| `SfuTiles.TileShowsWhatTheEventsSay` | frontend/src/services/sfuCallClient.ts:436-551 | after every run without a mismatch, told by the events alone: a participant has a stream from their first track until they leave, and its video is the screen track that arrived last, if it has not ended and was not last reported as unpublished, or else such a camera track, or else none |
| `SfuTiles.StreamCarriesWhatTheEventsSay` | frontend/src/services/sfuCallClient.ts:486-501 | after every run its audio tracks are those that have arrived for the participant and not ended since as theirs |
| `SfuTiles.HiddenIff` | frontend/src/services/sfuCallClient.ts:688-729 | a source is hidden if and only if the last report about it in the channel, since its participant last left and since the last teardown, was that it is no longer published |
| `SfuTiles.UnpublishedIsNotShown` | frontend/src/services/sfuCallClient.ts:722-729 | once a source is reported as no longer published the tile shows the other source, if that is live, or nothing |
| `SfuTiles.PublishedIsShown` | frontend/src/services/sfuCallClient.ts:693-702 | once it is published again a camera that has not ended is shown unless a screen is live, and a screen that has not ended in any case |
| `SfuTiles.ArrivalIff` | frontend/src/services/sfuCallClient.ts:461-500 | a track's arrival does, unless and only unless it is a video track that is neither camera nor screen and is not the one shown |
| `SfuTiles.EndedTileIff` | frontend/src/services/sfuCallClient.ts:472-498 | when a track ends, a tile stays right if and only if it was not showing that track or the track's handler puts it right |
| `SfuTiles.StolenTrackIff` | frontend/src/services/sfuCallClient.ts:472-479 | a track handed to a second participant and then ended leaves the tiles right if and only if nobody else was showing it |
| `SfuTiles.StolenTrackFreezesTheTile` | frontend/src/services/sfuCallClient.ts:472-479 | a concrete run in which that leaves a tile with an ended track |
| `SfuTiles.StrayVideoIsShown` | frontend/src/services/sfuCallClient.ts:486-491 | a concrete run in which a video track announced as a microphone's is shown beside what it should be |
| `SfuTiles.InterfaceShowsOwnStreamsIff` | frontend/src/services/sfuCallClient.ts:472-498 | in every run the interface has always been given the participants' present streams, if and only if no track ends whose handler was set up for a stream its participant no longer has |
| `SfuTiles.OldStreamIsShownAgain` | frontend/src/services/sfuCallClient.ts:492-498 | a concrete run: a microphone track from before a participant left ends after they are back, and the interface is given the old stream |
| `SfuTiles.AudioIsUntouched` | frontend/src/services/sfuCallClient.ts:507-526 | no event but an audio track's own arrival or end changes the audio tracks of any stream |
| `SfuTiles.SfuCallClient.ReconcileRemoteVideo` | frontend/src/services/sfuCallClient.ts:507-526 | removes every other video track and adds the desired one, keeping the audio tracks |
| `SfuTiles.SfuCallClient.HideRemoteVideo` | frontend/src/services/sfuCallClient.ts:531-534 | hides one source and reconciles that user's tile |
| `SfuTiles.SfuCallClient.ReappearRemoteVideo` | frontend/src/services/sfuCallClient.ts:538-541 | shows one source again and reconciles that user's tile |
| `SfuTiles.SfuCallClient.HandleTrack` | frontend/src/services/sfuCallClient.ts:436-501 | takes the track into its slot or into the stream, with the right `onended` handler |
| `SfuTiles.SfuCallClient.OnTrackEnded` | frontend/src/services/sfuCallClient.ts:472-498 | runs the handler the track was last given |
| `SfuTiles.SfuCallClient.HandleVoiceUserLeft` | frontend/src/services/sfuCallClient.ts:908-942 | forgets exactly the leaving user's tile |
| `SfuCandidates.CandidatesReachTheirConnectionIff` | frontend/src/services/sfuCallClient.ts:553-605 | after any run, overlapping joins included, every candidate applied went to its own session's connection if and only if no remote description ever settled on the live connection while candidates of another session were buffered; and then, too, the candidates applied, then in hand, then buffered are exactly those of the live session's signals whose tasks have started since it was opened, in their order, and none is buffered once there is a remote description |
| `SfuCandidates.MisdirectedNow` | frontend/src/services/sfuCallClient.ts:564-570 | when such a description settles, the first candidate of the other session goes to the live connection at once |
| `SfuCandidates.WithoutOverlapsNothingIsMisdirected` | frontend/src/services/sfuCallClient.ts:315-346 | that needs a session opened while another's candidates are buffered |
| `SfuCandidates.OverlapMisdirects` | frontend/src/services/sfuCallClient.ts:315-346 | a concrete run in which the second session's connection is given the first session's candidate |
| `SfuCandidates.StepKeeps` | frontend/src/services/sfuCallClient.ts:553-605 | every other step between two awaits, teardown and overlaps included, keeps the facts behind this |
| `SfuCandidates.CandidateTask` | frontend/src/services/sfuCallClient.ts:572-590 | the task of a live session's candidate hands it to the connection that has a remote description, or else buffers it last; the task of any other candidate does nothing |
| `SfuCandidates.DescriptionTask` | frontend/src/services/sfuCallClient.ts:557-605 | the live session's description, once set, makes its connection take candidates, and everything buffered is applied in order before the next task; one that fails leaves everything as it was |
| `SfuCandidates.LoopFinishes` | frontend/src/services/sfuCallClient.ts:592-605 | the loop hands over one candidate per settled call, in order, and then the task is over |
| `SfuCandidates.SfuCallClient.RunNextTask` | frontend/src/services/sfuCallClient.ts:553-575 | the next signal is handled up to its first await |
| `SfuCandidates.SfuCallClient.HandleServerCandidate` | frontend/src/services/sfuCallClient.ts:572-590 | buffers or hands over a candidate of the current session |
| `SfuCandidates.SfuCallClient.OnRemoteDescriptionSettled` | frontend/src/services/sfuCallClient.ts:557-570 | the description takes effect on the connection it was set on, then the buffer is flushed |
| `SfuCandidates.SfuCallClient.FlushPendingCandidates` | frontend/src/services/sfuCallClient.ts:592-605 | takes the whole buffer and starts handing it over |
| `SfuCandidates.SfuCallClient.OnAddSettled` | frontend/src/services/sfuCallClient.ts:598-604 | hands over the next candidate to the connection the client has now |
| `SfuRecovery.OneRunPerSession` | frontend/src/services/sfuCallClient.ts:628-634 | at most one recovery run starts between two session establishments |
| `SfuRecovery.LossStartsARunIff` | frontend/src/services/sfuCallClient.ts:628-648 | in every run a loss starts a recovery run, for the current channel, if and only if there is a channel and no loss has been reported in one since a session was last resumed or joined; on an open socket it begins in its backoff with the user shown "reconnecting" |
| `SfuRecovery.NextLossIsRecovered` | frontend/src/services/sfuCallClient.ts:293-321 | once a session is resumed or joined again, the next loss on an open socket is recovered from, however many there were before |
| `SfuRecovery.RejoinResumesIff` | frontend/src/services/sfuCallClient.ts:280-310 | a rejoin of the client's own channel keeps its session and asks to resume it, of another channel or without a session it tears down and joins, of no channel it does nothing |
| `SfuRecovery.RunRejoinsIff` | frontend/src/services/sfuCallClient.ts:650-674 | a run rejoins its channel exactly when it wakes up on an open socket and nothing has torn the session down since it started |
| `SfuRecovery.JoinIsAnsweredOnce` | frontend/src/services/sfuCallClient.ts:309-311 | a rejoin's join is answered once, and after a success only its peer connection is waited for |
| `SfuRecovery.AttemptsOfACurrentRun` | frontend/src/services/sfuCallClient.ts:650-686 | had rejoining not made the run stale, it would be tried three times, and then the call would be reported lost and left |
| `SfuRecovery.RecoveryTriesOnce` | frontend/src/services/sfuCallClient.ts:641-686 | a run calls rejoin at most once and never leaves: when rejoin throws, its own teardown has already made the run stale, so later attempts and the "lost" status are unreachable |
| `SfuRecovery.StaleRunIsSilent` | frontend/src/services/sfuCallClient.ts:655-659 | a run whose captured generation has passed never calls rejoin or leave again |
| `SfuRecovery.LeaveIsUndoneIff` | frontend/src/services/sfuCallClient.ts:280-339 | after a leave some continuation without a new join is back in a call if and only if, at the leave, a rejoin was awaiting its resume or its join reply |
| `SfuRecovery.LeaveIsUndone` | frontend/src/services/sfuCallClient.ts:309-328 | a concrete run in which it happens |
| `SfuRecovery.ReconnectingForGoodIff` | frontend/src/services/sfuCallClient.ts:641-686 | in every run that ends with the user shown "reconnecting", the call can come back without a new join if and only if a rejoin awaits its resume or join reply or a run that is not stale is in its backoff; otherwise "reconnecting" stays |
| `SfuRecovery.FailedRecoveryStaysReconnecting` | frontend/src/services/sfuCallClient.ts:646-686 | a concrete run that ends with the user shown "reconnecting", no session, and nothing left in progress |
| `SfuRecovery.StepKeeps` | frontend/src/services/sfuCallClient.ts:280-339 | every step between two awaits keeps the facts behind these |
| `SfuRecovery.SfuCallClient.HandleSessionLost` | frontend/src/services/sfuCallClient.ts:628-648 | starts at most one run, and only for a current channel |
| `SfuRecovery.SfuCallClient.Rejoin` | frontend/src/services/sfuCallClient.ts:280-310 | resumes the same channel's session or tears down and joins |
| `SfuRecovery.SfuCallClient.OnBackoffElapsed` | frontend/src/services/sfuCallClient.ts:650-674 | a stale run or a closed socket ends the run, otherwise it rejoins |
| `SfuRecovery.SfuCallClient.OnJoinReply` | frontend/src/services/sfuCallClient.ts:309-339 | a join reply establishes the session; its failure returns to the run |
| `MessageWindowProofs.WindowIsAlwaysHonestIff` | frontend/src/hooks/useMessages.ts:53-345 | over any history and any run of saves, announcements, edits, deletions, requests, readings, arrivals, failures and rollbacks, the list is at every moment a gap-free segment of the history with the server's texts, has every announced message unless more newer ones are flagged, starts at the beginning unless more older ones are flagged, and has true cursors, if and only if no event is a race: a page that arrives at another place than the end it is put to, an answer some of whose messages have been deleted or edited since it was read or that misses what was announced since, an announcement of a message an answer has brought already, or a rollback of a list that did not reach equally far |
| `MessageWindowProofs.StepHonestIff` | frontend/src/hooks/useMessages.ts:53-374 | from an honest state one event leaves the list honest if and only if it is not a race |
| `MessageWindowProofs.OlderPageFitsIff` | frontend/src/hooks/useMessages.ts:209-223 | an older page leaves the list honest if and only if it was asked for at the list's present start |
| `MessageWindowProofs.NewerArrivesIff` | frontend/src/hooks/useMessages.ts:297-310 | a newer page does if and only if it is not outdated and starts where the list ends; an empty one, if and only if nothing announced is missing |
| `MessageWindowProofs.JumpArrivesIff` | frontend/src/hooks/useMessages.ts:254-272 | a window around a message does if and only if none of its messages has been deleted or edited since it was read, and none announced since is missing |
| `MessageWindowProofs.AnnouncedIff` | frontend/src/hooks/useMessages.ts:53-66 | an announced message leaves the list honest, appended unless more newer ones are flagged, if and only if it is not listed already |
| `MessageWindowProofs.RollbackIff` | frontend/src/hooks/useMessages.ts:379-392 | the reload after an unacknowledged deletion, which keeps the cursors, leaves the list honest if and only if the list reached back as far as the reload does, and to the tail if it was flagged as not reaching it |
| `MessageWindowProofs.EditWindow` | frontend/src/hooks/useMessages.ts:113-138 | an edit changes the message and every quote of it as the server does |
| `MessageWindowProofs.DeleteWindow` | frontend/src/hooks/useMessages.ts:362-374 | a deletion leaves the segment without that message, with true ends |
| `MessageWindowTexts.ListShowsTheLastTexts` | frontend/src/hooks/useMessages.ts:113-138 | after every run without a race a listed message is one that was saved and not deleted, and shows the text it was last given, by its last edit or when saved; what it quotes shows the text last given to that, or is gone |
| `MessageWindowTexts.EventsTellQuotes` | internal/storage/postgresql/websocket.go:934-972 | every message the server holds quotes, if anything, a message that it holds, with the text last given to it |
| `MessageWindowTexts.EditIs` | frontend/src/hooks/useMessages.ts:120-132 | an edit changes the text of that message and of every quote of it by another, and nothing else |
| `MessageWindowProofs.ServedNewerSound` | internal/storage/postgresql/websocket.go:533-594 | a forward page holds exactly the messages between its bounds, and says truly whether more follow |
| `MessageWindowProofs.ServedJumpSound` | internal/storage/postgresql/websocket.go:601-728 | the two halves around a message are one piece of the history with true cursors |
| `MessageWindowProofs.NothingMoreMeansEverything` | frontend/src/hooks/useMessages.ts:160-168 | when neither end has more, the list shows the history from its first message to everything announced |
| `MessageWindowLoading.LoadingEndsWithItsFetch` | frontend/src/hooks/useMessages.ts:204-229 | in every run a channel that is loading older or newer messages has a fetch of them on its way, so no answer or failure leaves it loading for good |
| `MessageWindowLoading.LoadingIffOutstanding` | frontend/src/hooks/useMessages.ts:191-316 | when no page is begun beside a jump, a reset, a rollback or an initial load, it is loading exactly while that fetch is on its way |
| `MessageWindowLoading.RestingCanLoad` | frontend/src/hooks/useMessages.ts:195-199 | with nothing on its way a list that does not begin at the start of the history can load an older page, and one that lacks newer messages a newer page |
| `MessageWindowLoading.OlderPageLoads` | frontend/src/hooks/useMessages.ts:204-223 | one page back extends the list by exactly as much as a page holds |
| `MessageWindowLoading.NewerPageLoads` | frontend/src/hooks/useMessages.ts:287-310 | one page forward does the same at the other end and says truly whether more is to come |
| `MessageWindowLoading.PagingShowsEverything` | frontend/src/hooks/useMessages.ts:191-316 | after every run without a race, once nothing is on its way: paging back reaches the start of the history in as many pages as its messages need, paging forward reaches its end, and then the list shows all of it |
| `MessageWindowLoading.InitialLoadMayBeginIff` | frontend/src/hooks/useMessages.ts:148-168 | the initial load may begin until one has been answered or a jump has been asked for, and never after |
| `MessageWindowLoading.ErrorIsShownIff` | frontend/src/hooks/useMessages.ts:204-228 | the error is shown exactly while the last page of older messages failed and none has been begun or answered and no list loaded since |
| `MessageWindowRuns.OrderlyWindowIsHonestIff` | frontend/src/hooks/useMessages.ts:191-345 | when no page is begun while a jump, a reset, a rollback or an initial load is outstanding, the list is always honest if and only if no answer arrives outdated, no rollback replaces a list that did not reach equally far, and no listed message is announced |
| `MessageWindowRuns.CalmWindowIsHonest` | frontend/src/hooks/useMessages.ts:191-345 | such runs are always honest when every answer is read between announcements and arrives before anything else is announced, edited or deleted, and nothing is rolled back |
| `MessageWindowRuns.MissedMessageIff` | internal/service/server/hub.go:843-845 | when a message is announced between the reading of a newer page or a window and its arrival, the list stays honest if and only if the answer says that more is to come |
| `MessageWindowRuns.DuplicateIff` | internal/service/server/hub.go:1550-1607 | when such an answer is read and delivered between the saving of a message and its announcement, the list is honest afterwards if and only if the answer says that more is to come |
| `MessageWindowRuns.EditedMeanwhileIff` | frontend/src/hooks/useMessages.ts:113-138 | when a message is edited between the reading of such an answer and its arrival, the list stays honest if and only if the edit changes none of the answer's messages or quotes |
| `MessageWindowRuns.DeletedMeanwhileIff` | frontend/src/hooks/useMessages.ts:362-374 | when one is deleted in between, if and only if the answer does not hold it |
| `MessageWindowRuns.EarlyAnswerDuplicates` | internal/service/server/hub.go:1550-1607 | a concrete run: a message saved before and announced after the last page arrives is listed twice |
| `MessageWindowRuns.RollbackBreaksTheWindow` | frontend/src/hooks/useMessages.ts:379-392 | a concrete run: a rollback in a window opened by a jump leaves the tail flagged as having more after it |
| `MessageWindowRuns.FirstJumpStrands` | frontend/src/hooks/useMessages.ts:246-277 | a concrete run: a jump that is the first thing asked of a channel fails and strands it |
| `MessageWindowRuns.LateAnswerLosesTheTail` | internal/service/server/hub.go:843-845 | a concrete run: a message announced while the last page is on its way is never listed, and nothing more is flagged |
| `MessageWindowRuns.PageDuringJumpBreaksTheWindow` | frontend/src/hooks/useMessages.ts:191-272 | a concrete run: a page begun while a jump is outstanding is answered after it and spliced onto the wrong window |
| `MessageWindowRuns.FailedJumpStrandsIff` | frontend/src/hooks/useMessages.ts:246-277 | when a jump fails, normal loading survives if and only if another fetch is outstanding or an older or newer page can be asked for; the channel is stranded if and only if nothing is outstanding and no window was ever loaded |
| `MessageWindowRuns.StrandedForGood` | frontend/src/hooks/useMessages.ts:148-151 | a stranded channel stays so in every run without another jump, reset or rollback: nothing else can be begun, and only messages announced since are ever added |
| `MessageWindow.UseMessages.OnMessage` | frontend/src/hooks/useMessages.ts:53-66 | updates one channel as specified and no other |
| `MessageWindow.UseMessages.OnRollback` | frontend/src/hooks/useMessages.ts:384-388 | replaces one channel's list and leaves its cursors and every other channel alone |
| `MessageWindow.UseMessages.OnMessageEdited` | frontend/src/hooks/useMessages.ts:113-138 | patches the message and every quote of it in one channel and changes no other |
| `MessageWindow.UseMessages.LoadOlderMessages` | frontend/src/hooks/useMessages.ts:191-207 | the guards and the cursor of the request |
| `MessageWindow.UseMessages.OnOlderMessages` | frontend/src/hooks/useMessages.ts:209-229 | the answer or its failure |
| `MessageWindow.UseMessages.JumpToMessage` | frontend/src/hooks/useMessages.ts:238-254 | the guards, and the channel marked loaded before the answer |
| `MessageWindow.UseMessages.LoadNewerMessages` | frontend/src/hooks/useMessages.ts:280-295 | the guards and the cursor of the request |
| `MessageWindow.UseMessages.OnNewerMessages` | frontend/src/hooks/useMessages.ts:297-316 | the answer or its failure |
| `Hysteresis.TrackerRefinesHistory` | frontend/src/services/connectionQuality.ts:287-322 | the tracker with its pending level and count shows exactly what the history of samples determines |
| `Hysteresis.NeverBetterThanLatest` | frontend/src/services/connectionQuality.ts:287-303 | the level shown is never better than the latest measured sample, and connection states are shown as they are |
| `Hysteresis.WorseningShowsAtOnce` | frontend/src/services/connectionQuality.ts:298-303 | a sample that is no better is shown at once |
| `Hysteresis.SteadySamplesShow` | frontend/src/services/connectionQuality.ts:314-319 | enough equal samples are shown whatever came before |
| `Hysteresis.ImprovementNeedsSteadySamples` | frontend/src/services/connectionQuality.ts:305-319 | the display improves only to a level that the last RECOVERY_SAMPLES samples all measured |
| `Hysteresis.ImprovementsAreApart` | frontend/src/services/connectionQuality.ts:305-319 | two improvements are at least RECOVERY_SAMPLES samples apart |
| `ConnectionQuality.InboundLossIsAPercentage` | frontend/src/services/connectionQuality.ts:194-209 | an inbound loss figure exists exactly for a known stream with at least 20 packets in the window, lies in [0, 100] and is the share of lost packets |
| `ConnectionQuality.OutboundLossIsAPercentageIff` | frontend/src/services/connectionQuality.ts:218-236 | an outbound figure taken from counters lies in [0, 100] and is the capped share of lost packets; one taken from the remote side's report is a percentage if and only if that report is a fraction |
| `ConnectionQuality.OrderDoesNotMatter` | frontend/src/services/connectionQuality.ts:182-250 | two orders of the same report give the same loss and jitter figures and the same counters for the next window |
| `ConnectionQuality.JittersAreMilliseconds` | frontend/src/services/connectionQuality.ts:211-241 | the jitter figures are a thousand times the seconds that the entries report |
| `ConnectionQuality.RttIsMilliseconds` | frontend/src/services/connectionQuality.ts:243-247 | the round-trip time is the selected pair's, or else a thousand times the seconds of the first remote entry that has one |
| `ConnectionQuality.BottleneckIs` | frontend/src/services/connectionQuality.ts:255-269 | the thresholds in numbers: 200 and 400 ms of round trip, 2 and 8 percent of loss, 30 and 80 ms of jitter |
| `ConnectionQuality.InCountersAre` | frontend/src/services/connectionQuality.ts:190-196 | the counters of an inbound stream are what it reports received and lost, nothing when absent and never a negative loss |
| `ConnectionQuality.OutCountersAre` | frontend/src/services/connectionQuality.ts:218-226 | those of an outbound stream are what the remote entry reports lost and what the outbound entry it names has sent, 0 if there is none |
| `CounterRuns.CountedAccounts` | frontend/src/services/connectionQuality.ts:197-209 | what window deltas add up to is the counter's growth, plus what resets took back, less what it moved while its stream was absent; so a stream never absent in between counts exactly its growth if and only if it never goes back, and one that never goes back if and only if it stands still whenever it is absent |
| `ConnectionQuality.WindowsSumToGrowthIff` | frontend/src/services/connectionQuality.ts:187-209 | that holds for the packets received and lost of every inbound stream over any run of whole reports, each window taken against the counters kept from the report before |
| `ConnectionQuality.OutboundWindowsSumToGrowthIff` | frontend/src/services/connectionQuality.ts:218-229 | and for the packets lost and sent of every outbound stream |
| `ConnectionQuality.DirectionIsTheWorseSide` | frontend/src/services/connectionQuality.ts:272-281 | the direction names a side exactly when that side is strictly worse, no figure counting as good |
| `ConnectionQuality.WorstLevel` | frontend/src/services/connectionQuality.ts:101-110 | the worst of the levels given, and none only when there is none |
| `ConnectionQuality.QualityTracker.ApplyHysteresis` | frontend/src/services/connectionQuality.ts:287-322 | the object takes the step the history lemmas are about |
| `ConnectionQuality.QualityTracker.PacketsSent` | frontend/src/services/connectionQuality.ts:177-185 | the packets sent per outbound stream |
| `ConnectionQuality.QualityTracker.ReadStats` | frontend/src/services/connectionQuality.ts:187-250 | after the loop each figure is the maximum over the streams of the report, and the counters remembered are the report's own |
| `ConnectionQuality.QualityTracker.ReadQualitySample` | frontend/src/services/connectionQuality.ts:163-270 | worst figure of every metric, counters kept for the next window, the level by the bottleneck principle and the worse direction |
| `ConnectionQuality.QualityTracker.Judge` | frontend/src/services/connectionQuality.ts:255-269 | any metric at its bad threshold makes the sample bad, any at its medium threshold makes it medium, and no metric is no measurement |
| `MarkRead.MarksGoForward` | frontend/src/hooks/useUnread.ts:47-103 | in every run the ids sent for a channel strictly increase, and every pending id is newer than all of them and has a live timer of its own, due within the throttle |
| `MarkRead.StepKeeps` | frontend/src/hooks/useUnread.ts:47-103 | every event keeps this |
| `MarkRead.FlushAllEmpties` | frontend/src/hooks/useUnread.ts:72-75 | flushing the channels that have a timer leaves nothing pending and no timer anywhere, and sends the id each channel had reached |
| `MarkRead.NothingIsLostIff` | frontend/src/hooks/useUnread.ts:77-81 | the newest mark asked for is always the one sent last or pending, if and only if no mark falls between the last sent id and a pending one |
| `MarkRead.AscendingMarksAreKept` | frontend/src/hooks/useUnread.ts:77-81 | marks that never go back per channel are never lost |
| `MarkRead.TheHookLosesNothing` | frontend/src/hooks/useUnread.ts:143-154 | the hook's two callers of markChannelRead never lose a mark, as long as live messages arrive in order |
| `MarkRead.TheHookAsksForWhatIsShown` | frontend/src/hooks/useUnread.ts:142-203 | in every run the hook knows the newest id it has seen of each channel and has asked for exactly the newest one shown to the user: in another's message on the open channel of a visible page, or, when the open channel is looked at, of everything seen |
| `MarkRead.BackwardMarkLosesTheNewer` | frontend/src/hooks/useUnread.ts:77-81 | what the scheduler alone would do with a smaller mark: it replaces a pending newer one, which is then never sent; the hook's callers never ask for that |
| `MarkRead.UnforcedSendsAreSpacedIff` | frontend/src/hooks/useUnread.ts:77-103 | every send that no flush asked for comes at least 2000 ms after every earlier send of its channel, if and only if no timer ever fires for a pending id within 2000 ms of its channel's last send |
| `MarkRead.UnforcedSendsAreSpaced` | frontend/src/hooks/useUnread.ts:77-103 | which holds when due timers fire before marks are handled |
| `MarkRead.LateTimerBreaksTheThrottle` | frontend/src/hooks/useUnread.ts:90-101 | a concrete run in which a late timer sends right behind an immediate send |
| `MarkRead.HidingThePageInformsTheServerIff` | frontend/src/hooks/useUnread.ts:72-75 | after a run that lost nothing, flushing on an open socket brings the server to a channel's newest mark if and only if that mark was pending or had been sent on an open socket |
| `MarkRead.UndeliveredMarkIsNotRetried` | frontend/src/services/chatSocket.ts:1474-1477 | a mark sent while the socket is closed is remembered as sent: asking again after reconnecting sends nothing |
| `MarkRead.MarkIsLostOnAClosedSocket` | frontend/src/hooks/useUnread.ts:47-61 | a concrete run: a mark is sent into a closed socket, and asking for it again after the reconnection does nothing |
| `MarkRead.UseUnread.SendNow` | frontend/src/hooks/useUnread.ts:47-61 | sends the pending id unless it is not newer, and forgets it |
| `MarkRead.UseUnread.FlushChannel` | frontend/src/hooks/useUnread.ts:63-70 | cancels the channel's timer and sends at once |
| `MarkRead.UseUnread.FlushAll` | frontend/src/hooks/useUnread.ts:72-75 | flushes every channel with a timer; in reachable states nothing is left pending |
| `MarkRead.UseUnread.ScheduleSend` | frontend/src/hooks/useUnread.ts:77-103 | sends at once, joins the running timer or starts one |
| `MarkRead.UseUnread.MarkChannelRead` | frontend/src/hooks/useUnread.ts:105-111 | ignores ids and channels that are not positive |
| `MarkRead.UseUnread.OnMessage` | frontend/src/hooks/useUnread.ts:143-155 | remembers the newest id and marks a message read that is shown at once |
| `MarkRead.UseUnread.OnLook` | frontend/src/hooks/useUnread.ts:187-203 | marks the newest id seen or loaded |
| `MarkRead.UseUnread.OnTimer` | frontend/src/hooks/useUnread.ts:96-100 | the timer callback |

## Left out

- RateBound: assumes that an idle bucket is a full one; RateLimitedIff says that the bound fails without that.
- UnforcedSendsAreSpaced: assumes due timers fire before marks are handled; UnforcedSendsAreSpacedIff has the exact condition.
- TheHookLosesNothing: assumes that live messages of a channel arrive in the order of their ids, which the server's loop provides; NothingIsLostIff has the exact condition.
- CalmWindowIsHonest: assumes that answers arrive undisturbed; OrderlyWindowIsHonestIff and WindowIsAlwaysHonestIff have the exact conditions.
- BoundedWait: assumes, as the property does, that the socket stays open and that timers fire on time.
- OrderDoesNotMatter: says nothing about the round-trip time, which is the first one found and does depend on the order of a report.
- ShuffleIsUnbiased: states the one-to-one correspondence between draws and orders; probabilities and the quality of the random source are not modelled.
- EveryRunIsSound: replies that carry no request id at all (direct-message list, close, open and user search) are modelled by the action they match, so the statement about ids does not cover them; ReplyMisdeliveredIff does.
- The four parts of the call client are four classes, each with the fields its part uses; the participants map, local capture, screen sharing and camera switching are not modelled.
- Listeners, JSON parsing and validation, error texts shown to the user, and re-entrant calls made from listeners.
- Sockets, peer connections, media streams and timers of the browser beyond the abstract state described above; a media stream is an identifier with a set of tracks.
- The order of iteration over sets and maps: the loops pick elements in any order; only the flush of all read marks takes its order as a parameter.
- Floating-point rounding in the limiter and in the loss percentages.
- The choice of the selected candidate pair's round-trip time; it is a parameter of a sample.
- The developers' forced quality level, which overwrites the displayed level without clearing the pending count.
- Messages are ordered by one ascending id; the server orders by creation time and then id, and assigns both in step.
- An edit or a deletion takes effect in the database and at the clients in one step, between announcements, as the server's loop does them.
- Late answers to a fetch that has timed out are ignored; answers to page requests of older messages carry no request id, so that MisdeliveredIff applies to them.
- DeleteWindow: a deletion takes effect at the server and in the list in one step; the moment between the local removal and the server's, and a deletion the server refuses, are not modelled, only the rollback that follows.
- Deletions by other users, which the server does not announce, so that a client lists the message until it reloads.
- Messages missed during a disconnect, embeds and edit times, and React's delay between a state update and its reference copy.
- The initial load carries no page limits beyond 100, 50 and 25, the ones the client asks for; the server's clamping of other limits is not modelled.
- Unread counters, mentions and their resynchronisation, playlist history, and the rest of the media player.
- The backend hub, the SFU router, storage of attachments, authentication and configuration.
