# Verified model of the WhatsApp call and bot service

A Dafny model of the stateful parts of the service, with proofs. `dafny verify dfyconfig.toml` checks
all of it.

## What is modelled

**Event hub.** `EventHub.dfy` has the per-call event hub twice: as a function of one critical section
that also says what the Go runtime would make of it (a send on a closed channel, a double close, a send
that blocks with the mutex held), and as a class with the hub's own loops that is proved to do the same.
`EventHubRuns.dfy` proves what a subscriber sees over a whole run. A channel is an index into a table of
all channels ever made.

**Call lifecycle.** `CallProtocol.dfy` is the race to end a call: every load, `sync.Once` entry and step
of the cleanup body is one action, and a run is any sequence of actions. `CallRuns.dfy` holds what every
interleaving guarantees, and shows by construction what it does not. `CallManager.dfy` is the manager run
serially, with its fields updated in place. Both see a hub as the log it keeps and whether it is closed;
`CallStreams.dfy` proves that a hub that has done to it what a call does keeps exactly that log, and what a
subscriber of the call sees. The peer ending a call, a hangup, a timeout, a failure, the bot stopping and a
newer outgoing call differ only in the cause they give to cleanup, and cleanup does the same for every cause.

**Audio.** `Pcm.dfy` has the gain and the two resamplers, `AudioPumps.dfy` the two loops that re-chunk
and re-frame, `OutboundPipeline.dfy` producer, bounded queue and player interleaved. The outbound loop
hands out sub-slices of the buffer it keeps appending to, so its slices are modelled with their backing
arrays and Go's append. The frame length is any positive number. `CallAudio.dfy` joins the pipeline to the
cleanup of the call protocol.

**Known responders.** `ResponderKeys.dfy` prints and parses the Redis keys, `ResponderStore.dfy` has the
in-memory store and its rebuilding from the cache.

**Bots and authorisation.** `Bots.dfy` starts, stops and replaces bots, `QrFlow.dfy` is the QR flow over
any event stream, run serially with the goroutines of its Success events, `AuthRegistry.dfy` the registry of
running authorisations and `AuthSocket.dfy` the loop that forwards states to the socket. `AuthProtocol.dfy`
interleaves one authorisation: the flow, its goroutines, the handler's own error, newer connections and the
forwarding loop. `AuthRuns.dfy` proves what its client is told in every interleaving, and that the serial flow
is one of them. What the outside world answers is a parameter.

## What the code does not guarantee

Each of these is proved: with a run that shows it, as an exact condition, or by a member's contract.

- `call_ended` need not be a call's last event: cleanup publishes it and closes the hub in two separately
  locked steps. It is certain to be the last if and only if nobody may emit any more when it is published
  (`CallRuns.EventCanFollowEnded`, `CallRuns.EndedIsLastForSureIff`).
- A realtime session recorded after cleanup has looked is never closed. That none is left open is certain if
  and only if `startRealtime` has recorded its session, or failed, before cleanup looks
  (`CallRuns.RealtimeCanOutliveCall`, `CallRuns.NothingLeftOpenForSureIff`, `CallRuns.RecordedIsClosedIff`).
- An `after` ahead of the event log is no filter on live events (`EventHubRuns.AfterIsRespected`).
- With odd-length frames inbound chunks can start in the middle of a sample (`AudioPumps.OddFrameMisaligns`,
  `AudioPumps.ChunkStartsOnSampleIff`). The sink takes frames of any length; whether the call library ever
  delivers an odd one is not visible in this repository, whose own test uses 960 samples.
- Were the audio source closed before the call is cancelled, the player could skip a frame
  (`OutboundPipeline.ClosingFirstSkipsAFrame`); cleanup has the right order.
- A startup scan cancels the bot it replaces but does not disconnect its client. It leaves one connected if and
  only if an eligible row whose bot connects is followed by another one of the same user (`Bots.ScanAtStartup`,
  `Bots.ScanLeavesClientConnected`), which its query does not rule out
  (internal/repository/mysql/repository.go:154-163).
- A bot that is marked as stopped, because it could not connect, was reset or was stopped at shutdown, keeps its
  entry when it is stopped again, and then no other can be started. A stop followed by a start replaces a bot if
  and only if it was not stopped already and the user may have one (`Bots.StopThenStart`,
  `Bots.UnconnectedBotStays`); a restart, a new authorisation or a scan replaces it.
- Preloading replaces entries already in the store by blank ones
  (`ResponderStore.Store.PreloadFirstInteraction`).
- The client can be told of a success although the flow then fails: the bot does not start, the client is no
  longer logged in, or the five minutes are over (`AuthRuns.ToldSuccessButNoBot`,
  `AuthRuns.SuccessCanHideFailure`, `AuthRuns.ToldSuccessInSerialRun`).
- The socket of a session that was replaced stays open (`AuthRuns.CancelledSocketStaysOpen`,
  `AuthRuns.ReplacementEndsNothing`).

## Model

| member | source | states |
|---|---|---|
| EventHub.StepIsSafe | internal/whatsapp/calls/events.go:46-107 | In every hub that satisfies the invariant no critical section sends on a closed channel, closes one twice or blocks inside subscribe, and the invariant (subscribers are exactly the open channels, none once closed, replay numbered consecutively up to `sequence`) holds again |
| EventHub.NewerFits | internal/whatsapp/calls/events.go:73-78 | The replay sent inside subscribe is never longer than the replay log, so it fits the new channel |
| EventHub.StepOnChannel | internal/whatsapp/calls/events.go:59-64 | How each section changes one channel: a publish appends to a subscribed one exactly when it has room, a receive takes its head, nothing else changes its buffer, and only its own unsubscribe or the close of the hub ends its subscription |
| EventHub.CallEventHub.Publish | internal/whatsapp/calls/events.go:46-65 | The loops over replay and subscribers do the specified publish; the newest replay entry has the call, kind and body it was given, the next number and the time of publishing; a closed hub takes nothing |
| EventHub.CallEventHub.Subscribe | internal/whatsapp/calls/events.go:67-85 | The replay loop fills a new channel with the events above `after`; refused exactly when the hub is closed |
| EventHub.CallEventHub.Unsubscribe | internal/whatsapp/calls/events.go:87-94 | Closes and drops that subscriber and no other; a late or repeated unsubscribe does nothing |
| EventHub.CallEventHub.Close | internal/whatsapp/calls/events.go:96-107 | Closes every subscriber once; a second close does nothing |
| EventHub.CallEventHub.Receive | internal/whatsapp/calls/events.go:67-85 | A reader takes the oldest buffered event, also after its channel was closed |
| EventHubRuns.RunIsSafe | internal/whatsapp/calls/events.go:46-107 | No run of publish, subscribe, unsubscribe, close and receive ever panics or deadlocks |
| EventHubRuns.ReplayIsTail | internal/whatsapp/calls/events.go:52-58 | After any run the replay log is the last min(sequence, 128) events of the whole history |
| EventHubRuns.LogNumbered | internal/whatsapp/calls/events.go:52-53 | Every event ever accepted carries its position in the history |
| EventHubRuns.LogGrows | internal/whatsapp/calls/events.go:49-51 | The history only grows, and not at all once the hub is closed |
| EventHubRuns.AcceptedInOrder | internal/whatsapp/calls/events.go:49-51 | The accepted publishes of a run are exactly those before the first close, in their order |
| EventHubRuns.LogIsWhatWasPublished | internal/whatsapp/calls/events.go:52-55 | In every run the k-th event of the history is the k-th accepted publish as it was given: its call, kind and body, with number k and the time of that publish |
| EventHubRuns.SubscribedIffNeverLeft | internal/whatsapp/calls/events.go:67-107 | In every run a channel is subscribed if and only if since it was made there was no unsubscribe of that very channel and no close |
| EventHubRuns.Delivery | internal/whatsapp/calls/events.go:46-85 | Whole-run specification: received followed by buffered is the history above max(after, sequence at subscription - 128), minus exactly the events published while the channel was full or no longer subscribed |
| EventHubRuns.DeliveredWasPublished | internal/whatsapp/calls/events.go:52-64 | Every event delivered or waiting for a subscriber is an accepted publish with its whole payload, numbered by its position |
| EventHubRuns.DeliveryIncreases | internal/whatsapp/calls/events.go:46-85 | Every stream is strictly increasing, without repeats, above its start |
| EventHubRuns.LosslessIffNeverBehind | internal/whatsapp/calls/events.go:59-64 | A subscriber that stays loses nothing if and only if it is never more than 128 events behind |
| EventHubRuns.LosslessUntilClosed | internal/whatsapp/calls/events.go:59-64 | The same for a subscriber that stays until the hub closes and goes on reading |
| EventHubRuns.Resume | README.md:91 | A client that holds the history up to k and subscribes again with after = k ends up with it gap-free and without repeats if and only if at most 128 events were published since k and none is dropped later |
| EventHubRuns.AfterIsRespected | internal/whatsapp/calls/events.go:59-64 | `after` filters everything the subscription will ever deliver if and only if it is not ahead of the history: live events are sent without looking at it |
| EventHubRuns.FutureAfterDelivers | internal/whatsapp/calls/events.go:59-64 | The failing case of the above: an `after` from the future and the event that is delivered all the same |
| CallProtocol.RunKeepsInv | internal/whatsapp/calls/calls.go:215-243 | Every interleaving of registrations, emits, realtime recordings and cleanup steps keeps the protocol invariant: one winner per Once, cancel, call_ended, hub close and delete exactly as far as the body has got |
| CallProtocol.StepKeepsInv | internal/whatsapp/calls/calls.go:193-243 | One atomic step of any goroutine keeps that invariant |
| CallRuns.EndsAtMostOnce | internal/whatsapp/calls/calls.go:215-243 | Whatever ends a call and however often: the body runs at most once, with at most one call_ended and at most one CloseSession |
| CallRuns.ReturnedMeansGone | internal/whatsapp/calls/calls.go:217-240 | Once any cleanup of a call has returned, its id is out of `active` for ever and its log is final |
| CallRuns.GoneCallIsLeftAlone | internal/whatsapp/calls/calls.go:217-220 | A cleanup that does not find its call in `active` returns at once and changes no session |
| CallRuns.CleanupInOrder | internal/whatsapp/calls/calls.go:222-240 | In every interleaving what cleanup leaves behind appears in order: cancelled before call_ended, call_ended before the closed hub, that before the CloseSession and the closed source of what was recorded in time, and all of it before the call is gone from `active` |
| CallRuns.ClosedHubIsSilent | internal/whatsapp/calls/events.go:49-51 | Nothing enters a call's log after its hub closed |
| CallRuns.LogIsExact | internal/whatsapp/calls/calls.go:73-81 | A call's log is exactly the events emitted before call_ended, call_ended itself, and those that landed before the hub closed |
| CallRuns.EndedIsLastIff | internal/whatsapp/calls/calls.go:224-227 | call_ended is the last event of an ended call if and only if no emit landed between its publication and the closing of the hub |
| CallRuns.EventCanFollowEnded | internal/whatsapp/calls/calls.go:224-227 | From every state with the hub open in which someone may still emit, some interleaving puts an event after call_ended |
| CallRuns.EndedIsLastForSureIff | internal/whatsapp/calls/calls.go:224-227 | However a call that has not published call_ended goes on, call_ended is the last event of the ended call if and only if nobody may emit any more |
| CallRuns.RealtimeClosedIsExact | internal/whatsapp/calls/calls.go:230-232 | CloseSession is called with the respID recorded when cleanup looked, or not at all when there was none |
| CallRuns.RecordedIsClosedIff | internal/whatsapp/calls/calls.go:230-232 | Once cleanup has looked for a realtime session, the recorded one was closed, once, if and only if it was recorded before that; otherwise nothing was closed |
| CallRuns.RealtimeCanOutliveCall | internal/whatsapp/calls/calls.go:398-410 | As long as startRealtime has not recorded its session, the call over or not, some interleaving ends the call, records the session and closes nothing |
| CallRuns.NothingLeftOpenForSureIff | internal/whatsapp/calls/calls.go:230-232 | However a call whose cleanup has not looked yet goes on, the ended call leaves no realtime session open if and only if startRealtime has recorded one already or has failed |
| CallRuns.OpenForGood | internal/whatsapp/calls/calls.go:222-232 | What cleanup left open is never closed later |
| CallRuns.SourceIsClosedIff | internal/whatsapp/calls/calls.go:233-235 | Once cleanup is past the audio source, the source is closed if and only if it was recorded before cleanup got there; one recorded later plays on |
| CallRuns.SourceClosesAfterCancel | internal/whatsapp/calls/calls.go:223-235 | In every interleaving the audio source of a call is closed only after its context is cancelled |
| CallRuns.EveryCleanupCanReturn | internal/whatsapp/calls/calls.go:222 | No cleanup waits for a Once that nobody runs: each can return within nine steps of cleanups alone |
| CallStreams.HubFollowsCall | internal/whatsapp/calls/calls.go:73-81 | A hub that has done to it what a call's emits and its cleanup do holds that call's log and is closed when the call's is, whoever subscribes, reads and leaves in between |
| CallStreams.SubscriberSeesCall | internal/whatsapp/calls/calls.go:152-159 | End to end: a subscriber that stays and never falls more than 128 events behind gets the call's log from where it joined, with call_ended last if the call ended with no late emit |
| CallStreams.EveryCallCanBeFollowed | internal/whatsapp/calls/calls.go:152-159 | Every call, however it went, can be followed in full: a subscriber that joins at the start and reads after every publish receives its whole log |
| CallManager.Manager.RegisterSession | internal/whatsapp/calls/calls.go:140-149 | The new session joins `active` and the gauge equals its size |
| CallManager.Manager.Cleanup | internal/whatsapp/calls/calls.go:215-243 | Ends one active call with call_ended last, closes its recorded realtime session, drops it from `active` and corrects the gauge; unknown ids do nothing |
| CallManager.Manager.Stop | internal/whatsapp/calls/calls.go:246-251 | Afterwards no call is active and every session ever registered has ended with call_ended last, added to the log of exactly the sessions that were active; exactly the recorded realtime sessions were closed |
| CallManager.Manager.Hangup | internal/whatsapp/calls/calls.go:328-342 | Ends exactly the named call, and closes its recorded realtime session, when it exists and the peer connection hangs up; otherwise changes nothing |
| CallManager.Manager.HandleIncoming | internal/whatsapp/calls/calls.go:94-138 | An incoming call ends no other call and is active afterwards exactly when voice calls are enabled and in mode, its caller is allowed, it is answered and it does not fail; it is then ready and plays its source for its peer if and only if its media became ready |
| CallManager.Manager.InitiateOutgoing | internal/whatsapp/calls/calls.go:254-325 | Run serially: a failed check changes nothing; success leaves exactly the new call active, ready, playing for its peer, with the log call_started, call_connected; a later failure leaves none, and a new call that was placed has the log call_started, call_ended; in the last two every earlier session has ended with call_ended last and exactly the recorded realtime sessions were closed |
| CallManager.Manager.ActiveCallIDs | internal/whatsapp/calls/calls.go:345-354 | The collecting loop returns every active id exactly once and no other, so the gauge taken from its length is the number of active calls |
| Pcm.Int16RoundTrip | internal/whatsapp/calls/audio.go:50 | Writing a sample as two little-endian bytes and reading them gives it back |
| Pcm.LittleEndian | internal/whatsapp/calls/audio.go:19 | Two bytes read as a sample are the low byte and 256 times the high one, as a signed 16-bit number |
| Pcm.TruncatesTowardZero | internal/whatsapp/calls/audio.go:25 | A conversion to an integer drops the fraction toward zero, for negative numbers too |
| Pcm.AmplifyPCM16 | internal/whatsapp/calls/audio.go:13-28 | Every sample is scaled and clamped to int16, a last odd byte becomes zero, and a gain of one or no whole sample returns the data itself |
| Pcm.GainOfTwo | internal/whatsapp/calls/audio.go:18-25 | With the gain used for calls a sample is doubled exactly, up to the ends of the range |
| Pcm.PCM16At24k | internal/whatsapp/calls/audio.go:31-53 | The loop produces floor(3n/2) samples, each the closed form with left index 2i div 3, inside its buffer |
| Pcm.PCM16At16k | internal/whatsapp/calls/audio.go:56-74 | The loop produces floor(2n/3) samples, each the closed form with left index 3i div 2, inside its buffer |
| Pcm.RightNeighbourExists | internal/whatsapp/calls/audio.go:67-70 | The right-neighbour guard of the 24 kHz to 16 kHz loop is always true |
| Pcm.SplitThirds | internal/whatsapp/calls/audio.go:37-39 | Floor and fraction of the position 2i/3 are those of integer division |
| Pcm.SplitHalves | internal/whatsapp/calls/audio.go:63-65 | Floor and fraction of the position 3i/2 are those of integer division |
| Pcm.Sample24IsBetween | internal/whatsapp/calls/audio.go:40-50 | Every 24 kHz sample lies between its two source samples, up to clamping and quantisation |
| Pcm.Sample16IsBetween | internal/whatsapp/calls/audio.go:66-71 | Every 16 kHz sample lies between its two source samples and in [-1, 1) |
| Pcm.QuantisationError | internal/whatsapp/calls/audio.go:50 | Quantising a sample in range and reading it back loses less than 2/32768 |
| Pcm.ResamplingRoundTrip | internal/whatsapp/calls/audio.go:31-74 | An even frame in [-1, 1] resampled up and down keeps its length, its even samples and the stated smoothing of its odd samples, within 2/32768 |
| AudioPumps.EncodeIsDecoded | internal/whatsapp/calls/audio.go:25 | A buffer of little-endian samples decodes to those samples |
| AudioPumps.ConversionIsExact | internal/whatsapp/calls/calls.go:432 | What the two conversion loops leave in their buffers is exactly the converted, amplified frame |
| AudioPumps.PiecesAreSlices | internal/whatsapp/calls/calls.go:434-436 | Chunks of one length are the consecutive slices of their concatenation, however the data arrived |
| AudioPumps.InboundPump.Receive | internal/whatsapp/calls/calls.go:425-441 | Submitted chunks and pending bytes are always the whole converted stream, chunks are exactly 960 bytes, fewer stay pending; with even-length frames chunk m is the samples from 480m on of the 24 kHz stream, doubled up to the ends of the range |
| AudioPumps.ChunksAreSamples | internal/whatsapp/calls/calls.go:433-436 | With even-length frames chunk m is exactly samples 480m to 480m+479 of the amplified stream |
| AudioPumps.ChunksAreDoubled | internal/whatsapp/calls/calls.go:25 | With even-length frames sample j of chunk m is sample 480m + j of the 24 kHz stream before the gain, doubled up to the ends of the range |
| AudioPumps.AlignedIffEvenlyManyOdd | internal/whatsapp/calls/calls.go:432-436 | Frames of any length leave the converted stream on a sample boundary if and only if evenly many are odd |
| AudioPumps.ChunkStarts | internal/whatsapp/calls/calls.go:434-436 | Every submitted chunk starts at a byte of some frame and is the converted stream from there on |
| AudioPumps.ChunkStartsOnSampleIff | internal/whatsapp/calls/calls.go:432-436 | With frames of any length a chunk starts with a whole sample if and only if evenly many frames before the one it starts in are odd |
| AudioPumps.OddFrameMisaligns | internal/whatsapp/calls/calls.go:432-436 | A frame of one sample and one of 640: the second chunk starts in the middle of a sample |
| AudioPumps.Append | internal/whatsapp/calls/calls.go:468 | Go's append: in place within the capacity, otherwise into a new array, and nothing outside the appended range changes |
| AudioPumps.OutboundPump.Grow | internal/whatsapp/calls/calls.go:468 | Appending to the pending slice disturbs no frame that shares its array |
| AudioPumps.OutboundPump.CutFrame | internal/whatsapp/calls/calls.go:469-474 | A frame handed over is the shared front of the pending slice, and the stream is unchanged |
| AudioPumps.OutboundPump.Feed | internal/whatsapp/calls/calls.go:459-475 | Every frame ever handed over still holds what it held then, and frames and pending samples are the resampled stream |
| AudioPumps.OutboundPump.Finish | internal/whatsapp/calls/calls.go:460-467 | When the input closes the frames offered are the whole stream padded to the next multiple of the frame length, with at most one padded frame, the last |
| OutboundPipeline.RealtimeAudioSource.ReadFrame | internal/whatsapp/calls/audio.go:91-104 | Never blocks, returns queued frames in order and silence only when there is nothing else |
| OutboundPipeline.RealtimeAudioSource.Push | internal/whatsapp/calls/audio.go:112-127 | Queues the frame, or refuses it only because the call is over; after Close it always reports refusal |
| OutboundPipeline.NextRead | internal/whatsapp/calls/audio.go:91-104 | Some outcome of a read is always ready, and while neither cancelled nor closed it is the oldest queued frame, or silence exactly when there is none |
| OutboundPipeline.FramesAreWhole | internal/whatsapp/calls/calls.go:460-474 | Every frame queued or heard in a run has the frame length |
| OutboundPipeline.ProducerWaitsAtEight | internal/whatsapp/calls/audio.go:84-89 | With eight frames queued in a live call the producer can do nothing but wait: such a state is reached from any chunk of nine frames |
| OutboundPipeline.CloseInTwoSteps | internal/whatsapp/calls/audio.go:106-110 | The two steps of closing the source set both its signals and change nothing else |
| OutboundPipeline.StepConserves | internal/whatsapp/calls/calls.go:443-478 | No step of producer, queue or player loses, repeats or reorders a sample, unless a refused frame is skipped |
| OutboundPipeline.RunConserves | internal/whatsapp/calls/calls.go:443-478 | In every run that skips no frame: heard, queued, upstream and abandoned samples make up the stream received, padded |
| OutboundPipeline.HeardIsPrefixWhileLive | internal/whatsapp/calls/audio.go:91-127 | While the source is open and the call live, the frames played without inserted silence are a prefix of the stream received, for all chunk sizes and interleavings |
| OutboundPipeline.HeardIsPrefixInCleanupOrder | internal/whatsapp/calls/calls.go:223-235 | In every run that closes the source only after the call is cancelled this still holds while the call is torn down |
| CallAudio.CallTearsDown | internal/whatsapp/calls/calls.go:223-235 | In every interleaving of the call protocol what has been done to a call's audio is what its session says: context cancelled, then source closed, each once and in this order |
| CallAudio.EndedCallTearsDown | internal/whatsapp/calls/calls.go:223-235 | When cleanup is done the call's audio was cancelled and then its source closed if the source was recorded in time, and only cancelled if not |
| CallAudio.PlayerHearsNoGap | internal/whatsapp/calls/calls.go:223-235 | So a pipeline torn down by a call's cleanup never lets the player hear a gap, however producer, player and cleanup interleave |
| OutboundPipeline.PlaysOut | internal/whatsapp/calls/calls.go:455-477 | Progress: from any live state, without more data, producer and player can go on until everything owed has been heard but for less than a frame, and all of it once the input is closed |
| OutboundPipeline.ClosingFirstSkipsAFrame | internal/whatsapp/calls/calls.go:472-474 | Why that order matters: closing the source of a live call lets a refused frame be skipped and the next one played |
| ResponderKeys.DecimalRoundTrip | internal/whatsapp/responder/cache.go:70-76 | Printing a number in decimal and parsing its digits gives it back |
| ResponderKeys.DecimalIsCanonical | internal/whatsapp/responder/cache.go:70-76 | Printed numbers are decimal and have no leading zero |
| ResponderKeys.FormatRoundTrip | internal/whatsapp/responder/cache.go:85 | Every int64, negative ones included, survives printing and parsing |
| ResponderKeys.OutOfRangeDoesNotParse | internal/whatsapp/responder/cache.go:85 | A number outside int64 does not parse |
| ResponderKeys.NonDigitsDoNotParse | internal/whatsapp/responder/cache.go:85 | Anything but digits after an optional sign does not parse |
| ResponderKeys.KeyRoundTrip | internal/whatsapp/responder/cache.go:70-92 | A user's key parses back to its sender, for every user and sender |
| ResponderKeys.KeysOfOthersDoNotParse | internal/whatsapp/responder/cache.go:78-82 | A key of one user never parses for another |
| ResponderKeys.KeyIsInjective | internal/whatsapp/responder/cache.go:70-72 | Different users or senders have different keys |
| ResponderKeys.KeyLooksLike | internal/whatsapp/responder/cache.go:70-76 | The exact text of two keys |
| ResponderKeys.ParserAcceptsForeignKeys | internal/whatsapp/responder/cache.go:84-91 | The parser takes keys the printer never writes, such as one with a plus sign |
| ResponderKeys.SignedRoundTrip | internal/whatsapp/bot_responder.go:65-88 | Casting a uint64 sender id to int64 subtracts 2^64 or nothing, and casting it back gives the id |
| ResponderStore.RedisCache.Has | internal/whatsapp/responder/cache.go:38-44 | Found if and only if that sender was recorded for that user |
| ResponderStore.RedisCache.Set | internal/whatsapp/responder/cache.go:46-48 | Records exactly that pair |
| ResponderStore.RedisCache.LoadUser | internal/whatsapp/responder/cache.go:50-68 | Whatever order and repetitions a full scan has, the ids are exactly those recorded for that user |
| ResponderStore.Store.Count | internal/whatsapp/responder/store.go:47-54 | Counts the entries |
| ResponderStore.Store.PreloadFirstInteraction | internal/whatsapp/bot_responder.go:79-93 | Adds exactly the recorded sender ids of the user, ids at or above 2^63 included, and replaces entries already there by blank known ones |
| ResponderStore.Store.SendFirstContactMessage | internal/whatsapp/bot_responder.go:34-77 | A notification is sent if and only if the assistant has start events and neither store nor cache knows the sender; the sender is known and recorded afterwards, other entries stay |
| ResponderStore.RestoreResponderFields | internal/whatsapp/bot_responder.go:16-32 | Fills only what is blank, and never leaves the phone blank |
| AuthRegistry.Registry.Add | internal/whatsapp/auth/registry.go:17-30 | Added if and only if the user has no session; at most one session per user is kept |
| AuthRegistry.Registry.CancelUser | internal/whatsapp/auth/registry.go:45-64 | Removes exactly the user's session, tells it if there is room, never blocks on a full or nil channel, leaves every other session and channel alone |
| AuthRegistry.Registry.Replace | internal/whatsapp/handlers/handler.go:77-82 | CancelUser followed at once by Add always registers the new session |
| QrFlow.Handled | internal/whatsapp/auth/flow.go:104-137 | The flow handles the events up to the first timeout or error event |
| QrFlow.HandleEvents | internal/whatsapp/auth/flow.go:102-169 | The event loop offers exactly the specified states, payloads included, ending early exactly on a timeout or error event with an error; the codes offered are those of the Code events handled, in order; the channel holds as many of all states offered as fit |
| QrFlow.FlowShowsCodes | internal/whatsapp/auth/flow.go:102-169 | The states a flow offers show exactly the codes of the Code events it handles, in order, each once, and none if it does not get so far |
| QrFlow.Connect | internal/whatsapp/auth/flow.go:68-100 | An earlier session is dropped before connecting; a missing QR channel or a refused connection is offered as the error |
| QrFlow.AwaitLogin | internal/whatsapp/auth/flow.go:102-221 | From a successful connect on, every exit leaves the client disconnected, whatever the events and the ending, having offered exactly the specified states |
| QrFlow.AuthenticateWithQR | internal/whatsapp/auth/flow.go:38-222 | For every event stream and outcome: the states offered by flow and goroutines with their payloads, the codes shown, when it succeeds, which bot the user has afterwards, and that the authorisation client is disconnected |
| QrFlow.FailureIsOfferedOnceAndLast | internal/whatsapp/auth/flow.go:50-221 | The flow reports a failure exactly once and last, except when it was confirmed: then it reports none, not even that the bot did not start; a goroutine offers a success at most once, just before that |
| QrFlow.RunCommands | internal/whatsapp/user_bots.go:34-299 | After any run of start, stop, restart, scan, reset of any bot ever created, authorisation and shutdown no user has two live bots among all bots ever created |
| AuthSocket.ClientSeesUpToFirstTerminal | internal/whatsapp/handlers/handler.go:120-166 | In every interleaving the socket receives a prefix of the accepted states ending no later than the first success or error |
| AuthSocket.DrainingReachesFirstTerminal | internal/whatsapp/handlers/handler.go:131-166 | From any point, if writes succeed the socket gets everything accepted up to the first terminal state, and the loop ends exactly if there is one |
| AuthSocket.SuccessHidesLaterErrors | internal/whatsapp/handlers/handler.go:120-166 | Once a success was accepted first, no error is ever written, not even that the bot failed to start |
| AuthSocket.Serve | internal/whatsapp/handlers/handler.go:131-166 | The loop on the shared channel does what the runs above say |
| AuthSocket.OfferIsTakenIff | internal/whatsapp/handlers/handler.go:101-109 | An offer never blocks: it is accepted and buffered if and only if fewer than ten states wait, and otherwise changes nothing |
| AuthSocket.Ends | internal/whatsapp/handlers/handler.go:150-166 | The number of states up to and including the first terminal one |
| AuthProtocol.RunKeepsInv | internal/whatsapp/auth/flow.go:137-221 | In every interleaving only a failed flow or its handler offers an error, only a goroutine offers a success and before it signals it, and the flow succeeds only on such a signal |
| AuthProtocol.StepSays | internal/whatsapp/auth/flow.go:42-47 | Every action offers at most one state, and what it does to channel, socket and history is that offer |
| AuthRuns.SocketRuns | internal/whatsapp/handlers/handler.go:131-166 | The socket of an authorisation is the socket of a run of the forwarding loop |
| AuthRuns.ToldTheTruth | internal/whatsapp/auth/flow.go:102-221 | In every interleaving a client told of an error has a flow that failed, one told of a success has had a code scanned, and a flow that succeeded never shows an error |
| AuthRuns.ToldSuccessIff | internal/whatsapp/auth/flow.go:145-221 | Once everything accepted is delivered the client has been told of a success if and only if one was accepted before any error, which without dropped offers is if and only if a goroutine reported it before the flow gave up; then the flow failed if and only if it was not confirmed with a bot that starts; without dropped offers a flow that succeeded always tells |
| AuthRuns.SuccessFirstIffReportedInTime | internal/whatsapp/auth/flow.go:145-164 | A success is offered before any error if and only if a goroutine reported it before the flow gave up |
| AuthRuns.SuccessCanHideFailure | internal/whatsapp/auth/flow.go:200-203 | From every state in which a reported success waits for the flow some interleaving has the flow fail while the client is told of the success and of no error |
| AuthRuns.ToldSuccessButNoBot | internal/whatsapp/auth/flow.go:200-203 | One scan, a confirmed login and a bot that does not start: the client is sent exactly qr-success and success while the flow has failed |
| AuthRuns.ReplacementEndsNothing | internal/whatsapp/auth/registry.go:55-61 | As long as the flow has not failed and no success was reported the forwarding loop has not finished, replaced or not |
| AuthRuns.CancelledSocketStaysOpen | internal/whatsapp/handlers/handler.go:138-161 | From every such state whose session is still registered and served the client can be sent cancelled as the last state so far with its socket open and its flow where it was |
| AuthRuns.CancelledAtMostOnce | internal/whatsapp/auth/registry.go:51-63 | A session is told at most once that it was replaced, since CancelUser drops it |
| AuthRuns.SerialRun | internal/whatsapp/handlers/handler.go:120-128 | The serial flow with its goroutines and its handler, whose error comes exactly when the flow fails, is a run of the protocol that offers the same states in the same order and ends the same way |
| AuthRuns.ToldSuccessInSerialRun | internal/whatsapp/auth/flow.go:102-221 | In every run that offers what the serial flow offers, without a drop, once decided and delivered: the flow ended as the serial flow does, and the client was told of a success if and only if the stream ended and a goroutine reported before the wait was over; then the flow has failed if and only if the client was not still logged in or its bot did not start |
| Bots.ScannedIffEligible | internal/whatsapp/user_bots.go:34-79 | A scan starts a bot for a user if and only if some row of that user is eligible |
| Bots.User.StartUserBot | internal/whatsapp/user_bots.go:242-299 | Starts a bot if and only if the user has no entry, stopped or not, and may have one; a bot that does not connect is marked as stopped |
| Bots.User.StopUserBot | internal/whatsapp/user_bots.go:190-235 | Cancels, disconnects and drops the user's bot; one that is already stopped keeps its entry |
| Bots.User.RestartUserBot | internal/whatsapp/user_bots.go:108-183 | Stops the current bot before checking whether a new one may be made; succeeds exactly when it may; after a refusal a running bot's entry is gone unless the stored data could not be read or decrypted |
| Bots.StopThenStart | internal/whatsapp/user_bots.go:190-248 | A stop followed by a start replaces a user's bot if and only if it was not stopped already and the user may have one; one that was stopped already stays as it is |
| Bots.UnconnectedBotStays | internal/whatsapp/bot_lifecycle.go:231-233 | A bot that could not connect stays the user's entry through a stop and a start |
| Bots.User.ProcessBotsState | internal/whatsapp/user_bots.go:34-79 | One new bot for every eligible row and no other; the last one of each user is current, users without an eligible row keep theirs, and every bot replaced, old or new, is cancelled |
| Bots.ScanAtStartup | internal/whatsapp/user_bots.go:34-79 | The startup scan leaves the client of a bot it replaced connected if and only if an eligible row whose bot connects is followed by another eligible one of the same user |
| Bots.ScanLeavesClientConnected | internal/whatsapp/bot_lifecycle.go:83-92 | A scan with two eligible rows for one user leaves the client of the bot it replaces connected |
| Bots.User.StopAll | internal/whatsapp/whatsapp.go:288-304 | After the shutdown no bot ever created is live |
| Bots.User.CreateOrUpdateBot | internal/whatsapp/bot_lifecycle.go:81-96 | Cancels the bot it replaces and leaves its client as it was; a new bot that does not connect is marked as stopped |
| Bots.User.StoreNewBot | internal/whatsapp/bot_lifecycle.go:99-249 | A new bot is connected only if asked to and possible, and marked stopped if it could not connect |
| Bots.User.EnsureAuthBot | internal/whatsapp/user_auth.go:25-77 | The user's bot, or a new one that is not connected |
| Bots.User.DeleteBot | internal/whatsapp/user_auth.go:22 | Drops the entry, which keeps every user at one live bot if and only if the bot dropped is not live |
| Bots.User.AtMostOneLiveBot | internal/whatsapp/user_bots.go:34-299 | Two live bots of one user are the same bot |
| Bots.Bot.StopUserBot | internal/whatsapp/bot_lifecycle.go:59-77 | Stops, cancels and disconnects unless it was stopped already |
| Bots.Bot.Connect | internal/whatsapp/bot_lifecycle.go:207-265 | Connects exactly when there is a stored session and the server is reachable; otherwise the bot is marked as stopped |

## Left out

- CallManager.Manager.HandleIncoming: assumes that a new call's id is not that of an active call, as the call
  library's random ids are; so does `CallManager.Manager.RegisterSession`.
- float32 rounding in both resamplers and NaN samples: samples are exact reals. The 24 kHz to 16 kHz
  direction is exact in float32; the other is proved under exact arithmetic.
- Overflow of the uint64 event counter: numbers are unbounded.
- The length of a call: `watchTimeout` waits in its second select only once, so it bounds nothing; a timeout
  is an end of the call that may come at any time.
- "Every started realtime session is closed": false, see above for the exact condition.
- The active-calls gauge under concurrency: nothing is claimed about it; it is proved for serial runs, and its
  update is a step without effect in `CallProtocol`.
- Outgoing calls placed concurrently: nothing is claimed; one active call is proved for serial runs of
  `InitiateOutgoing`.
- A second run of `startRealtime` for one call: an outgoing call runs it once, and the ready callback of an
  incoming call is taken to fire once.
- Cancellation of a call's context by anyone but cleanup, when the bot's own context ends.
- The choices of `startRealtime` before the audio starts (channels, model, provider): they are one outcome,
  started or not.
- Provider events are told apart from cleanup's `call_ended` by origin; an event of that type sent by the
  provider counts as an ordinary event.
- Recorder, drain goroutine, event handler goroutines, logging and all metrics but the active-calls gauge.
- `TryPush` of the audio source: nothing in the call path uses it.
- WhatsApp, WebSocket, gRPC, MySQL and Redis transport: outcomes are parameters.
- Expiry of Redis keys and other writers: the keyspace changes only through the cache.
- Connection attempts that outlast the command that started them, and commands of one user that overlap.
- Client replacement in `PrepareReauth` and device storage: a bot has one flag for being connected and one for
  being logged in.
- A missing bot, client or registry (nil receivers and the flow's nil checks).
- Overlapping connections of one user between `CancelUser` and `Add`.
- The `done` channel of the socket handler: only the handler's own exit closes it.
- Device store encoding, message filter, contacts, HTTP routes, generated code and wiring.
