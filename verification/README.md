# A verified model of the Hermes client protocols and the Hermie Web parsers

This project models, in Dafny 4.11, the parts of the repository that keep state across the network and
the parsers that face untrusted text:

- **Reconnect replay.** The client keeps a last-seen number per session. After a reconnect it asks for the
  gap, parks live frames meanwhile and releases them through the number gate. `ReplayClient` is the client;
  `ReplayWorld` puts it on a lossy wire in front of a server with a log per session and an epoch per
  process; `ReplayNumbers`, `ReplayLossless`, `ReplayGaps`, `ReplayDial`, `ReplayOrder`, `ReplayMisnamed` and
  `ReplayEdge` hold the results.
- **The connection.** Dial tokens, the waiter for `gateway.ready`, the backoff ladder, the offline grace,
  the two failure tallies and the credential verdicts. `Backoff`, `Connection` (what one event does),
  `ConnectionFlow`, `ConnectionTallies` and `ConnectionRedials` (what every run keeps), `GatewayConnection` (the object),
  `SocketFactory` (the single-use dial plan).
- **Settings over `ui_meta`.** A per-key compare-and-swap with any number of devices interleaving at their
  awaits: `SettingsSync` and `SettingsWorld`; `SettingsKeys` and `SettingsRevisions` (what is written, and at
  what revision), `SettingsStamps`, `SettingsExposure` and `SettingsAnswers` (the order of dates),
  `SettingsVersions`, `SettingsEdge`; `UiMetaSync` (the object), and `PushSection` for the per-device rows
  in the same section.
- **Token refresh.** One rotation in flight, fenced by an auth epoch: `TokenRefresh`, `TokenProofs`,
  `TokenFences`, `TokenBurst`, `TokenCoordinator`.
- **The JSON-RPC channel.** Pending calls, answer-once server requests and the heartbeat: `RpcChannel`,
  `RpcProofs`, `JsonRpcChannel`.
- **The transcript cache.** `TranscriptStore`, `TranscriptProofs`, `TranscriptHits`, `TranscriptPrivacy`,
  `TranscriptCache`.
- **Parsers, printers and search.** `GatewayPath`, `ApiHops`, `Zip`, `ZipProofs`, `EntryPath` (POSIX
  separators only), `Extraction`, `HostPrivacy`, `Base64`, `Fuzzy`, `FuzzyScores`.

`Prelude`, `Text`, `Decimal` and `StableSort` are shared.

## How it is built

Every stateful component is stated twice. A value (`Client`, `Conn`, `Sync`, `Coord`, `Channel`, `Cache`)
with one function per handler says what each event does to the whole state; a class with the source's own
fields does it field by field, and each of its methods is proved to take `Model()` to what the function
says. The results over whole runs are lemmas about the functions, so they hold of the class. The loops of
the parsers are methods proved against functions in the same way.

The outside world is the argument of the step: a step is one event with everything it wakes up before the
next, and a call that is left suspended (a dial plan, a credential verdict, a store read, a rotation, an
RPC) is part of the state until an event settles it, in any order. The clock, the random draw, the outcome
of a send or of a write, the answers of handlers and the bytes on disk arrive with the event.

For replay the wire delivers the frames of one socket in order, the server numbers a session's events
consecutively within an epoch, a reply reaches exactly as far as the log did when it was sent, and a
socket starts with its `gateway.ready`. The server may restart at any moment, the ring may have dropped
part of the log, any replay call may be lost, and continuations of dropped sockets may run at any time.
Losslessness (`NothingIsLost`, `DrainedIsLevel`) is stated for runs in which the ring still holds the log and
the replay that settles was fulfilled, since a rejected call is best effort by design, and in which the dials
are those that lose nothing (`ADialLosesNothingExactlyWhen`).

## Where the code does not keep what is said of it

Each of these is a lemma with a concrete run or input, next to the exact condition under which the promise
holds.

- `connect` accepts a bound socket that is no longer open without dropping it. If its replay has by then
  brought an answer or a numbered frame, those can be read as news of the next socket: a number is delivered
  twice within an epoch (`OrphanedReplayRepeatsANumber`), or under the name of another server. A dial is
  safe from both exactly when it is not over such a replay (`ADialIsHonestExactlyWhen`), which is the condition
  `EverySessionIncreases` asks of the owner. The order of the numbers alone is kept by a few dials more, those
  over answers of which none but the first has a number in it, of a server in whose name nothing was told
  (`ADialKeepsTheOrderExactlyWhen`, `EveryOrderlyRunIsInOrder`). The new socket asks for the gap exactly when
  no replay at all was in flight (`NewSocketAsksForEveryGap`).
- The same dial can lose a number. The hold of the replay it is over has no place for a session first heard
  after it was taken, and the new socket asks for nothing, so such a session runs past whatever was sent
  while nothing was connected (`AnOrphanedHoldLosesANumber`). A dial loses nothing exactly when the replay it
  is over, if any, parks every session with a watermark at the server of the moment and still has a call
  without an answer (`ADialLosesNothingExactlyWhen`); `NothingIsLost` is about all runs with such dials.
- If building the socket throws with no socket bound, the client stays in `connecting` for ever: later
  dials wait for a socket that does not exist (`ASocketThatCannotBeBuiltWedges`, `WedgesExactlyWhen`,
  `WedgedForEver`). The connection is still not stuck in the sense of `NeverStuck`; it times out and climbs
  the ladder, but can never be ready.
- Three redials can go out without a wait when a verdict asked for before `retryNow` answers after it
  (`ALateVerdictAddsARedial`). At most two go out exactly when no verdict is still open at the moment the
  tallies are put back (`AtMostTwoRedialsExactlyWhen`); in general the most there can be is two and one for
  each that is (`TheMostRedialsOfAWindow`).
- The stamp of an app section can go back when the answer to a write of other keys names the key's new
  revision, or when the re-read after a conflict fails (`AnAnswerAboutOtherKeysLowersTheStamp`,
  `AFailedRereadLowersTheStamp`). The condition is on three steps, an edit, an answer and a failed re-read:
  none may leave a device that knows the gateway's current revision with an older section than that. It is
  exact, step by step (`AStepIsSafeExactlyWhen`), and said of an answer before it is taken
  (`AnAnswerIsCarelessExactlyWhen`); while nothing is dated back, an answer to a write of the app section
  itself always meets it (`PrudentRunsAreCareful`).
- A mark made while a write is in flight is cleared with it exactly when the answer refuses nothing and the
  write was of that key (`AMarkInFlightIsForgottenExactlyWhen`, `AMarkIsForgotten`); only a later date brings
  it back (`AReconcileMarks`). The claim about cleared marks is therefore about the bytes built for the attempt.
- A section of an unknown version reads as absent and is then written over, although the note on the
  version constants says a writer never lowers a version. A version goes down exactly by a write that names
  its key at the gateway's own revision (`AVersionGoesDownExactlyWhen`), and a device goes on to make such a
  write exactly when it has something of its own for the key (`AReconcileClaimsExactlyWhen`,
  `AnUnknownVersionIsReplacedExactlyWhen`); `AnUnknownVersionIsLost` is such a run.
- The auth fence is raised when a rotation starts, not when its tokens are read, so a caller that read
  before a sign-in can replace it (`AStaleReaderOverwritesASignin`, `AStaleCallerReplacesTheChange`). A
  sign-in or sign-out is safe exactly when no such caller is between its read and its decision
  (`AChangeIsSafeExactlyWhen`).
- The cache's note that the entry just written stays is not so: an entry rewritten at its old place in the
  order can be the one its own eviction drops (`AWriteMayDropItself`). It stays exactly when it fits with the
  rows served after it, or is last in the order (`AWriteSurvivesExactlyWhen`).
- The cache's note on owners speaks of sessions the service link has named a bot for; the code asks whether
  any earlier write of the row had. Bytes written for an owner stay that owner's exactly when none had
  (`OwnedBytesAreSharedExactlyWhen`), so a private write that names its bot is shared when it is repeated
  (`APrivateTranscriptIsShared`).
- The path canonicaliser's note that no hop can decode a malformed escape holds of hops that refuse it
  (`NoDecodeMovesAnAcceptedSegment`). Hops that decode the valid escapes around a malformed one move an
  accepted segment exactly when they move the stage at which a strict decode gets stuck
  (`LenientHopsMoveExactlyWhen`), and there is such a segment (`AnAcceptedSegmentGetsAway`).
- The scorer's note that an exact match dominates everything else holds exactly of queries of up to thirteen
  characters (`AnExactMatchDominatesExactlyWhen`): in a longer one, changes of case can count for more.

## Model

| member | source | states |
|---|---|---|
| `ReplayWorld.EverySessionIncreases` | packages/hermes-shared/src/json-rpc-gateway.ts:391-593 | In every run of emits, drops, cuts, reopens, restarts, partial replays, expired replay calls and stale continuations, in which no dial is made over a replay that has already brought an answer or a numbered frame, the numbers the handlers see of one session within one server epoch strictly increase: nothing is delivered twice or out of order, even when live frames race the replay answer |
| `ReplayGaps.NothingIsLost` | packages/hermes-shared/src/json-rpc-gateway.ts:192-593 | In every run in which the ring still holds the log, the replays that settle were fulfilled, and a dial is made over a replay only while that replay parks every session with a watermark at the server of the moment and has a call without an answer, everything from the first number of a session the handlers saw up to its watermark was delivered, with no gap, drops in the middle of a replay included |
| `ReplayGaps.ADialLosesNothingExactlyWhen` | packages/hermes-shared/src/json-rpc-gateway.ts:192-256 | At any moment of any such run a dial loses nothing, whatever else the run goes on to do, if and only if it is not over a replay that leaves out a session with a watermark or has all its calls answered: over any other, a run leads to a watermark with a number missing below it |
| `ReplayGaps.AnOrphanedHoldLosesANumber` | packages/hermes-shared/src/json-rpc-gateway.ts:192-466 | The condition is needed: a run with every call still open, nothing parked and no restart tells a session its first number and then its third, because the socket was dialled over while the replay of two other sessions was under way |
| `ReplayGaps.DrainedIsLevel` | packages/hermes-shared/src/json-rpc-gateway.ts:192-580 | At the end of such a run, with nothing left on the wire and no replay under way, the watermark of a session is the head of the server's log, and the delivered numbers are the whole stretch up to it |
| `ReplayDial.EveryRunIsHonest` | packages/hermes-shared/src/json-rpc-gateway.ts:391-593 | In every such run, besides, no number is delivered under the name of a server that never logged it |
| `ReplayDial.ADialIsHonestExactlyWhen` | packages/hermes-shared/src/json-rpc-gateway.ts:192-256 | From every state the invariant of these runs allows, a dial keeps both, whatever happens after it, if and only if it is not over a replay that has brought something: an answer to one of its calls, or a numbered frame it parked |
| `ReplayMisnamed.EveryOrderlyRunIsInOrder` | packages/hermes-shared/src/json-rpc-gateway.ts:192-593 | The numbers of a session go up within every epoch in more runs than those: in every run in which a dial is made over a replay only while it has parked no numbered frame, and what answers it brought are of a server in whose name nothing was told yet, none but the first with a number in it |
| `ReplayMisnamed.ADialKeepsTheOrderExactlyWhen` | packages/hermes-shared/src/json-rpc-gateway.ts:192-256 | From every state the invariant allows, a dial keeps that order, whatever happens after it, if and only if it is such a dial; from any other a run leads back to a lower number |
| `ReplayEdge.AStaleReplayTouchesNothing` | packages/hermes-shared/src/json-rpc-gateway.ts:483-526 | Once a socket was dropped, no continuation of a replay started before it changes any watermark, hold, epoch or delivery, at any later moment of any run and whatever its calls were answered |
| `ReplayNumbers.DispatchAllBySession` | packages/hermes-shared/src/json-rpc-gateway.ts:532-547 | Whatever is released through the seq gate, each session's handlers see exactly the numbers above its watermark in order, the watermark ends at the highest, and no other epoch's record moves |
| `ReplayEdge.NewSocketAsksForEveryGap` | packages/hermes-shared/src/json-rpc-gateway.ts:192-256 | A newly opened socket asks for the gap of every session with a watermark if and only if no replay was under way when it was dialled |
| `ReplayEdge.OrphanedReplayRepeatsANumber` | packages/hermes-shared/src/json-rpc-gateway.ts:192-201 | The condition is needed: a possible run, dialling over a bound socket that is no longer open while its replay is in flight, delivers the same number of the same session twice in one epoch |
| `ReplayClient.JsonRpcGatewayClient.Handle` | packages/hermes-shared/src/json-rpc-gateway.ts:391-417 | A live event greets with its epoch first, is parked when its session is being replayed, and otherwise moves the watermark and is delivered; proved against `ReplayClient.HandleEvent` |
| `ReplayClient.JsonRpcGatewayClient.Record` | packages/hermes-shared/src/json-rpc-gateway.ts:423-436 | A watermark only moves forward, and only on a finite number of a named session; proved against `ReplayClient.RecordSeq` |
| `ReplayClient.JsonRpcGatewayClient.DispatchNewer` | packages/hermes-shared/src/json-rpc-gateway.ts:532-547 | An event at or below the watermark is not delivered; an unnumbered one always is; proved against `ReplayClient.DispatchIfNewer` |
| `ReplayClient.JsonRpcGatewayClient.AdoptReplayEpoch` | packages/hermes-shared/src/json-rpc-gateway.ts:554-564 | A changed epoch drops every watermark; the first epoch drops none; proved against `ReplayClient.AdoptEpoch` |
| `ReplayClient.JsonRpcGatewayClient.BeginReplay` | packages/hermes-shared/src/json-rpc-gateway.ts:450-481 | A replay starts only when none is under way and something was seen; it asks from each watermark and holds exactly those sessions; proved against `ReplayClient.StartReplay` |
| `ReplayClient.JsonRpcGatewayClient.FinishReplay` | packages/hermes-shared/src/json-rpc-gateway.ts:483-526 | The settled answers are absorbed in session order and the parked frames released after them, unless the socket was dropped meanwhile; proved against `ReplayClient.ResumeReplay` |
| `ReplayClient.JsonRpcGatewayClient.AbsorbOne` | packages/hermes-shared/src/json-rpc-gateway.ts:490-517 | A rejected answer is skipped, one of another epoch resets the watermarks, and the events of any other pass the gate; proved against `ReplayClient.Absorb` |
| `ReplayClient.JsonRpcGatewayClient.FlushReplayHold` | packages/hermes-shared/src/json-rpc-gateway.ts:567-580 | Every parked frame passes the gate once, session by session in the order they were held; proved against `ReplayClient.FlushHold` |
| `ReplayClient.JsonRpcGatewayClient.Drop` | packages/hermes-shared/src/json-rpc-gateway.ts:583-593 | Dropping a socket fences its replay, forgets what it parked and leaves the watermarks; proved against `ReplayClient.DropSocket` |
| `ReplayClient.JsonRpcGatewayClient.Invalidate` | packages/hermes-shared/src/json-rpc-gateway.ts:323-348 | Closing or invalidating drops the bound socket, and without one changes nothing; proved against `ReplayClient.DropSocket` |
| `ReplayClient.JsonRpcGatewayClient.Dial` | packages/hermes-shared/src/json-rpc-gateway.ts:192-200 | A dial is ignored while a socket is open or being opened, and otherwise binds the new socket over the old one; proved against `ReplayClient.Connect` |
| `ReplayClient.JsonRpcGatewayClient.SocketOpened` | packages/hermes-shared/src/json-rpc-gateway.ts:241-255 | Only the bound socket opens the client, and opening starts a replay; proved against `ReplayClient.OnOpen` |
| `ReplayClient.JsonRpcGatewayClient.ConnectTimedOut` | packages/hermes-shared/src/json-rpc-gateway.ts:296-318 | Only the bound socket is dropped by its own timeout, without touching the replay state; proved against `ReplayClient.OnConnectTimeout` |
| `ReplayClient.JsonRpcGatewayClient.MessageArrived` | packages/hermes-shared/src/json-rpc-gateway.ts:203-213 | A message of a replaced socket changes nothing; proved against `ReplayClient.OnMessage` |
| `ConnectionFlow.NeverStuck` | packages/gateway-client/src/connection.ts:360-411 | After any run, a connection that is running and not paused is ready on a bound open socket, or holds the current token in a dial that something will still answer, or waits for the retry timer, or waits for a credential verdict, whatever the device said about the network |
| `ConnectionFlow.EveryWaitIsOnTheLadder` | packages/gateway-client/src/connection.ts:737-766 | In any run every wait before a redial is at least 150 ms and below 15 s, and at least 1.2 s after a protocol failure |
| `ConnectionFlow.StaysQuiet` | packages/gateway-client/src/connection.ts:253-333 | Once stopped, paused or terminally refused, no stale dial, timer, late close, late verdict, pause or retryNow changes the status, the explanation, or whether it runs; only start, resume or stop do |
| `ConnectionFlow.WedgesExactlyWhen` | packages/gateway-client/src/connection.ts:482-493 | A step leaves the client announcing a dial it has no socket for if and only if building the socket throws with no socket bound |
| `ConnectionFlow.WedgedForEver` | packages/gateway-client/src/connection.ts:482-506 | After that no run of events ever makes the connection ready again |
| `ConnectionFlow.ASocketThatCannotBeBuiltWedges` | packages/gateway-client/src/connection.ts:482-493 | Two events from a fresh connection wedge it: started, its first socket cannot be built |
| `ConnectionTallies.FewRedialsWithoutAWait` | packages/gateway-client/src/connection.ts:598-735 | Between two resets of the tallies at most two redials go out without a backoff wait, plus one for each verdict that was still open at the first |
| `ConnectionRedials.TheMostRedialsOfAWindow` | packages/gateway-client/src/connection.ts:598-735 | At any moment of any run at which the tallies have just been put back, the connection up and live, preparing a dial or waiting on the ladder, the most redials any continuation sends out without a wait before they are next put back is exactly two and one for each verdict still open: no continuation exceeds it and one reaches it |
| `ConnectionRedials.AtMostTwoRedialsExactlyWhen` | packages/gateway-client/src/connection.ts:598-735 | So whatever happens next at most two go out if and only if no call to onRejected is still out |
| `ConnectionRedials.AskingOpensAWindow` | packages/gateway-client/src/connection.ts:253-333 | Start, resume, retryNow and coming online, where they put the tallies back, leave such a moment, with a dial being prepared |
| `ConnectionRedials.ALateVerdictAddsARedial` | packages/gateway-client/src/connection.ts:702-735 | And such a verdict can be open: a run in which one asked for before retryNow makes it three |
| `ConnectionTallies.SigninIsDeserved` | packages/gateway-client/src/connection.ts:683-735 | needs_signin is reached only by a reauth verdict, or on an auth-class failure that is at least the second since the last other outcome |
| `GatewayConnection.GatewayConnection.Start` | packages/gateway-client/src/connection.ts:253-267 | Starting dials at once with clean tallies, unless already running; proved against `Connection.React` on `Start` |
| `GatewayConnection.GatewayConnection.Stop` | packages/gateway-client/src/connection.ts:270-275 | Stopping cancels the dial, both timers and the socket, and clears the explanation; proved against `Connection.React` on `Stop` |
| `GatewayConnection.GatewayConnection.Pause` | packages/gateway-client/src/connection.ts:286-294 | Pausing does the same for a running connection and leaves a stopped one with its explanation; proved against `Connection.React` on `Pause` |
| `GatewayConnection.GatewayConnection.Resume` | packages/gateway-client/src/connection.ts:297-313 | Resuming dials at once with clean tallies, also from a terminal state; proved against `Connection.OnResume` |
| `GatewayConnection.GatewayConnection.RetryNow` | packages/gateway-client/src/connection.ts:324-333 | Dials at once with clean tallies only while running and not paused; proved against `Connection.React` on `RetryNow` |
| `GatewayConnection.GatewayConnection.SetOnline` | packages/gateway-client/src/connection.ts:360-411 | A report never stops a dial; going offline while ready starts the grace, coming back redials only where no recent failure earned the ladder; proved against `Connection.React` on `SetOnline` |
| `GatewayConnection.GatewayConnection.RunDial` | packages/gateway-client/src/connection.ts:460-472 | A new dial takes a new token and leaves the one before it powerless; proved against `Connection.RunDial` |
| `GatewayConnection.GatewayConnection.PlanSettled` | packages/gateway-client/src/connection.ts:472-516 | A plan for a stale token is dropped, and a failed mint is handled as a failure of the dial that holds the current token; proved against `Connection.React` on `PlanSettled` |
| `GatewayConnection.GatewayConnection.RunMicrotasks` | packages/gateway-client/src/connection.ts:490-515 | A settled waiter completes or fails the dial that registered it, and no other; proved against `Connection.Microtasks` |
| `GatewayConnection.GatewayConnection.OnTransportClosed` | packages/gateway-client/src/connection.ts:567-596 | A drop fails the waiting dial, or the live connection, and nothing else; proved against `Connection.OnTransportClosed` |
| `GatewayConnection.GatewayConnection.OnGatewayReady` | packages/gateway-client/src/connection.ts:548-565 | Only the registered waiter hears of gateway.ready; proved against `Connection.React` on `GatewayReady` |
| `GatewayConnection.GatewayConnection.HandleFailure` | packages/gateway-client/src/connection.ts:598-649 | Config close codes, certificate and configuration failures end the connection for good, the others recover; proved against `Connection.HandleFailure` |
| `GatewayConnection.GatewayConnection.HandleTicketRejection` | packages/gateway-client/src/connection.ts:661-681 | The first refused ticket is answered with a fresh dial, the next counts against the credential; proved against `Connection.HandleTicketRejection` |
| `GatewayConnection.GatewayConnection.HandleAuthFailure` | packages/gateway-client/src/connection.ts:683-735 | The first auth failure asks for a verdict and the second in a row asks for a sign-in; proved against `Connection.HandleAuthFailure` |
| `GatewayConnection.GatewayConnection.VerdictSettled` | packages/gateway-client/src/connection.ts:702-735 | A late verdict acts only on a connection that is up, except that a broken one always breaks the streak; proved against `Connection.React` on `VerdictSettled` |
| `GatewayConnection.GatewayConnection.ScheduleReconnect` | packages/gateway-client/src/connection.ts:737-766 | Any non-auth outcome breaks both streaks, and a running connection waits one rung up; proved against `Connection.ScheduleReconnect` |
| `GatewayConnection.GatewayConnection.GraceEnds` | packages/gateway-client/src/connection.ts:386-390 | The grace tears the live socket down and waits on the ladder; proved against `Connection.OnGraceEnds` |
| `GatewayConnection.GatewayConnection.Teardown` | packages/gateway-client/src/connection.ts:768-774 | A teardown bumps the token, stops both timers and closes the socket; proved against `Connection.Teardown` |
| `GatewayConnection.GatewayConnection.SocketClosed` | packages/gateway-client/src/socket-factory.ts:80-82 | The close code is kept whichever generation it comes from, and only the bound one drops the client; proved against `Connection.OnSocketClosed` |
| `SocketFactory.ArmedExactlyWhen` | packages/gateway-client/src/socket-factory.ts:39-72 | In any order of arms, disarms and creates a plan waits for its address if and only if nothing since it was armed replaced, forgot or used it |
| `SocketFactory.APlanIsForOneSocket` | packages/gateway-client/src/socket-factory.ts:57-74 | In any order of calls no armed plan is used for two sockets |
| `SocketFactory.ADialUsesItsOwnPlan` | packages/gateway-client/src/socket-factory.ts:39-86 | A dial that arms and connects at once builds from its own plan whatever other dials left or forgot, and leaves none behind |
| `SocketFactory.DialPlanSocketFactory.ArmWith` | packages/gateway-client/src/socket-factory.ts:39-41 | Arming replaces whatever plan was waiting; proved against `SocketFactory.Step` on `Arm` |
| `SocketFactory.DialPlanSocketFactory.Clear` | packages/gateway-client/src/socket-factory.ts:44-46 | Disarming leaves nothing a later dial could use; proved against `SocketFactory.Step` on `Disarm` |
| `SocketFactory.DialPlanSocketFactory.Build` | packages/gateway-client/src/socket-factory.ts:57-86 | No plan, or one for another address, refuses and spends nothing; otherwise the plan is spent, also when the constructor throws; proved against `SocketFactory.Step` on `Create` |
| `Backoff.LadderBounds` | packages/hermes-shared/src/reconnect-backoff.ts:41-48 | Every rung waits at least half its ceiling and less than the cap, and no rung's minimum is below that of a lower rung |
| `Backoff.ProtocolWaits` | packages/gateway-client/src/connection.ts:55-67 | From the protocol floor up, a wait is at least 1.2 s for every draw |
| `SettingsStamps.StampsNeverGoBack` | packages/gateway-client/src/ui-meta.ts:450-630 | Over any interleaving of any number of devices at their awaits, the stamp of a person's app section never decreases between any two moments of a run, given that apps adopt what they are handed, nobody else dates the section back, and no edit, answer or failed re-read leaves a device that knows the gateway's current revision holding an older section than that |
| `SettingsExposure.AStepIsSafeExactlyWhen` | packages/gateway-client/src/ui-meta.ts:833-899 | At any moment of any such run a step meets that condition if and only if no continuation made of steps that meet it ever shows an older section than the gateway holds now: the condition shuts out every lowering and nothing else |
| `SettingsExposure.AnAnswerIsCarelessExactlyWhen` | packages/gateway-client/src/ui-meta.ts:866-881 | An answer fails the condition if and only if it refuses nothing and names the gateway's own revision of the home key to a device with a default profile that holds an older section |
| `SettingsAnswers.PrudentRunsAreCareful` | packages/gateway-client/src/ui-meta.ts:833-899 | In every run in which no edit and nobody else dates the section back, the answer to a write of the app section itself meets the condition, whatever happened while it was on its way: only answers about other keys and failed re-reads can fail it |
| `SettingsEdge.AnAnswerAboutOtherKeysLowersTheStamp` | packages/gateway-client/src/ui-meta.ts:868-870 | The condition is needed: a run from two fresh devices and an empty profile in which the answer to a write of other keys names the home key's new revision, after which a continuation replaces the newer section with an older one |
| `SettingsEdge.AFailedRereadLowersTheStamp` | packages/gateway-client/src/ui-meta.ts:872-899 | And a run from the same beginning in which the re-read after a conflict fails, after which the second attempt can land the losing bytes |
| `SettingsEdge.AMarkInFlightIsForgottenExactlyWhen` | packages/gateway-client/src/ui-meta.ts:866-881 | A mark made while a write is on its way is cleared with it, whatever the app holds by then, if and only if the answer refuses nothing and the write was of the key the mark is for |
| `SettingsEdge.AMarkIsForgotten` | packages/gateway-client/src/ui-meta.ts:866-881 | A run from two fresh devices at whose end a section edited and marked while its write was on its way is no longer marked, and the gateway holds the older one |
| `SettingsEdge.AReconcileMarks` | packages/gateway-client/src/ui-meta.ts:450-535 | A reconcile marks a clean app section if and only if it was just inherited, is dated later than the gateway's, or is missing there |
| `SettingsVersions.AVersionGoesDownExactlyWhen` | packages/gateway-client/src/ui-meta.ts:275-293 | At any moment of any run from devices at rest, a step other than somebody else's own write lowers the version the gateway holds at a key if and only if it is a write that names the key, at the gateway's own revision of it, over a later version than it sends |
| `SettingsVersions.AReconcileClaimsExactlyWhen` | packages/gateway-client/src/ui-meta.ts:450-535 | Over any gateway, a reconcile queues a write over a section it cannot read, at the revision it saw, if and only if for a bot it has a change or a section of its own, and for the app section it has a change, a section of its own or an anonymous one to inherit |
| `SettingsVersions.AnUnknownVersionIsReplacedExactlyWhen` | packages/gateway-client/src/ui-meta.ts:450-535 | So an idle device that takes a current roster goes on to write over a section of a later version if and only if it claims it so, and a continuation in which nobody else writes loses the later version |
| `SettingsEdge.AnUnknownVersionIsLost` | packages/gateway-client/src/ui-meta.ts:283-293 | A run from a fresh device, with a section of its own, and a profile a later build has written, at whose end the later version is gone |
| `SettingsKeys.OtherKeysKeepTheirValue` | packages/gateway-client/src/ui-meta.ts:731-927 | In any run of any devices, a key that is not Hermie's keeps the value and the revision its owner gave it |
| `SettingsKeys.AClearedMarkWasAccepted` | packages/gateway-client/src/ui-meta.ts:833-881 | Whenever a dirty mark is cleared in any run, the gateway had accepted, for every key of that request, the bytes built for that attempt |
| `SettingsRevisions.EveryWriteIsAtARevisionHeard` | packages/gateway-client/src/ui-meta.ts:790-846 | In any run from devices that have read nothing, every key a device writes is its own, is conditional, and is at a revision some roster it took showed or some answer it took told it, or at 0 for a key it never heard of |
| `UiMetaSync.UiMetaSync.Pull` | packages/gateway-client/src/ui-meta.ts:633-708 | The roster gives every Hermie key it names its revision, and the app section of this person, or the anonymous one to inherit; proved against `SettingsSync.Pulled` |
| `UiMetaSync.UiMetaSync.PullFailed` | packages/gateway-client/src/ui-meta.ts:633-644 | A roster that could not be read leaves every mark and revision and goes local |
| `UiMetaSync.UiMetaSync.ReconcileRead` | packages/gateway-client/src/ui-meta.ts:450-461 | What a reconcile hands to the app: the gateway's copy after a later local date was marked, with what is dirty kept; proved against `SettingsSync.Remote` |
| `UiMetaSync.UiMetaSync.ReconcileSeed` | packages/gateway-client/src/ui-meta.ts:462-474 | After the app adopted it, what the gateway lacks or was inherited is marked before the flush; proved against `SettingsSync.SeedWhatTheGatewayLacks` |
| `UiMetaSync.UiMetaSync.WithPendingKept` | packages/gateway-client/src/ui-meta.ts:549-576 | The gateway's copy except where this device holds a change: its dirty bots, and its app section when that is the newer one; proved against `SettingsSync.WithPendingKept` |
| `UiMetaSync.UiMetaSync.NoteNewerLocalApp` | packages/gateway-client/src/ui-meta.ts:498-508 | A local section dated later than the gateway's is marked, except on the inheritance pull; proved against `SettingsSync.NoteNewerLocalApp` |
| `UiMetaSync.UiMetaSync.SeedWhatTheGatewayLacks` | packages/gateway-client/src/ui-meta.ts:523-535 | Exactly the sections this device has and the gateway lacks are marked; proved against `SettingsSync.SeedWhatTheGatewayLacks` |
| `UiMetaSync.UiMetaSync.Batches` | packages/gateway-client/src/ui-meta.ts:731-788 | One request per profile, in the order of the marks, the app keys on the default profile; proved against `SettingsSync.Batches` |
| `UiMetaSync.UiMetaSync.Attempt` | packages/gateway-client/src/ui-meta.ts:790-846 | The bytes come from the app at the moment of the attempt, each key conditional on the revision this client knows; proved against `SettingsSync.Attempt` |
| `UiMetaSync.UiMetaSync.NoteAnswer` | packages/gateway-client/src/ui-meta.ts:866-874 | Every revision the answer names is taken, a conflict's own last; proved against `SettingsSync.NoteAnswer` |
| `UiMetaSync.UiMetaSync.ClearDirty` | packages/gateway-client/src/ui-meta.ts:919-927 | Clearing takes away the marks of the request's keys and no others; proved against `SettingsSync.ClearDirty` |
| `UiMetaSync.UiMetaSync.TakeAnswer` | packages/gateway-client/src/ui-meta.ts:866-881 | Marks go only when nothing conflicted; proved against `SettingsSync.NoteAnswer` |
| `UiMetaSync.UiMetaSync.Reread` | packages/gateway-client/src/ui-meta.ts:935-941 | A re-read hands the app the gateway's copy with what is dirty kept; proved against `SettingsSync.Pulled` |
| `UiMetaSync.UiMetaSync.SetUser` | packages/gateway-client/src/ui-meta.ts:412-419 | Another person drops the pending app write and keeps the bots'; proved against `SettingsSync.SetUser` |
| `UiMetaSync.UiMetaSync.Reset` | packages/gateway-client/src/ui-meta.ts:944-955 | A different gateway starts from nothing |
| `TokenProofs.OneRotationPerEpoch` | packages/gateway-client/src/native-auth.ts:306-439 | In any run at most one rotation is out per auth epoch, and in the current epoch it is the one every later caller joins |
| `TokenProofs.MemoryIsTheLastWrite` | packages/gateway-client/src/native-auth.ts:359-432 | In any run what memory serves is what was last written to the store, sign-in, sign-out or rotation, failed write or not |
| `TokenProofs.EveryCallerIsAnswerable` | packages/gateway-client/src/native-auth.ts:252-356 | In any run every suspended caller waits for a store read or a rotation that is still out |
| `TokenFences.ARotationIsFenced` | packages/gateway-client/src/native-auth.ts:359-413 | No rotation that was out when a sign-in or sign-out happened ever touches the remembered tokens, the written ones or the epoch afterwards, whatever it answers and however late |
| `TokenFences.AReadIsFenced` | packages/gateway-client/src/native-auth.ts:262-290 | No store read that was out when a sign-in or sign-out happened ever touches the remembered tokens afterwards |
| `TokenFences.AChangeIsSafeExactlyWhen` | packages/gateway-client/src/native-auth.ts:313-413 | In any run, after a sign-in or sign-out every rotation that could ever be accepted, and everything memory ever holds, descends from what was saved or from a later sign-in, if and only if at the change no caller was between its read and its decision with other tokens it may still rotate |
| `TokenFences.AStaleCallerReplacesTheChange` | packages/gateway-client/src/native-auth.ts:313-413 | From every state with such a caller, its going on and the answer to its rotation put what was rotated in the place of what was saved |
| `TokenFences.AStaleReaderOverwritesASignin` | packages/gateway-client/src/native-auth.ts:306-355 | Such a caller is one forced call away: asked just before a second sign-in, it replaces it |
| `TokenProofs.AnAcceptedRotationIsServed` | packages/gateway-client/src/native-auth.ts:408-432 | A rotation accepted in its own epoch is remembered at once, and every caller who joined it is served the rotated token whether or not the store write succeeds |
| `TokenProofs.WhatForgetsTheTokens` | packages/gateway-client/src/native-auth.ts:338-343 | The tokens are forgotten only on request, for want of a refresh token, or when the current epoch's rotation is definitively refused |
| `TokenBurst.ABurstOfRejectionsCostsOneRotation` | packages/gateway-client/src/native-auth.ts:319-355 | However many requests are refused with one token, in whatever order they ask, read, decide and are answered, sign-ins, sign-outs and refused rotations included, they cost one rotation, one more for each that came to nothing, and one more for each that ended while a caller had read the refused token and not decided yet; given that nobody hands that token out again and no other one expires meanwhile |
| `TokenCoordinator.TokenCoordinator.AccessToken` | packages/gateway-client/src/native-auth.ts:306-313 | A caller joins a running rotation before anything else; proved against `TokenRefresh.Step` on `Ask` |
| `TokenCoordinator.TokenCoordinator.Current` | packages/gateway-client/src/native-auth.ts:252-299 | Callers share one store read, which is not started when memory answers; proved against `TokenRefresh.ReadFor` |
| `TokenCoordinator.TokenCoordinator.LoadSettles` | packages/gateway-client/src/native-auth.ts:264-292 | A read of an older epoch is not remembered, and a failed one is not kept; proved against `TokenRefresh.Step` on `LoadSettles` |
| `TokenCoordinator.TokenCoordinator.GoOn` | packages/gateway-client/src/native-auth.ts:315-355 | After its read a caller is served, signed out, joined to a rotation or starts one; proved against `TokenRefresh.Step` on `GoOn` |
| `TokenCoordinator.TokenCoordinator.RefreshSettles` | packages/gateway-client/src/native-auth.ts:387-413 | An answer of an older epoch is refused, a definitive refusal signs out, an accepted one is remembered; proved against `TokenRefresh.Step` on `RefreshSettles` |
| `TokenCoordinator.TokenCoordinator.StoreSettles` | packages/gateway-client/src/native-auth.ts:415-437 | The store's answer ends the flight and decides nothing else; proved against `TokenRefresh.Step` on `StoreSettles` |
| `TokenCoordinator.TokenCoordinator.Save` | packages/gateway-client/src/native-auth.ts:359-363 | A sign-in raises the fence and is remembered; proved against `TokenRefresh.Step` on `Save` |
| `TokenCoordinator.TokenCoordinator.Clear` | packages/gateway-client/src/native-auth.ts:366-370 | A sign-out raises the fence and is remembered; proved against `TokenRefresh.Step` on `Clear` |
| `RpcProofs.EveryCallIsSettledOrPending` | packages/hermes-shared/src/json-rpc-channel.ts:236-314 | In any run every issued call is settled or pending under exactly one id, never both, and a detach settles all of them |
| `RpcProofs.ASettlementIsFinal` | packages/hermes-shared/src/json-rpc-channel.ts:255-313 | No later response, timeout, abort, failed send or detach changes how a call was settled |
| `RpcProofs.NoPendingIdIsReused` | packages/hermes-shared/src/json-rpc-channel.ts:253-304 | The id of the next call is neither pending nor on any request sent, so no pending entry is overwritten |
| `RpcProofs.AnAnswerSettlesTheCallThatAsked` | packages/hermes-shared/src/json-rpc-channel.ts:442-467 | An answer settles the one call whose request carried its id, as refused or resolved, and no other, whatever open requests it brings; those are then delivered to the channel with that call settled |
| `RpcProofs.AtMostOneAnswer` | packages/hermes-shared/src/json-rpc-channel.ts:340-394 | In any run at most one answer per delivered server request goes out, whoever answers and however late |
| `RpcProofs.ADeliveryAnswersOnce` | packages/hermes-shared/src/json-rpc-channel.ts:366-394 | While its handlers run a delivery puts out its first answer and nothing else |
| `RpcProofs.NotFoundExactlyWhenNobodyTakes` | packages/hermes-shared/src/json-rpc-channel.ts:366-394 | On an open transport, -32601 goes out, once, if and only if no handler takes, answers or crashes on the request |
| `RpcProofs.AtMostEightPings` | packages/hermes-shared/src/json-rpc-channel.ts:511-537 | In any run at most eight pings are outstanding |
| `RpcProofs.SettlingCommutes` | packages/hermes-shared/src/json-rpc-channel.ts:457-466 | Re-delivering the open requests before the caller sees its result changes neither |
| `JsonRpcChannel.JsonRpcRequestChannel.Request` | packages/hermes-shared/src/json-rpc-channel.ts:236-314 | An issued call is refused at once without a transport or with an aborted signal, and otherwise pends and is sent under a fresh id, or fails with the send; proved against `RpcChannel.IssueCall` |
| `JsonRpcChannel.JsonRpcRequestChannel.TimerFires` | packages/hermes-shared/src/json-rpc-channel.ts:276-285 | A timer settles its call only while it is pending; proved against `RpcChannel.Step` on `TimerFires` |
| `JsonRpcChannel.JsonRpcRequestChannel.AbortFires` | packages/hermes-shared/src/json-rpc-channel.ts:294-302 | An abort drops and settles its call; proved against `RpcChannel.Step` on `AbortFires` |
| `JsonRpcChannel.JsonRpcRequestChannel.DeliverRequest` | packages/hermes-shared/src/json-rpc-channel.ts:340-394 | Handlers are asked in order until one takes the request; a crash answers -32603 and stops; proved against `RpcChannel.Deliver` |
| `JsonRpcChannel.JsonRpcRequestChannel.HandleFrame` | packages/hermes-shared/src/json-rpc-channel.ts:418-481 | A frame is a server request, a pong, an answer or an event, in that order; proved against `RpcChannel.Step` on `Receive` |
| `JsonRpcChannel.JsonRpcRequestChannel.HeartbeatTick` | packages/hermes-shared/src/json-rpc-channel.ts:511-537 | A silent transport fails at the deadline, and otherwise one ping goes out and the oldest beyond eight is forgotten; proved against `RpcChannel.Step` on `Tick` |
| `JsonRpcChannel.JsonRpcRequestChannel.Detach` | packages/hermes-shared/src/json-rpc-channel.ts:225-229 | A detach leaves nothing pending and settles every call; proved against `RpcChannel.Step` on `Detach` |
| `JsonRpcChannel.JsonRpcRequestChannel.RejectAllPending` | packages/hermes-shared/src/json-rpc-channel.ts:568-577 | Every pending call is settled once, in whatever order; proved against `RpcChannel.RejectAll` |
| `TranscriptProofs.AHitIsTheNewestWrite` | packages/hermie-web/src/cache.ts:357-408 | Over any run a hit is what a plain map of the newest stored writes holds for the session the key names: its last 200 rows, and never to a reader who is not the owner |
| `TranscriptHits.AGetHitsExactlyWhen` | packages/hermie-web/src/cache.ts:357-408 | In any run a key is served if and only if the cache is on, the key is a live name, its reader may have it and its file is there |
| `TranscriptHits.AStoredWriteIsServed` | packages/hermie-web/src/cache.ts:277-408 | A stored write is served under every name it gave, with the session's newest rows, to exactly the readers who may have it, for as long as its row and its file stay and no other session's write takes the name |
| `TranscriptPrivacy.OwnedBytesAreSharedExactlyWhen` | packages/hermie-web/src/cache.ts:316-380 | Over any run the bytes a session's newest write stored for an owner are served, by every live name, to that owner, and to anybody else if and only if an earlier stored write of the same row had named a bot, whoever wrote it |
| `TranscriptPrivacy.APrivateTranscriptIsShared` | packages/hermie-web/src/cache.ts:316-334 | So a reader's own transcript that names its bot is that reader's alone when first written, and anybody's, under the bot's name, when written again |
| `TranscriptProofs.BytesAreTheSum` | packages/hermie-web/src/cache.ts:244-274 | Over any run the byte count is the sum of the live rows |
| `TranscriptProofs.EveryNameIsLive` | packages/hermie-web/src/cache.ts:410-419 | Over any run every alias names a live row |
| `TranscriptProofs.AnEvictionDropsExactly` | packages/hermie-web/src/cache.ts:463-479 | An eviction keeps a row if and only if it fits together with everything after it in the order, or is the last; afterwards the cap holds or one row is left |
| `TranscriptProofs.SurvivorsWereServedLater` | packages/hermie-web/src/cache.ts:463-479 | Every row that survives an eviction was served at least as recently as every row that goes |
| `TranscriptProofs.ASweepDropsExactly` | packages/hermie-web/src/cache.ts:429-455 | A sweep with an age limit, of a cache that is on, keeps a row if and only if it was served later than the cutoff |
| `TranscriptProofs.AWriteMayDropItself` | packages/hermie-web/src/cache.ts:457-479 | The session just written can be the one its own eviction drops, when it was last served before the others |
| `TranscriptPrivacy.AWriteSurvivesExactlyWhen` | packages/hermie-web/src/cache.ts:277-350 | After any run, what a stored write wrote outlives the eviction it ends with if and only if its size and the bytes of the rows after it in the order fit the cap, or it is last in the order |
| `TranscriptCache.TranscriptCache.Put` | packages/hermie-web/src/cache.ts:277-350 | An empty or failed write changes nothing; a stored one keeps a known bot and the place in the serving order, then evicts; proved against `TranscriptStore.PutEntry` |
| `TranscriptCache.TranscriptCache.Get` | packages/hermie-web/src/cache.ts:357-408 | A private row is a miss for anybody else, and a row whose file is gone is forgotten; proved against `TranscriptStore.GetEntry` |
| `TranscriptCache.TranscriptCache.Remember` | packages/hermie-web/src/cache.ts:244-267 | A rewritten session replaces its own bytes and answers to its names, a private one never to its bot's; proved against `TranscriptStore.Remember` |
| `TranscriptCache.TranscriptCache.Forget` | packages/hermie-web/src/cache.ts:410-419 | A forgotten row takes its bytes and all its names with it; proved against `TranscriptStore.Forget` |
| `TranscriptCache.TranscriptCache.Evict` | packages/hermie-web/src/cache.ts:463-479 | Rows go in the order they were served until the cap holds or one is left; proved against `TranscriptStore.Evict` |
| `TranscriptCache.TranscriptCache.Sweep` | packages/hermie-web/src/cache.ts:429-455 | Exactly the rows nobody was served since the cutoff go, and are counted; proved against `TranscriptStore.SweepRows` |
| `StableSort.SortIsStable` | packages/hermie-web/src/cache.ts:468-468 | The order rows are dropped in is a stable sort: rows that tie keep the order of the index |
| `GatewayPath.CanonicalIsWhatTheGatewayReads` | packages/hermie-web/src/options.ts:372-413 | For every raw path outside /api the canonical path is null or the gateway's own single percent-decode with empty segments dropped |
| `GatewayPath.NothingReadsOtherwise` | packages/hermie-web/src/options.ts:372-413 | A path the gateway routes to a given route outside /api is read here as that very route, or refused |
| `GatewayPath.NoDecodeMovesAnAcceptedSegment` | packages/hermie-web/src/options.ts:433-464 | However often a later hop decodes an accepted /api segment as decodeURIComponent does, no stage holds a dot segment, a separator or a control character, as sent or as NFKC folds it |
| `GatewayPath.AcceptedApiPathsStay` | packages/hermie-web/src/options.ts:386-390 | Every segment of an accepted /api path has that property |
| `ApiHops.LenientHopsMoveExactlyWhen` | packages/hermie-web/src/options.ts:433-464 | Some number of hops that decode the valid escapes around a malformed one moves an accepted segment if and only if they move the stage at which a strict decode gets stuck; a segment that decodes to the end is never moved |
| `ApiHops.AcceptedApiPathsStayExactlyWhen` | packages/hermie-web/src/options.ts:386-464 | The same if-and-only-if for every segment of an accepted /api path |
| `ApiHops.AnAcceptedSegmentGetsAway` | packages/hermie-web/src/options.ts:453-458 | The condition is needed: `%25zz%252f..` is accepted, and two such hops make of it two segments, the last of them two dots |
| `GatewayPath.ABrowserRouteIsNeverAllowed` | packages/hermie-web/src/options.ts:491-498 | However it is spelled in the visible ASCII of a request line, a path the gateway routes to the browser sign-in or its callback is refused |
| `GatewayPath.TheNativeRouteFollowsTheGatewaysPick` | packages/hermie-web/src/options.ts:491-516 | A path that is accepted and that the gateway takes to the native route is let through if and only if it names at most one provider and the one the gateway picks takes a password |
| `GatewayPath.SegmentMayMove` | packages/hermie-web/src/options.ts:433-464 | The loop over decoding stages refuses a segment exactly when some stage moves or it is still changing after the last pass |
| `GatewayPath.ReadPath` | packages/hermie-web/src/options.ts:372-413 | The canonical reading, segment by segment |
| `GatewayPath.DecodeSegments` | packages/hermie-web/src/options.ts:392-410 | Each segment outside /api is decoded once, and one that cannot be or that hides a separator refuses the path |
| `ZipProofs.ReadingAnArchive` | packages/hermie-web/src/zip.ts:31-82 | Any archive laid out as the format says, with any extra fields, comments, gaps and leading bytes, stored or deflated, reads back as exactly its members in order, provided no later bytes pass for an end record |
| `ZipProofs.TheScanFindsTheEnd` | packages/hermie-web/src/zip.ts:84-96 | The backward scan finds the true end record if and only if nothing behind it carries its signature |
| `ZipProofs.PrintingLaysOut` | packages/hermie-web/src/zip.ts:31-82 | What a specification printer writes is such an archive, so printing and reading compose |
| `EntryPath.AcceptedEntriesStayInside` | packages/hermie-web/src/zip.ts:99-108 | An entry is written exactly where its name resolves to, and is accepted if and only if it is neither absolute, drive-lettered nor null-bearing and that place is the destination or inside it under a name that does not start with two dots |
| `EntryPath.PlainNamesLand` | packages/hermie-web/src/zip.ts:99-108 | A name that never goes up lands under the destination by its own segments |
| `Extraction.NothingLandsOutside` | packages/hermie-web/src/zip.ts:116-144 | Whatever an archive holds, and also when it is refused half-way, no file is written outside the destination |
| `Extraction.TheFirstEscapeIsNamed` | packages/hermie-web/src/zip.ts:125-136 | An extraction with an escaping entry fails naming the first one, and writes nothing after it |
| `Extraction.EveryFileIsWritten` | packages/hermie-web/src/zip.ts:125-143 | Without an escaping entry every file entry is written where its stripped name resolves to, in order |
| `Extraction.TheWrapperIsFound` | packages/hermie-web/src/zip.ts:146-154 | A directory is stripped if and only if it wraps every entry, though only the first entry is asked for its name |
| `Extraction.StrippedNamesStayApart` | packages/hermie-web/src/zip.ts:122-127 | Stripping keeps two names apart, except a file called like the wrapper and an entry of that name inside it |
| `Extraction.ExtractZip` | packages/hermie-web/src/zip.ts:116-144 | The loop writes exactly these files and stops at the first refusal |
| `Zip.FindEndOfCentralDirectory` | packages/hermie-web/src/zip.ts:84-96 | The scan returns the last position that carries the signature and leaves room for the record, within the longest comment |
| `Zip.ReadDirectory` | packages/hermie-web/src/zip.ts:36-58 | The central directory is walked header by header, and one that is not a header refuses the archive |
| `Zip.Read` | packages/hermie-web/src/zip.ts:31-61 | The entries of the directory the end record points to |
| `HostPrivacy.EightGroups` | packages/gateway-client/src/host-privacy.ts:133-197 | A successful parse has eight groups below 65536 |
| `HostPrivacy.FullHextetsComeBack` | packages/gateway-client/src/host-privacy.ts:133-197 | Eight hextets come back from their full text |
| `HostPrivacy.CompressedHextetsComeBack` | packages/gateway-client/src/host-privacy.ts:133-197 | Eight hextets come back from their text compressed at any run of zeros, at either end or in the middle |
| `HostPrivacy.FullFormParses` | packages/gateway-client/src/host-privacy.ts:144-197 | Any eight readable groups, leading zeros or a dotted end included, parse to their values |
| `HostPrivacy.CompressedFormParses` | packages/gateway-client/src/host-privacy.ts:144-197 | Any two sides of at most seven readable groups around a double colon parse with zeros between |
| `HostPrivacy.MappedIsClassifiedAsIpv4` | packages/gateway-client/src/host-privacy.ts:199-239 | Any IPv4 address behind ::ffff: is classified exactly as that address |
| `HostPrivacy.MappedHextetsAreClassifiedAsIpv4` | packages/gateway-client/src/host-privacy.ts:199-239 | So is every other text of the same mapped hextets |
| `HostPrivacy.ParseSide` | packages/gateway-client/src/host-privacy.ts:144-177 | One side of a literal reads as its groups, a dotted end as two, or not at all |
| `Fuzzy.TheMatchIsTheLeastOne` | packages/hermes-shared/src/fuzzy.ts:60-99 | The matcher finds a folded query if and only if it is a subsequence of the folded text, and its positions are increasing and, one by one, the least of all embeddings |
| `Fuzzy.AllTokensMark` | packages/hermes-shared/src/fuzzy.ts:129-160 | A text matches all tokens if and only if it matches each, and the marked positions, in increasing order, are exactly those some token marks |
| `Fuzzy.AllTokensMatch` | packages/hermes-shared/src/fuzzy.ts:129-160 | A text matches several tokens if and only if each is a subsequence of it |
| `Fuzzy.RankingIsExactAndStable` | packages/hermes-shared/src/fuzzy.ts:168-188 | Ranking by one token or more returns exactly the matching items, each with its own match and as often as it came, by falling score, ties in the order they came |
| `FuzzyScores.AnExactMatchDominatesExactlyWhen` | packages/hermes-shared/src/fuzzy.ts:60-123 | In any alphabet whose fold keeps word boundaries and in which some letter has a capital, for every query of a given length a text that is the query outranks every other matching text, whatever its separators, case boundaries and gaps, if and only if the length is at most thirteen |
| `Fuzzy.ScanQuery` | packages/hermes-shared/src/fuzzy.ts:68-108 | The search loop stops at the first character that is not found behind the one before, and otherwise scores every step |
| `Fuzzy.ScoreTokens` | packages/hermes-shared/src/fuzzy.ts:129-160 | The tokens' scores add up, and one that does not match refuses the text |
| `Base64.EncodingComesBack` | packages/gateway-client/src/base64.ts:13-30 | A decoder written from the alphabet returns the original bytes for every length, all three tails included |
| `Base64.EncodedLength` | packages/gateway-client/src/base64.ts:13-30 | The text has four characters for every three bytes begun |
| `Base64.BytesToBase64` | packages/gateway-client/src/base64.ts:13-30 | The loop in steps of three writes the encoding those two are about |
| `PushSection.EveryRowIsItsOwners` | packages/gateway-client/src/push.ts:266-443 | However many devices write the section one after another, every installation's row is byte for byte the one its last write made of its registration, absent if it was off or every type switch was, and a row nobody wrote is untouched whatever its shape |
| `PushSection.ARowSaysWhatIsWanted` | packages/gateway-client/src/push.ts:266-297 | A device that is on has a row if and only if some type is wanted; the row, read back, asks for exactly those types and carries the fields of its own transport and of no other |
| `PushSection.StampsOfTheDayStay` | packages/gateway-client/src/push.ts:327-439 | A write keeps a seen stamp if and only if it is at most a day old, at the very time it says |
| `PushSection.AStampOfTheDaySurvives` | packages/gateway-client/src/push.ts:384-439 | A stamp within its day is lost by no number of devices that carry on what they read |
| `PushSection.CollectForeign` | packages/gateway-client/src/push.ts:306-318 | Exactly the rows of other installations, in whatever shape, are kept |

## Left out

- Sockets, `fetch`, timers, files, the secret store and JSON text: events and abstract values, as described above.
- The dial plan's protocols and headers: `SocketFactory` keeps its address, and in `Connection` a dial either gets a socket or fails to build one.
- The URL check in `connect`, request parameters and the text of error messages.
- `onSocketClose` intercepting a drop: the closing socket always drops the client.
- The registration and removal of event and status handlers while one of them runs.
- Two handlers of the replay client at once: each callback is one step, and a handler that throws is not modelled.
- `setUser` and `reset` in the middle of a run of the settings world: every device keeps its person throughout a run, and `SetUser` is proved on its own.
- `ReplayWorld.EverySessionIncreases`: asks that the owner never dials over a replay that has already brought an answer or a numbered frame, because exactly then a number can be out of order or under a name that is not its own (`ReplayDial.ADialIsHonestExactlyWhen`); for the order alone it asks more than is needed, and `ReplayMisnamed.EveryOrderlyRunIsInOrder` asks what is.
- `ReplayGaps.NothingIsLost`: asks of each dial over a replay that it be one that loses nothing, because from every other a number is lost (`ReplayGaps.ADialLosesNothingExactlyWhen`).
- `SettingsStamps.StampsNeverGoBack`: asks that every step be careful, because from each one that is not the stamp can go back (`SettingsExposure.AStepIsSafeExactlyWhen`).
- `ConnectionTallies.FewRedialsWithoutAWait`: counts the verdicts still open at the start of the window besides the two redials, because two alone is kept only where none is (`ConnectionRedials.AtMostTwoRedialsExactlyWhen`).
- `TokenBurst.ABurstOfRejectionsCostsOneRotation`: does not count rotations that an expiry asks for, nor tokens handed out a second time.
- `HostPrivacy.MappedIsClassifiedAsIpv4`: speaks of a dotted quad whose octets are at most 255, the ones the source accepts.
- `RpcProofs.NotFoundExactlyWhenNobodyTakes`: about handlers that do not themselves answer with the code -32601.
- `StableSort.SortIsStable`: models the language's own sort as an insertion sort; only its order and stability are used.
- The cache's index file and `load`: a run starts from an empty cache, and the file name of a session is the session itself.
- Overlapping methods of the cache: each is one step, since `forget` is not guarded against running twice.
- The host part of an address (`hostOfAddress`) and the classification of names: string clean-up and a list of suffixes.
- Unicode: text is a sequence of characters without normalisation, UTF-16 code units except where `GatewayPath` decodes bytes, which gives scalar values; NFKC, case mapping and white space are parameters, and the case fold maps one character to one.
- The gateway's reading of bytes that are not UTF-8: a parameter, of which the route results ask only that it keeps the text in front of what it could not read.
- The text of a query's tokens: `Fuzzy` starts from the token list, and scores are real numbers, so the rounding of a score is not modelled.
- `inflateRawSync`, checksums and the file system: inflation is a parameter, `Zip` leaves entry names as bytes, and `Extraction` starts from decoded names and records the files instead of writing them.
- `adoptedPushTypes` and the reading of per-bot overrides: a device's switches and overrides are values.
- JavaScript's own record semantics: a record is a map, so an installation, bot or key called `__proto__` is one like any other, and a replay asks in the order its sessions were first heard, also for ids that read as array indices, which `Object.entries` lists first; which answer is the first depends on that order.
- `Base64.EncodingComesBack`: about text the encoder wrote; the decoder it uses ignores the bits a last group leaves over, as most do.
- Windows separators and drive-relative paths in `path.resolve`: `EntryPath` resolves POSIX paths.
- Probing, credentials, HTTP, the front door, the proxy, the plugin, session search, slash commands, the author id and the gateway key: status-code branches and small pure helpers that would only add easy members.
- The service worker, translations, help text, the command line and all UI.
