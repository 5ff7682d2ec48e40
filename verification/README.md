# CommandRelay, verified

CommandRelay streams terminal panes to clients that come and go, and decides
which client may type into which pane. This project models its stateful parts in
Dafny and proves what they promise over whole runs.

Each component is modelled twice where the program keeps state in objects. A
function on values says what a step does, and theorems about runs are proved of
it. A class with the program's fields and loops is proved to do exactly that. The
engine's runs, in `EngineRuns`, are made of the very functions its methods are proved
to compute; `Resume` proves that they are runs of the replication protocol, and
`EngineAgreement` says over them when a reader and the engine agree.

| files | what they model |
|---|---|
| `Sequenced`, `Watchers`, `Engine` | the polling engine with its bounded history |
| `EngineRuns` | runs of the engine with attaches suspended at their first capture, and watchers deleted and created meanwhile |
| `Replication`, `Agreement` | one pane and one reader that resumes from a cursor, as a log-replication protocol |
| `Disturbances` | the same with first captures the reader is not sent, and with events of earlier watchers |
| `Resume`, `EngineAgreement` | the proof that the engine's runs are runs of it, and the exact conditions of agreement over them |
| `StaleCursor`, `CarriedCursor` | readers whose cursor is of another lifetime of the watcher |
| `SampleRuns`, `OverlappingAttaches`, `EarlierWatcher`, `TwoLifetimes` | concrete runs of the engine outside those conditions |
| `Ownership`, `RateLimiter` | lane leases with their legacy form, and the sliding-window limiter |
| `Gateway`, `GatewaySafety`, `GatewayServer` | the gateway's step relation over clients, leases, limiters and engine, its safety over all runs, and the server object |
| `Access`, `Answers`, `Encoding` | who is authenticated, enabled, attached and within the limits, read off the messages alone, and what the gateway answers accordingly |
| `GatewayRuns`, `Standings` | the gateway with first captures awaited, and which attached clients are subscribed |
| `Relay`, `RelayAdmission` | the relay proxy: backlog, accounting, which upgrades are admitted and why sessions end |
| `OrderedMap`, `AgentCache`, `CacheOwner`, `ProxyAgents`, `ProxyDispatchers` | the bounded cache and the two factories that own resources through it |
| `ShellCommand` | quoting for a remote shell and the encoding of typed input |
| `MockReplay`, `Reducer`, `Reconnect` | the iOS mock transport with its reducer, the reconnect machine and its backoff |
| `Telemetry` | the latency ring buffer and nearest-rank percentiles |
| `RequestClient`, `Fates` | request correlation in the client library, and what becomes of each request |

Clock reads, captures, the success of a send or a write, random values, and what
the URL and message parsers answer are inputs of a step, so the theorems hold for
all of them. Clocks do not run backwards, and one claim may read the clock twice.

## What the proofs show about the code

Some promises hold only under a condition. The code is modelled as it is; each
such promise has a lemma with the exact condition or a failing run.

- Two first attaches of one pane that overlap at the capture
  (`src/bridge/bridge-engine.ts:216-219`) can leave a reader with a text the pane
  never had, because the second event is sent to one client only
  (`OverlappingAttaches.OverlappingFirstAttachesDisagree`). A client that detaches and
  attaches again during its first capture is sent the event of the deleted watcher, whose
  number can hide the events of the new one (`EarlierWatcher.StrayHidesSnapshot`).
  `EngineAgreement.AgreesIff` says exactly which of these a reader does not survive.
- A capture that returns after its watcher was deleted can also leave the poll timer
  running for nobody or delete the watcher that replaced its own, and one that fails
  after a poll can leave a watcher without subscribers. `EngineRuns.SoundIffSafe`
  says exactly when; `EngineRuns.TimerForNobody`, `EngineRuns.ReplacementDropped` and
  `EngineRuns.WatchedByNobody` are runs. A watched pane with events keeps the timer
  running unless `pollOnce`, which is public, is called while the timer is off.
- A client whose attach fails stays attached: it is not subscribed and may still type
  (`Standings.SubscribedIff`, `Standings.UnservedMayType`,
  `GatewayRuns.AttachedAndSubscribed`).
- A reader that keeps its cursor past the end of a watcher lifetime is silent until the
  new numbering passes it, and then appends deltas to the old text until it renders a
  snapshot (`CarriedCursor.EngineCarriedCursorAgreesIff`, `StaleCursor.ResumeAgreesIff`;
  runs in `TwoLifetimes`).
- A call exactly `retryAfterMs` after a denial is still denied; the first one
  strictly later is allowed (`RateLimiter.RetryIsExact`).
- A replay that starts past an event the reader has not applied loses it. That happens
  exactly when something unapplied is acknowledged at the time of a reconnect and
  something later is left to replay; the loss is reported as a gap exactly when the
  reader had applied an event before (`MockReplay.ReplaySafeIff`,
  `MockReplay.LossIsReportedIff`).
- The stopped phase of the reconnect machine is documented as terminal
  (`apps/ios/M0ProtocolMockClient/Sources/M0ProtocolMockClient/M1/M1ReconnectStateMachine.swift:17`);
  a connected trigger leaves it (`Reconnect.SilentAfterStopIff`).
- Closing the client, or failing to send, before its hello leaves the handshake timer
  armed, and its expiry ends whatever connection exists by then; no other step does
  (`RequestClient.TimersBelongIff`, `RequestClient.AbandonedTimerEndsConnection`).
- With a cache limit of zero the factories create agents and dispatchers that nobody
  cleans up (`ProxyAgents.AgentsAreDisposedOnce`).
- When a send fails, closing the connection rejects the failed request's own
  promise before the cancellation looks for it
  (`packages/commandrelay-client/src/index.ts:327-332`); the request is still
  settled once.

## Model

| member | source | states |
|---|---|---|
| Agreement.ResumeAgreement | src/bridge/bridge-engine.ts:126-335 | After any run of attaches, captures, polls, detaches, deliveries and dropped connections within one watcher lifetime, the reader shows the text at its cursor; once a live reader has received what is in flight, cursor and text are the head of the stream |
| EngineAgreement.AgreesIff | src/bridge/bridge-engine.ts:126-335 | The exact conditions, over every run of the engine in any lifetime of the pane's watcher, with any other panes and clients: the drained reader always shows the text of the event at its cursor, and the current text while live, if and only if no first capture that changes the text finishes while the reader is live on another connection, and no event of an earlier watcher reaches it that is ahead of it and not the text of that number; without such events the first condition alone decides whether a live drained reader always shows the current text, and it is always at the head if and only if no first capture at all finishes so |
| EngineAgreement.EngineResumeAgreement | src/bridge/bridge-engine.ts:126-335 | End-to-end resume: under those conditions the reader shows the text the engine held when it issued the event at the reader's cursor, and a live reader that has received what was sent is at the head and shows the current text |
| EngineAgreement.LiveReaderMisled | src/bridge/bridge-engine.ts:216-219 | In such a run, a capture that returns text for an earlier watcher to the live reader's connection misleads it if and only if that watcher had issued at least as many events as the current one |
| Disturbances.StepFollowed | src/bridge/bridge-engine.ts:126-293 | The step behind them: exactly which steps of the protocol, and which events of earlier watchers, take a reader off the text at its cursor or away from the head |
| Resume.StepProjects | src/bridge/bridge-engine.ts:126-293 | Each step of the engine gives the pane's watcher, and hands to the reader's connection, exactly what a step of the replication protocol does, or else one event of an earlier watcher |
| OverlappingAttaches.OverlappingFirstAttachesDisagree | src/bridge/bridge-engine.ts:216-219 | A concrete run of the engine with two overlapping first attaches, after which a drained, live reader shows a text the pane never had |
| EarlierWatcher.StrayHidesSnapshot | src/bridge/bridge-engine.ts:216-219 | A concrete run of the engine in which event 1 of a deleted watcher hides event 1 of the one that replaced it: the reader is live, has received everything, and shows the wrong text |
| StaleCursor.ResumeAgreesIff | src/bridge/bridge-engine.ts:145-191 | The reply to a resume with any cursor k: at or ahead of the stream the reader stays as it is; behind it, it ends at the head and shows the pane's text if and only if the reply holds a snapshot or it showed the text of event k |
| StaleCursor.CarriedCursorAgreesIff | src/bridge/bridge-engine.ts:249-252 | Over whole runs, for a reader that comes with cursor k and any text: unchanged until the stream reaches k, and from then on right if and only if it has rendered a snapshot or brought the text of event k |
| CarriedCursor.EngineCarriedCursorAgreesIff | src/bridge/bridge-engine.ts:126-263 | The same over runs of the engine, for a new lifetime of the watcher after any earlier ones |
| TwoLifetimes.OldTextStays | src/bridge/bridge-engine.ts:249-252 | A concrete run over two lifetimes of a watcher after which a live reader that has received everything shows the first lifetime's text |
| TwoLifetimes.DeltaLandsOnOldText | src/bridge/bridge-engine.ts:276-284 | One poll later it shows a text the pane never held |
| StaleCursor.StaleCursorFreezes | src/bridge/bridge-engine.ts:249-252 | Whatever else happens, a reader does not change while the stream has not passed its cursor |
| Agreement.HistoryWindow | src/bridge/bridge-engine.ts:298-318 | In every reachable state the history is exactly the last min(streamSeq, maxHistoryEvents) events, numbered consecutively up to streamSeq, each saying what the text became |
| Agreement.ReachableHistory | src/bridge/bridge-engine.ts:147-150 | From a fresh watcher on, so that the sorted copy of the history is the history |
| Replication.StreamReader.Receive | apps/ios/CommandRelay/CommandRelayApp/Gateway/BridgeWebSocketReadOnlyStreamService.swift:184-196 | One received chunk moves the resume sequence and the rendered text exactly as the reader function says |
| Replication.StreamReader.ReceiveBuffered | apps/ios/CommandRelay/CommandRelayApp/Gateway/BridgeWebSocketReadOnlyStreamService.swift:224-229 | The chunks buffered during a reconnect are filtered against a cursor that moves with them |
| Replication.PrepareBufferedOutput | apps/ios/CommandRelay/CommandRelayApp/Gateway/BridgeWebSocketReadOnlyStreamService.swift:291-306 | What is kept of the first buffered chunks renders to the same text, and ends at the same sequence, as consuming all of them |
| Replication.ConsumeInbox | apps/ios/CommandRelay/CommandRelayApp/Features/Stream/ReadOnlyStreamView.swift:134-141 | Folding what is in flight, with a snapshot replacing the transcript and a delta appended, takes a reader from the text at its cursor to the text at its final cursor |
| Watchers.ComputeDelta | src/bridge/bridge-engine.ts:324-335 | None exactly when nothing changed; otherwise applying the result to the previous text gives the current text |
| Sequenced.SortIsIdentity | src/bridge/bridge-engine.ts:147 | Sorting consecutive events changes nothing |
| Sequenced.AfterIsSuffix | src/bridge/bridge-engine.ts:150 | Of consecutive events the replay filter keeps a suffix |
| Watchers.ReplayDecision | src/bridge/bridge-engine.ts:145-191 | A resume replays if and only if streamSeq - min(streamSeq, maxHistoryEvents) <= lastSeq < streamSeq, with exactly lastSeq+1..streamSeq, and otherwise sends one snapshot |
| Watchers.FallbackLabel | src/server/bridge-runtime-failures.ts:130-138 | On metadata the engine produces, the label is ahead, empty or outside exactly as lastSeq is above, at or below the stream; on replay lastSeq + replayedCount = latestSeq |
| Watchers.MetadataIsExact | src/bridge/bridge-engine.ts:145-214 | The metadata of an attach names the oldest and newest retained events, and reports a gap if and only if the cursor lies before the window |
| Engine.BridgeEngine.AttachStart | src/bridge/bridge-engine.ts:131-214 | The part of attach before the first await: subscribes, and replays or sends one snapshot if events exist |
| Engine.BridgeEngine.AttachCaptured | src/bridge/bridge-engine.ts:216-240 | The part after the capture, on success and on failure |
| Engine.BridgeEngine.AttachClient | src/bridge/bridge-engine.ts:126-241 | A whole attach whose first capture is not interrupted |
| Engine.BridgeEngine.DetachClient | src/bridge/bridge-engine.ts:246-254 | Drops the subscription, the watcher with its last subscriber, and the timer with the last watcher |
| Engine.BridgeEngine.DetachClientFromAll | src/bridge/bridge-engine.ts:259-263 | The loop over detach equals removing the client everywhere at once |
| Engine.BridgeEngine.PollWatcher | src/bridge/bridge-engine.ts:273-290 | One pane of a poll: publishes a change to every subscriber, or reports the failure to each |
| Engine.BridgeEngine.PollOnce | src/bridge/bridge-engine.ts:268-293 | A poll visits each pane once and equals the step function folded over that order |
| Engine.DetachEachIsAll | src/bridge/bridge-engine.ts:259-263 | Detaching pane by pane, in any order that visits all, equals detaching from all |
| Engine.PollEachPane | src/bridge/bridge-engine.ts:272-290 | Each watcher ends as its own capture says, whatever the order of the panes |
| Engine.PollEachSent | src/bridge/bridge-engine.ts:282-288 | What is sent about a pane in a poll depends on that pane alone |
| Engine.PollReachesEach | src/bridge/bridge-engine.ts:273-290 | A failed capture is reported to every subscriber once; a changed text is sent to every subscriber once, as the next event, which turns the text sent last into the new one; an unchanged text is not sent |
| Engine.FirstAttachIsExact | src/bridge/bridge-engine.ts:216-232 | The metadata after a first capture describes the window with that event: no replay, no fallback, no gap |
| EngineRuns.SoundIffSafe | src/bridge/bridge-engine.ts:83-293 | Over every run, with attaches suspended at their captures, four exact conditions: the timer runs only while a pane is watched iff no capture returns for a deleted watcher while nothing is watched; it runs while a watched pane has events iff no poll publishes a first event without it; every watcher has a subscriber iff no first capture fails after a poll published for its client alone; nobody loses a pane without giving it up iff no capture fails for a deleted watcher without events that nobody else held while somebody watches the pane anew |
| EngineRuns.TimerIff | src/bridge/bridge-engine.ts:83-97 | Exactly which steps start the timer and which stop it, at every interleaving |
| EngineRuns.RunKeepsHost | src/bridge/bridge-engine.ts:126-293 | Every run keeps: each suspended attach holds a watcher of its pane, registered or deleted, and each history is the window of newest events |
| EngineRuns.TimerForNobody | src/bridge/bridge-engine.ts:216-221 | A concrete run that ends with the timer set and no pane watched |
| EngineRuns.WatchedByNobody | src/bridge/bridge-engine.ts:233-239 | A concrete run that ends with a pane watched by nobody |
| EngineRuns.ReplacementDropped | src/bridge/bridge-engine.ts:233-239 | A concrete run in which a failing capture deletes another client's watcher and the timer |
| Ownership.PaneInputOwnershipArbiter.ClaimLane | src/server/bridge-server-utils.ts:181-204 | Grants a free or own lane and an allowed override with a lease from the second clock read, refuses otherwise and names the owner |
| Ownership.PaneInputOwnershipArbiter.ReleasePaneIfOwnedBy | src/server/bridge-server-utils.ts:213-220 | Releases the lane if and only if a live lease of the client holds it |
| Ownership.PaneInputOwnershipArbiter.ReleaseAllOf | src/server/bridge-server-utils.ts:228-237 | Deletes exactly the live leases of the client and counts them |
| Ownership.PaneInputOwnershipArbiter.ExpireStaleOwners | src/server/bridge-server-utils.ts:262-268 | Keeps exactly the leases with expiry after now |
| Ownership.LegacyPaneOwners.Claim | src/server/bridge-server-utils.ts:321-334 | The claim on the legacy map |
| Ownership.LegacyPaneOwners.ReleasePane | src/server/bridge-server-utils.ts:354-358 | The release on the legacy map |
| Ownership.LegacyPaneOwners.ReleaseClient | src/server/bridge-server-utils.ts:377-383 | The counted release of a client on the legacy map |
| Ownership.ResolveLeaseDuration | src/server/bridge-server-utils.ts:146-152 | The lease is always positive: the configured value, or 30 s |
| Ownership.EagerSweepRefinesLazy | src/server/bridge-server-utils.ts:181-268 | On every run with a nondecreasing clock the sweeping arbiter answers as a specification that keeps all leases and filters at each read |
| Ownership.ShortRunMatchesLegacy | src/server/bridge-server-utils.ts:309-384 | On every run shorter than one lease the arbiter and the legacy map answer alike, counts included |
| RateLimiter.SlidingWindowRateLimiter.ConsumeOne | src/server/rate-limiter.ts:42-72 | One call trims, decides and records as the specification says, for its key only |
| RateLimiter.SlidingWindowRateLimiter.Clear | src/server/rate-limiter.ts:90-92 | Forgets one key and no other |
| RateLimiter.AllowedIffFewRecent | src/server/rate-limiter.ts:43-63 | After any run, a call is allowed if and only if fewer than maxEvents calls allowed since the last clear lie in the window, and the trimmed array is exactly those |
| RateLimiter.WindowBound | src/server/rate-limiter.ts:42-72 | Every closed interval of length windowMs holds at most maxEvents allowed calls |
| RateLimiter.ArrayBounded | src/server/rate-limiter.ts:51-64 | The array never holds more than maxEvents calls |
| RateLimiter.RetryIsExact | src/server/rate-limiter.ts:51-61 | After a denial every call up to and including now + retryAfterMs is denied and the first strictly later one is allowed |
| RateLimiter.DecisionReports | src/server/rate-limiter.ts:53-71 | A decision reports the limit, the window and how many more calls the same instant allows |
| GatewayRuns.AgreeAlways | src/server/bridge-server.ts:224-462 | Over every run, whatever comes while first captures are under way: each lease and each subscription belongs to a connected client attached to that pane, no attached set exceeds its cap, and each suspended attach holds a watcher |
| GatewayRuns.AttachedAndSubscribed | src/server/bridge-server.ts:342-385 | Over every such run: a client is attached from the last attach that was taken until it leaves, and an attached client is subscribed if and only if since then neither its first capture failed for the pane's watcher nor a failing capture of a deleted watcher took that watcher away |
| GatewayRuns.InterleavedExclusion | src/server/bridge-server.ts:420-436 | Writer mutual exclusion, as below, at every interleaving of first captures |
| GatewayRuns.InterleavedWriteBound | src/server/bridge-server.ts:405-436 | The bound on runtime writes, as below, at every interleaving of first captures |
| GatewayRuns.RunIsEngineRun | src/server/bridge-server.ts:342-385 | The gateway's engine makes a run of EngineRuns, so what is proved of all of those holds of it |
| Standings.SubscribedIff | src/server/bridge-server.ts:342-385 | While no first capture is interrupted, the replies say it: a client is attached iff an attach since it last left was acknowledged or failed at the capture, and it receives the pane's output iff the last such attach was acknowledged |
| Standings.UnservedMayType | src/server/bridge-server.ts:416-438 | A concrete run in which a client whose attach failed, and who is not subscribed, types into the pane |
| Gateway.ComponentsAgreeAlways | src/server/bridge-server.ts:224-462 | While no first capture is interrupted, moreover: every watcher has a subscriber and an event, and the timer is set if and only if a pane is watched |
| GatewaySafety.WriterMutualExclusion | src/server/bridge-server.ts:420-436 | Two consecutive writes to a pane by different clients are a lease apart, or the first left in between, or the second used an allowed override |
| GatewaySafety.RefusedIffRecentWriter | src/server/bridge-server.ts:428-436 | An otherwise acceptable input is refused if and only if another client wrote within a lease, has not left, and no allowed override is asked for; the refusal names that client |
| GatewaySafety.RuntimeWriteBound | src/server/bridge-server.ts:405-436 | No client causes more than maxInputsPerMinute runtime writes in any 60 s window of admission times |
| Answers.RecordsFollowMessages | src/server/bridge-server.ts:165-462 | Over every run, in terms of the messages alone: the connected clients are those that connected and did not close; one is authenticated if and only if no token is required or it presented the right one in a message that passed the message limiter; its input is enabled if and only if it is not disabled for all and, of its enable, disable and disconnect messages that were taken, the last is an enable; it is attached to the panes it attached to within the cap and has not left |
| Answers.InputAnswered | src/server/bridge-server.ts:399-443 | Over every run an input is answered by the first of these that fails: message limiter, authentication, input limiter, input policy, pane and data, attachment, size in bytes, lane; only if all hold is it written, and the trace and the leases change exactly accordingly |
| Answers.OthersAnswered | src/server/bridge-server.ts:305-462 | What every other message is answered, in terms of the messages before it |
| Answers.WritesAreEntitled | src/server/bridge-server.ts:399-443 | Each write of a run was called for by an input of a client that was authenticated, within both limits, enabled, and attached to that pane |
| Answers.OnlyAuthenticated | src/server/bridge-server.ts:305-308 | Only authenticated clients hold leases, are subscribed, or ever wrote |
| Answers.HandledBound | src/server/bridge-server.ts:183-186 | No client has more than maxMessagesPerMinute messages handled in any 60 s window |
| Answers.LimitersForget | src/server/bridge-server.ts:224-227 | The limiters remember connected clients only |
| Encoding.EncodingRoundTrip | src/server/bridge-server.ts:402 | The byte count of an input is that of its UTF-8 encoding, which a shortest-form decoder reads back |
| GatewayRuns.InterleavedAccess | src/server/bridge-server.ts:305-443 | At every interleaving of first captures, records and writes are what the messages make of them |
| GatewayRuns.InterleavedAuthentication | src/server/bridge-server.ts:305-308 | And only authenticated clients hold leases or are subscribed |
| GatewayServer.Server.OnConnection | src/server/bridge-server.ts:165-181 | A new client starts without panes and without input, and authenticated only when no token is set |
| GatewayServer.Server.OnMessage | src/server/bridge-server.ts:181-223 | The message limiter, the parse failure and the runtime failure around the handler |
| GatewayServer.Server.HandleClientMessage | src/server/bridge-server.ts:302-461 | Every message kind updates client, leases, limiters and engine exactly as the step function says |
| GatewayServer.Server.OnAttach | src/server/bridge-server.ts:342-371 | Attach with its cap, its order of effects and its failure |
| GatewayServer.Server.OnDetach | src/server/bridge-server.ts:372-385 | Detach releases the lane and the subscription |
| GatewayServer.Server.OnInput | src/server/bridge-server.ts:399-410 | Input first passes the input limiter |
| GatewayServer.Server.OnAdmitted | src/server/bridge-server.ts:411-427 | The policy, payload, attachment and size checks, in this order |
| GatewayServer.Server.ClaimLaneAndWrite | src/server/bridge-server.ts:428-442 | Claims the lane, then writes; a refused claim writes nothing |
| GatewayServer.Server.OnDisconnect | src/server/bridge-server.ts:449-458 | Leaves everything but stays connected |
| GatewayServer.Server.OnClose | src/server/bridge-server.ts:224-247 | Leaves everything, forgets the limiters and the client |
| Relay.RelayFifo | packages/commandrelay-relay-proxy/src/index.ts:241-316 | What went upstream is a prefix of what the client sent; while a session is not closing, delivered followed by pending is all of it, with an exact byte count and both caps respected; an open upstream has no backlog |
| Relay.RelayInvariant | packages/commandrelay-relay-proxy/src/index.ts:219-443 | In every reachable state live sessions plus reserved upgrades stay within maxConnections, active = live <= peak <= total, and the byte totals are the sums over all sessions ever |
| Relay.PeakIsMaximum | packages/commandrelay-relay-proxy/src/index.ts:338-343 | The peak counter is the true maximum of live sessions: never exceeded at any point of the run, and reached at one |
| RelayAdmission.UpgradeAdmittedIff | packages/commandrelay-relay-proxy/src/index.ts:352-388 | After any run an upgrade gets a place if and only if it is valid, no shutdown came, and live sessions and reservations are below maxConnections; a refused one changes nothing |
| RelayAdmission.ReservedIff | packages/commandrelay-relay-proxy/src/index.ts:352-411 | A place is held from an admissible upgrade until that upgrade is done or has failed |
| RelayAdmission.OpenedIff | packages/commandrelay-relay-proxy/src/index.ts:389-403 | A session is opened if and only if an upgrade that holds a place is done, wired, before a shutdown |
| RelayAdmission.SessionsComeFromUpgrades | packages/commandrelay-relay-proxy/src/index.ts:352-411 | Every session ever opened comes from an upgrade that was valid and admissible when it came and held its place since |
| RelayAdmission.UpstreamFollows | packages/commandrelay-relay-proxy/src/index.ts:306-332 | While a session lives its upstream is open if and only if it was reported open and has not left that state |
| RelayAdmission.EndsIff | packages/commandrelay-relay-proxy/src/index.ts:241-337 | Exactly which steps end a session |
| RelayAdmission.DownstreamCounted | packages/commandrelay-relay-proxy/src/index.ts:317-326 | The downstream counter of a session is the size of what was forwarded to its client |
| Relay.RelaySession.ReceiveFromClient | packages/commandrelay-relay-proxy/src/index.ts:279-302 | Queues, refuses or forwards one client frame |
| Relay.RelaySession.UpstreamOpen | packages/commandrelay-relay-proxy/src/index.ts:306-316 | The flush loop sends in order and stops at the first failure |
| Relay.RelaySession.ReceiveFromUpstream | packages/commandrelay-relay-proxy/src/index.ts:317-326 | Counts and forwards one upstream frame if the client is open |
| Relay.RelayProxy.OnUpgrade | packages/commandrelay-relay-proxy/src/index.ts:352-388 | Reserves a place, or refuses |
| Relay.RelayProxy.OnUpgraded | packages/commandrelay-relay-proxy/src/index.ts:389-411 | Wires the session unless shutting down, and gives the reservation back |
| Relay.RelayProxy.WireSession | packages/commandrelay-relay-proxy/src/index.ts:226-351 | Registers a session and counts it |
| Relay.RelayProxy.OnClientMessage | packages/commandrelay-relay-proxy/src/index.ts:279-302 | A client frame changes its session, the totals and nothing else |
| Relay.RelayProxy.OnUpstreamOpen | packages/commandrelay-relay-proxy/src/index.ts:306-316 | The upstream opening changes its session and nothing else |
| Relay.RelayProxy.OnUpstreamMessage | packages/commandrelay-relay-proxy/src/index.ts:317-326 | An upstream frame changes its session, the totals and nothing else |
| Relay.RelayProxy.CloseSession | packages/commandrelay-relay-proxy/src/index.ts:241-265 | Closing unregisters the session once and corrects the active count |
| Relay.RelayProxy.Close | packages/commandrelay-relay-proxy/src/index.ts:421-440 | Shutting down drops every session |
| AgentCache.BoundedAgentCache.Get | packages/proxy-agent/src/bounded-agent-cache.ts:66-74 | A hit moves its entry to the back; a miss changes nothing |
| AgentCache.BoundedAgentCache.Set | packages/proxy-agent/src/bounded-agent-cache.ts:82-103 | Replaces, appends, and evicts from the front while too many; nothing is stored when the limit is zero |
| AgentCache.BoundedAgentCache.Clear | packages/proxy-agent/src/bounded-agent-cache.ts:53-58 | Passes every resident to the callback, in order |
| AgentCache.ResidentsAreMostRecent | packages/proxy-agent/src/bounded-agent-cache.ts:66-103 | After any run the residents are the maxEntries most recently used keys, in the order of last use, and never more |
| AgentCache.VictimIsLeastRecent | packages/proxy-agent/src/bounded-agent-cache.ts:94-102 | A set evicts at most one other key, the least recently used of a full cache, and never its own |
| AgentCache.ResidentValueIsLastSet | packages/proxy-agent/src/bounded-agent-cache.ts:66-93 | A resident key maps to what the last set since the last clear stored |
| AgentCache.CacheConserves | packages/proxy-agent/src/bounded-agent-cache.ts:53-103 | As multisets, values taken in = values resident + values evicted |
| AgentCache.ClearEvictsEachOnce | packages/proxy-agent/src/bounded-agent-cache.ts:53-58 | After a clear each value was evicted exactly as often as it was inserted |
| CacheOwner.HitIsSafe | packages/proxy-agent/src/proxy-agent-factory.ts:266-275 | A hit was built for its key under the current settings and was never cleaned up |
| CacheOwner.InsertIsSafe | packages/proxy-agent/src/proxy-agent-factory.ts:277-278 | A new resource is not the one its own insertion evicts |
| ProxyAgents.CacheKeyInjective | packages/proxy-agent/src/proxy-agent-factory.ts:267 | The joined key determines proxy URL and protocol, because a protocol holds no separator |
| ProxyAgents.ProxyAgentFactory.ResolveTarget | packages/proxy-agent/src/proxy-agent-factory.ts:254-286 | One resolve: route, look up, build on a miss |
| ProxyAgents.ProxyAgentFactory.Update | packages/proxy-agent/src/proxy-agent-factory.ts:315-330 | New settings take effect and every agent is cleaned up |
| ProxyAgents.ProxyAgentFactory.DestroyAgents | packages/proxy-agent/src/proxy-agent-factory.ts:299-301 | Every cached agent is cleaned up |
| ProxyAgents.CachedRoutingIsTransparent | packages/proxy-agent/src/proxy-agent-factory.ts:254-330 | After any run resolve routes as the current settings do without a cache, error for error, with an agent for that proxy and protocol, not cleaned up and not older than the settings |
| ProxyAgents.RoutingIsRight | packages/proxy-agent/src/proxy-agent-factory.ts:254-372 | After any run, read off the protocols: a direct answer, one of the errors exactly on its input, or an agent of the class the proxy and the target protocol call for (Http exactly for http: and ws: targets through an http or https proxy, Https for https: and wss:, Socks and Pac for theirs) |
| ProxyAgents.AgentsAreDisposedOnce | packages/proxy-agent/src/proxy-agent-factory.ts:254-330 | No agent is ever cleaned up twice; after an update or a destroy exactly the agents ever created have been, if and only if the limit is above zero or none was created |
| ProxyDispatchers.ProxyUndiciDispatcherFactory.ResolveTarget | packages/proxy-undici/src/proxy-undici-dispatcher-factory.ts:112-152 | One resolve, with the protocol checks in their order |
| ProxyDispatchers.ProxyUndiciDispatcherFactory.ResolveDirect | packages/proxy-undici/src/proxy-undici-dispatcher-factory.ts:208-225 | One direct dispatcher is created and then reused |
| ProxyDispatchers.ProxyUndiciDispatcherFactory.DestroyDispatchers | packages/proxy-undici/src/proxy-undici-dispatcher-factory.ts:164-170 | Closes the direct dispatcher and every cached one |
| ProxyDispatchers.ProxyUndiciDispatcherFactory.Update | packages/proxy-undici/src/proxy-undici-dispatcher-factory.ts:184-199 | New settings take effect and every dispatcher is closed |
| ProxyDispatchers.CachedDispatchIsTransparent | packages/proxy-undici/src/proxy-undici-dispatcher-factory.ts:112-224 | As for agents, with the direct dispatcher included |
| ProxyDispatchers.DispatchIsRight | packages/proxy-undici/src/proxy-undici-dispatcher-factory.ts:112-152 | After any run, read off the protocols: one of the errors exactly on its input, the direct dispatcher, or one for that proxy |
| ProxyDispatchers.DispatchersAreClosedOnce | packages/proxy-undici/src/proxy-undici-dispatcher-factory.ts:112-199 | No dispatcher is closed twice; an update or a destroy closes every direct one, and every proxied one if and only if the limit is above zero or none was created |
| ShellCommand.QuotingRoundTrip | src/runtime/ssh-tmux-adapter.ts:308-317 | For every argument list, POSIX word splitting and quote removal of the built command give back exactly the list |
| ShellCommand.QuotingIsInjective | src/runtime/ssh-tmux-adapter.ts:308-317 | Two argument lists build the same command if and only if they are equal |
| ShellCommand.InputIsSpelled | src/runtime/ssh-tmux-adapter.ts:168-181 | The commands for an input type exactly that input |
| ShellCommand.InputCommandsDetermined | src/runtime/ssh-tmux-adapter.ts:168-181 | They are the only commands that do so with no empty literal, no newline in a literal and no two literals in a row |
| ShellCommand.CutShortSpellsPrefix | src/runtime/ssh-tmux-adapter.ts:172-180 | If a command fails, what was typed so far is a beginning of the input |
| ShellCommand.RemoteInputRoundTrip | src/runtime/ssh-tmux-adapter.ts:168-198 | Read back by the remote shell, the quoted commands still type exactly the raw input |
| ShellCommand.SshTmuxAdapter.SendInput | src/runtime/ssh-tmux-adapter.ts:168-181 | The loop issues those commands, quoted, up to and including the first that fails |
| ShellCommand.TmuxAdapter.SendInput | src/tmux/tmux-adapter.ts:127-144 | The local loop issues the same commands unquoted |
| MockReplay.ExactlyOnceAfterRedelivery | apps/ios/M0ProtocolMockClient/Sources/M0ProtocolMockClient/M1/M1PaneStreamReducer.swift:173-206 | For every mix of appends, broken-off replays and acknowledgements, with nothing unapplied acknowledged when a reconnect replays: the output is the appended chunks up to lastAppliedSeq, each once and in order, and no gap is reported |
| MockReplay.ReplaySafeIff | apps/ios/M0ProtocolMockClient/Sources/M0ProtocolMockClient/Client/M0MockClient.swift:75-84 | A replay skips no event if and only if nothing was acknowledged beyond what was applied or nothing is left to replay; it also leaves none behind if and only if nothing was acknowledged beyond what was applied or all was applied |
| MockReplay.LossIsReportedIff | apps/ios/M0ProtocolMockClient/Sources/M0ProtocolMockClient/M1/M1PaneStreamReducer.swift:185-191 | When a replay does skip events, the reducer reports a gap if and only if it had applied an event before |
| MockReplay.PrematureAcknowledgeLosesEvents | apps/ios/M0ProtocolMockClient/Sources/M0ProtocolMockClient/Client/M0MockClient.swift:69-84 | A concrete run in which an event is lost and no gap reported |
| MockReplay.ReconnectCatchesUp | apps/ios/M0ProtocolMockClient/Sources/M0ProtocolMockClient/Client/M0MockClient.swift:75-84 | From every reachable state where nothing the reader lacks was acknowledged, one undisturbed reconnect brings it to the end of the backlog |
| MockReplay.ReplayIsSuffix | apps/ios/M0ProtocolMockClient/Sources/M0ProtocolMockClient/Replay/M0ReplayPlanner.swift:23-30 | The planner returns exactly the events after the cursor; its sort changes nothing |
| MockReplay.AppliedEvent | apps/ios/M0ProtocolMockClient/Sources/M0ProtocolMockClient/M1/M1PaneStreamReducer.swift:173-206 | One envelope that is old or next keeps the output equal to the applied prefix |
| MockReplay.CursorIsGreatest | apps/ios/M0ProtocolMockClient/Sources/M0ProtocolMockClient/Replay/M0ReplayCursorStore.swift:24-27 | Over every run the cursor is the greatest sequence acknowledged |
| Reducer.StateFollowsActions | apps/ios/M0ProtocolMockClient/Sources/M0ProtocolMockClient/M1/M1PaneStreamReducer.swift:114-206 | For any actions, attaches to other panes and clears included: every field of the state is what the actions since the last change of pane make of it, and the stream stays read-only |
| Reducer.AttachForgets | apps/ios/M0ProtocolMockClient/Sources/M0ProtocolMockClient/M1/M1PaneStreamReducer.swift:151-171 | Attaching to another pane forgets everything about the one before |
| Reducer.TrimIsExact | apps/ios/M0ProtocolMockClient/Sources/M0ProtocolMockClient/M1/M1PaneStreamReducer.swift:156 | A pane name is cut down to what is between the white space at its ends |
| MockReplay.M0ReplayCursorStore.Record | apps/ios/M0ProtocolMockClient/Sources/M0ProtocolMockClient/Replay/M0ReplayCursorStore.swift:24-27 | The cursor is the maximum of what was recorded |
| MockReplay.M0MockClient.AppendEvent | apps/ios/M0ProtocolMockClient/Sources/M0ProtocolMockClient/Client/M0MockClient.swift:54-65 | Appends one envelope with the next sequence |
| MockReplay.M0MockClient.AcknowledgeSeq | apps/ios/M0ProtocolMockClient/Sources/M0ProtocolMockClient/Client/M0MockClient.swift:69-71 | Records the acknowledged sequence and nothing else |
| MockReplay.M0MockClient.ReconnectStream | apps/ios/M0ProtocolMockClient/Sources/M0ProtocolMockClient/Client/M0MockClient.swift:75-84 | Resume request and replay from the recorded cursor |
| Reconnect.HooksAlternate | apps/ios/M0ProtocolMockClient/Sources/M0ProtocolMockClient/M1/M1ReconnectStateMachine.swift:127-188 | Between connected triggers the hooks are exactly scheduled(1), resume, scheduled(2), resume, and so on, each delay one the policy gives for that attempt |
| Reconnect.EmitsIff | apps/ios/M0ProtocolMockClient/Sources/M0ProtocolMockClient/M1/M1ReconnectStateMachine.swift:127-196 | Exactly when each trigger emits a hook, which one, and with which delay |
| Reconnect.ResumeCarriesLatestCursor | apps/ios/M0ProtocolMockClient/Sources/M0ProtocolMockClient/M1/M1ReconnectStateMachine.swift:159-170 | A trigger emits at most one hook, and a resume carries the cursor announced last |
| Reconnect.ResumesFromOne | apps/ios/M0ProtocolMockClient/Sources/M0ProtocolMockClient/M1/M1ReconnectStateMachine.swift:41-60 | However the machine is started, no resume asks for a stream position below one |
| Reconnect.SilentAfterStopIff | apps/ios/M0ProtocolMockClient/Sources/M0ProtocolMockClient/M1/M1ReconnectStateMachine.swift:138-186 | After a stop, in any state, nothing is emitted if and only if no connected trigger is followed by a disconnected one before the next stop; a connected trigger ends the stopped phase |
| Reconnect.ScheduledDelaysFit | apps/ios/M0ProtocolMockClient/Sources/M0ProtocolMockClient/M1/M1ReconnectStateMachine.swift:190-196 | Every scheduled delay fits the cap of the policy |
| Reconnect.DelayGrows | apps/ios/M0ProtocolMockClient/Sources/M0ProtocolMockClient/Transport/M0ReconnectBackoffPolicy.swift:45-57 | For a fixed random unit a later attempt never waits less |
| Reconnect.DelayInBand | apps/ios/M0ProtocolMockClient/Sources/M0ProtocolMockClient/Transport/M0ReconnectBackoffPolicy.swift:45-57 | A delay is between zero and the cap and within the rounded jitter band |
| Reconnect.BaseIsCappedGrowth | apps/ios/M0ProtocolMockClient/Sources/M0ProtocolMockClient/Transport/M0ReconnectBackoffPolicy.swift:45-48 | The base delay starts at the initial delay and is multiplied for every further attempt until it reaches the cap |
| Reconnect.DelayIsRoundedPoint | apps/ios/M0ProtocolMockClient/Sources/M0ProtocolMockClient/Transport/M0ReconnectBackoffPolicy.swift:45-57 | The delay is the rounded point at the random unit of the way between the ends of the jitter band |
| Telemetry.LatencyWindow.RecordLatency | src/telemetry/bridge-telemetry.ts:236-246 | One sample enters the ring and the totals |
| Telemetry.LatencyWindow.RingHoldsRecent | src/telemetry/bridge-telemetry.ts:236-246 | The filled part of the ring is, as a multiset, the last min(count, windowSize) sanitized samples |
| Telemetry.LatencyWindow.TakeSnapshot | src/telemetry/bridge-telemetry.ts:254-278 | The snapshot is the summary of the samples, whatever the rotation of the ring |
| Telemetry.PercentileIsNearestRank | src/telemetry/bridge-telemetry.ts:300-306 | A percentile is the k-th smallest sample for k = ceil(n * ratio): at least k samples are no larger and fewer than k are smaller |
| Telemetry.RankIsUnique | src/telemetry/bridge-telemetry.ts:300-306 | That determines the value |
| Telemetry.SnapshotOrdered | src/telemetry/bridge-telemetry.ts:268-277 | minMs <= p50Ms <= p95Ms <= maxMs and minMs <= avgMs <= maxMs, after rounding |
| Telemetry.SnapshotMeans | src/telemetry/bridge-telemetry.ts:254-278 | The figures are the number, last, least, greatest and mean of all samples, and the nearest-rank median and 95th percentile, for k the smallest whole number not below n * ratio, of the newest in the window |
| RequestClient.SettledExactlyOnce | packages/commandrelay-client/src/index.ts:317-379 | In every reachable state each issued request is either waiting with its timer armed or was settled exactly once, and without a socket none is waiting |
| RequestClient.ResolvedByItsReply | packages/commandrelay-client/src/commandrelay-client-types.ts:28-41 | A request is resolved only by a valid reply that names it and is of a type its command expects |
| Fates.FateIsExact | packages/commandrelay-client/src/index.ts:161-481 | In every reachable state each step does to a waiting request exactly what it should: a valid reply of the one kind its command expects resolves it, and nothing else does; it is rejected for the reason that applies, or goes on waiting |
| Fates.IssuedIff | packages/commandrelay-client/src/index.ts:317-335 | A request is issued by a send on an open socket and by nothing else, numbered among its command |
| Fates.OpenIff | packages/commandrelay-client/src/index.ts:145-210 | The socket takes requests if and only if it opened while connecting and has neither left that state nor been ended since |
| RequestClient.IdDetermines | packages/commandrelay-client/src/index.ts:469-473 | Identifiers agree only for one command and one count, whatever the clock and the random source give |
| RequestClient.TimersBelongIff | packages/commandrelay-client/src/index.ts:145-210 | Over every run a handshake timer outlives its attempt if and only if some attempt was closed, or failed to send, before its hello; if none was, no timer ends an established connection |
| RequestClient.AbandonedTimerEndsConnection | packages/commandrelay-client/src/index.ts:190-210 | After any such attempt the old timer ends the next connection, established and with a request waiting, and rejects that request |
| RequestClient.CommandRelayClient.SendRequest | packages/commandrelay-client/src/index.ts:317-335 | Registers and sends; a failing send closes the connection |
| RequestClient.CommandRelayClient.DispatchIncoming | packages/commandrelay-client/src/index.ts:350-379 | Settles the request a reply names, in one of four ways |
| RequestClient.CommandRelayClient.HandleMessage | packages/commandrelay-client/src/index.ts:172-188 | The handshake and the dispatch of one message |
| RequestClient.CommandRelayClient.ClearPendingRequests | packages/commandrelay-client/src/index.ts:475-481 | Rejects every waiting request once, in order |
| RequestClient.CommandRelayClient.CancelPendingRequest | packages/commandrelay-client/src/index.ts:462-467 | Forgets one request and its timer |
| RequestClient.CommandRelayClient.RequestTimeout | packages/commandrelay-client/src/index.ts:449-452 | A timeout settles its request and no other |
| RequestClient.CommandRelayClient.OnSocketClosed | packages/commandrelay-client/src/index.ts:161-170 | A closed socket settles everything |

## Left out

- Sockets, HTTP, static files, child processes, audit writes and logging: their outcomes are step inputs.
- Agreement.ResumeAgreement: one watcher, no events of earlier ones, and first captures that do not finish while the reader is live elsewhere; EngineAgreement.AgreesIff is exact about the last two, over runs of the engine.
- EngineAgreement.AgreesIff: each run is within one lifetime of the pane's watcher, and the reader comes to it fresh; CarriedCursor has readers that come with a cursor, and leaves events of earlier watchers out.
- Gateway.ComponentsAgreeAlways: takes the first capture of an attach as one step, because interruptions at that await break the watcher and timer clauses in the ways EngineRuns describes; GatewayRuns proves the rest at every interleaving.
- Standings.SubscribedIff: likewise; GatewayRuns.AttachedAndSubscribed is the interleaved form.
- Engine.BridgeEngine.PollOnce: a whole poll with nothing between its captures; the runs of EngineRuns take a poll pane by pane, with anything in between and with watchers deleted meanwhile.
- Interleavings of the other awaits of the gateway's handlers (audit writes and replies): a message is one step, so a poll or a close falls between messages.
- The isPolling guard against overlapping polls, in runs: there polls of single panes are steps.
- Client records are values in a map; that a socket's handlers keep using a record after it left the map is not captured.
- Lane reports are a step of their own, apart from the session list that carries them, and the order of their rows by locale is not modelled.
- Fixed-width counters: sequence numbers, byte counts and timestamps are unbounded, so overflow of UInt64 and of JavaScript's safe integers is not modelled.
- Floating point: backoff, percentiles and averages are computed with exact reals; the conversion to nanoseconds with its saturation is left out.
- ProxyAgents: TLS and per-agent constructor options, NO_PROXY rules and the environment are behind the routing function; an agent constructor that throws by itself is not modelled, nor is how an agent without destroy, dispose or close is cleaned up.
- AgentCache: the dispatcher cache has the same text, so it has the same model; a stored undefined, which the code would take for a miss, does not occur.
- ShellCommand: tmux's own parsing of its arguments, NUL characters, shells outside POSIX, and the host fingerprint check before the first command.
- MockReplay: starts from an empty backlog, and its runs exclude clearing the output and attaching to another pane, both of which reset what the output means; Reducer has them.
- Encoding: a text is a sequence of Unicode scalar values, so the replacement of lone surrogates by Buffer.byteLength is not modelled.
- RequestClient: the wait for the protocol module inside connect, so two connects at once, and the events emitted for messages that answer no request.
- Relay: TLS, the configuration, origin and token checks (one input of an upgrade), and the grace period before a closed socket is disposed of; an idle timeout is a close.
- The collector's counters, the status layers and the health endpoint around the latency windows.
- The view model that clears its transcript but resumes from the old cursor, and the web page that appends snapshots: neither is the reader modelled here.
- The SSH session and controlled-input state machines: finite tables.
- Configuration, command-line parsing, JSON envelopes, release and performance scripts, the terminal user interface.
