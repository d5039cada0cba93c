# distributedRPC.js, verified

A Dafny model of one distributedRPC.js node and of many of them talking: the request/response protocol with its frame
codec and path router, the provider life cycle, the retry engine with the TCP and UDP servers that run on it, the service
manager's stores and the registration exchange, the UDP client's racing requests, and the broadcast address arithmetic.
`dafny verify dfyconfig.toml` checks everything.

Code that changes objects in place is a class whose methods are proved equal to functions on values (`View()`, `State()`,
the pool and the counters); the theorems about whole runs and histories are lemmas about those functions. Concurrency is
a step relation: one step is the code between two awaits, and a run is any sequence of steps.

| module | what it models |
|---|---|
| Utf8, FrameCodec | UTF-8 as `Buffer` writes and reads it (the decoder replaces malformed input), the 64-byte header |
| Router | splitting an API path, walking the handler tree and the specification tree |
| Provider | one node: pending pool, admission of requests, counters, responses |
| Protocol | any number of nodes, outstanding calls, deliveries in any order; frames are bytes |
| ManagerStores, Registration | the manager's nested maps against a flat log; the register call end to end |
| ManagerLink | the provider's connection to its manager, and what happens to it in the background |
| LifeCycle | life-cycle operations one after another, with faults, while the connection lives its own life |
| LifeEvents, LifeLink, LifeTasks | theorems over all histories of these: events, connection, states and handlers |
| Booking | discovery and registration interleaved at every await |
| Backoff, Retry | the wait arithmetic; the scheduler's loop with stop, abort and reset during any await |
| ServerSpec, SocketServer | TcpServer and UdpServer start and stop on top of the scheduler |
| ApiChannel | the API server of a provider that is halted and activated |
| UdpClient | overlapping `sendAndWait` calls on one socket |
| Addresses | the octet-wise and the 32-bit broadcast computation |
| Wrappers, States | shared datatypes |

## Where the code and its comments differ

The model follows the code.

- `AckType` says that errors are forced to be sent (src/types/basal-protocol.ts:31-34). No error frame is ever written:
  a request that fails is never answered, and its promise stays pending (`Protocol.CompleteAnswersOrLoses`,
  `Protocol.LostForever`).
- A request for an unknown API is counted as a success (`Provider.AdmitIff`).
- A frame delivered before `ask` has put its message into the pool is lost, with its promise (`Protocol.DeliveryDecides`).
- `_stop` says that it leaves the system channel active (src/procedure/life-cycle.ts:321-326). It deletes it, and the next
  start brings back neither the system nor the response channel (`LifeTasks.StopThenStart`).
- Discovery says that it retries until a manager is found (src/procedure/life-cycle.ts:361-365). An empty result ends it
  with the booking flag set, after which no discovery ever starts again (`LifeLink.FailedDiscoveryIsLast`,
  `Booking.AbandonedForGood`).
- Halting a provider without an API channel throws and leaves it in a state no operation accepts
  (`LifeTasks.HaltNeedsApiChannel`). Shutdown leaves a halted provider in state Halt (`LifeTasks.ShutdownRests`).
- A start that cannot connect to the manager, followed by a restart, leaves two handlers on the response channel
  (`LifeTasks.FailedStartThenRestart`).
- A discovery puts its client among the tasks before it connects, and a report reads the manager's information, which only
  a connected discovery brings. While such a client is there, every stop, halt and activation changes the state and then
  throws in its report, before it emits its event: for good after a discovery that does not connect
  (`LifeLink.TwoStartsInARow`), and for a while after a failed report or an error of the manager client
  (`LifeLink.TroubleLoses`, `LifeLink.FailedReportLooks` and `LifeLink.LostWhileConnecting`).
- A response channel that fails to connect, or never ends connecting, stays cached, and its peer is never answered again
  (`Registration.NeverAnsweredAgain`).
- Bind errors marked "Fatal, do not retry" are retried like any other (src/network/tcp-server.ts:554,
  `ServerSpec.StartSettles`).
- `sleep` promises to reject on abort; without a positive delay it does not look at the signal, so an aborted run can
  start its task again (`Retry.AbortEndsAttemptsIff`).
- One UDP message answers every waiting `sendAndWait` call, whoever it was meant for (`UdpClient.OneForAll`).
- An unknown interface name gives an empty list, not the error the comment promises
  (src/network/network-events.ts:109, `Addresses.ExternalOfHolds`).

## Model

| member | source | states |
|---|---|---|
| Utf8.RoundTrip | src/provider/service-provider.ts:681-708 | Text written in UTF-8 decodes to itself, whatever bytes follow it. |
| Utf8.ScalarForms | src/provider/service-provider.ts:681-708 | The encoding is the shortest of the four forms of section 3 of RFC 3629. |
| Utf8.StrayIsReplaced | src/provider/service-provider.ts:891 | A byte that cannot start a character is read as U+FFFD. |
| Utf8.CutOffIsReplaced | src/provider/service-provider.ts:891 | So is a character of two or three bytes that is cut off; the byte behind it is read again. |
| FrameCodec.BuildFrame | src/provider/service-provider.ts:681-708 | The in-place header writes and the concatenation give exactly the flag, the whole characters of the id that fit 63 bytes, NUL padding and the payload. |
| FrameCodec.WireLayout | src/provider/service-provider.ts:681-708 | For an id that fits: 64 bytes with flag, id in UTF-8 and NULs, and the payload behind them. |
| FrameCodec.WriteText | src/provider/service-provider.ts:681-684 | A buffer write puts in the longest run of whole characters that fits and leaves every other byte alone. |
| FrameCodec.FitIsLongest | src/provider/service-provider.ts:681-684 | What a write keeps of an id is the longest prefix that fits. |
| FrameCodec.DecodeEncode | src/provider/service-provider.ts:681-708 | For every id: reading a written frame gives back flag and payload, and the id without its NULs and without what did not fit. |
| FrameCodec.RoundTripIffPlain | src/provider/service-provider.ts:874-893 | The triple comes back exactly when the id has no NUL and at most 63 bytes. |
| FrameCodec.EncodeInjective | src/provider/service-provider.ts:681-708 | On such ids two equal frames carry the same flag, id and payload. |
| FrameCodec.LongIdTruncates | src/provider/service-provider.ts:681-684 | A longer NUL-free id comes back as a strict prefix, the longest one that fits. |
| FrameCodec.AsciiIsPlain | src/provider/service-provider.ts:681-684 | ASCII ids are written byte for byte, and up to 63 characters, UUID text (section 4 of RFC 9562) among them, they come back. |
| Router.SegmentsIffSpells | src/provider/service-provider.ts:1069-1071 | The segments found are the only ones that spell the path with any number of slashes before, between and behind them. |
| Router.ParseRequest | src/provider/service-provider.ts:1063-1102 | The loop over handler tree and specification computes the route: system call, handler with specification, silent miss, or TypeError. |
| Router.RouteIff | src/provider/service-provider.ts:1069-1102 | On matching trees a spelled path leads to handler and specification exactly if it ends at a function, slashes aside; the two-segment form under sys excepted. |
| Router.WalkIff | src/provider/service-provider.ts:1089-1102 | On any trees: what is found exactly when, and a TypeError exactly when the specification chain breaks above an existing handler path. |
| Router.ChannelRoute | src/provider/service-provider.ts:928-950 | The loop of the channel walk finds the function at the end of the path, if there is one. |
| Router.ChannelAgrees | src/provider/service-provider.ts:928-950 | Both walks find the same handler on every path that is not of the system form. |
| Provider.ServiceProvider.Ask | src/provider/service-provider.ts:340-357 | The message gets an id once, is put into the pool only behind a successful write, and a second try goes out under the same id. |
| Provider.ServiceProvider.Park | src/provider/service-provider.ts:346-356 | The pool maps the id to the message, with a promise unless no acknowledgement is wanted. |
| Provider.ServiceProvider.HandleApiResponse | src/provider/service-provider.ts:867-907 | Pool and settlements are those of `Answer` on the raw bytes. |
| Provider.UnknownIdIsIgnored | src/provider/service-provider.ts:896-906 | A frame with an unknown or already answered id changes nothing. |
| Provider.PendingIdIsSettled | src/provider/service-provider.ts:896-906 | A frame with a pending id settles that request only, with its flag and payload, and takes it out of the pool. |
| Provider.UnpromisedIdIsRemoved | src/provider/service-provider.ts:896-906 | A pending request without a promise leaves the pool and settles nothing. |
| Provider.ShortFrameIsIgnored | src/provider/service-provider.ts:867-876 | Less than 64 bytes are dropped. |
| Provider.ServiceProvider.Receive | src/provider/service-provider.ts:815-834 | A message is ignored, refused and counted at once, or accepted with handler and specification. |
| Provider.AdmitIff | src/provider/service-provider.ts:829-845 | On matching trees: accepted exactly if the peer is named and the path ends at a function; otherwise counted as a success, in the system form as invalid. |
| Provider.AdmitOthers | src/provider/service-provider.ts:815-845 | An empty message is ignored, and one without an object, a peer or a textual path is an invalid request. |
| Provider.BrokenSpecIsInvalid | src/provider/service-provider.ts:1089-1102 | On any trees a specification chain that breaks above an existing handler path makes an invalid request. |
| Provider.CounterKeyIff | src/provider/service-provider.ts:1181-1204 | A message has a counter exactly if it is a call with a truthy api. |
| Provider.FrameSays | src/provider/service-provider.ts:694-708 | A frame is written exactly if an acknowledgement is asked for and the data can be sent; read again it gives success, the id, and the bytes, text or "Ack" that the handler's return value stands for. |
| Provider.TextComesBack | src/provider/service-provider.ts:697-700 | Returned text is read back as that text. |
| Provider.ServiceProvider.Respond | src/provider/service-provider.ts:669-709 | The bytes written for a successful request, if an acknowledgement is asked for and the data can be sent; read again they give success, the id and what the handler returned. |
| Provider.ServiceProvider.Finish | src/provider/service-provider.ts:841-856 | Behind the await: one count for the verdict, and a frame only if handler and channel both succeeded. |
| Provider.ServiceProvider.UpdateApiCounter | src/provider/service-provider.ts:1181-1204 | One counter of the message's api moves, if it has a truthy api. |
| Provider.CountAddsOne | src/provider/service-provider.ts:1181-1204 | Counting adds exactly one to the sum of all counters of all paths and leaves other paths alone. |
| Provider.CountMovesOne | src/provider/service-provider.ts:1194-1202 | The counter that moves is the one of the message's api and verdict. |
| Provider.CountersAreNamed | src/provider/service-provider.ts:1194-1202 | Which of the three counters belongs to which verdict. |
| Protocol.Preserved | src/provider/service-provider.ts:815-907 | Every interleaving of any steps of any number of nodes keeps the whole invariant. |
| Protocol.SettlesAtMostOnce | src/provider/service-provider.ts:896-906 | Over every run: a promise settles at most once, by resolving, at the delivery of a frame, with the payload written earlier for that same request. |
| Protocol.AtMostOneFrame | src/provider/service-provider.ts:841-856 | Over every run: at most one frame is written for a request and at most one delivered. |
| Protocol.PoolIsExact | src/provider/service-provider.ts:345-356 | In every reachable state a pool is exactly the registered requests without a delivery since, unacknowledged ones included; a promise has settled exactly if it was registered and left the pool. |
| Protocol.CountersAddUp | src/provider/service-provider.ts:815-857 | In every reachable state, counters plus calls in flight equal the received messages that name an api; messages with a repeated id, a foreign one or none are received like any other. |
| Protocol.CountersAreExact | src/provider/service-provider.ts:1181-1204 | In every reachable state each of the three counters of an api is the number of messages, of whatever id, that finished with its verdict. |
| Protocol.ArrivalCounts | src/provider/service-provider.ts:815-834 | A message that arrives is received, and one that is refused has finished with that verdict under its own api. |
| Protocol.ForeignCounts | src/provider/service-provider.ts:815-857 | A foreign call runs at its provider under its own api and finishes with its verdict. |
| Protocol.NothingIsStuck | src/provider/service-provider.ts:815-907 | In every reachable state whatever is pending can proceed. |
| Protocol.ForeignFrameIsIgnored | src/provider/service-provider.ts:896-906 | In every reachable state a frame under an id that nobody in the system asked with, or without one, changes nothing. |
| Protocol.DeliveryAnswers | src/provider/service-provider.ts:896-906 | A frame in flight to the asker of a registered request settles it with the payload written for it. |
| Protocol.DeliveryDecides | src/provider/service-provider.ts:340-357 | The one delivery settles the promise exactly if it comes to the asker after registration; otherwise nothing is left that could. |
| Protocol.CompleteAnswersOrLoses | src/provider/service-provider.ts:841-856 | A call that succeeded, whose specification asks for an acknowledgement, whose data can be sent and whose write works sends one frame, to the channel that was looked up, with what its handler returned; otherwise no frame will ever come. It is counted under its verdict. |
| Protocol.LostForever | src/provider/service-provider.ts:841-856 | From there on, in every continuation, the promise does not settle and the request does not leave the pool. |
| Protocol.AnswerArrives | src/provider/service-provider.ts:669-709 | Over every run: the answer to an asker, once its request is registered and as long as its frame has not been delivered, is on its way to that asker, and its delivery settles the promise with what the handler returned, for good. |
| Protocol.RequestReachesHandler | src/provider/service-provider.ts:829-837 | Over every run: a request that is sent, and later received and completed, is the call of the handler at the end of its path, at the provider it was sent to and under the specification at that path. |
| ManagerStores.ManagerStore.GotReport | src/manager/service-manager.ts:181-219 | A valid report extends the flat log, an invalid one changes nothing, and the nested maps keep refining the log. |
| ManagerStores.ManagerStore.ClearReports | src/manager/service-manager.ts:112-120 | Clearing is logged and empties exactly that peer's history. |
| ManagerStores.ReportKeepsWindow | src/manager/service-manager.ts:192-213 | Push and shift in the nested maps keep, for every peer, exactly the last 60 reports of its history, and no group or list is empty. |
| ManagerStores.ClearKeepsWindow | src/manager/service-manager.ts:112-120 | Deleting an entry, and its group with the last one, does the same. |
| ManagerStores.ManagerStore.GetReports | src/manager/service-manager.ts:155-160 | The last min(60, n) valid reports since the last clear, in order. |
| ManagerStores.ManagerStore.GetLatestReport | src/manager/service-manager.ts:226-234 | The last report of the history, if any. |
| ManagerStores.ManagerStore.GetReportedInstances | src/manager/service-manager.ts:139-147 | Every peer with reports, exactly once, and no other. |
| ManagerStores.HistorySinceClear | src/manager/service-manager.ts:112-120 | A history is the peer's reports behind the last clear, in order. |
| ManagerStores.ManagerStore.PutProvider | src/manager/service-manager.ts:366-378 | The registration is logged, and the registry keeps holding the last one for every name and id. |
| ManagerStores.ManagerStore.GetRegisterInfo | src/manager/service-manager.ts:128-132 | The last registration under the peer's name and id. |
| ManagerStores.RegistrationStays | src/manager/service-manager.ts:366-378 | A registration holds until the same name and id registers again, whatever else happens. |
| Registration.Manager.GetResponseChannel | src/provider/service-provider.ts:471-517 | The lookup succeeds exactly if the peer has a name and an id and a channel is cached, connected or not, or a registration is found and connecting works; it waits for ever exactly if connecting does; a new channel is cached before it connects, and a cached one is never replaced. |
| Registration.Manager.Write | src/network/tcp-client.ts:149-159 | A write on a channel that is not connected sends nothing. |
| Registration.Manager.HandleRegister | src/provider/service-provider.ts:836-854 | The registration is stored before the lookup; a success frame with payload Ack leaves exactly if the arguments are usable, the lookup succeeds, its channel is connected and the write works; the count is that of the lookup, and there is none while a usable call waits for it. |
| Registration.CallIsCounted | src/provider/service-provider.ts:836-857 | The verdict of a register call case by case, and exactly when it is never counted. |
| Registration.NeverAnsweredAgain | src/provider/service-provider.ts:511-513 | Once connecting to a peer failed or hung, no later call of it is answered, whatever is registered or called in between, although every lookup succeeds. |
| Registration.RegisterProcedure.Begin | src/procedure/register.ts:72-109 | Nothing is sent without client, protocol, access point and a successful write; without acknowledgement the result is false although the call was sent. |
| Registration.RegisterProcedure.Settle | src/procedure/register.ts:110-137 | The result is whether the promise was resolved, and then the acknowledgement is announced. |
| Registration.Exchange | src/procedure/register.ts:96-138 | The whole exchange for every context, peer, connection and write outcome: result, frame, log, channels, pool and announcement; the promise stays pending exactly if no frame leaves. |
| Registration.RegisteringReaches | src/manager/service-manager.ts:241-245 | A provider that registers itself is found at once, others are unchanged, and it is answered exactly if it is named, the write works, and its cached channel is connected or, without one, connecting works. |
| Registration.RegisterFirst | src/provider/service-provider.ts:836-854 | Without a cached channel, a named provider's registration returns true, is stored, leads the channel to its address and leaves all others alone. |
| ManagerLink.DiscoveryIsItsHappenings | src/procedure/life-cycle.ts:366-414 | A discovery that a start waits for leaves and emits what the same discovery does in the background, step by step. |
| ManagerLink.DiscoveryEnds | src/procedure/life-cycle.ts:366-414 | A start that waits for its own discovery throws exactly if that cannot connect and hangs exactly if it never does. |
| ManagerLink.AnnouncedIff | src/procedure/life-cycle.ts:408-456 | When a connection, and when the loss of the manager, is announced. |
| ManagerLink.HappenAllFits | src/procedure/life-cycle.ts:366-456 | Whatever happens to the connection: the flag is set while a discovery is in flight, the information is there exactly behind a connected one, and the client has one error handler at most. |
| ManagerLink.UnbriefedWhileDiscovering | src/procedure/report.ts:83 | A report throws exactly while there is a manager client and the flag is set; then that discovery is still connecting or has given up. |
| LifeCycle.LifeCycle.DoStart | src/procedure/life-cycle.ts:292-319 | State, flags, tasks with handler counts, connection, timer and events behind a start, for every fault, a throw behind the API channel and a discovery that never ends included. |
| LifeCycle.LifeCycle.DoStop | src/procedure/life-cycle.ts:327-355 | The same for a stop; its loop deletes every task but the manager's and those that cannot be stopped, and a report that throws comes before the event. |
| LifeCycle.LifeCycle.DoRestart | src/procedure/life-cycle.ts:259-266 | The same for a restart. |
| LifeCycle.LifeCycle.DoShutdown | src/procedure/life-cycle.ts:274-285 | The same for a shutdown, which creates the system channel in order to unsubscribe it. |
| LifeCycle.LifeCycle.ReportAndAnnounce | src/procedure/life-cycle.ts:217-252 | The report at the end of an operation throws on missing information, where it runs; one that fails is handled as an error of the manager, before the event. |
| LifeCycle.LifeCycle.HandleTcpMgrError | src/procedure/life-cycle.ts:441-456 | An error of the manager unsubscribes, announces and begins a discovery. |
| LifeCycle.LifeCycle.LetAllHappen | src/procedure/life-cycle.ts:366-456 | The loop over what happens in the background is the fold over the happenings. |
| LifeEvents.EventsAlternateIff | src/procedure/life-cycle.ts:107-355 | Over every history, with any faults, failed reports, manager errors and background discoveries: started events alternate strictly with stopped and halted ones and tell the state after every operation, exactly if no report of a stop, halt or activation runs into a manager client without information. |
| LifeEvents.AlternateCounts | src/procedure/life-cycle.ts:107-355 | Alternation as numbers. |
| LifeEvents.LostStopBreaks | src/procedure/life-cycle.ts:350-354 | A stop whose report does that throws, Stopped, without its event, and the next start that succeeds emits a second started event in a row. |
| LifeLink.RunKeeps | src/procedure/life-cycle.ts:107-456 | What every happening, every discovery and every stop of the manager client keeps of connection and events, every history keeps. |
| LifeLink.LinkFits | src/procedure/life-cycle.ts:366-456 | So does every history keep flag, flight, information and handlers of the manager client consistent. |
| LifeLink.LosesWhileDiscovering | src/procedure/life-cycle.ts:397-411 | Behind every history an event is lost exactly if, where its report runs, there is the client of a discovery that has not connected. |
| LifeLink.CalmHistoriesLoseNone | src/procedure/life-cycle.ts:217-252 | Without a manager error, a failed report or a discovery that does not connect no history loses an event, whichever hooks throw and whichever tasks stay. |
| LifeLink.TwoStartsInARow | src/procedure/report.ts:83 | A first start that does not connect, then start, stop, start: two started events in a row, whatever happens to the manager meanwhile. |
| LifeLink.TroubleLoses | src/procedure/life-cycle.ts:243-250 | Behind an error of the manager or a failed report a stop loses its event if the new discovery is connecting when its report runs, and not if it is still searching or connected again. |
| LifeLink.FailedReportLooks | src/procedure/life-cycle.ts:243-250 | A stop whose report fails returns true and starts a discovery; the next start runs without waiting for it. |
| LifeLink.LostWhileConnecting | src/procedure/life-cycle.ts:366-368 | From there a stop loses its event while that discovery connects, the next start is the second in a row, and the discovery may connect after all. |
| LifeLink.DiscoveryGivesUp | src/procedure/life-cycle.ts:366-414 | Once the flag is set without a discovery that could clear it, no history emits another connection or gets a manager client. |
| LifeLink.FailedDiscoveryIsLast | src/procedure/life-cycle.ts:397-413 | So a discovery that finds nothing or does not connect is the last one, whether a start waited for it or not. |
| LifeTasks.TrapsHold | src/procedure/life-cycle.ts:292-299 | Starting, Stopping and Halting, left behind by a throw, are never left again. |
| LifeTasks.StartEnds | src/procedure/life-cycle.ts:292-319 | Outcome and state of a start from any state, for every fault: refused, Initializing, before or in Starting, or Running. |
| LifeTasks.ThrowingStartTraps | src/procedure/life-cycle.ts:308-312 | A start whose subclass throws, with or without its API channel open, ends in Starting, for ever. |
| LifeTasks.ThrowingStopTraps | src/procedure/life-cycle.ts:334-338 | A stop whose subclass throws ends in Stopping, for ever, and so do the restart and the shutdown it is part of. |
| LifeTasks.ActivateNeedsApiChannel | src/procedure/life-cycle.ts:114-117 | An activation without an API channel ends in Starting, for ever. |
| LifeTasks.WrongStateIsRefused | src/procedure/life-cycle.ts:107-147 | Stop, halt and activate in a wrong state change nothing; a reload never changes anything. |
| LifeTasks.StopLeaves | src/procedure/life-cycle.ts:340-351 | Which servers and handlers a stop leaves, with tasks that cannot be stopped. |
| LifeTasks.ThrowingRestart | src/procedure/life-cycle.ts:259-266 | Where a restart ends whose release or reload throws; otherwise it ends like its start. |
| LifeTasks.ThrowingShutdown | src/procedure/life-cycle.ts:274-285 | A shutdown whose release throws has closed its channels, and emits no event. |
| LifeTasks.ReportIsHappenings | src/procedure/life-cycle.ts:217-252 | Behind a report, connection and events are those of all that happened before it, during it and by its failure, in order, and then the event. |
| LifeTasks.StartIsHappenings | src/procedure/life-cycle.ts:301-318 | So are those of a start: before its discovery, by it, and behind it. |
| LifeTasks.ClosingIsHappenings | src/procedure/life-cycle.ts:274-279 | So are those of closing down, which stops the manager client last. |
| LifeTasks.HaltNeedsApiChannel | src/procedure/life-cycle.ts:107-147 | Halting a running provider: Halting for ever without an API channel; otherwise Halt, and activate leads back to Running with all tasks; each throws exactly if it loses its event. |
| LifeTasks.HaltAndBack | src/procedure/life-cycle.ts:107-147 | If nothing happens to the manager, activate undoes halt, both with their event, or both throwing without it. |
| LifeTasks.UnbornFits | src/provider/service-provider.ts:129-131 | A new provider meets the invariants that the histories keep. |
| LifeTasks.HistoriesRest | src/procedure/life-cycle.ts:107-355 | Over every history without faults of subclass, tasks and awaited discoveries, whatever happens to the manager: the state is Stopped, Running or Halt, no channel has two handlers, at Stopped at most an unsubscribed system channel remains besides the manager, and an operation throws exactly if it loses its event. |
| LifeTasks.StartRests | src/procedure/life-cycle.ts:301-318 | A start from Stopped ends Running and initialized, with response and system channel exactly if it was not initialized before. |
| LifeTasks.ShutdownRests | src/procedure/life-cycle.ts:274-285 | A shutdown ends uninitialized, without timer and manager, Stopped unless it was halted; one whose stop loses its event ends there. |
| LifeTasks.RestartRenews | src/procedure/life-cycle.ts:259-266 | A restart from Running whose report does not throw ends Running and initialized with one handler on every channel, and with one timer exactly if it reports to a manager. |
| LifeTasks.CalmRestart | src/procedure/life-cycle.ts:259-266 | Its events, if nothing goes wrong with the manager: one stop, the connection if there is one to make, and one start. |
| LifeTasks.StopThenStart | src/procedure/life-cycle.ts:327-355 | A stop removes all servers, and the next start has response and system channel exactly if the provider was not initialized. |
| LifeTasks.StartAddsHandlers | src/provider/service-provider.ts:1038-1055 | From any state, and whether it returns, throws or hangs: how many handlers a start adds to each channel, the API channel of a start that throws behind it included. |
| LifeTasks.SecondResponseHandler | src/provider/service-provider.ts:1038-1055 | The response channel gets a second handler exactly if an uninitialized provider with a subscribed one starts. |
| LifeTasks.FailedStartThenRestart | src/procedure/life-cycle.ts:301-308 | A first start that does not connect and a restart give the response channel two handlers. |
| LifeTasks.OneTimer | src/procedure/life-cycle.ts:579-628 | Over every history, faults included, at most one report timer runs and the provider holds it. |
| Booking.StepKeeps | src/procedure/life-cycle.ts:366-414 | Every step between two awaits keeps the booking invariant. |
| Booking.OneAtATime | src/procedure/life-cycle.ts:155-193 | In every interleaving at most one discovery and one registration loop are in flight, each with its flag set, and no client is ever given two error handlers. |
| Booking.FromIdle | src/procedure/life-cycle.ts:155-193 | In particular in every run of a new provider. |
| Booking.ReportThrowsIff | src/procedure/report.ts:74-83 | In every run a report throws exactly while there is a manager client and the flag of a discovery that has not connected; it is connecting, or gave up. |
| Booking.AbandonedForGood | src/procedure/life-cycle.ts:397-413 | A set flag without a discovery stays set, and no discovery begins, in every interleaving. |
| Booking.EndDecides | src/procedure/life-cycle.ts:397-413 | A discovery can be repeated exactly if it ended with a watched client. |
| Booking.HappeningsMatch | src/procedure/life-cycle.ts:366-456 | Any sequence of happenings of the sequential life cycle is a run of steps here that keeps flag, flight, information, client and handlers equal. |
| Booking.SequentialDiscovery | src/procedure/life-cycle.ts:366-414 | So is a discovery that a start waits for. |
| Booking.ShutdownMatches | src/procedure/life-cycle.ts:611-617 | So is the end of the manager client in a shutdown. |
| Booking.OnlyManagerRaises | src/procedure/life-cycle.ts:378-383 | In every interleaving only the client that is the manager task can raise an error that is heard; a replaced one was stopped. |
| Booking.HandlerGoesBy | src/procedure/life-cycle.ts:441-456 | An error handler goes only by its own error, or from the manager client by a failed report or a shutdown. |
| Booking.ErrorsAreHeardOnce | src/procedure/life-cycle.ts:441-456 | An error takes its handler with it; it leads to a new discovery unless it comes late, with no manager left. |
| Booking.RegistersUntilSuccess | src/procedure/life-cycle.ts:155-193 | In every interleaving a registration loop goes on until an attempt succeeds, and only then can another start. |
| Backoff.WaitsMultiply | src/common/retry.ts:181-196 | The first wait is the interval, and below the cap each is the one before times the multiplier, 2 for a multiplier below 1. |
| Backoff.WaitBehindReset | src/common/retry.ts:181-196 | Behind a reset during an attempt the wait is the interval divided by the multiplier, or the cap. |
| Backoff.TotalWithoutBackoff | src/common/retry.ts:181-184 | Without back-off n waits take n intervals. |
| Backoff.NeverDecreasesIff | src/common/retry.ts:181-196 | Waits never decrease exactly if back-off is off, the interval is not negative or nothing grows. |
| Backoff.CappedStaysCapped | src/common/retry.ts:181-196 | Once a wait is the cap, all later ones are. |
| Backoff.GeometricClosedForm | src/common/retry.ts:189-192 | The sum of uncapped waits in closed form. |
| Backoff.TotalIsGeometricThenCap | src/common/retry.ts:181-196 | The waits add up to a geometric sum up to saturation and the cap for each remaining one, and to n caps at most. |
| Retry.RetryScheduler.DoRun | src/common/retry.ts:130-166 | The loop computes state, outcome and trace of the run, for every behaviour of the task and every stop, abort and reset meanwhile. |
| Retry.RetryScheduler.Attempt | src/common/retry.ts:132-158 | One attempt with its callbacks and its sleep. |
| Retry.FreshRun | src/common/retry.ts:130-166 | A fresh scheduler with limit n left alone: min(first success, n) attempts, a retry callback for each non-final failure, exhaustion exactly when all fail, and the exact time slept. |
| Retry.FreshEvents | src/common/retry.ts:130-166 | All events of such a run in order, with attempt numbers, errors and delays. |
| Retry.AttemptDecides | src/common/retry.ts:130-166 | However a run got to an attempt: what each result, with the calls made meanwhile, makes of it. |
| Retry.AbortErrorIsRethrown | src/common/retry.ts:140-142 | An abort error of the task ends the run right there and is thrown again. |
| Retry.ExhaustionTime | src/common/retry.ts:181-205 | An exhausted run slept for a geometric sum up to saturation and the cap from then on, (n - 1) caps at most. |
| Retry.UnlimitedRun | src/common/retry.ts:198-205 | Without a limit a run never gives up. |
| Retry.StopEndsAttempts | src/common/retry.ts:172-174 | In every run no attempt starts after stop. |
| Retry.AbortEndsAttempts | src/common/retry.ts:207-217 | Nor after abort, if there is a signal and every sleep has a positive delay. |
| Retry.AbortEndsAttemptsIff | src/common/abort-aware.ts:46-86 | And that condition is exact for the runs of a new scheduler: without it, undisturbed failures lead to an abort that is ignored. |
| ServerSpec.LoopRefinesRun | src/network/tcp-server.ts:264-268 | The server's loop is the scheduler's run with the bind attempt as its task. |
| ServerSpec.StartSettles | src/network/tcp-server.ts:206-284 | Start resolves, Listening with counter 0, exactly if one of the first n binds listens; otherwise it rejects with the last error after n binds, in Error, Halt passed once. |
| ServerSpec.StartAsks | src/network/tcp-server.ts:206-223 | A start is refused exactly outside Stopped; otherwise every bind asks for the configured port if the server has none or is a UDP server, else for the port it has, and only a listen on port 0 changes it. |
| ServerSpec.FirstPortStays | src/network/tcp-server.ts:527-531 | The first port of a TCP server is the configured one, or for 0 the allocated one, and it is kept over every later history. |
| ServerSpec.ErrorIsShown | src/network/tcp-server.ts:544-556 | A failure shows in the states exactly if it cannot be retried, and is retried either way. |
| ServerSpec.FatalErrorHangs | src/network/tcp-server.ts:548-555 | With no error listener a fatal bind error leaves the start pending, in Error. |
| ServerSpec.UnlimitedNeverThrows | src/network/udp-server.ts:155-194 | Without a limit no start rejects, whatever happens. |
| ServerSpec.StopWhileSleeping | src/network/udp-server.ts:202-215 | A stop during a sleep ends the start, Stopped, with no further bind. |
| ServerSpec.StopWhileBinding | src/network/tcp-server.ts:509-582 | A stop while a bind is pending: the exact state and result for every answer of the socket. |
| ServerSpec.PortIsSticky | src/network/tcp-server.ts:217-223 | Over every start and stop history a TCP server asks for and reports the first port it had. |
| ApiChannel.PortSurvivesHalts | src/procedure/life-cycle.ts:107-147 | Over every history of halts and activations the provider keeps its servers, and its API server keeps the port. |
| ApiChannel.TurnsStopAndListen | src/procedure/life-cycle.ts:107-147 | A halt stops the API server; an activation left alone makes it listen on its port exactly if one of its binds does. |
| SocketServer.SocketServer.Start | src/network/tcp-server.ts:206-284 | The method is the specified start, with the sticky port for TCP and the configured one for UDP. |
| SocketServer.SocketServer.Stop | src/network/tcp-server.ts:291-321 | The method is the specified stop: state, abort and scheduler. |
| SocketServer.SocketServer.AttemptListen | src/network/udp-server.ts:303-370 | One bind with every answer of the socket and a stop meanwhile. |
| UdpClient.SettledByFirst | src/network/udp-client.ts:232-290 | A call is settled exactly by the first event after it that concerns it, and waits exactly if there was none. |
| UdpClient.FirstConcernSettles | src/network/udp-client.ts:232-290 | That event decides the result: a message resolves the call, its timeout resolves it with nothing, and an error, a close or its failure to send reject it. |
| UdpClient.OneForAll | src/network/udp-client.ts:238-274 | A message, an error or a close settles every waiting call, and with the same outcome. |
| UdpClient.UdpClient.SendAndWait | src/network/udp-client.ts:224-290 | A running client adds a timer and three listeners for the call; live timers and listeners of each kind are the unsettled calls. |
| UdpClient.UdpClient.OnTimer | src/network/udp-client.ts:233-237 | A timer resolves its call with an empty response, and no other. |
| UdpClient.UdpClient.OnMessage | src/network/udp-client.ts:239-260 | A message resolves all waiting calls with itself and no other, and the sets stay exact. |
| UdpClient.UdpClient.OnSocketError | src/network/udp-client.ts:262-265 | An error rejects all waiting calls with itself. |
| UdpClient.UdpClient.OnClosed | src/network/udp-client.ts:267-272 | A close rejects all waiting calls and leaves none unsettled. |
| UdpClient.UdpClient.OnSendFailed | src/network/udp-client.ts:286-289 | A failing send rejects its call, unless it was settled before, in which case it changes nothing. |
| Addresses.Inverse | scripts/get-host-cidr.sh:29-38 | ip_to_int and int_to_ip are inverse to each other. |
| Addresses.MaskIs | scripts/get-host-cidr.sh:40-44 | The 64-bit shift and mask give the netmask for every prefix from 0 to 32. |
| Addresses.ScriptIsTop | scripts/get-host-cidr.sh:40-48 | The script computes ip - ip mod 2^(32-p) + 2^(32-p) - 1. |
| Addresses.TopIsLast | scripts/get-host-cidr.sh:40-48 | That address is in the subnet of ip and no address of the subnet is above it (section 3.2.1.3 of RFC 1122). |
| Addresses.OctetsAgree | src/network/network-events.ts:135-143 | For any mask, octet by octet is the same as on the whole number. |
| Addresses.BroadcastIsTop | src/network/network-events.ts:135-143 | For the netmask of a prefix, both programs give the same address, the top of the subnet. |
| Addresses.GetAvailableBroadcastAddresses | src/network/network-events.ts:125-151 | One address for each external IPv4 address of the wanted interfaces, in order. |
| Addresses.ExternalOfHolds | src/network/network-events.ts:129-134 | Which addresses those are; none for an unknown interface. |
| Addresses.ExternalOfOne | src/network/network-events.ts:129-134 | The addresses of one interface. |
| Addresses.ExternalOfInOrder | src/network/network-events.ts:125-134 | Interfaces are answered in their order, each as often as it is there. |
| Addresses.ExternalInOrder | src/network/network-events.ts:129-134 | So are the addresses of one interface. |

## Left out

- Sockets, datagrams, timers, name resolution and the event loop are the environment: which answer comes, and when, is an
  input. One data event is one message, since the code does not reassemble streams.
- Metrics, tracing, logging, the dependency container, typed emitters, the interceptor and configuration loading are
  wrappers over libraries.
- JSON is taken as parsed or not parsed. Ids are sequences of Unicode scalar values, so lone surrogates are out; names
  inherited from Object.prototype are out of the path walk, the registry and the channel cache.
- Message ids are distinct and fit a header in `Protocol`, as generated UUIDs do; report retries, which reuse one id
  (`Provider.ServiceProvider.Ask`), are received there as foreign messages. A frame may go to any node and a write may
  fail.
- Protocol.ForeignFrameIsIgnored: the response to a foreign message that repeats an id of the system is not sent into the
  system, so what it might settle there is not modelled.
- Two overlapping first requests of one peer may open two channels; `Registration` handles one call at a time. The
  channels are dropped when the manager releases its resources, which is not part of its histories.
- `_handleTcpSysRequest` reads an unset result and answers with a boolean that cannot be put in a buffer;
  `UdpDiscovery._collectResponses` never settles on its timeout.
- TcpServer's open connections and byte counters, and the closing of old sockets, are not part of the server model. The
  error object with which a UDP bind rejects when nobody listens for errors is taken to be the bind error.
- LifeCycle.LifeCycle.DoStart: listening of the channel servers succeeds, as does everything but the hooks, the
  discovery, the stopping of tasks and the reports; other tasks of a subclass, such as the manager's broadcast listener,
  are not tracked.
- That a discovery, or a response channel, cannot connect means an error the client retries
  (src/network/tcp-client.ts:427-430), or a connect that throws, under a finite number of retries. Any other error is
  emitted where nobody listens, and the connection never ends; the process is taken to survive that, as it does a
  rejection that nobody handles.
- Life-cycle operations run one after the other; only the manager connection runs beside them. A timed report that throws
  is an unhandled rejection of the timer's callback and a background discovery that cannot connect one of the error
  handler, not part of any operation.
- Booking.OneAtATime: a discovery whose manager names no provider is not modelled; its client would be undefined.
- The order in which maps, sets of listeners and interface lists of a host are enumerated is free.
- `getReports` returns the stored array itself; a caller that changes it is not modelled.
- Times are reals without rounding.
