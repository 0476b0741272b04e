# Shared-memory FMI: a verified model

The repository lets a co-simulation master drive an FMU in another process. Both map one
shared segment that holds one message slot; two named semaphores, `avail` and `signal`, order
the accesses. Nothing locks the slot. This project models that machinery and proves, over all
interleavings of the two processes, what it keeps.

| file | what it models |
|---|---|
| `Rendezvous.dfy` | the slot and the two semaphores as a state machine over atomic actions; untimed and timed waits |
| `Ipc.dfy` | `send`, `getMessage`, `sendReply` as methods, the other process running in every gap |
| `RemoteCall.dfy` | a caller and a driver loop on top of the slot, for any driver and any payload size function |
| `FmiValues.dfy` | FMI set and get calls, their marshalling, and what a history of calls means |
| `FmuProxy.dfy` | the proxy's marshalling loops, size check, and copies into the caller's arrays |
| `TestDriver.dfy`, `WholeStack.dfy` | the driver of the integration tests over its four arrays, and the whole stack against the reference meaning |
| `ProtocolDriver.dfy` | the Java driver loop over an arbitrary service |
| `Transport.dfy` | the byte copies between Java arrays and the slot |
| `Registry.dfy`, `Timing.dfy`, `Teardown.dfy` | instances, handles, which send is timed; which timings keep requests and replies matched |
| `LogChannel.dfy`, `LogOrder.dfy` | the callback channel and its thread; what the logger is given, and in which order |
| `Handshake.dfy`, `StaleKeys.dfy`, `Startup.dfy` | `create` against any number of `connect` attempts; keys with names left over; both as code |
| `Uri.dfy`, `UriRoundTrips.dfy` | the URI decoder, in place, and what it inverts |
| `TimedWait.dfy`, `WatchDog.dfy` | deadline arithmetic, the polling wait, the connection watchdog |

Time, allocation, scheduling, the environment's successes and failures, and the serialized
size of a payload are parameters. Imperative code that runs beside another process takes the
other side's attempted actions as an argument, so each method is proved for every schedule.

## Where the code does not do what one would expect

Each of these is a lemma below, most with the exact condition.

- The test driver resets one element of each array before every message, so it is not four
  plain maps: a call agrees with the same call on four maps exactly when no reset id it names
  was last given another value (`WholeStack.StackIsFourMaps`).
- After one timed-out send a later send can return the reply to the earlier one, or its own
  request, and a request can be overwritten before it is read. A timing of the sends rules
  these out exactly when no send follows a timed one
  (`Teardown.OwnRepliesIffNoSendAfterTimed`, `Teardown.ReadInOrderIffNoSendAfterTimed`,
  `Rendezvous.EchoAfterTimeout`).
- On the callback channel every send is timed. The log lines are guaranteed to be the messages
  sent exactly when no send follows a timed one (`LogOrder.LinesInOrderIffNoSendAfterTimed`),
  that is, for one message. After that messages can be lost, and two late messages can become
  one line and one empty line (`LogOrder.LateThreadLogsItsOwnReply`); but lines that come from
  messages never repeat or overtake one another (`LogOrder.LinesInSendingOrder`).
- A client object that fails to connect still unlinks the segment when it is destroyed, because
  a failed `shm_open` leaves the handle at -1 and the destructor tests for 0. Once `create` has
  finished, an attempt fails exactly when it opens the segment after some client object was
  destroyed (`Startup.AttemptFailsIffAfterDeath`); from then on the key is lost for good.
- Destructors unlink only the segment, so a used key leaves its semaphores behind. Any name left
  over, a semaphore or the segment, lets a connect succeed with objects that are not the
  server's: success means what it should exactly on a fresh key (`StaleKeys.SafeKeyIffFresh`,
  `StaleKeys.SafeSemaphoresIffNoneLeft`).
- A stale handle can come alive again if the allocator reuses its address: exactly when an
  instantiate given that address is not refused and not freed in turn
  (`Registry.FreedHandleRevives`).
- The test driver checks no size: the recorded payload size stays within the buffer exactly
  when the replies asked for fit it (`RemoteCall.SlotNeverOverflows`).
- Whole seconds of a timeout are added twice, and nanoseconds are not carried, so for part of
  every second a POSIX wait that has to block fails at once; whether it takes a token that is
  already there is then up to the system (`TimedWait.DeadlineBound`, `TimedWait.SignalWait`).
  The polling wait reports any error other than EAGAIN as success.
- An oversize reply of the Java driver becomes zero bytes: numeric gets report fmi2OK and
  write nothing, status calls report fmi2OK (`ProtocolDriver.OversizeReplyOutcome`). A free
  message that does not parse is answered, although nobody waits for the answer
  (`ProtocolDriver.AnsweredIff`).
- The watchdog declares a living server dead in some run exactly when the interval does not
  exceed post period plus reaction time, the period being positive
  (`WatchDog.SoundIffLongEnough`).
- A `%00` in a URI truncates the resulting C string, and nothing else does
  (`UriRoundTrips.TruncatedIffNulEscape`).

## Model

| member | source | states |
|---|---|---|
| Rendezvous.TokenConservation | libshmipc/IpcServer.cpp:107-122 | in every reachable state, with T timed-out sends and D unanswered messages, avail + signal + [server owns] + [client owns] + D = 1 + T; hence avail and the client's backlog are at most 1 + T, and a waiting send is due the reply numbered sends - T |
| Rendezvous.ExclusiveOwnership | libshmipc/IpcClient.cpp:34-51 | while T = D the two processes never own the slot together, and a posted token means that nobody does; client-side timeouts do not matter |
| Rendezvous.CallCorrespondence | libshmipc/IpcServer.cpp:110-121 | without timeouts, the n-th completed send returns the n-th reply and the n-th message read is the n-th request unaltered; an unanswered message is the last one and its send waits for ever; the returned pointer keeps showing its reply until the server copies again |
| Rendezvous.CorrespondenceUntilTeardown | libshmfmi/FmuProxy.cpp:606-608 | if only the last send of a channel times out, nothing is returned after it and everything returned before it is the reply to its own send, whatever the client answers or drops before or after the timeout |
| Rendezvous.LateClientReadsInOrder | shmfmi-server/src/main/native/sharedmemoryserver.cpp:93-100 | with any number of timed-out sends, the requests in the slot at the wake-ups of a client that answers everything are distinct and in sending order |
| Teardown.StaleReplyAfterTimeout | libshmipc/IpcServer.cpp:112-116 | at every position: after any number k of answered calls, a timed-out send followed by another has a run in which the later send returns the earlier reply and its request is never read |
| Teardown.OwnRepliesIffNoSendAfterTimed | libshmipc/IpcServer.cpp:107-122 | a timing of the sends of a channel guarantees, in every run, that each value returned is the reply to its own request, if and only if no send follows a timed one |
| Teardown.ReadInOrderIffNoSendAfterTimed | libshmipc/IpcClient.cpp:34-43 | a timing of the sends guarantees, in every run, that the client reads the requests unaltered and in order, the last one included, if and only if no send follows a timed one |
| Rendezvous.EchoAfterTimeout | libshmipc/IpcServer.cpp:110-121 | a concrete run with one timeout in which a send returns its own request |
| Ipc.Segment.Send | libshmipc/IpcServer.cpp:107-122 | under any client activity in between, send performs exactly copy, post, wait, in that order, is a run of the rendezvous, and returns the slot, NULL only if timed, or never; unanswered, it leaves no token behind |
| Ipc.Segment.GetMessage | libshmipc/IpcClient.cpp:34-43 | waits on avail, hands out the slot and owns it; NULL only if timed and no token is there |
| Ipc.Segment.SendReply | libshmipc/IpcClient.cpp:44-51 | copies the reply, then posts signal, in that order |
| Ipc.Segment.Wait | libshmipc/IpcBase.cpp:349-380 | signalWait on either semaphore, the other process running in every gap, comes to what the specified wait comes to |
| Ipc.AwaitFindsToken | libshmipc/IpcBase.cpp:349-380 | a wait ends with a token if and only if there is one at some moment it looks, and then with what the slot holds at the first such moment; otherwise none is there when it ends |
| Ipc.SendIsServed | libshmipc/IpcServer.cpp:107-122 | on a quiet channel, after any number of idle gaps, a client that serves the message makes send return its reply, whatever the timeout |
| Ipc.GetIsGiven | libshmipc/IpcClient.cpp:34-43 | getMessage returns a message posted before or after any number of idle gaps |
| RemoteCall.CallsRefineDirectCalls | libshmfmi/FmuProxy.cpp:47-239 | under every interleaving of caller and driver, the results so far are those of direct calls on the driver's state, in order; oversize calls return NULL and do not reach it; a call the driver does not answer is the last, and its caller waits for ever |
| RemoteCall.WorkIsConserved | libshmipc/IpcServer.cpp:107-122 | in every interleaving each call costs exactly 8 actions (9 with in-place editing, 1 if oversize), so after that many all calls have returned |
| RemoteCall.NeverStuck | shmfmi-server/src/main/java/org/intocps/java/fmi/service/ProtocolDriver.java:185-336 | while a call is outstanding an action that advances it is possible now or after the driver's next poll; a caller waiting on two empty semaphores has its message in the driver's hands |
| RemoteCall.SessionIsRun | libshmfmi/FmuProxy.cpp:158 | every session is a run of the rendezvous, so its conservation laws hold of sessions |
| RemoteCall.SlotIsLabelled | libshmfmi/FmuProxy.cpp:47-239 | while a call is under way the slot carries that call's command and the true size of its payload, request or reply |
| RemoteCall.SlotNeverOverflows | libshmfmi/FmuProxy.cpp:40-45 | in every state of a run the recorded payload size is at most SharedFmiBufferSize as long as the driver's replies fit, and between calls only then; oversize requests never matter |
| RemoteCall.OversizeCallsAreInvisible | libshmfmi/FmuProxy.cpp:40-45 | for every session there is one without the oversize calls that has the same channel, the same driver state and the same results to all other calls |
| FmiValues.ReadAfterWrite | testfmu-integration/RemoteTestDriver.cpp:113-155 | a reference named in a set call reads as the value at its last mention; every other reference keeps its value |
| FmiValues.UnmarshalDelivers | libshmfmi/FmuProxy.cpp:240-275 | a refused call is fatal and writes nothing; a reply of the expected type reaches the caller unaltered |
| FmuProxy.FmuProxy.Send | libshmfmi/FmuProxy.cpp:47-239 | refuses exactly the oversize messages and leaves the channel unchanged; else makes one untimed send of the call's own command, payload and size, and returns the payload now in the slot; served by a quiet peer, it returns that reply |
| FmuProxy.FmuProxy.CopyOut | libshmfmi/FmuProxy.cpp:366-368 | the reply's values become the front of the caller's array, the rest is untouched |
| FmuProxy.FmuProxy.SetReal | libshmfmi/FmuProxy.cpp:421-434 | sends the set request with all references and all values in order, once; fmi2Fatal if too big, else the status replied |
| FmuProxy.FmuProxy.SetBoolean | libshmfmi/FmuProxy.cpp:452-466 | the same, each non-zero integer sent as true |
| FmuProxy.FmuProxy.SetString | libshmfmi/FmuProxy.cpp:468-482 | the same for strings |
| FmuProxy.FmuProxy.GetReal | libshmfmi/FmuProxy.cpp:357-370 | sends the references once; an oversize request writes nothing and is fatal, a reply fills the front of the array and is OK even if it holds no value |
| FmuProxy.FmuProxy.GetString | libshmfmi/FmuProxy.cpp:402-415 | the same, but a reply not marked valid is fatal and writes nothing |
| FmuProxy.FmuProxy.FreeInstance | libshmfmi/FmuProxy.cpp:596-609 | one send of the free message that never blocks; it is the proxy's only send that can time out |
| TestDriver.Arena.AssignAll | testfmu-integration/RemoteTestDriver.cpp:117-120 | the in-place loop computes the element-by-element assignment |
| TestDriver.Arena.Serve | testfmu-integration/RemoteTestDriver.cpp:71-279 | one call of the driver changes the four arrays and replies as the specification function does, the reset of the four elements included |
| TestDriver.AnsweredIffNotFree | testfmu-integration/RemoteTestDriver.cpp:71-279 | every command but fmi2FreeInstance is answered, and only set requests change the arrays beyond the reset ids |
| TestDriver.CStrOfCString | testfmu-integration/RemoteTestDriver.cpp:150-152 | copying a C string through c_str() loses nothing |
| WholeStack.StackRefinesHistory | testfmu-integration/RemoteTestDriver.cpp:93-276 | for every list of set and get calls below TD_SIZE and every interleaving, each returned call gave exactly the outcome the history of accepted calls determines; oversize calls are fatal; the slot never overflows as long as the replies fit |
| WholeStack.StackNeverStuck | testfmu-integration/RemoteTestDriver.cpp:71-279 | while a set or get call has not returned, an action that advances it is possible now or after the driver's next poll |
| WholeStack.ServeKeepsStore | testfmu-integration/RemoteTestDriver.cpp:113-155 | one message served keeps all four arrays equal to the last writes of the history, except at the reset ids |
| WholeStack.AnswerMeaning | testfmu-integration/RemoteTestDriver.cpp:156-213 | a driver in step with a history answers every call as the history says |
| WholeStack.SetThenGet | libshmfmi/FmuProxy.cpp:421-434 | through the whole stack, values of any of the four types set at distinct references that are not reset come back from a later get of them, whatever other calls lie between that do not set them again |
| WholeStack.StackIsFourMaps | testfmu-integration/RemoteTestDriver.cpp:72-279 | for every list of calls and every interleaving, an accepted call that has returned gave exactly what the same call made directly on four independent maps gives, if and only if no reset id it names was last given another value |
| WholeStack.UnsetReferencesKeepTheirValues | testfmu-integration/RemoteTestDriver.cpp:113-213 | through the whole stack, two equal calls give the same outcome unless a call between them sets one of their references: ids not named and the other three types are untouched |
| WholeStack.ResetIdForgetsItsValue | testfmu-integration/RemoteTestDriver.cpp:72 | a value set at the reset real id is never read back, while a plain map returns it |
| WholeStack.BooleanRoundTrip | libshmfmi/FmuProxy.cpp:387-400 | an fmi2Boolean comes back as 1 if it is not 0; it survives the trip if and only if it is 0 or 1 |
| ProtocolDriver.DriverLoop.Run | shmfmi-server/src/main/java/org/intocps/java/fmi/service/ProtocolDriver.java:179-339 | for every sequence of turns, malformed messages, null replies and throwing operations included: the loop runs on exactly while connected and no message is fatal, and then has left the service in the state its operations left one after the other and sent exactly the answers due |
| ProtocolDriver.LoopServes | shmfmi-server/src/main/java/org/intocps/java/fmi/service/ProtocolDriver.java:185-336 | the loop against the service alone: when it runs on, which state the service is in, which messages have been answered and how, and that a fatal message is the last the service sees |
| ProtocolDriver.AnsweredIff | shmfmi-server/src/main/java/org/intocps/java/fmi/service/ProtocolDriver.java:216-301 | a message is answered if and only if its command is one FmuProxy blocks on and it does not parse or the service replies, or it is a free message that does not parse; it is consumed in silence if and only if it is a log message, a free message that works, or a call other than a string get that the service answers with null; anything else ends the loop |
| ProtocolDriver.OneReplyEach | shmfmi-server/src/main/java/org/intocps/java/fmi/service/ProtocolDriver.java:185-336 | connected, fed commands FmuProxy blocks on and with a service that always replies, the loop sends one reply per message, in order, under its command and within the buffer: the service's own as far as it fits |
| ProtocolDriver.JavaStack | shmfmi-server/src/main/java/org/intocps/java/fmi/service/ProtocolDriver.java:313-329 | for any service, calls and interleaving: NULL if and only if the request is oversize, else the answer of the service in the state the accepted calls before left it, its own reply if the request parses and the reply fits; the slot never overflows; and with a service that always replies the system can always move |
| ProtocolDriver.JavaCallerGets | libshmfmi/FmuProxy.cpp:357-482 | through the whole Java stack, a reply that fits and is of the expected type reaches the caller of FmuProxy as status or values unaltered, and a refused call is fatal |
| ProtocolDriver.OversizeReplyOutcome | shmfmi-server/src/main/java/org/intocps/java/fmi/service/ProtocolDriver.java:239-247 | an oversize reply makes numeric gets and status calls report OK with no data, and string gets fatal |
| Transport.SharedFmiMessage.Assign | libshmipc/IpcServer.cpp:110 | struct assignment copies command and bytes; assigning the slot to itself changes nothing |
| Transport.SharedFmiMessage.Fill | shmfmi-server/src/main/native/sharedmemory.cpp:121-142 | the message holds exactly the Java bytes and the command |
| Transport.SharedFmiMessage.Read | shmfmi-server/src/main/native/sharedmemory.cpp:84-119 | the new array holds exactly the recorded bytes |
| Transport.UnsignedInjective | shmfmi-server/src/main/native/sharedmemory.cpp:132-135 | the signed-to-unsigned byte copy, which keeps each byte modulo 256, loses nothing |
| Transport.Deliver | shmfmi-server/src/main/native/sharedmemory.cpp:84-142 | fill, struct copy and read deliver exactly the bytes and command sent, whatever the slot held before |
| Registry.RegistryInvariant | libshmfmu/fmu.cpp:250-439 | after any history of calls: the dummy, then distinct containers with increasing ids; they are exactly the returned or stranded instances less the freed ones; on each channel only the last send can be timed |
| Registry.TimedSendIsLast | libshmfmu/fmu.cpp:422-438 | the sends on a channel are untimed except possibly the last, which is timed if and only if the instance was freed |
| Registry.MessagesAreCalls | libshmfmu/fmu.cpp:250-439 | after any history each channel has carried one untimed message per fitting instantiate and API call made at the address of its instance while it lived, and one timed message more if and only if the instance was refused or freed |
| Registry.ReturnedIffCreated | libshmfmu/fmu.cpp:250-370 | the caller has been given the handles of exactly the instances whose instantiate succeeded, and exactly those that failed to initialize are left behind |
| Registry.HandleIsKnownIffLive | libshmfmu/fmu.cpp:65-76 | after any history, the lookup finds an address if and only if the last instantiate or free at that address was an instantiate that was not refused |
| Registry.FreedHandleRevives | libshmfmu/fmu.cpp:69-76 | a freed handle is found again if and only if a later instantiate at its address is not refused and not freed in turn; refused ones never revive it |
| Registry.ReusedAddressRevivesHandle | libshmfmu/fmu.cpp:321-324 | a concrete history in which the stale handle names a new instance |
| Registry.Clients.Lookup | libshmfmu/fmu.cpp:69-76 | the loop finds the container at the address, or nothing |
| Registry.Clients.FreeInstance | libshmfmu/fmu.cpp:422-439 | a known handle makes one timed send and loses exactly its own entry, the order of the rest kept; any other handle changes nothing |
| Registry.Clients.Instantiate | libshmfmu/fmu.cpp:250-370 | dummy on first use, next id, push; a failed initialize strands the entry, a refused or oversize instantiate frees it, the latter without having sent anything; NULL unless all succeed |
| Registry.Clients.Call | libshmfmu/fmu.cpp:385-420 | one untimed send if and only if the handle is known and the request fits |
| Registry.Clients.DebugRoute | libshmfmu/fmu.cpp:230-245 | the container with the sender's id, the only one there is, or none |
| Teardown.EveryReturnedCallIsItsOwn | libshmfmu/fmu.cpp:422-438 | for every history and every channel, in any run whose sends are timed as the history says, whatever the peer leaves unanswered: every value returned is the last reply, made to the very request whose send returned it; the n-th is the n-th reply; and the messages read are the requests, unaltered and in order, the free message included |
| LogChannel.LoggerCallsMatchReplies | libshmfmu/fmu.cpp:155-213 | in every reachable state, timed-out sends included, logger calls = replies posted = messages consumed and not dropped, up to the message under way |
| LogOrder.LinesInSendingOrder | libshmfmu/fmu.cpp:155-213 | in every run, whatever times out: each line is a message sent, the thread's own empty reply, or the slot's initial contents, and the lines that are messages sent are distinct and in sending order |
| LogOrder.LinesInOrderIffNoSendAfterTimed | shmfmi-server/src/main/native/sharedmemoryserver.cpp:82-100 | with only log messages sent, a timing of the sends guarantees in every run that the i-th line is the i-th message with its own status, if and only if no send follows a timed one |
| LogOrder.LinesAreTheMessagesSent | libshmfmu/fmu.cpp:166-200 | under such a timing the lines are all the messages sent, in order, but for the last one while it is under way |
| LogOrder.MessageLostAfterTimeout | libshmfmu/fmu.cpp:155-200 | after any number of answered messages, a send given up before the thread wakes and followed by another loses its message: the next line is the later one |
| LogOrder.LateThreadLogsItsOwnReply | libshmfmu/fmu.cpp:156-211 | a concrete run in which two sends given up become one line and one empty line, the thread's own reply |
| LogChannel.JoinReturns | libshmfmu/fmu.cpp:427-430 | once active is false the thread takes at most 7 more actions, one of its actions is always possible until it is done, and then the join is |
| LogChannel.CallbackLoop | libshmfmu/fmu.cpp:155-213 | the loop logs and answers exactly the log messages of its turns, and ends at the first turn that finds active false |
| LogOrder.LoopIsARun | libshmfmu/fmu.cpp:155-213 | for any turns there is a run of the machine in which the thread makes the loop's calls of the logger, as many replies, and ends when it does |
| LogChannel.LineReports | libshmfmu/fmu.cpp:172-200 | a line has the text and the status of its message, fmi2Error if that is none of the six |
| LogChannel.ThreadLife | libshmfmu/fmu.cpp:130-216 | in every run the thread neither polls nor logs before an attempt to connect has worked, and once joined it is done and does nothing more |
| Handshake.ConnectedMeansCreated | libshmipc/IpcServer.cpp:61-103 | on a fresh key, in any interleaving with any number of client objects, a successful connect comes after sizing and all three semaphores, and its handles are the server's objects |
| Startup.AttemptFailsIffAfterDeath | libshmipc/IpcClient.cpp:71-107 | once create has finished on a fresh key, under any interleaving an attempt fails if and only if it opens the segment after some client object was destroyed, has succeeded if and only if its six actions are taken, and then holds the server's objects |
| Handshake.UnlinkedKeyIsLost | libshmipc/IpcBase.cpp:97-112 | after such a destruction no client object created later ever connects |
| Handshake.EarlyClientLosesTheKey | libshmipc/IpcBase.cpp:97-112 | a concrete run in which a client that never opened the segment unlinks it after create has finished |
| StaleKeys.SafeKeyIffFresh | libshmipc/IpcBase.cpp:97-112 | whatever names are left over, a connect that reports success has in every run come after create and holds the server's objects, if and only if none is |
| StaleKeys.SafeSemaphoresIffNoneLeft | libshmipc/IpcBase.cpp:183-274 | for the semaphores alone the same holds if and only if no semaphore is left over; a leftover segment does not matter |
| StaleKeys.StaleSemaphoreIsTaken | libshmipc/IpcClient.cpp:71-107 | for each single leftover semaphore, whatever else is left, a run in which a client takes it just before the server makes its own, and connects |
| StaleKeys.StaleSegmentIsOpened | libshmipc/IpcClient.cpp:71-107 | for a leftover segment, a run in which one client opens it, another fails and unlinks it, and the first connects to the old one |
| StaleKeys.LeftSegmentIsReused | libshmipc/IpcBase.cpp:183-274 | with only the segment left over and no client object destroyed, the server reuses it, and a successful connect comes after create and shares all objects |
| StaleKeys.StaleKeyConnectsTooEarly | libshmipc/IpcBase.cpp:320-332 | with all names left over, a run in which connect succeeds before create has done anything and holds none of the semaphores create then makes |
| Startup.NameSpace.Create | libshmipc/IpcServer.cpp:50-104 | whatever the clients do in between, create performs its five actions in order and completes |
| Startup.NameSpace.Connect | libshmipc/IpcClient.cpp:53-111 | five actions in order under any activity of the others, giving up at the first failure; called after create has finished, it succeeds if and only if no client object was destroyed before it opened the segment, and its handles are then the server's |
| Uri.GuardMeaning | libshmfmu/uri.c:134 | the unsigned guard admits exactly the positions with two more characters, and the only position of a one-character string |
| Uri.DecodeOne | libshmfmu/uri.c:131-155 | the loop body writes the decoded character and skips as the recursive decoder does |
| Uri.DecodeInto | libshmfmu/uri.c:126-156 | the in-place loop writes the recursive decode of the body, path_len ends as its length, at least 1, and no access leaves the buffers |
| Uri.Terminate | libshmfmu/uri.c:158-165 | the buffer holds the path with exactly one separator ensured at the end, and a NUL |
| Uri.URIToNativePath | libshmfmu/uri.c:42-168 | NULL exactly for NULL and the empty string, else a fresh buffer whose C string is the specified path |
| UriRoundTrips.PercentEncodingRoundTrip | libshmfmu/uri.c:63-71 | every absolute path comes back, with a trailing separator, from every percent-encoding of it as a file URI, with escape digits of either case; one that ends in a separator comes back exactly |
| UriRoundTrips.DecodeInvertsEncode | libshmfmu/uri.c:130-155 | decoding inverts percent-encoding on every byte string |
| UriRoundTrips.DecodeIffSpells | libshmfmu/uri.c:130-155 | the decoder computes the one text the input spells: escapes with digits of either case, backslashes for slashes, and characters for themselves |
| UriRoundTrips.DecodeInvertsAnyEncoding | libshmfmu/uri.c:130-155 | decoding inverts every percent-encoding, each digit of either case and unreserved characters escaped or not |
| UriRoundTrips.DecodeEffect | libshmfmu/uri.c:130-155 | a text without escapes is decoded to itself with each backslash replaced by a slash; an escape shortens it by two characters |
| UriRoundTrips.FinishIsIdentityOnLiterals | libshmfmu/uri.c:126-165 | finishing a decoded text gives it back if and only if it has no escape and no backslash |
| UriRoundTrips.AbsoluteFormsAgree | libshmfmu/uri.c:62-94 | an absolute path and its file:// and file:/ URIs name the same native path |
| UriRoundTrips.DriveFormsAgree | libshmfmu/uri.c:64-84 | with a drive letter the slash before it is dropped as well |
| UriRoundTrips.PathRoundTrip | testfmu-integration/resource_location.cpp:30-46 | the round trip works if and only if the path has no escape, no backslash, no "///" prefix and no colon third |
| UriRoundTrips.FixedPoints | libshmfmu/uri.c:62-167 | a text is its own native path if and only if it ends in a separator, has no escape or backslash, and is no file:/ URI |
| UriRoundTrips.TruncatedIffNulEscape | libshmfmu/uri.c:97-165 | the C string returned is the whole decoded path with its separator if and only if no %00 occurs in the part decoded |
| UriRoundTrips.Idempotence | libshmfmu/uri.c:62-167 | re-applying the function changes nothing if and only if the result ends in a separator, has no escape or backslash and is no file:/ URI; it ends in one unless a %00 was decoded |
| TimedWait.Clockwork.AddTimeout | libshmipc/IpcBase.cpp:364-370 | the in-place updates compute the specified deadline |
| TimedWait.DeadlineBound | libshmipc/IpcBase.cpp:364-370 | the deadline is the timeout plus its whole seconds once more: never early, exact if and only if below one second, at most doubled, valid for POSIX if and only if the nanoseconds do not overflow |
| TimedWait.SignalWait | libshmipc/IpcBase.cpp:349-380 | timeout 0 returns with a token; otherwise, unless the nanoseconds overflow, every token that arrives within the timeout is taken and none after twice the timeout, exactly so below one second; with an overflow at most a token already there is taken |
| TimedWait.SemTimedWait | libshmipc/sem_timedwait.cpp:51-67 | the first poll that ends the loop decides: 0 unless it was told to try again with the deadline reached |
| TimedWait.ComparisonIsRightInOneWindow | libshmipc/sem_timedwait.cpp:55-61 | the 32-bit comparison is right within one window; for a deadline less than a window ahead it is right if and only if both lie in the same one |
| TimedWait.RoundingBound | libshmipc/sem_timedwait.cpp:41-49 | the millisecond count is the time rounded to the nearest millisecond |
| TimedWait.PollingMeaning | libshmipc/sem_timedwait.cpp:51-67 | within one window the wait gives up only once the rounded clock has reached the rounded deadline, less than a millisecond early, and otherwise ends with a token or an error |
| WatchDog.SoundIffLongEnough | libshmipc/IpcServer.cpp:43-48 | no timed run declares a living server dead if and only if the interval exceeds post period plus reaction time (or is positive while posts are instantaneous) |
| WatchDog.AtMostOneFree | shmfmi-server/src/main/java/org/intocps/java/fmi/service/ProtocolDriver.java:118-126 | in every timed run at most one FreeInstantiate is issued, and after it the connection is down and the thread gone |
| WatchDog.DeathIsDetected | shmfmi-server/src/main/java/org/intocps/java/fmi/service/ProtocolDriver.java:128-165 | after the server's death the loop ends within one reaction time per token left plus the interval and one more reaction time, and unless the driver is closed it ends by declaring the timeout |
| WatchDog.LastWaitIsDeclared | libshmipc/IpcClient.cpp:113-115 | server dead and backlog drained: past the interval and the reaction time a timeout has been declared, once, even if the driver was closed meanwhile, and before the interval it has not |
| WatchDog.CloseEndsTheLoop | shmfmi-server/src/main/java/org/intocps/java/fmi/service/ProtocolDriver.java:128-175 | once the connection is down, the next token taken ends the loop |
| WatchDog.DeadlinesPass | shmfmi-server/src/main/java/org/intocps/java/fmi/service/ProtocolDriver.java:144-154 | from every reachable state with the server dead, any time is reached in some continuation: the bounds on detection are never met by blocking time |
| WatchDog.Driver.SetWatchDog | shmfmi-server/src/main/java/org/intocps/java/fmi/service/ProtocolDriver.java:128-165 | the first missing client or expired wait while connected is handled once and ends the loop; events, interrupts and exceptions start another wait |

## Left out

- Protobuf bytes: payloads are datatypes with an arbitrary size function; parsing after serializing is the identity, and zero bytes parse as the default message of service.proto.
- What lies behind the buffer: a reply the test driver makes too big is a recorded size beyond the limit, and the memory it writes to past the slot is not modelled.
- Byte-level tearing: a copy into the slot is two steps, begun and finished, but its content changes at once. Where ownership is exclusive this is no loss; with timed-out sends the content statements treat each copy as indivisible.
- Interrupted waits (EINTR) are absent; a client-side interruption would look like a timeout.
- `fmi2GetInteger`, `fmi2SetInteger`, `fmi2GetBoolean` as separate proxy methods: literal copies of the modelled ones; the whole-stack statement covers all four types.
- The typed status queries and `fmi2GetMaxStepsize` on the proxy side: the test driver answers them with constants.
- Doubles are real numbers and integers are unbounded: values are only copied. The instance counter does not wrap.
- `fmi2Instantiate` before the registry: UUIDs, configuration, launching the other process, and the crash on a NULL resource location.
- Failures of `sem_open(O_CREAT)`, `ftruncate` and `mmap` on the server side, and the server's own destructor.
- Windows events and paths, and the hashed names on Apple systems: other semantics for the same calls.
- The log channel's missing size check; the size invariant is about the command channel.
- Reopening a ProtocolDriver after a timeout, and a close that removes the client under a watchdog just about to wait.
