# A Dafny model of msgrpc

msgrpc is an asynchronous RPC layer. User code composes *cells*: a stub call returns a cell that a response or a
timeout will settle later, derived cells compute from other cells, timeout cells call again a bounded number of
times, and a final action on the result of an interaction deletes everything the interaction made. Messages travel
over a transport that may lose, repeat and reorder them. Their payloads are Thrift structs in the binary protocol.

The project models the client, the server, the two together over such a network, the struct codec, and the register
of service instances, and proves what they promise.

**Client.** `Client.Runtime` is the client as it runs: the cells, the registry `id_func_map_` of pending calls, the
counter of sequence ids, the armed and cancelled timers, and the release lists. Its methods follow the source branch
by branch, including the recursion from settling a cell through its listeners into retries that make new calls. Cells
live in a sequence and refer to each other by position. Ghost fields keep the history that the properties speak of:
which rpc cell was which attempt of which timeout cell, which id went to which call, which registrations have been
notified. The modules below the class hold the invariant and its preservation:

| file | content |
|---|---|
| `Cells.dfy` | cells, what each computes from, what always holds of a node (`Base`), what holds once it is up to date (`Live`), what holds of calls under way (`Waits`) |
| `Propagation.dfy` | evaluation of the graph, and when pushing updates agrees with it |
| `ClientState.dfy` | notifications, registry, ownership, the whole state and its invariant; the propagation loop |
| `ClientSteps.dfy` | each single step of a propagation, of a call and of a retry keeps the invariant |
| `ClientGraph.dfy` | constructors that register with their inputs, flags, results, final actions |
| `ClientDispatch.dfy` | answering, unregistering and tearing down around a propagation |
| `ClientProperties.dfy`, `ClientRuns.dfy` | what the invariant means between dispatches and over whole runs |
| `Client.dfy` | the class |
| `ClientWitnesses.dfy`, `GraphWitnesses.dfy`, `IdWitnesses.dfy` | runs of the class that end badly, which show that the conditions for that are exact |

`Quiescent` is the invariant between message dispatches. Every public operation of the class requires and ensures it,
so the lemmas of `ClientProperties` hold of every state that user code or a message handler can see. The steps of a run
(`ClientRuns.ClientStep`) are the contracts of these operations, one for each kind of event.

**Server and network.** `Server.Service` receives requests, dispatches on interface and method, and answers now, later
or never. `EndToEnd` puts the client and any number of servers on a network where whatever was sent can arrive at any
later time, any number of times, or never; its steps are the contracts of the two classes. `WorldWitnesses` has a run of
the two in which integrity fails, for want of a bound on how long a message lives.

**Codec.** `ThriftCodec` gives the writers and readers as functions over schemas (`Type`) and values (`Val`),
`ThriftEvolution` and `ThriftLaws` their laws, `ThriftNormal` and `ThriftEquality` exactly which values survive the round
trip, `ThriftFormat` every byte that is written and what is accepted of bytes that were not, and `ThriftProtocol` the loops
over a buffer that the source runs, which count bytes, proved against those functions. The wire format is that of the binary protocol of Apache Thrift (the parts "Struct", "List and Set" and "Map"
of its encoding specification). A schema says for each set whether reading clears its target, since macro structs do not
and generated code does.

**Register.** `ServiceRegister` covers the name of a node, the list of instances made from such names, and round-robin
selection from it.

## Where the code does less than one might expect

- A final action attached to a result that has settled already is notified before it has recorded the cell, so the
  interaction is never deleted (`ClientProperties.FinalActionRan` and `DoomedIffResultSettled` give the exact condition,
  `ClientRuns.LateActionNeverRuns` that it stays so, `GraphWitnesses.LateActionRun` a run).
- A start function that defers a retry is never called again: the timeout cell stays empty for ever
  (`ClientRuns.StalledForEver`). This happens in some run if and only if the budget is positive and the function makes a call
  that can be encoded on some inputs, of which one has settled, and defers on the same inputs when more of them have settled
  (`ClientRuns.OnlyThoseStall`, `ClientWitnesses.StallingRun`).
- A timeout flag asked for after the timeout cell settled is never set (`ClientProperties.FlagIffExhausted`).
- Nothing but `TimerMgr::reset`, which only the set-up of tests calls
  (`msgrpc/adapter_example/core/adapter/simple_timer_adapter.h:39-41`), shortens the list of cancelled timers, so once ids wrap
  around a timeout can be dropped that should not be. `ClientProperties.CanceledCallRegistered` gives the exact condition,
  `ClientRuns.FilterChangesNoRun` says that nothing changes before, and `IdWitnesses.DroppedTimeoutRun` is such a run.
- A response that arrives a whole number of cycles of ids late is taken for the answer to another call
  (`EndToEnd.SettledByIffWholeCycles`; `WorldWitnesses.ForeignAnswerRun` is a run).
- A call whose answer is lost stays registered, and after a cycle of ids the assertion that a new call finds its id free
  fails (`ClientSteps.NextIdTakenIff` gives the exact condition, `IdWitnesses.ClashRun` a run).
- A server never answers a request whose handler's cell fails, or gets a value later that cannot be encoded
  (`Server.AnsweredExactlyOnceIff` and `AnswersOverRuns` give the exact condition).
- Logic that is not monotone makes a derived cell depend on arrival order
  (`Propagation.MonotoneIffOrderFree`, `FirstDependsOnOrder`; `GraphWitnesses.OrderDependentRun` is a run for each such
  logic).
- Sets are read into without clearing (`ThriftNormal.UsedSetTarget`), and the order of `EmbeddedStruct` ignores which fields
  are set, so elements with stale unset fields do not come back (`ThriftNormal.EmbeddedSetRoundTrip`;
  `RoundTripIffNormal` is the condition for all schemas).
- The element type of a container on the wire is ignored (`ThriftNormal.ElementWidthsMustAgree`).
- Ports are parsed with automatic base detection: a text with a leading 0 is taken for octal
  (`ServiceRegister.PortTextRoundTrip` gives the exact condition).

## Model

| member | source | states |
|---|---|---|
| SequenceIds.RpcSequenceId.Get | msgrpc/src/msgrpc/core/rpc_sequence_id.cpp:10-19 | The n-th call after a reset returns ((n-1) mod (2^32-1)) + 1, as a wrapping 32-bit increment that skips the invalid id 0. |
| SequenceIds.RpcSequenceId.Reset | msgrpc/src/msgrpc/core/rpc_sequence_id.cpp:21-23 | Numbering starts again as for a new counter. |
| SequenceIds.SameIdIffWholeCycles | msgrpc/src/msgrpc/core/rpc_sequence_id.cpp:10-19 | Two calls get the same id if and only if they are a whole number of cycles of 2^32-1 ids apart. |
| SequenceIds.RecentIdsDiffer | msgrpc/src/msgrpc/core/rpc_sequence_id.cpp:10-19 | Any 2^32-1 consecutive calls get pairwise different ids. |
| Propagation.PushAgreesWithEvaluation | msgrpc/include/msgrpc/core/cell/cell_base.h:45-63 | With no update owed, every cell over monotone logic holds exactly what recursive evaluation of the dependency graph gives: nothing wrong, nothing missed. |
| Propagation.ArrivalOrderIsIrrelevant | msgrpc/include/msgrpc/core/cell/derived_cell.h:12-21 | Two histories of one graph with the same leaf outcomes end in the same cells, whatever the arrival order. |
| Propagation.MonotoneIffOrderFree | msgrpc/include/msgrpc/core/cell/derived_cell.h:17-21 | A derived cell ends as evaluation says in every arrival order of its inputs if and only if its logic is monotone. |
| Propagation.FirstDependsOnOrder | msgrpc/include/msgrpc/core/cell/derived_cell.h:17-21 | Logic that takes whichever input settles first is the counterexample: the two arrival orders end in two different cells. |
| GraphWitnesses.OrderDependentRun | msgrpc/include/msgrpc/core/cell/derived_cell.h:17-21 | For every logic that is not monotone there is a run of the client, from a new one, at whose end a derived cell with that logic differs from the evaluation of the graph. |
| Client.Runtime.Settle | msgrpc/include/msgrpc/core/cell/cell_base.h:15-19 | Settling an empty cell keeps the invariant, brings every node but the excepted ones up to date, owes no update afterwards, and changes no cell below the first one it can reach, no other rpc cell and no settled cell. |
| Client.Runtime.EvaluateAllDerivedCells | msgrpc/include/msgrpc/core/cell/cell_base.h:45-53 | The loop over a size snapshot gives each listener one update for each of its registrations, although updates start and retry calls that add cells, and ends with every listener up to date and no registration made anew. |
| Client.Runtime.Update | msgrpc/include/msgrpc/core/cell/cell_base.h:45-53 | The one update that listener is owed does what its kind calls for: a derived cell is recomputed if empty, a timeout cell started if it has not been, the end of an attempt taken over or retried, a final action run; nothing else changes below it. |
| Client.Runtime.RegisterListener | msgrpc/include/msgrpc/core/cell/cell_base.h:55-63 | A cell still empty gets the listener; a settled one updates it at once instead, exactly once. |
| Client.Runtime.RegisterAsListener | msgrpc/include/msgrpc/core/cell/cell.h:16-28 | After registering with each input in turn, settled ones included, the new node has been notified by exactly the settled ones, listens to exactly the empty ones, and is up to date. |
| Client.Runtime.DeriveCell | msgrpc/include/msgrpc/core/cell/derived_cell.h:12-32 | Building a derived cell over any mixture of empty and settled inputs keeps the invariant, registers it once for each time an input is named, leaves the cell with what its logic makes of the inputs if one has settled and empty otherwise, and changes earlier cells only in who listens to them. |
| Client.Runtime.UpdateDerived | msgrpc/include/msgrpc/core/cell/derived_cell.h:17-21 | An empty derived cell becomes what its logic makes of its inputs now; a settled one stays. |
| Client.Runtime.DeriveAction | msgrpc/include/msgrpc/core/cell/derived_action.h:10-14 | An action is built, registered with each input as often as it is named, and tracked like a derived cell. |
| Client.Runtime.DeriveFinalAction | msgrpc/include/msgrpc/core/cell/derived_action.h:26-35 | The final action records its cell only after registering: a result that has settled already notifies it too early to be deleted. |
| Client.Runtime.RunFinalAction | msgrpc/include/msgrpc/core/cell/derived_action.h:37-46 | An armed final action marks exactly its own interaction for deletion; an unarmed one does nothing. |
| Client.Runtime.DeriveRpcCell | msgrpc/include/msgrpc/core/cell/timeout_cell.h:13-20 | Without inputs the first attempt starts in the constructor unless the start function defers; with inputs of which one has settled it starts there too, on the inputs as they are; a call made that way goes out under the next id and is the first attempt, which the cell waits for. |
| Client.Runtime.UpdateTimeout | msgrpc/include/msgrpc/core/cell/timeout_cell.h:76-83 | The start function is called if and only if the cell is empty and not started; otherwise nothing changes. |
| Client.Runtime.InvokeRpcOnce | msgrpc/include/msgrpc/core/cell/timeout_cell.h:29-45 | Deferral changes nothing; a failed cell marks the cell started and gives it that failure; a call that goes out gives a new last attempt whose request is out under the next id and whose timer is armed; a call that does not fails the cell. |
| Client.Runtime.BindTimeoutCell | msgrpc/include/msgrpc/core/cell/timeout_cell.h:47-61 | The attempt is recorded, its timer armed, and one new tracked action alone listens to its rpc cell. |
| Client.Runtime.OnAttemptDone | msgrpc/include/msgrpc/core/cell/timeout_cell.h:50-59 | An answer is taken over and its timer is the next one cancelled; a timeout with retries left uses up one of them for a further call of the start function; without retries left the timeout is taken over and a flag asked for before is set to true. |
| Client.Runtime.RetryRpcIfNeed | msgrpc/include/msgrpc/core/cell/timeout_cell.h:63-74 | One retry is spent per timeout, on a start on the inputs as they are now; exhaustion settles the cell. |
| Client.Runtime.GiveUp | msgrpc/include/msgrpc/core/cell/timeout_cell.h:67-73 | The cell takes the timeout first, and its flag, if there is one, is set after that, even when what the first settling triggers adds cells. |
| Client.Runtime.TimeoutFlag | msgrpc/include/msgrpc/core/cell/timeout_cell.h:85-91 | One flag per timeout cell: a second request returns the first flag and changes nothing. |
| Client.Runtime.FailedCell | msgrpc/include/msgrpc/core/iface_impl/iface_impl_utility.h:18-22 | A cell that failed before anything was sent: new, tracked, never registered. |
| Client.Runtime.EncodeRequestAndSend | msgrpc/include/msgrpc/core/iface_stub/iface_stub_base.h:28-45 | The call goes out exactly if it can be encoded, an instance of its service is found and the channel takes it: then a new tracked cell waits under the next id and exactly its request was handed over; otherwise the result is a failed cell and the registry is as before. A request that cannot be encoded takes no id and sends nothing. |
| Client.Runtime.SendRpcRequestBuf | msgrpc/src/msgrpc/core/iface_stub/iface_stub_base.cpp:28-53 | A fresh id, registered before the request is handed over. What is handed over last goes to the service of the call, with its interface index, its method index, version 0 and that id in the header, and the payload of the call; false, exactly if no instance is found or the channel refuses, leaves the cell registered, for the caller to delete. |
| ClientSteps.NextIdTakenIff | msgrpc/src/msgrpc/core/msg/msg_handlers/rsp_msg_handler.cpp:33-38 | The assertion that the next id is not registered fails if and only if a registered call was made whole cycles of ids before it; that can only be the call of exactly one cycle before. |
| IdWitnesses.ClashRun | msgrpc/src/msgrpc/core/msg/msg_handlers/rsp_msg_handler.cpp:33-38 | And it can fail: a run of 2^32-1 calls after which the first call is still waiting under the id that the next one gets. |
| ClientSteps.RegisterKeepsBooks | msgrpc/src/msgrpc/core/msg/msg_handlers/rsp_msg_handler.cpp:33-38 | Registering a call under its new id keeps the registry a bijection between ids and waiting cells, and the n-th id with the cell of the n-th call. |
| ClientDispatch.KillOne | msgrpc/src/msgrpc/core/cell/rsp_cell_base.cpp:7-11 | Whatever has been deleted before, the destructor of one more object removes exactly that object and, if it has a sequence id, exactly its entry in the registry. |
| Client.Runtime.CallStub | msgrpc/include/msgrpc/core/iface_stub/iface_stub_base.h:24-45 | A stub call from user code keeps the invariant and only adds cells. |
| Client.Runtime.HandleRpcRsp | msgrpc/src/msgrpc/core/msg/msg_handlers/rsp_msg_handler.cpp:40-64 | A response settles exactly the cell registered under its id: with the failure that it carries, with the value that its payload decodes to, or with failed when it does not decode; the entry is gone afterwards; other rpc cells do not settle; contexts whose result settled are deleted. A late, duplicate or foreign response changes nothing. |
| Client.Runtime.SetRpcRsp | msgrpc/include/msgrpc/core/cell/cell.h:50-66 | The answer is propagated first; the entry is erased after that, if it is still there. |
| Client.Runtime.OnRspHandlerTimeout | msgrpc/src/msgrpc/core/msg/msg_handlers/rsp_msg_handler.cpp:7-21 | A timeout settles exactly the cell registered under its id, unregistered before the propagation so that retries may run; a late timeout changes nothing. |
| Client.Runtime.OnTimerMsg | msgrpc/adapter_example/details/msgrpc_test_loop.h:48-51 | The message loop drops the timeout of a cancelled timer and otherwise settles exactly the registered cell; before the ids wrap around, the effect is the same as without the filter. |
| Client.Runtime.BindResult | msgrpc/include/msgrpc/core/service_interaction/si_base.h:19-23 | The result leaves the release list of its context and owns the context from then on. |
| Client.Runtime.DeleteResultAndReleaseList | msgrpc/include/msgrpc/core/cell/rpc_context.h:11-15 | Deleting the result, each object on the release list and each flag frees every object once, none twice, and unregisters it. |
| Client.Runtime.TearDown | msgrpc/include/msgrpc/core/cell/cell_base.h:80-86 | Deleting the result deletes exactly the objects of its interaction, and exactly their ids leave the registry, outstanding calls included; every other cell and entry stays as it is. |
| ClientDispatch.EverythingIsFreed | msgrpc/include/msgrpc/core/cell/rpc_context.h:11-21 | The result, the release list and the flags are exactly the live objects of the interaction. |
| ClientProperties.RegistryIsBijection | msgrpc/src/msgrpc/core/msg/msg_handlers/rsp_msg_handler.cpp:7-72 | Between dispatches id_func_map_ maps s to c if and only if c is alive, has a sequence id, and that id is s; a live rpc cell has one exactly while it is empty. |
| ClientProperties.NotifiedExactlyOnce | msgrpc/include/msgrpc/core/cell/cell_base.h:45-63 | Each registration has had exactly one update if its cell has settled and none if not, whether made before settlement, after it, or during the loop. |
| ClientProperties.PushedIsEvaluated | msgrpc/include/msgrpc/core/cell/cell_base.h:45-63 | Between dispatches every cell over monotone logic is what evaluating the graph gives, in every state the client can be in. |
| ClientProperties.RetryBudget | msgrpc/include/msgrpc/core/cell/timeout_cell.h:29-74 | For any start function: attempts, retries left and budget add up, all attempts but the last timed out, and at most one is outstanding. |
| ClientProperties.NeverStalls | msgrpc/include/msgrpc/core/cell/timeout_cell.h:29-74 | If the start function and budget cannot make a cell stall, a started cell has made exactly 1 + k - retry_times_ attempts (one fewer only if the last start failed at once), and exactly one is outstanding until the cell settles. |
| ClientProperties.StalledMeansCanStall | msgrpc/include/msgrpc/core/cell/timeout_cell.h:29-74 | A cell stalls only if retries are allowed and its start function makes an encodable call on some inputs, one of them settled, and defers when more of the same inputs have settled. |
| ClientProperties.StalledIsIdle | msgrpc/include/msgrpc/core/cell/timeout_cell.h:29-34 | A cell whose retry was deferred has started, is empty, and has nothing outstanding: all its attempts have timed out. |
| ClientProperties.OutcomeOfLastAttempt | msgrpc/include/msgrpc/core/cell/timeout_cell.h:50-59 | A timeout cell with a value holds the value of its last attempt; every earlier attempt timed out. |
| ClientProperties.ExhaustedMeansAllTimedOut | msgrpc/include/msgrpc/core/cell/timeout_cell.h:63-74 | The budget is exhausted if and only if the cell has settled and all of its k+1 attempts timed out. |
| ClientProperties.FlagIffExhausted | msgrpc/include/msgrpc/core/cell/timeout_cell.h:63-91 | A flag is set, to true, if and only if it was asked for before the cell settled and all attempts timed out. |
| ClientProperties.CanceledCallRegistered | msgrpc/adapter_example/core/adapter/simple_timer_adapter.h:27-37 | A cancelled id is that of a registered call if and only if the two calls are whole cycles of ids apart. |
| ClientProperties.CanceledAreNotRegistered | msgrpc/adapter_example/core/adapter/simple_timer_adapter.h:31-37 | Before the ids wrap around, no cancelled id is in the registry between dispatches. |
| ClientProperties.FinalActionRan | msgrpc/include/msgrpc/core/cell/derived_action.h:26-46 | A final action has run if and only if its result was empty when it was attached and has settled since. |
| ClientProperties.DoomedIffResultSettled | msgrpc/include/msgrpc/core/cell/derived_action.h:37-46 | An interaction is to be torn down if and only if one of its final actions was attached to an empty result that has settled since. |
| ClientProperties.NothingLeftBehind | msgrpc/src/msgrpc/core/cell/rsp_cell_base.cpp:7-11 | Once a context is gone, no object of its interaction is alive and none of their ids is registered. |
| ClientProperties.OneOwner | msgrpc/include/msgrpc/core/cell/rpc_context.h:11-21 | Every live object has exactly one owner: the release list, the holder of the result, or a timeout cell for its flag. |
| ClientRuns.SettlesAtMostOnce | msgrpc/include/msgrpc/core/cell/cell_base.h:15-19 | In every run of user operations and messages each cell settles at most once, although the setters have no guard, and never starts, dies or forgets a listener backwards. The content is in the contracts of `Settle`, `HandleRpcRsp`, `OnRspHandlerTimeout` and `OnTimerMsg`, from which `ClientStep` is made event by event; this carries it over whole runs. |
| ClientRuns.RunContinues | msgrpc/include/msgrpc/core/cell/cell_base.h:15-63 | Over a run nothing is undone: requests sent, calls made, timers cancelled, attempts, stalls, listeners and settled values all stay. |
| ClientRuns.LateActionNeverRuns | msgrpc/include/msgrpc/core/cell/derived_action.h:26-46 | A final action attached to a result that had settled before does not run in any later state of any run. |
| GraphWitnesses.LateActionRun | msgrpc/include/msgrpc/core/cell/derived_action.h:26-46 | Such a run: the result of an interaction has settled, its final action is armed, and the interaction is not to be torn down. |
| ClientRuns.StalledForEver | msgrpc/include/msgrpc/core/cell/timeout_cell.h:29-74 | Once a retry has been deferred, the cell is empty in every later state of every run, and makes no further attempt. |
| ClientRuns.OnlyThoseStall | msgrpc/include/msgrpc/core/cell/timeout_cell.h:29-74 | In no run does a cell stall unless its budget is positive and its start function makes an encodable call on some inputs, one of them settled, and defers on the same inputs when more have settled. |
| ClientWitnesses.StallingRun | msgrpc/include/msgrpc/core/cell/timeout_cell.h:29-74 | The converse: for every start function, budget and inputs as in that condition there is a run, from a new client, in which such a cell stalls. |
| ClientRuns.FilterChangesNoRun | msgrpc/adapter_example/core/adapter/simple_timer_adapter.h:27-37 | Before the ids wrap around, a client whose message loop drops the timeouts of cancelled timers and one whose loop does not have exactly the same runs. |
| IdWitnesses.DroppedTimeoutRun | msgrpc/adapter_example/details/msgrpc_test_loop.h:48-51 | After a whole cycle of ids the filter goes wrong: a run in which the timeout of a live attempt is dropped, because the timer of the attempt that had its id before was cancelled. |
| Server.Service.OnRpcReqMsg | msgrpc/src/msgrpc/core/msg/msg_handlers/req_msg_handler.cpp:12-49 | What is answered at once, and to whom: interface_not_found, method_not_found, failed if the request is not read, no cell comes back or its value cannot be encoded, or else what the method writes for the value of the cell; nothing while the cell is empty or has failed. |
| Server.Service.OnRpcInvoke | msgrpc/include/msgrpc/api/api_interface_impl_define.h:28-53 | Method_not_found exactly for an unknown method; failed exactly if the request is not read, no cell comes back or its value cannot be encoded; then nothing is sent. A value sends what the method writes for it, an empty cell attaches a final action. |
| Server.Service.InvokeTemplatedMethod | msgrpc/include/msgrpc/core/iface_impl/iface_impl_base_t.h:35-68 | Fails if and only if the request cannot be decoded, no cell comes back, or its value cannot be encoded; a value is answered now, an empty cell gets a final action. |
| Server.Service.SendRspCellValue | msgrpc/include/msgrpc/core/iface_impl/iface_impl_base_t.h:12-27 | Succeeds if and only if the cell has a value and the method writes at least one byte for it, and then sends one response with the header of the request that carries exactly what the method writes; otherwise it sends nothing. |
| Server.Service.OnHandlerCellSettled | msgrpc/include/msgrpc/core/iface_impl/iface_impl_base_t.h:59-65 | When the cell of a handler settles later, its request is answered with exactly what the addressed method writes for the value, if that is anything, and never otherwise. |
| Server.ReceiveKeepsOk | msgrpc/src/msgrpc/core/msg/msg_handlers/req_msg_handler.cpp:17-46 | Dispatching a request keeps the bookkeeping of the server: each request has exactly the answers its stage calls for. |
| Server.FinishKeepsOk | msgrpc/include/msgrpc/core/iface_impl/iface_impl_base_t.h:59-65 | So does the end of a handler that answers later. |
| Server.AnsweredAtMostOnce | msgrpc/src/msgrpc/core/msg/msg_handlers/req_msg_handler.cpp:12-49 | No request is answered twice, over any sequence of requests and handlers. |
| Server.AnsweredExactlyOnceIff | msgrpc/include/msgrpc/core/iface_impl/iface_impl_base_t.h:35-68 | A request has exactly one answer, and any at all, if and only if interface lookup, method lookup or decoding fails, the handler returns no cell or one with a value, or its cell gets an encodable value later: a handler cell that fails is swallowed. |
| Server.AnswersOverRuns | msgrpc/include/msgrpc/core/iface_impl/iface_impl_base_t.h:35-68 | The same over every run: a request that calls for an answer has its one answer then and in every later state; one whose handler cell has failed never gets any. |
| Server.RunningIffUnsettled | msgrpc/include/msgrpc/core/iface_impl/iface_impl_base_t.h:59-67 | The answer is still open exactly for a decodable request to a known method whose handler returned an empty cell that has not settled yet. |
| Server.AnswerMatchesRequest | msgrpc/src/msgrpc/core/msg/msg_handlers/req_msg_handler.cpp:25-46 | Each answer echoes version, interface, method and id of its request and goes to its sender; each result code means what it says, in both directions; a success carries exactly the bytes that the addressed method writes for the value of the cell of the handler. |
| EndToEnd.AnswersAreGenuine | msgrpc/src/msgrpc/core/msg/msg_handlers/rsp_msg_handler.cpp:40-64 | In every run, under loss, duplication and reordering, the value of an rpc cell is what the client decodes from the bytes that the addressed method of a server of the called service wrote, for the value its handler gave, having read exactly the payload sent under the id of the cell. |
| EndToEnd.FailuresAreFounded | msgrpc/include/msgrpc/core/cell/cell.h:50-66 | In every run an rpc cell that was sent and failed otherwise than by a timeout holds the reason that a server of the called service had: no such interface, no such method, or failed when the request was not read, the handler gave no cell or no encodable value, or the client does not read the answer. |
| EndToEnd.RetriedAnswersAreGenuine | msgrpc/include/msgrpc/core/cell/timeout_cell.h:29-83 | A retried call holds the genuine answer to its last attempt, and every abandoned attempt timed out. |
| EndToEnd.SettledByIffWholeCycles | msgrpc/src/msgrpc/core/msg/msg_handlers/rsp_msg_handler.cpp:51-59 | Where integrity stops: when a response to the m-th call is delivered at any time, the cell of the registered n-th call settles, and takes it for its own answer, if and only if m and n are whole cycles of ids apart. |
| WorldWitnesses.ForeignAnswerRun | msgrpc/src/msgrpc/core/msg/msg_handlers/rsp_msg_handler.cpp:51-59 | A run of client and server, every delivery in it less than a cycle old, after which a response to the first call arrives; the call of one cycle later takes it, and its value is not genuine. |
| EndToEnd.StepKeepsOk | msgrpc/src/msgrpc/core/msg/msg_handlers/rsp_msg_handler.cpp:7-72 | Each step of user code, a timeout, a delivery, a dispatch on a server or the end of a handler keeps the invariant of the whole system. |
| ThriftWire.ReadEncInt | msgrpc/include/msgrpc/thrift/thrift_types.h:56-94 | Integers of 1, 2, 4 and 8 bytes come back as written, and what follows is untouched. |
| ThriftWire.BigEndian | msgrpc/include/msgrpc/thrift/thrift_types.h:66-94 | The bytes of an integer on the wire are its base-256 digits, highest first. |
| ThriftEvolution.SkipEnc | msgrpc/include/msgrpc/thrift/thrift_struct_define.h:87-89 | Skipping by wire type consumes exactly one written value, at any nesting depth. |
| ThriftEvolution.ReadIsProjection | msgrpc/include/msgrpc/thrift/thrift_struct_define.h:64-98 | Schema evolution: what one schema writes, another reads as the projection onto the fields they share, at any depth, into any target, consuming exactly the same bytes; it fails if and only if the projection lacks a required field. |
| ThriftEvolution.ReadFieldsIsProjection | msgrpc/include/msgrpc/thrift/thrift_struct_define.h:78-92 | The same of the field loop, from any field on: unknown fields and fields of another wire type are skipped. |
| ThriftLaws.RoundTrip | msgrpc/include/msgrpc/thrift/thrift_struct_define.h:64-129 | For every schema and every value of normal form, reading the written bytes followed by anything into a fresh target gives the value and leaves the rest untouched. |
| ThriftLaws.EachField | msgrpc/include/msgrpc/thrift/thrift_struct_define.h:22-40 | Each field of the reader ends as what its field in the stream becomes, or as it was if the stream has none of its id and wire type. |
| ThriftLaws.RepeatedFields | msgrpc/include/msgrpc/thrift/thrift_struct_define.h:78-92 | A field that comes more than once is read each time, into what it has become before; the struct can be read if and only if each of these readings can be done. |
| ThriftLaws.LastOneCounts | msgrpc/include/msgrpc/thrift/thrift_struct_define.h:78-92 | Of repeated fields the last one counts, whatever the type, except for structs and for sets that are not cleared. |
| ThriftLaws.ReadAccepts | msgrpc/include/msgrpc/thrift/thrift_struct_define.h:46-98 | A struct is read from any well-formed field stream, repeated ids included, if and only if each required field appears with its wire type and what is nested can be read. |
| ThriftLaws.FlatStructAccepts | msgrpc/include/msgrpc/thrift/thrift_struct_define.h:46-98 | When the shared fields are scalars, reading succeeds if and only if every required field appears with its wire type. |
| ThriftLaws.FieldOrderIsIrrelevant | msgrpc/include/msgrpc/thrift/thrift_struct_define.h:78-92 | Permuting the fields of a stream changes neither the value read, nor whether reading succeeds. |
| ThriftLaws.Interoperable | msgrpc/demo/gen1/api_types.cpp:311-706 | What generated code writes, the macro codec reads and rewrites to the same bytes, which generated code reads as the original, although they differ on which fields are required and on clearing sets. |
| ThriftNormal.InteroperableBack | msgrpc/test/test_thrift_struct.cpp:10-40 | The other direction: what the macro codec writes, generated code reads, if at all, as a value that the macro codec reads back unchanged; it is the value written if and only if that sets every field generated code always writes. |
| ThriftNormal.ReadIsNormal | msgrpc/include/msgrpc/thrift/thrift_types.h:114-237 | From any bytes at all, readers turn a target of normal form, such as a fresh one, into a value of normal form only: sets and maps in strict order, unset fields at their defaults. |
| ThriftNormal.RoundTripIffNormal | msgrpc/include/msgrpc/thrift/thrift_struct_define.h:64-129 | For schemas with strict orders, a value survives being written and read into a fresh target if and only if it is of normal form. |
| ThriftEquality.RoundTripIsEqual | msgrpc/include/msgrpc/thrift/thrift_struct_declare.h:49-59 | Up to operator==, which ignores what unset fields hold: reading back gives an equal value if and only if sets and maps stay in strict order when unset fields are put to their defaults. |
| ThriftEquality.UnorderedRoundTrip | msgrpc/include/msgrpc/thrift/thrift_struct_declare.h:49-59 | So without sets and maps every value comes back equal, whatever its unset fields hold. |
| ThriftEquality.NormalEqualIsSame | msgrpc/include/msgrpc/thrift/thrift_struct_declare.h:49-59 | On values of normal form operator== is identity. |
| ThriftEquality.EmbeddedEquality | msgrpc/include/msgrpc/thrift/thrift_struct_declare.h:49-59 | Two EmbeddedStructs are equal if and only if their bytes are, the optional field is set in both or in neither, and its values agree if it is set. |
| ThriftNormal.UsedSetTarget | msgrpc/include/msgrpc/thrift/thrift_types.h:164-180 | A set is not cleared before reading: a used target gives what was written if and only if it held nothing else, for any irreflexive order of the elements. |
| ThriftNormal.TargetStays | msgrpc/include/msgrpc/thrift/thrift_types.h:164-180 | Whatever is read into a set that is not cleared, as when its field comes twice, nothing that was in it is lost. |
| ThriftNormal.EmbeddedIsOrdered | msgrpc/demo/demo_api_struct_define.cpp:7-9 | The order of EmbeddedStruct, which compares the byte first and then the i16 and ignores __isset, is one of the orders these laws speak of. |
| ThriftNormal.EmbeddedSetRoundTrip | msgrpc/demo/demo_api_struct_define.cpp:7-9 | A set of EmbeddedStruct survives being written and read if and only if the unset fields of its elements are 0. |
| ThriftNormal.EmbeddedOnTheWire | msgrpc/include/msgrpc/thrift/thrift_struct_define.h:102-129 | The bytes of every EmbeddedStruct: type and id of each field, two's complement highest byte first, an unset field left out, a stop byte. |
| ThriftFormat.FieldBytes | msgrpc/include/msgrpc/thrift/thrift_struct_define.h:102-112 | A field is one byte for its type (2 bool, 3 byte, 4 double, 6 i16, 8 i32, 10 i64, 11 string, 12 struct, 13 map, 14 set, 15 list), its id as two bytes of two's complement, and its value; an optional field that is not set is nothing. |
| ThriftFormat.TypeCodes | msgrpc/include/msgrpc/thrift/thrift_types.h:10-29 | The type codes of the table, each for exactly one of the types. |
| ThriftFormat.StructBytes | msgrpc/include/msgrpc/thrift/thrift_struct_define.h:116-129 | A struct is its fields in declaration order and a 0 byte. |
| ThriftFormat.IntegerBytes | msgrpc/include/msgrpc/thrift/thrift_types.h:56-94 | Integers of 8, 16, 32 and 64 bits are that many bits of two's complement, the highest byte first. |
| ThriftFormat.BoolByte | msgrpc/include/msgrpc/thrift/thrift_types.h:43-54 | A bool is written as one byte, 1 or 0. |
| ThriftFormat.DoubleBytes | msgrpc/include/msgrpc/thrift/thrift_types.h:96-104 | A double is written as its 8 bytes, the highest first. |
| ThriftFormat.StringBytes | msgrpc/include/msgrpc/thrift/thrift_types.h:106-124 | A string is its size in four bytes, the highest first, and its bytes; it fits if and only if it is shorter than 2^31. |
| ThriftFormat.ListBytes | msgrpc/include/msgrpc/thrift/thrift_types.h:146-159 | A list is the code of its elements, its size in four bytes, and the elements. |
| ThriftFormat.SetBytes | msgrpc/include/msgrpc/thrift/thrift_types.h:182-194 | A set is written byte for byte like a list of the same elements. |
| ThriftFormat.ItemsInOrder | msgrpc/include/msgrpc/thrift/thrift_types.h:150-154 | The encodings of the elements stand one behind the other in iteration order. |
| ThriftFormat.MapBytes | msgrpc/include/msgrpc/thrift/thrift_types.h:221-236 | A map is the code of its keys, the code of its values, its size in four bytes, and the entries. |
| ThriftFormat.PairsInOrder | msgrpc/include/msgrpc/thrift/thrift_types.h:227-232 | The entries stand one behind the other, each key before its value. |
| ThriftFormat.FixedWidthSkipped | msgrpc/include/msgrpc/thrift/thrift_struct_define.h:84-90 | Skipping a bool, byte, double, i16, i32 or i64 takes 1, 1, 8, 2, 4 or 8 bytes, and fails if and only if there are fewer. |
| ThriftFormat.NoSuchType | msgrpc/include/msgrpc/thrift/thrift_types.h:10-29 | Skipping any other code than the eleven fails. |
| ThriftFormat.StringSkipped | msgrpc/include/msgrpc/thrift/thrift_struct_define.h:84-90 | A string is skipped with its bytes; a size that is negative or more than what is left fails. |
| ThriftFormat.StructSkipped | msgrpc/include/msgrpc/thrift/thrift_struct_define.h:84-90 | A struct is skipped field by field, by the type on the wire, up to the 0 byte. |
| ThriftFormat.ElementsSkipped | msgrpc/include/msgrpc/thrift/thrift_struct_define.h:84-90 | Skipping a list or a set leads to r if and only if skipping as many values of the type in its header, one after the other, does. |
| ThriftFormat.MapSkipped | msgrpc/include/msgrpc/thrift/thrift_struct_define.h:84-90 | Skipping a map leads to r if and only if skipping its keys and values in turn does, each by its type in the header. |
| ThriftFormat.FreshValues | msgrpc/include/msgrpc/thrift/thrift_types.h:171-176 | What an element is read into before it is read: false, 0, the empty string, list, set or map. The readers of bools, numbers and strings do not look at it. |
| ThriftFormat.FreshStruct | msgrpc/include/msgrpc/thrift/thrift_struct_declare.h:8-30 | A new struct has fresh fields, of which exactly the optional ones are unset. |
| ThriftFormat.BoolRead | msgrpc/include/msgrpc/thrift/thrift_types.h:43-54 | Every byte but 0 is read as true. |
| ThriftFormat.I32Read | msgrpc/include/msgrpc/thrift/thrift_types.h:76-84 | Four bytes are read as two's complement, the highest first; fewer fail. ThriftFormat.ByteRead, I16Read and I64Read say the same of 1, 2 and 8 bytes. |
| ThriftFormat.DoubleRead | msgrpc/include/msgrpc/thrift/thrift_types.h:96-104 | A double is read from any eight bytes, as they are. |
| ThriftFormat.StringRead | msgrpc/include/msgrpc/thrift/thrift_types.h:106-124 | A string is read with its bytes; a size that is negative or more than what is left fails. |
| ThriftFormat.ListRead | msgrpc/include/msgrpc/thrift/thrift_types.h:129-144 | A list is read as vs up to r if and only if the size says so and reading its elements in turn, each into a fresh one, gives vs and leads to r; neither what it held before nor the element type on the wire matters. |
| ThriftFormat.SetRead | msgrpc/include/msgrpc/thrift/thrift_types.h:164-180 | A set reads what a list would read, inserted element by element in the order of the wire into what it held, or into nothing if it is cleared. |
| ThriftFormat.InsertPlace | msgrpc/include/msgrpc/thrift/thrift_types.h:171-176 | An element goes before the first one that is not less than it, unless that is equivalent to it; then the set stays as it is. |
| ThriftFormat.MapRead | msgrpc/include/msgrpc/thrift/thrift_types.h:200-219 | A map is read as pairs up to r if and only if reading as many entries as its size says, from the empty map on, leads there. |
| ThriftFormat.EntryRead | msgrpc/include/msgrpc/thrift/thrift_types.h:210-215 | The value of a key that is equivalent to one there is read into the value that has, which keeps its key; that of a new key is read into a fresh one, at the place of the key. |
| ThriftFormat.StructRead | msgrpc/include/msgrpc/thrift/thrift_struct_define.h:64-98 | Reading a struct succeeds if and only if the loop over its fields does and the id of every required field was read. |
| ThriftFormat.FieldRead | msgrpc/include/msgrpc/thrift/thrift_struct_define.h:22-40 | A field with a known id is read and marked as set if the type on the wire is its own, and skipped by the type on the wire otherwise. |
| ThriftFormat.FieldSkipped | msgrpc/include/msgrpc/thrift/thrift_struct_define.h:84-90 | A field with an unknown id is skipped by the type on the wire. |
| ThriftNormal.ElementWidthsMustAgree | msgrpc/include/msgrpc/thrift/thrift_types.h:129-144 | The element type on the wire is not looked at: between fixed-width types every list is consumed exactly if and only if the widths agree. |
| ThriftProtocol.Output.Write | msgrpc/include/msgrpc/thrift/thrift_types.h:33-237 | Every writer appends exactly the encoding and returns the number of bytes appended. |
| ThriftProtocol.Output.WriteFields | msgrpc/include/msgrpc/thrift/thrift_struct_define.h:102-129 | The field loop appends required fields always and optional ones exactly if set. |
| ThriftProtocol.Input.Read | msgrpc/include/msgrpc/thrift/thrift_types.h:33-237 | Every reader moves the position exactly over what it decodes, returns that many bytes, and fails exactly when decoding does. |
| ThriftProtocol.Input.ReadStruct | msgrpc/include/msgrpc/thrift/thrift_struct_define.h:64-98 | The field loop with skipping, and the check of required fields after it. |
| ThriftProtocol.Input.ReadEntries | msgrpc/include/msgrpc/thrift/thrift_types.h:200-219 | The loop of a map: a repeated key reads into the value it has already. |
| ThriftProtocol.Decode | msgrpc/include/msgrpc/thrift/thrift_codec.h:66-82 | Decoding succeeds if and only if a struct can be read from the front of the buffer; bytes after it are ignored. |
| ThriftProtocol.RoundTripCounted | msgrpc/include/msgrpc/thrift/thrift_codec.h:36-82 | Writing and reading back gives the value, and both counts equal the bytes on the wire. |
| ServiceRegister.PortTextRoundTrip | msgrpc/adapter_example/core/adapter/zk_service_register.cpp:20-30 | A port given as decimal digits is discovered as registered if and only if the text does not start with 0 or the port is below 8, because the base is detected from the text. |
| ServiceRegister.PortTexts | msgrpc/adapter_example/core/adapter/zk_service_register.cpp:20-30 | For every decimal text without a leading 0 that is an unsigned long: the port is its lowest 16 bits, and the address what stands before the first colon; without a colon there is no address. |
| ServiceRegister.StrtoulTexts | msgrpc/adapter_example/core/adapter/zk_service_register.cpp:27 | Texts spelled out: spaces, a plus sign, 0x and 0X, a leading 0, what ends a number, no number at all. |
| ServiceRegister.StrtoulLimits | msgrpc/adapter_example/core/adapter/zk_service_register.cpp:27 | Negative numbers wrap around at 2^64, and too large ones are clamped to 2^64 - 1. |
| ServiceRegister.StrtoulAfterX | msgrpc/adapter_example/core/adapter/zk_service_register.cpp:27 | Every number after 0x or 0X is read as hexadecimal, up to the first character that is no hexadecimal digit. |
| ServiceRegister.StrtoulAfterZero | msgrpc/adapter_example/core/adapter/zk_service_register.cpp:27 | Every number after a 0 is read as octal, up to the first character that is no octal digit. |
| ServiceRegister.PrintedPortRoundTrip | msgrpc/adapter_example/core/adapter/zk_service_register.cpp:20-39 | So a port printed as usual always comes back. |
| ServiceRegister.NodeNameRoundTrip | msgrpc/adapter_example/core/adapter/zk_service_register.cpp:20-39 | A node name gives back its version whatever the session and version, and its address and port if and only if the port text has no leading 0 or the port is below 8. |
| ServiceRegister.NodeTexts | msgrpc/adapter_example/core/adapter/zk_service_register.cpp:213 | The name of a node is the endpoint, @, the session in decimal, # and the version. |
| ServiceRegister.SessionsApart | msgrpc/adapter_example/core/adapter/zk_service_register.cpp:213 | Nodes of one endpoint and version have different names if and only if their sessions differ. |
| ServiceRegister.StringsToInstances | msgrpc/adapter_example/core/adapter/zk_service_register.cpp:42-58 | One instance for each address and port that occurs, in order, each with the version of the first string that has it. |
| ServiceRegister.Register.Update | msgrpc/adapter_example/core/adapter/zk_service_register.cpp:276-290 | Fetching the nodes of one service gives it the instances that their names say and keeps those of all others: the cache always holds what was fetched last. |
| ServiceRegister.Register.ServiceNameToId | msgrpc/adapter_example/core/adapter/zk_service_register.cpp:97-118 | An address if and only if one of the node names fetched last for the service has one, and then that of one of them: the only instance, or the one at the count of earlier lookups modulo their number; only then does the count go on, modulo 2^64. |
| ServiceRegister.EachAddressOnce | msgrpc/adapter_example/core/adapter/zk_service_register.cpp:97-118 | In any n consecutive lookups of a service with n instances, for every n from 1 on, each address among the node names fetched for it is answered exactly once, and no other address is. |
| ServiceRegister.EachInstanceOnce | msgrpc/adapter_example/core/adapter/zk_service_register.cpp:97-118 | Any n consecutive lookups of a service with n instances, for every n from 1 on, return each of them exactly once, whatever lookups of others come between, until the counter wraps. |

## Left out

- Pointers: cells live in a sequence and are named by position, so use after free cannot be expressed. Deletion by a
  final action is a step at the end of the message dispatch, because the source still reads a timeout cell after
  settling it (`msgrpc/include/msgrpc/core/cell/timeout_cell.h:68-72`).
- User callbacks: the logic of derived cells and start functions are pure parameters; callbacks that build further
  cells while a propagation runs are not modelled, except for the calls that timeout cells make.
- `AreInputs` asks that a node and its inputs belong to one interaction and that the rpc cell of an attempt is not
  handed out, which is what the cells given out by `derive_rpc_cell` and `derive_cell` guarantee.
- `HasRoom`: operations that may take ids ask for what the source asserts when it takes them, that none of these ids is
  registered: the next one, and one more for each live timeout cell that has not started, since its start may follow.
  `ClientSteps.NextIdTakenIff` says exactly when an id is registered, and `IdWitnesses.ClashRun` shows that it can be.
- Client.Runtime.HandleRpcRsp: a succeeded response for a registered call must have a payload, as the source asserts; messages
  shorter than a header are left out.
- Client.Runtime.SendRpcRequestBuf: whether an instance of the service is found and whether the channel takes the message is a
  parameter of the client, `channel`, for each call.
- EndToEnd.AnswersAreGenuine: a response is delivered only while its call is less than a cycle of ids old; what happens otherwise is
  stated exactly by `EndToEnd.SettledByIffWholeCycles`.
- Cells that fail with the code for success (`failed_cell_with_reason` with `succeeded`) are excluded by the type `Reason`.
- `DerivedAsyncCell`, service filters and resolvers, the operator used to build cells, configuration and logging.
- Threads: one thread runs each client; concurrent use of the counter and of the cached register is not modelled.
- Sockets, timers as such, the message loop and the queue of tasks: replaced by steps that deliver messages.
- Raw headers and memory management of buffers; messages are records with a byte payload.
- ZooKeeper sessions, watchers and listeners of the register, and `instances_of`; fetching the nodes of a service and the task
  that enters them in the cache are one step, `ServiceRegister.Register.Update`.
- A handler's cell without a value must belong to a context, which the source asserts when the final action is attached
  (`msgrpc/include/msgrpc/core/cell/derived_action.h:31`). One that has failed already is modelled as never answered.
- `address::from_string` is a parameter of the register, and an address without `:` and `#` is all that is asked of an IP text.
- ServiceRegister.EachInstanceOnce: holds until the counter of the service wraps around; the counter is not reset when the list changes.
- Handler bodies: what a handler returns is a parameter of the server, and so is when its cell settles.
- Thrift beyond the wire format: the recursion limit, protocol exceptions other than failure, and wire types that none
  of the schemas use, which `Skip` takes for a failure. Containers and strings are shorter than 2^31, doubles are bit patterns.
- ThriftEvolution.ReadIsProjection: reader and writer must agree on element, key and value types of the containers they share, since
  readers do not look at these on the wire (`ThriftNormal.ElementWidthsMustAgree` says what happens between fixed-width types).
- ThriftLaws.Interoperable: the two schemas list the same ids in the same order, and a field that both make optional has the same
  default. ThriftNormal.InteroperableBack the same.
- ThriftNormal.RoundTripIffNormal: the orders of sets and map keys must be strict and transitive, which `std::set` and `std::map`
  demand of them; `ThriftNormal.UsedSetTarget` needs no more than that nothing is below itself.
- `TimerMgr::reset`, which empties the list of cancelled timers between tests.
- Printing, swapping and copying of structs.
