# Verification of the relayed E2/E42 protocol and its neighbours

This project models the xApp - iApp - near-RT RIC - E2 agent relay, the replication of the
connected-node registry, and three smaller algorithms of the same system, and proves
properties of every run of these models. `dafny verify dfyconfig.toml` verifies everything.

## What is modelled

**The relay** (`Relay.dfy`). Any number of xApps and agents, the iApp thread and the RIC's
task threads interleave freely; one step is one access to shared state (one line or two of
the source, see the table below). The iApp thread holds the write lock of the translation
table from taking a request until the new id is recorded, and a RIC task that needs the table
waits for the lock. `Direct.dfy` is the specification: a private channel between an xApp's
call and its agent, with no relay, no RIC-wide ids, no timers and no lock.

| step | source |
|---|---|
| XStart, XDelete, XForget | src/xApp/e42_xapp.c:391-471, src/xApp/e42_xapp.c:534-565 |
| XSettle, XHear | src/xApp/msg_handler_xapp.c:178-239, src/xApp/msg_handler_xapp.c:274-375 |
| ITake | src/ric/iApp/e42_iapp.c:146-160, src/ric/iApp/msg_handler_iapp.c:317-360 |
| IDraw, IArm, ISend | src/ric/near_ric.c:807-835, src/ric/near_ric.c:863-891 |
| IMap | src/ric/iApp/map_ric_id.c:130-149 |
| ILookup | src/ric/iApp/map_ric_id.c:196-216 |
| IArmDelete, ISendDelete | src/ric/near_ric.c:837-861 |
| AServe | src/agent/msg_handler_agent.c:66-91, src/agent/msg_handler_agent.c:167-252, src/agent/msg_handler_agent.c:277-327 |
| AIndicate | src/agent/e2_agent.c:408-433 |
| TReceive, TPass | src/ric/near_ric.c:410-442, src/ric/msg_handler_ric.c:300-337 |
| TStop | src/ric/msg_handler_ric.c:163-180 |
| TForward | src/ric/iApp/map_ric_id.c:168-194, src/ric/iApp/msg_handler_iapp.c:90-218, src/ric/iApp/msg_handler_iapp.c:262-290 |

A failing assert of the source stops the run; in the machines it is a step that is not
enabled, and lemmas prove which of these guards can never fail and, for the others, exactly
when they do.

How the relay's proof is organised: `RelayInv.dfy` has the invariant and the relation to the
direct channels (erase the ids, pour all queues into one bag), `RelayFlight.dfy` what each
step does to the bag, `RelaySim.dfy` that each step is a step of the direct channels or none,
`RelayKeeps.dfy` that each step keeps the invariant, `RelayTheorems.dfy` and
`RelayRouting.dfy` the results over whole runs. `RelayAnswers.dfy` follows requests and
answers from end to end, without the direct channels in what it states: histories log what
agents answered and what xApps handled. `RelayExample.dfy` has runs that exercise all this.

**Connected nodes** (`Connections.dfy`, `Replication.dfy`, `Replicas.dfy`). Setup requests are
handled by parallel tasks, shutdowns by the event loop, E42 setups by the iApp thread. One
step is again one access to shared state, agents and xApps may resend their setup requests
at any time, and a peer may shut down at any time.

| step | source |
|---|---|
| Arrive, RegisterAddr | src/agent/e2_agent.c:458-473, src/ric/near_ric.c:410-442 |
| TellIApp, Append | src/ric/msg_handler_ric.c:422-432, src/lib/msg_hand/reg_e2_nodes.c:105-111 |
| Notify, RemoveAddr, Erase, Forget | src/ric/not_handler_ric.c:23-57, src/ric/map_e2_node_sockaddr.c:130-139 |
| Rebalance | src/util/alg_ds/ds/assoc_container/assoc_rb_tree.c:132-234, src/util/alg_ds/ds/assoc_container/assoc_rb_tree.c:280-363 |
| Ask | src/xApp/e42_xapp.c:274-284 |
| TakeSnapshot, RegisterSock, SendResponse | src/ric/iApp/e42_iapp.c:160-180, src/ric/iApp/map_xapps_sockaddr.c:107-131 |
| NodeUp, Append | src/ric/msg_handler_ric.c:422-436 |
| Erase, NodeDown | src/ric/not_handler_ric.c:33-56, src/ric/iApp/e42_iapp.c:245-254 |
| Count, Snapshot, SendNext, End | src/ric/iApp/msg_handler_iapp.c:537-591 |
| Receive | src/xApp/msg_handler_xapp.c:394-426, src/xApp/msg_handler_xapp.c:635-684 |

In `Connections.dfy` the address map is the pair of search trees it is, with equal keys, since
which entry a search finds depends on the shape of the tree (`SearchTree.dfy`); the
rebalancing is any reshaping that keeps the order of the entries, as rotations do.
`Replication.dfy` has the machine of the registry and the lookups of the broadcasts, `Replicas.dfy` what the
xApps' copies of the registry hold, `ReplicaExamples.dfy` runs in which a copy goes wrong.

**Objects.** Where the source updates an object in place the model has a class whose methods
state the whole new state: the translation table (`IdMap.MapRicId`), the RIC
(`RicCore.NearRic`), the iApp's handlers (`IApp.E42IApp`), the xApp's registry, timers, flags
and handlers (`XappCalls`, `XappHandlers`), the agent (`AgentLoop.E2Agent`), the node
registry (`RegE2Nodes.RegE2Node`), the RIC's node views (`Connections.RicNodes`), the update
broadcast (`Replication.IAppXapps`), the database worker (`DbQueue.DbXapp`). Lemmas say which
steps of the machines such a method amounts to.

**JSON lines.** `Json.dfy` has JSON values, their text and a reader for any of them, with the
numbers of `JsonNumber.dfy`; `KpmJson.dfy` the printer of the decoder and what a reader finds
on its lines, stated in terms of the message and not of the printer.

**Containers.** A bi-map is a pair of finite maps, and that they stay inverse is proved where
the code relies on it. The search trees accept a second entry with an equal key, so that
keys are new is proved for every insertion.

## Where the code does not do what one would expect

- The request counter is wider than the 16 bits that are sent. Request 64516 gets id 0, which
  every lookup rejects, and request 65537 repeats id 1021; entries of the translation table
  are never removed (`rm_map_ric_id` has no caller). `RicCore.IdAllocationBound` and
  `RelayRouting.OneRequestIsRefused` give the exact bounds. The theorems about runs hold for
  up to 65536 requests, the assert that an id is not 0 for all of these but number 64516.
- Delete and control requests are sent before their timer is armed, subscriptions after. An
  answer handled in between fails an assert: `XappCalls.ControlAnsweredTooEarly` is such a run,
  `XappCalls.HandlerFindsTimerIffArmed` the exact condition.
- A signal that comes before the caller waits is wiped out, and the run then stops on the
  wait's timeout (`XappCalls.SignalIsLostIffEarly`, `XappCalls.LostSignalOnlyTimesOut`).
- A second connection loss before the setup response leaves two setup timers at the agent,
  and the next of them to fire fails an assert (`AgentLoop.TwoLossesBreakTheAssert`; the exact
  condition is in `AgentLoop.EveryDescriptorMeansOneThing`).
- An agent resends its E2 setup request until the response is handled, but the RIC asserts
  that the node is new: `Connections.ResentSetupFails` is a failing run,
  `Connections.SetupSurvivesIff` the exact condition.
- A peer that shuts down while its setup is being handled fails the assert that it is
  connected, unless the setup comes to its end in between (`Connections.EarlyShutdownFails`,
  `Connections.EarlyShutdownMaySucceed`, exactly `Connections.ShutdownSurvivesIff`).
- A node that sets up from two addresses has two entries in the address map. The shutdown of
  the second finds the first and fails (`Connections.SecondAddressFails`); after a rotation it
  is the other way round (`Connections.FirstAddressFails`). `Connections.RemovalSurvivesIff`
  says exactly when a shutdown passes in every shape of the trees.
- An xApp resends its E42 setup request on a timeout, gets a second id, and stops at the
  second response (`ReplicaExamples.ResentRequestFails`). It also stops at the first one if
  the broadcast of an earlier change overtakes it (`ReplicaExamples.LateBroadcastFails`).
  `Replicas.ResponseSurvivesIff` is the exact condition.
- A change between the snapshot of an E42 setup and the registration of the address is
  missed, and the new xApp's registry stays outdated (`ReplicaExamples.MissedUpdate`).
- A shutdown gives up the lock that setups hold before it removes the node from the registry
  and broadcasts, so its broadcast can overtake that of another node's setup and the older
  registry comes last (`ReplicaExamples.CrossedBroadcastsReorder`); the broadcast of the
  node's own setup is always over by then (`Replication.OwnBroadcastComesFirst`).
- Otherwise, when all broadcasts are over, a drained copy is current exactly if an update came
  after the response or the response made it so (`Replicas.DrainedIsCurrentIff`), which is
  the case if the registry rested during the setup (`Replicas.UndisturbedIsCurrent`).
- A control acknowledge is rebuilt from its identifier, so the control outcome the agent sent
  does not reach the xApp; all other answers reach it as they were given
  (`RelayAnswers.AnswersReachTheirCalls`, `IApp.E42IApp.HandleFromRic`).
- Control characters other than newline, return and tab are printed unescaped, and a floating
  point value that is infinite or no number is printed as `inf` or `nan`; RFC 8259 allows
  neither (`KpmJson.NanIsNotRead`; `KpmJson.PrintRoundTrip` has the exact condition).
- The decoder of gNB ids accepts strings whose padding is not zero and drops the padding
  (`GnbId.EncodeDecodeIffPadded`).

## Model

| member | source | states |
|---|---|---|
| RelayTheorems.StepRefines | src/ric/iApp/msg_handler_iapp.c:90-409 | Erasing the id translation, each step of xApps, iApp, RIC and agents is one step of the direct xApp-agent channels, or none, and keeps the invariant |
| RelayTheorems.RunRefines | src/ric/iApp/msg_handler_iapp.c:90-409 | Every run with at most 65536 requests is, message for message, a run of the direct channels: nothing is invented, misrouted or duplicated (what becomes of the payloads is stated by the RelayAnswers members) |
| RelayTheorems.AssertsHold | src/ric/iApp/msg_handler_iapp.c:359-370 | In every interleaving of at most 65536 requests, an arrived answer finds its armed timer, a message going home finds its table entry whenever the table can be read (and only id 0 is refused, which none of the first 64515 requests gets), a drawn id is new in both trees, a delete finds its subscription and exactly one agent timer, an answer finds the call waiting for that kind |
| RelayTheorems.ArrivedIsPending | src/ric/msg_handler_ric.c:163-180 | An answer that arrived at the RIC has its pending event, because the timer was armed before the request was sent |
| RelayTheorems.DeletedTimer | src/agent/msg_handler_agent.c:66-91 | The delete that reaches an agent names the RIC id the agent stored on that very node |
| RelayTheorems.SameEntry | src/ric/iApp/map_ric_id.c:130-149 | No two ids of the table stand for the same procedure of an xApp |
| RelayTheorems.DrawsNewId | src/ric/near_ric.c:812 | While fewer than 65536 ids were drawn, the next one is a 16-bit id that is not in the table |
| RelayTheorems.InitialLinked | src/ric/near_ric.c:252 | A freshly started system satisfies the invariant and represents idle channels |
| RelayRouting.IndicationsAreRouted | src/xApp/msg_handler_xapp.c:274-318 | Every callback run is the callback of the call that subscribed, with the E2 node that really produced the indication; per call and payload, indications sent equal those delivered, dropped and in flight |
| RelayRouting.CallSource | src/xApp/msg_handler_xapp.c:300-313 | Each callback run has an indication some agent on the recorded node sent under that subscription's id |
| RelayRouting.Conservation | src/agent/e2_agent.c:408-433 | Indications sent for a call equal delivered plus dropped plus in flight |
| RelayRouting.RemovedHandlesStaySilent | src/xApp/act_proc.c:90-130 | A removed handle stays removed, and no later indication runs a callback for it |
| RelayRouting.DeletedSubscriptionsAreSilent | src/agent/msg_handler_agent.c:230-252 | After an agent served the delete of a subscription no agent holds a timer for it and no further indication is sent for it, ever |
| RelayRouting.PendingIsOutstanding | src/ric/near_ric.c:819-832 | At every point the pending map is exactly the requests issued and not yet answered, each once with its own open timer; an answer stops its own timer and no other |
| RelayRouting.StopsItsOwn | src/ric/msg_handler_ric.c:163-180 | Two answers never share a timer, and an answer matches one timer only |
| RelayRouting.OneRequestIsRefused | src/ric/iApp/map_ric_id.c:168-194 | In every run of at most 65536 requests, whenever the table can be read, the iApp forwards a message home iff it does not belong to request number 64516 |
| RelayExample.SubscriptionReachesItsCallback | src/agent/e2_agent.c:408-433 | For any xApp, subscription and payload there is a run in which an indication reaches the callback with its node |
| RelayExample.ControlIsAnswered | src/ric/iApp/msg_handler_iapp.c:173-198 | For any xApp and control request, and either verdict of the agent, there is a run in which the call gets that verdict, with the cause of a refusal and without the outcome of an acknowledge, and leaves no timer behind |
| RelayExample.SubscriptionIsDeleted | src/agent/msg_handler_agent.c:230-252 | There is a run in which a subscription is made and deleted, and no timer is left at agent or RIC and no procedure at the xApp |
| RelayAnswers.AnswersReachTheirCalls | src/ric/iApp/msg_handler_iapp.c:90-218 | In every run, each answer an xApp handled was given by an agent on the node that call was started for, to a request of that call; kind and verdict are the agent's, the identifier is the xApp's own, and the payload is the agent's but for a control acknowledge, which arrives empty; subscriptions and deletes always succeed |
| RelayAnswers.AnswersAreUnique | src/xApp/msg_handler_xapp.c:178-239 | In every run no request of a call is answered twice by agents, and no answer is handled twice by its xApp |
| RelayAnswers.RequestsArriveAsIssued | src/ric/near_ric.c:828-832 | In every run, each request at an agent is on the node, for the RAN function, of the kind and with the payload its call was started with, or is the delete of a subscription |
| RelayAnswers.StartsAreKept | src/xApp/e42_xapp.c:391-431 | What a call was started with is what the history says of it for ever, and its key was never used before |
| RelayAnswers.StepsAreLogged | src/agent/e2_agent.c:408-433 | The histories of starts, indications, answers given and answers handled grow by just the steps that make these, as they make them |
| RelayAnswers.StageGrows | src/xApp/e42_xapp.c:407-471 | A call goes through request, answer, delete and its answer in this order and never back |
| RelayKeeps.AloneInChannel | src/xApp/e42_xapp.c:407-431 | While a request or answer of a call is in flight, nothing else of that call is, request or answer |
| RelayKeeps.NoTwin | src/ric/iApp/msg_handler_iapp.c:343-374 | The request in the iApp's hands has no twin still queued |
| RelayKeeps.EventIsNew | src/lib/pending_event_ric.c:29-41 | The event about to be armed is not pending yet, so the tree never holds an event twice |
| RelayKeeps.ArmPending | src/ric/near_ric.c:819-826 | Arming a new event keeps the pending map equal to the outstanding requests |
| RelayKeeps.StopPending | src/ric/msg_handler_ric.c:163-180 | Stopping an event removes exactly that request from both |
| RelayKeeps.DrawKeeps | src/ric/near_ric.c:812-814 | Drawing an id below the bound keeps the whole invariant |
| RelayKeeps.ServeAgents | src/agent/msg_handler_agent.c:203-212 | An agent never gets a second timer for an identifier |
| RelayKeeps.SettleKeeps | src/xApp/msg_handler_xapp.c:178-239 | Handling an answer keeps the invariant: a call that was answered has its id in the table |
| RelaySim.TimersDistinct | src/agent/msg_handler_agent.c:203-212 | Two agent timers never stand for the same call, on any node |
| RelaySim.RemoveTimer | src/agent/msg_handler_agent.c:66-91 | Closing one agent timer ends exactly one subscription |
| RelaySim.SettleEnabled | src/xApp/msg_handler_xapp.c:178-201 | The answer at the head of an xApp's queue is the one its waiting call expects |
| RelaySim.ServeEnabled | src/agent/msg_handler_agent.c:167-252 | A request at an agent is the request its call sent, under erased identifiers |
| RelayFlight.FlightStable | src/ric/iApp/map_ric_id.c:130-149 | Recording a new id does not change what any message already in flight stands for |
| RelayFlight.DeleteWire | src/ric/iApp/msg_handler_iapp.c:317-340 | The delete sent to the agent stands for the call the xApp asked to delete |
| RelayFlight.SendFlight | src/ric/near_ric.c:828-832 | Sending a translated request moves one message and makes none |
| RelayFlight.ForwardFlight | src/ric/iApp/msg_handler_iapp.c:90-117 | Translating a message home moves one message and makes none |
| Direct.StepKeepsInv | src/xApp/e42_xapp.c:407-471 | On the direct channels a call waits exactly as long as its request or answer is in flight, and an agent serves a subscription exactly from its request to its delete |
| Direct.StepConserves | src/xApp/msg_handler_xapp.c:274-318 | Indications made equal heard plus dropped plus in flight after every step |
| Direct.EndedStays | src/agent/msg_handler_agent.c:230-252 | A subscription whose delete was served is never served again and makes no indication |
| Ids.RequestComparatorsAreTotalOrders | src/ric/iApp/xapp_ric_id.c:7-32 | The comparators of request ids, table keys and pending events are total orders whose zero is equality, so ordered extraction and equality search find the same entry |
| Ids.AddressComparatorsAreTotalOrders | src/lib/ep/sctp_msg.c:35-108 | So are those of peer addresses and node ids |
| Ids.KeysAreOrderedByField | src/ric/iApp/xapp_ric_id.c:7-32 | Table keys compare by xApp, RAN function, instance and request number, pending events by kind and then like requests |
| Ids.AddressesAreOrderedByField | src/lib/ep/sctp_msg.c:35-108 | Peer addresses compare by port, address and family |
| Ids.NodesAreOrderedByField | src/lib/e2ap/v2_03/e2ap_types/common/e2ap_global_node_id.c:92-127 | Node ids compare by RAN type, country, network, its digits, identifier, unused bits (the more, the smaller) and CU or DU id |
| IdMap.AddedIsInverse | src/ric/iApp/map_ric_id.c:130-149 | Adding a pair new on both sides keeps the two trees inverse to each other |
| IdMap.MapRicId.AddMapRicId | src/ric/iApp/map_ric_id.c:130-149 | Adds the pair to both trees |
| IdMap.MapRicId.FindXappMapRicId | src/ric/iApp/map_ric_id.c:168-194 | Returns the only key that was translated to this id |
| IdMap.MapRicId.FindRicReqMapRicId | src/ric/iApp/map_ric_id.c:196-216 | Returns the node and the only id this key was translated to |
| IdMap.MapRicId.RmMapRicId | src/ric/iApp/map_ric_id.c:151-166 | Removes one pair from both trees, which stay inverse |
| RicCore.IdAllocationBound | src/ric/near_ric.c:252 | The first n ids are distinct iff n is at most 65536, and non-zero iff n is at most 64515, where they are 1021 and up |
| RicCore.NearRic.FwdRicRequest | src/ric/near_ric.c:807-835 | Draws the id, writes it into the caller's message, arms the timer for it, of the kind of the request, then sends the message under that id |
| RicCore.NearRic.FwdRicSubscriptionDelete | src/ric/near_ric.c:837-861 | Arms the timer of the delete under the id drawn for the subscription, then sends |
| RicCore.NearRic.StopPendingEvent | src/ric/msg_handler_ric.c:163-180 | Takes out the entry of the event and closes its timer, no other |
| IApp.E42IApp.HandleRequest | src/ric/iApp/msg_handler_iapp.c:343-409 | Forwards and records; the table gets the xApp's identifier although the RIC overwrites it in the message |
| IApp.E42IApp.HandleSubscriptionDelete | src/ric/iApp/msg_handler_iapp.c:317-340 | The delete goes to the node and id recorded for the xApp's identifier |
| IApp.E42IApp.HandleFromRic | src/ric/iApp/msg_handler_iapp.c:90-218 | Sends one message, to the xApp of the table entry and under that xApp's own identifier: an indication with its payload, an answer of the same kind and verdict, with its payload or cause, which only a control acknowledge loses |
| IApp.RequestIsFiveSteps | src/ric/iApp/msg_handler_iapp.c:343-374 | The request handler is its five interleaved steps with nothing in between |
| IApp.DeleteIsFourSteps | src/ric/iApp/msg_handler_iapp.c:317-340 | So is the delete handler |
| XappCalls.VerdictsAreTheirOwn | src/xApp/sync_ui.c:67-118 | Whatever a blocking call returned, its success and error text are those of the answer to its own request, never a stale one |
| XappCalls.NeverTwoPending | src/xApp/pending_event_xapp.c:67-104 | The pending map, ordered by kind alone, never holds a second event, and its trees stay inverse |
| XappCalls.HandlerFindsTimerIffArmed | src/xApp/msg_handler_xapp.c:582-633 | The handler finds a descriptor iff the call is not between sending and arming, and it was armed for that very request |
| XappCalls.SubscriptionAnswersAreHandled | src/xApp/msg_handler_xapp.c:552-578 | The answer to a subscription is always handled, since it is armed before it is sent |
| XappCalls.ControlAnsweredTooEarly | src/xApp/msg_handler_xapp.c:610-633 | A run in which a control answer is handled before its timer is armed, and the assert fails |
| XappCalls.AnswersFindTheirProcedure | src/xApp/act_proc.c:104-130 | The procedure of an answer is registered under exactly its identifier |
| XappCalls.SignalIsLostIffEarly | src/xApp/sync_ui.c:67-106 | After a signal the caller can wake up iff it was waiting already; otherwise the signal is lost |
| XappCalls.LostSignalOnlyTimesOut | src/xApp/sync_ui.c:83-88 | After a lost signal the only possible step is the timeout of the wait, and nothing at all comes after it |
| XappCalls.TimeoutsStop | src/xApp/sync_ui.c:83-88 | After the timeout of a wait or of a pending event no step is possible |
| XappCalls.RegistryBetweenCalls | src/xApp/e42_xapp.c:423-471 | In every run, between calls a key is registered iff a subscription was begun with it and no delete of it was, with the identifier that call began with, and these are the keys that can be deleted |
| XappCalls.OneOutcomeForEachCall | src/xApp/e42_xapp.c:407-588 | In every run, between calls there is one outcome for each call begun, in order, from an answer to a request of that call's kind and identifier |
| XappCalls.CallReturns | src/xApp/e42_xapp.c:407-588 | For any call and any answer to it there is a run in which the call returns that verdict and reason, no timer is left, and the procedure stays registered iff it is a subscription |
| XappCalls.StepKeepsInv | src/xApp/e42_xapp.c:235-291 | Every step of caller and event loop keeps at most one request, answer or handler under way, for the latest call, and the procedure of a running call registered |
| XappCalls.ActProc.AddActProc | src/xApp/act_proc.c:73-88 | Registers under a key never used before |
| XappCalls.ActProc.RmActProc | src/xApp/act_proc.c:90-102 | Removes this entry only |
| XappCalls.ActProc.FindActProc | src/xApp/act_proc.c:104-130 | Finds iff registered, and completes the stored identifier with the key |
| XappCalls.DisarmUndoesArm | src/xApp/pending_event_xapp.c:94-103 | With no event of the kind pending, arming a timer keeps the two trees inverse, and closing the timer of that kind restores both |
| XappCalls.KindsAreIndependent | src/xApp/pending_event_xapp.c:167-185 | Closing the timer of one kind keeps the trees inverse and commutes with arming another: it never touches the timer of another kind |
| XappCalls.SyncUi.EndWait | src/xApp/sync_ui.c:91-94 | The verdict is that of the answer that was signalled |
| XappCalls.SyncUi.Signal | src/xApp/sync_ui.c:96-106 | Leaves the flags of a successful answer |
| XappCalls.SyncUi.SignalError | src/xApp/sync_ui.c:108-118 | Leaves the flags of a failed answer with its reason |
| XappCalls.SyncUi.CondWaitSyncUi | src/xApp/sync_ui.c:67-94 | A wait during which an answer is signalled returns the verdict of that answer, whatever was signalled before it |
| XappHandlers.E42Xapp.GenerateRicGenId | src/xApp/e42_xapp.c:391-404 | The request id is a registry key not in use |
| XappHandlers.E42Xapp.SendSubscriptionRequest | src/xApp/msg_handler_xapp.c:552-578 | Arms, then sends; arms the timers just as the steps of the machine in this order do |
| XappHandlers.E42Xapp.SendOtherRequest | src/xApp/msg_handler_xapp.c:582-633 | Sends, then arms; arms the timers just as the steps of the machine in this order do |
| XappHandlers.E42Xapp.HandleAnswer | src/xApp/msg_handler_xapp.c:178-375 | Closes the timer of the answer's kind and leaves the flags of that answer, just as the three steps of the machine do; a failure without a procedure only signals |
| XappHandlers.E42Xapp.HandleIndication | src/xApp/msg_handler_xapp.c:274-318 | Dispatches to the registered callback with the registered node, or drops |
| AgentLoop.EveryDescriptorMeansOneThing | src/agent/e2_agent.c:321-359 | In every run a polled descriptor is exactly one of socket, pipe, subscription timer and setup timer; the cascade takes it for an SCTP message iff it is the socket, for an aperiodic indication iff it is the pipe, for the indication of an identifier iff it is that subscription's timer, for a setup timeout iff it is the only setup timer, and its assert fails iff it is a setup timer and losses and setup responses differ in number |
| AgentLoop.ServedFromSubscribeToDelete | src/agent/msg_handler_agent.c:167-252 | In every run a descriptor is a subscription timer exactly from the request that opened it to the delete that closes it, and for that request's identifier |
| AgentLoop.TimersChange | src/agent/not_handler_agent.c:10-28 | A timer of either sort enters and leaves only by the step that opens or closes it, and keeps its identifier; socket and pipe stay |
| AgentLoop.StepKeepsInv | src/agent/msg_handler_agent.c:167-252 | Every handler keeps the partition, one timer per identifier, and the count of setup timers |
| AgentLoop.TwoLossesBreakTheAssert | src/agent/not_handler_agent.c:10-28 | A run in which the assert of pend_event fails |
| AgentLoop.E2Agent.constructor | src/agent/e2_agent.c:502-575 | Starts with one setup timer |
| AgentLoop.E2Agent.NextEvent | src/agent/e2_agent.c:321-359 | Tells an SCTP message iff the descriptor is the socket, an aperiodic indication iff it is the pipe, an indication iff it is a subscription timer, with that subscription's identifier, a setup timeout iff it is the only setup timer, and fails iff it is one of several |
| AgentLoop.E2Agent.HandleSubscriptionRequest | src/agent/msg_handler_agent.c:167-228 | Opens one timer for the identifier |
| AgentLoop.E2Agent.HandleSubscriptionDeleteRequest | src/agent/msg_handler_agent.c:66-91 | Closes exactly the identifier's timer, after which it is not served |
| AgentLoop.E2Agent.HandleSetupResponse | src/agent/msg_handler_agent.c:339-378 | Closes one setup timer |
| AgentLoop.E2Agent.NotificationHandle | src/agent/not_handler_agent.c:10-28 | Opens one more setup timer |
| AgentLoop.RelayAgentsAreAgents | src/agent/msg_handler_agent.c:167-252 | What the relay machine lets an agent do is what its handlers do |
| AgentLoop.OtherAgentsAreUntouched | src/agent/msg_handler_agent.c:167-252 | And it changes no other agent |
| RegE2Nodes.SortedIsCanonical | src/lib/msg_hand/reg_e2_nodes.c:190-230 | Two registries with the same entries list them in the same order |
| RegE2Nodes.Replicate | src/xApp/msg_handler_xapp.c:656-679 | Registry to array to registry is the identity, with function lists and order |
| RegE2Nodes.RegE2Node.AddRegE2Node | src/lib/msg_hand/reg_e2_nodes.c:87-124 | Adds the one entry, in order |
| RegE2Nodes.RegE2Node.RmRegE2Node | src/lib/msg_hand/reg_e2_nodes.c:275-294 | Removes the node's one entry, keeps the rest in order |
| RegE2Nodes.RegE2Node.FindRegE2Node | src/lib/msg_hand/reg_e2_nodes.c:296-309 | Finds iff registered |
| RegE2Nodes.RegE2Node.GenerateE2NodeArr | src/lib/msg_hand/reg_e2_nodes.c:232-273 | A deep copy in order, with its true length below 256 nodes |
| RegE2Nodes.RegE2Node.HandleSetupResponse | src/xApp/msg_handler_xapp.c:408-413 | Adds every node of the response, in whatever order it lists them; from empty, a list in tree order is taken over exactly |
| RegE2Nodes.RegE2Node.HandleUpdate | src/xApp/msg_handler_xapp.c:635-684 | Ends with the nodes of the update, whatever was there; with exactly its list when that is a registry's |
| Connections.ViewsAgree | src/ric/msg_handler_ric.c:405-440 | In every interleaving of setups, resent setups and shutdowns, the three views list each node no handler is working on equally often, once or not at all |
| Connections.SetupSurvivesIff | src/lib/msg_hand/reg_e2_nodes.c:105-111 | The assert that a node setting up is new holds iff every setup of it that told the iApp was undone by a shutdown |
| Connections.ShutdownSurvivesIff | src/ric/not_handler_ric.c:33-40 | When a shutdown comes to the erase, the node is found iff more of its setups were appended than erased |
| Connections.ForgetNeverFails | src/ric/not_handler_ric.c:55-56 | A shutdown that passed the erase finds the node in the registry of the iApp in every run |
| Connections.AddressFoundIff | src/ric/map_e2_node_sockaddr.c:130-139 | In every run a shutdown finds its address iff some setup registered it and no shutdown took that registration out again |
| Connections.RemovalSurvivesIff | src/util/alg_ds/ds/assoc_container/bimap.c:111-135 | In every run the asserts of the removal hold in all shapes of the two trees iff the address is registered and no node registered there is registered elsewhere too; otherwise there are trees of the same entries on which they fail |
| Connections.FindIsLive | src/ric/map_e2_node_sockaddr.c:130-160 | Each tree finds an entry of a node or address iff one was registered and not removed, and then finds such a one |
| Connections.StepKeepsTrees | src/util/alg_ds/ds/assoc_container/bimap.c:55-84 | Every step keeps both trees sorted, and in both exactly the links that were registered and not removed |
| SearchTree.FindIffHeld | src/util/alg_ds/ds/assoc_container/assoc_rb_tree.c:391-410 | With equal keys and in any shape, a search finds an entry of the key iff there is one |
| SearchTree.InsertSplits | src/util/alg_ds/ds/assoc_container/assoc_rb_tree.c:237-278 | A new entry goes behind all entries that are not greater, equal keys included, and before the others |
| SearchTree.ExtractSplits | src/util/alg_ds/ds/assoc_container/assoc_rb_tree.c:412-458 | An extraction takes out just the entry the search finds and keeps the others in order |
| SearchTree.RotationsKeepOrder | src/util/alg_ds/ds/assoc_container/assoc_rb_tree.c:132-180 | The two rotations undo each other and keep the entries in order |
| SearchTree.AnyAtRoot | src/util/alg_ds/ds/assoc_container/assoc_rb_tree.c:391-410 | Any of the entries may be at the root, and is then the one of its key that is found |
| Connections.NodeComes | src/ric/msg_handler_ric.c:405-440 | For any node and address, the run of a setup ends with the node in all three views, once |
| Connections.NodeGoes | src/ric/not_handler_ric.c:23-57 | And that of the shutdown after it with empty views |
| Connections.ResentSetupFails | src/agent/e2_agent.c:458-473 | A run in which a resent setup request fails the assert |
| Connections.EarlyShutdownFails | src/ric/not_handler_ric.c:23-40 | A run in which a shutdown before the end of the setup fails the assert |
| Connections.EarlyShutdownMaySucceed | src/ric/not_handler_ric.c:23-40 | The same shutdown passes if the setup gets to its end before the erase |
| Connections.SecondAddressFails | src/util/alg_ds/ds/assoc_container/bimap.c:111-135 | A run without any rotation in which a node set up from two addresses: the shutdown of the second fails, that of the first passes |
| Connections.FirstAddressFails | src/util/alg_ds/ds/assoc_container/assoc_rb_tree.c:182-234 | With a third node that sorts behind and the rotation its insertion brings, the shutdown of the first fails and that of the second passes |
| Connections.StepKeepsAccount | src/ric/near_ric.c:410-442 | Every step keeps the account of a node: what each view lists is what its handlers added less what they removed |
| Connections.WithoutOne | src/ric/not_handler_ric.c:33-52 | Erasing a node from the list removes one entry of it and nothing else |
| Connections.MapE2NodeSad.AddMapE2NodeSad | src/ric/map_e2_node_sockaddr.c:84-113 | Adds the pair; the two directions stay inverse |
| Connections.MapE2NodeSad.RmMapSadE2Node | src/ric/map_e2_node_sockaddr.c:130-139 | Removes the address's pair and returns its node |
| Connections.MapE2NodeSad.FindMapE2NodeSad | src/ric/map_e2_node_sockaddr.c:141-160 | Returns the address that leads back to the node |
| Connections.RicNodes.HandleSetupRequest | src/ric/msg_handler_ric.c:405-440 | Adds the node to all three views |
| Connections.RicNodes.NotificationHandleRic | src/ric/not_handler_ric.c:23-57 | Removes the peer's node from all three views, where it is found, and no other |
| Replication.LookupsAreFound | src/ric/iApp/msg_handler_iapp.c:537-562 | In every interleaving with registrations and the other broadcast, a running broadcast finds each id it looks up; the registered ids are 7 and up without a gap, all 16-bit, new when registered, and the next request is taken unless all of them are given out |
| Replication.EachIdOnce | src/ric/iApp/msg_handler_iapp.c:537-591 | Whatever happens in between, a broadcast that ends has sent its one snapshot to each id it counted in exactly one step, and to no other id |
| Replication.OneCopyForEachId | src/ric/iApp/msg_handler_iapp.c:545-560 | Sending to a range of ids adds to each xApp's messages as many copies as it has ids there |
| Replication.NodesAreAccounted | src/ric/not_handler_ric.c:33-56 | In every run the registry holds exactly the nodes that wait for the lock, are connected or are leaving, each of them once, and a shutdown that passed the erase finds its node there |
| Replication.OwnBroadcastComesFirst | src/ric/msg_handler_ric.c:431-436 | A node never goes down before a broadcast of a setup ended after its own setup appended it |
| Replication.IAppXapps.GenerateUpdateE2Node | src/ric/iApp/msg_handler_iapp.c:537-562 | However many xApps register in between, each xApp is sent one copy of the update for each id it had at the start, and nothing else changes |
| Replicas.ResponseSurvivesIff | src/xApp/msg_handler_xapp.c:394-426 | In any run, a setup response passes its asserts iff it is the first for this xApp and no update was queued before it, or the last such update shares no node with it |
| Replicas.ReplicaIs | src/xApp/msg_handler_xapp.c:635-684 | After any run an xApp holds the nodes of the update it handled last, or those of its response beside those of the last update before it |
| Replicas.DrainedIsCurrentIff | src/xApp/msg_handler_xapp.c:635-684 | In every run, with no broadcast due or under way and none crossed, an xApp that was answered once and drained its channel is current iff an update came after its response, or the response makes up the registry with the last update before it |
| Replicas.UndisturbedIsCurrent | src/xApp/msg_handler_xapp.c:394-426 | In particular it is current if the registry was not being changed or broadcast during its E42 setup |
| Replicas.ResponseComesFirst | src/ric/iApp/e42_iapp.c:160-180 | Then its first message is its response |
| Replicas.ReplicasAreSnapshots | src/xApp/msg_handler_xapp.c:635-684 | Unless an update overtook its response, what an xApp holds is at every moment a value the registry had, the one its last message names |
| Replicas.VersionsNeverGoBack | src/xApp/msg_handler_xapp.c:635-684 | And everything sent to an xApp that was answered once is in the order of the registry's history, unless two broadcasts crossed |
| ReplicaExamples.MissedUpdate | src/ric/iApp/e42_iapp.c:162-168 | A run in which a change before the address is registered leaves the new xApp outdated, with everything handled and all broadcasts over |
| ReplicaExamples.LateBroadcastFails | src/ric/msg_handler_ric.c:422-436 | A run in which the broadcast of a node added before the setup overtakes the response, which then fails its assert |
| ReplicaExamples.ResentRequestFails | src/xApp/e42_xapp.c:274-284 | A run in which a resent E42 setup request gets a second id and its response fails the assert that the xApp is not connected |
| ReplicaExamples.CrossedBroadcastsReorder | src/ric/not_handler_ric.c:33-56 | A run in which the broadcast of a node that left overtakes that of another that came: an xApp that was answered once, first and undisturbed ends up outdated, with everything sent and handled |
| Replicas.StepKeepsInv | src/ric/iApp/e42_iapp.c:145-201 | Every step keeps ids, channels and replicas in order |
| Replication.StepKeepsIds | src/ric/iApp/map_xapps_sockaddr.c:107-131 | Every step keeps the ids gapless and every running broadcast within them |
| GnbId.DecodeEncode | src/util/conversions.c:117-181 | Decoding undoes encoding for every identifier of 22 to 32 bits |
| GnbId.EncodeDecode | src/util/conversions.c:117-181 | Encoding undoes decoding up to the padding, which becomes zero |
| GnbId.EncodeDecodeIffPadded | src/util/conversions.c:117-181 | So it is the identity iff the padding was zero |
| GnbId.EncodedIsLeftAligned | src/util/conversions.c:117-154 | The bytes, as a big-endian word, are the identifier shifted left by the unused bits |
| GnbId.EncodedIsZeroPadded | src/util/conversions.c:117-154 | What is encoded is well formed and zero padded |
| GnbId.EncodedStrings | src/util/conversions.c:117-154 | The strings the encoder writes are exactly the well-formed zero-padded ones, and no two identifiers share one |
| GnbId.EncoderAccepts | src/util/conversions.c:127-130 | The encoder accepts just the identifiers of at least 22 bits that lose none when shifted to the top of the word |
| GnbId.DecoderAccepts | src/util/conversions.c:158-166 | The decoder accepts just the strings of 22 to 32 bits with less than a byte of padding |
| KpmJson.EscapeJson | tools/ocudu_kpm_v05_decode.cpp:13-38 | The loop writes the escapes of its characters, in order |
| KpmJson.WriteMeasurementJson | tools/ocudu_kpm_v05_decode.cpp:55-79 | Writes name, type and value in the literal texts of its five kinds, which is the text of a JSON object |
| KpmJson.MeasNameAt | tools/ocudu_kpm_v05_decode.cpp:40-53 | The name the message gives the column, or meas_id_ and its id in digits, or else measurement_ and the position in digits |
| KpmJson.DecimalDigits | tools/ocudu_kpm_v05_decode.cpp:43-51 | The ten digits, base ten, the highest first |
| KpmJson.WriteMeasurements | tools/ocudu_kpm_v05_decode.cpp:87-97 | The two loops write all measurements in row-major order with commas between |
| KpmJson.WriteFormat1Json | tools/ocudu_kpm_v05_decode.cpp:81-99 | What it writes is one line in the literal texts of the source; it is a JSON document iff no name has an unescaped control character and every floating point value was printed as a JSON number; then the document has the three fixed members and holds, at the position of each row and column, the record with the name of its column, its type and its value, and nothing else |
| Json.EscapesAre | tools/ocudu_kpm_v05_decode.cpp:13-38 | Backslash, quotation mark, line feed, return and tab get the two characters section 7 of RFC 8259 gives them, and all others stay |
| Json.PlainCharacters | tools/ocudu_kpm_v05_decode.cpp:32-34 | The reader takes a character that stands unescaped in a string iff its code is at least 32 |
| Json.EscapedIsRead | tools/ocudu_kpm_v05_decode.cpp:13-38 | An escaped name is read back whole and ends at its own quote, iff it has no control character left unescaped |
| JsonNumber.ReadIsNumber | tools/ocudu_kpm_v05_decode.cpp:62-67 | What the number reader takes is a number of section 6 of RFC 8259 and a prefix of the text |
| JsonNumber.NumberIsRead | tools/ocudu_kpm_v05_decode.cpp:62-67 | Every such number is read whole when something that cannot continue it follows |
| JsonNumber.OthersAreNotRead | tools/ocudu_kpm_v05_decode.cpp:62-67 | A text that is no such number is never read up to its end |
| JsonNumber.AllPartsTogether | tools/ocudu_kpm_v05_decode.cpp:62-67 | Numbers with sign, fraction and exponents of both spellings |
| JsonNumber.NoNumbers | tools/ocudu_kpm_v05_decode.cpp:62-67 | No leading zero or plus, and no part without digits |
| Json.ValueIsRead | tools/ocudu_kpm_v05_decode.cpp:55-79 | The text of any JSON value within a document is read back whole iff the value is well formed, and otherwise the reader gets to no comma or bracket behind it |
| Json.DocumentRoundTrip | tools/ocudu_kpm_v05_decode.cpp:81-99 | The text of an object, however deep, is a JSON document iff the object is well formed, and is then read as that object |
| Json.TextIsOneLine | tools/ocudu_kpm_v05_decode.cpp:13-38 | The text of any value is one line |
| KpmJson.DecimalWrites | tools/ocudu_kpm_v05_decode.cpp:62-64 | A printed integer has digits only, without a leading zero, and they have its value |
| KpmJson.MeasurementIsWellFormed | tools/ocudu_kpm_v05_decode.cpp:55-79 | A measurement is well-formed JSON iff its column's name is printable and its record, if floating point, was printed as a number |
| KpmJson.RowsAreMeasurements | tools/ocudu_kpm_v05_decode.cpp:87-97 | Row by row, the record of each row and column stands behind all those of earlier rows and columns |
| KpmJson.RecordIsFound | tools/ocudu_kpm_v05_decode.cpp:40-79 | What a JSON reader finds on the line at the position of a row and a column: the very name the message gives the column, or meas_id_ and digits whose value is the id, or measurement_ and digits whose value is the column, with the type and the value of the record |
| KpmJson.PrintRoundTrip | tools/ocudu_kpm_v05_decode.cpp:81-99 | The printed line is a JSON document iff no name has an unescaped control character and every floating point value was printed as a JSON number, and then a reader gets back every record of the message at its row and column with the name the message gives its column |
| KpmJson.NanIsNotRead | tools/ocudu_kpm_v05_decode.cpp:65-67 | A value that is no number makes the line unreadable, whatever the name |
| KpmJson.PrintedIsOneLine | tools/ocudu_kpm_v05_decode.cpp:13-99 | One message is one line, whatever the names |
| DbQueue.NothingLostOrReordered | src/xApp/db/db.c:89-126 | In every run, written, in hand and queued are together what the producers pushed, in order; once told to stop, the worker takes no more, and it finishes only then, with nothing in hand |
| DbQueue.BatchesAreThere | src/util/alg_ds/ds/tsn_queue/tsn_queue.c:118-179 | In every run a batch that is taken is there and is the oldest records of the queue: 100 of them if the size read last was above 100, 10 if it was 11 to 100, and otherwise 1, however many pushes came since |
| DbQueue.OneRecordIsWritten | src/xApp/db/db.c:89-126 | A run in which a record is pushed and gets written |
| DbQueue.StepKeepsInv | src/xApp/db/db.c:89-126 | Every step conserves the records and keeps the size a lower bound |
| DbQueue.DbXapp.WaitAndPopTsnq | src/util/alg_ds/ds/tsn_queue/tsn_queue.c:85-116 | Takes the oldest record, or nothing once told to stop |
| DbQueue.DbXapp.PopTsnq10 | src/util/alg_ds/ds/tsn_queue/tsn_queue.c:118-147 | Fills the 10 slots with the 10 oldest records |
| DbQueue.DbXapp.PopTsnq100 | src/util/alg_ds/ds/tsn_queue/tsn_queue.c:149-179 | Fills the 100 slots with the 100 oldest records |
| DbQueue.DbXapp.WriteAll | src/xApp/db/db.c:115-121 | Writes the batch in order |
| DbQueue.DbXapp.WorkerRound | src/xApp/db/db.c:95-122 | One round writes the 100 oldest records if it saw more than 100, 10 if it saw 11 to 100, and otherwise 1, none once told to stop, and conserves everything with pushes in between |

## Left out

- The order of messages between one xApp call and its agent is not part of the direct
  channels: indications in flight are a bag there, although the relay's own links are FIFO.
- Subscriptions and controls the RIC starts itself (`report_service_near_ric` and its
  siblings) are not in the iApp's table; an answer to one would fail the iApp's lookup.
- A node that disconnects while calls to it are in progress; `Connections` and `Replication`
  model setups and shutdowns without the relay.
- The checks of the xApp id (accepts one id not handed out yet) and of the E2 node in the
  request handlers: peers are assumed connected.
- Timeouts of the RIC with several requests pending: `pend_event` of the RIC asserts a single
  entry.
- Overflow of the counter's own integer type, far beyond the 16 bits that are sent.
- Replication.LookupsAreFound: at most 65529 xApps; the 16-bit id wraps beyond that.
- RegE2Nodes.RegE2Node.GenerateE2NodeArr: not for 256 nodes and more, where the code writes
  past the array it allocated.
- AgentLoop.StepKeepsInv: a subscription brings an identifier the agent does not serve yet;
  that the relay never sends another is proved in RelayKeeps.ServeAgents.
- The aperiodic path (descriptor 0 and the wake-up pipe's contents), and everything under
  `PROXY_AGENT`.
- XappCalls.StepKeepsInv: one calling thread per xApp, and the setup request's own timer is
  not in the map.
- KpmJson.PrintRoundTrip: how a floating point value is formatted is not modelled, any text of
  the characters a stream can print stands for it; the reader knows no white space between
  tokens and no four-digit escapes, since the printer writes neither. Names are sequences of characters here and of bytes in C++: bytes that
  are no UTF-8, which section 8.1 of RFC 8259 forbids, are printed as they are.
- Connections.MapE2NodeSad.RmMapSadE2Node: the bi-map's own sanity comparison applies the
  comparator of node ids to addresses; it is modelled as equality of the addresses. The
  duplicate checks that only debug builds make are not modelled.
- Connections.RemovalSurvivesIff: which rotations the red-black tree makes, and so which of the
  shapes it takes, is left open.
- Liveness, sockets, epoll, timers as such, ASN.1 and the other codecs, memory ownership,
  plugins, logging and the SQL back ends.
- The other fixed-width identifier codecs of `conversions.c`.
