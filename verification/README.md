# Messaging and registry layer of the gobang server, verified

A Dafny model of the server side that connects the gobang game's processes, and proofs of what it promises. The
original is single-threaded coroutine code plus one thread pool. Each protocol is a state machine whose atomic steps
are the code between two suspension points (for the database pool: the sections under a lock), so a *run* is any
interleaving of them, and the main theorems are about all runs. Code that updates objects in place is also written as
a class whose methods are proved to perform exactly those steps.

| file | what it models |
|---|---|
| `RegistryMessages.dfy` | identifiers and messages between gates and the gate master |
| `GateMaster.dfy`, `GateMasterService.dfy` | the gate master's three cross-linked tables, its handlers, and what it writes to each connection |
| `MasterHistory.dfy` | the gate master's tables and answers told from the events alone, without looking at a state |
| `RoutingTable.dfy` | a gate's copy of the registry and how master messages change it |
| `Replication.dfy` | replica agreement: snapshot plus broadcasts reproduce the master's tables |
| `Cluster.dfy` | the master and all gates, which may restart, over a network that loses, repeats, delays and reorders messages |
| `ClusterProgress.dfy` | what registrations and updates achieve, from any state of master and gates, when their messages get through |
| `CatchUp.dfy` | a gate that reads its connection in order needs only the unread rest to agree with the master |
| `WriteBack.dfy` | coalescing write-back to the database, scheduler against pool threads |
| `Framing.dfy` | message framing on byte streams and the forward header |
| `SendQueue.dfy`, `RemoteLink.dfy`, `Delivery.dfy` | the stages of ordered delivery, and a whole gate |
| `PacketOrder.dfy`, `Connections.dfy`, `EndToEnd.dfy` | order between one sender and one receiver, the connections one gate makes to another, and many gates together |
| `Overtaking.dfy` | a run in which a packet on a new connection overtakes one left on the old connection |
| `RpcSessions.dfy` | session numbers and the table of waiting callers |
| `ProxySession.dfy` | a client connection at the proxy |
| `Subscriptions.dfy`, `LocalListener.dfy` | subscriptions to service types: the gate's tables and index, and the handlers |
| `ServiceChanges.dfy` | what each event at a gate's listener does to every service and connection, and who is told |
| `GateNotes.dfy`, `Subscriber.dfy` | what a gate's messages to one connection say of its list, and a subscriber that reads, ignores and delays them |
| `LateAcknowledgement.dfy`, `RegistrationRace.dfy` | runs in which a subscriber's list differs from the gate's |
| `AccountIndex.dfy` | account slots in shared memory, their indexes, eviction and crash recovery |

`dafny verify dfyconfig.toml` checks everything.

## Conventions

- `Next` is one atomic step, `Play`, `After` or `Reached` the state after a run. Where `Next` is total, an event that
  cannot happen in a state changes nothing.
- Histories such as `log`, `given`, `forwarded`, `history` or `wakes` record what happened so that theorems can speak
  of it; no branch of the model depends on them, except that a connection number is not reused while it is in `log`.
  `Subscriber.Follower.applied` is such a history too: the subscriber's lists are a function of it.
- These histories are themselves told from the events (`MasterHistory.HistoryDecides`, `WriteBack.HistoryIsSubmitted`,
  `SendQueue.FirstInFirstOut`, `RemoteLink.HandedWhileConnected`, `Delivery.GateIsFifo`, `EndToEnd.SubmittedByHeader`),
  so what a theorem calls submitted is what the events of the run submit.
- The iteration order of an unordered container is a parameter (`order`), constrained only to list every key once.
- Wire integers are unbounded and narrowed with `U16` where the program narrows to 16 bits.
- A proxy run assumes what `gobang/login/login.cpp:109` does: login answers carry user 0 in their header, and a
  success names a positive user and logic service (`ProxySession.Proper`). A cluster run assumes that a gate does not
  reuse a session number, which is `RpcSessions.SessionsDiffer`.
- Clock readings, random picks, the answer of a bounded channel ("is there room?") and the network's behaviour are
  parameters of the events.

## What turned out to need a condition

- Acknowledged versions are 16 bits wide. An update merged after the copy is hidden by an equal acknowledged version
  exactly when the number of updates since the copy is a multiple of 65536 (`WriteBack.LateMergeHiddenExactly`), and
  `WriteBack.WrappedVersionHidesUpdate` is such a run.
- An acknowledged update is in the database exactly when the user has a row: the update operations set no upsert
  option (`WriteBack.AcknowledgedIsStored`).
- A subscriber applies an acknowledgement in another coroutine than the one that reads broadcasts, or ignores it when
  the call has timed out. When it applies one that was written to its present connection, however late and whatever it
  applied since it took it, it agrees with the gate on a service that the acknowledgement names exactly when the last
  broadcast of it written since, if there is one, left the state told there; on any other service of the type it agrees
  exactly when it agreed before (`Subscriber.AppliedAckAgrees`). One from an earlier connection has to tell what the
  present connection's messages say (`Subscriber.AnyAckAgrees`). Agreement then lasts while the subscriber only reads
  on (`Subscriber.AgreementLasts`).
  `LateAcknowledgement.BroadcastOvertakesAck` is a run that ends in disagreement, and
  `LateAcknowledgement.IgnoredAckChangesOrder` one in which only the order differs.
- All of this, and the stronger equality of lists for a subscriber that applies everything in order
  (`Subscriber.InOrderAgreement`, `Subscriber.AtOnceAgreement`), needs that the gate lists no id of the type twice.
  That holds in exactly the runs in which no registration returns from its wait for the gate master to find its id
  taken meanwhile, because the check at `gobang/gate/local_listener.cpp:225` is not repeated
  (`Subscriptions.UniqueIffNoRace`, `RegistrationRace.RaceHappens`).
- Between gates each connection keeps its order, but nothing ties a gate's old connection to its new one: the receiver
  runs one receive loop per accepted connection (`gobang/gate/remote_listener.cpp:30-60`). What one service gets from
  another is in order in every run in which no packet of an older connection is read after one of a newer connection,
  and, for distinct packets, exactly then (`EndToEnd.DeliveredInOrder`, `EndToEnd.InOrderExactly`);
  `Overtaking.NewConnectionOvertakes` is a run in which it is not.
- Session numbers increase exactly when no clock value serves 2^25 calls, and are distinct exactly when none serves
  more than 2^25 (`RpcSessions.SessionsIncrease`, `RpcSessions.SessionsDiffer`). No caller is ever woken twice, whatever
  the numbers (`RpcSessions.WokenAtMostOnce`). The table of callers stays exact throughout a run exactly when no
  suspending call gets a number that somebody waits for, and nobody is cancelled who was woken already while somebody
  else waits for the same number: that cancellation wakes the other one with no answer
  (`RpcSessions.ExactIffNeverMisled`). It stays exact with no number shared among unfinished callers exactly when no
  suspending call gets a number that one of them holds (`RpcSessions.UnsharedIffNoClash`). At most 2^25 calls per clock
  value are enough for both, and while no answer comes they are also needed (`RpcSessions.ExactByClock`,
  `RpcSessions.UnansweredExactly`).
- Rebuilding the account indexes finds every slot exactly when users and accounts are distinct
  (`AccountIndex.RebuildIsExact`).
- A frame comes back as sent exactly when its body is at most 10 MiB (`Framing.FrameRoundTrip`); a longer one is
  refused, or cut where its length wraps at 24 bits (`Framing.LongBody`).
- A service's own gate may record another type for it than the master: the master keeps the type of the first upload,
  while a registration that timed out may be retried with another type. The agreement on types is therefore stated for
  services of other gates (`Cluster.RoutesFollowOwnership`).
- The comment at `gobang/gate/gate.h:35` promises a bound on the queue of messages without a known receiver; the code
  has none, and the model follows the code.

## Model

| member | source | states |
|---|---|---|
| `GateMaster.AddServicesKeeps` | gobang/gate_master/gate_master.cpp:259-271 | adding accepted services, duplicates in one request included, keeps the gate's list exactly its own services and no other gate's records change; what becomes of each service is `MasterHistory.AddServicesTell` |
| `GateMaster.BindKeepsTables` | gobang/gate_master/gate_master.cpp:178-204 | an accepted registration keeps the ownership partition and leaves other gates' records alone |
| `GateMaster.ExtendKeepsTables` | gobang/gate_master/gate_master.cpp:236-243 | an accepted upload keeps the ownership partition and leaves other gates' records alone |
| `GateMaster.PublishWrites` | gobang/gate_master/gate_master.cpp:121-135 | a publish appends exactly one broadcast to every other bound gate's connection and nothing elsewhere |
| `GateMaster.RegisterKeepsInv` | gobang/gate_master/gate_master.cpp:157-216 | registration, re-registration and takeover keep bindings two-way and the partition |
| `GateMaster.UploadKeepsInv` | gobang/gate_master/gate_master.cpp:218-247 | so does an accepted upload, from whatever connection is attached |
| `GateMaster.DisconnectKeepsInv` | gobang/gate_master/gate_master.cpp:66-75 | so does the end of a connection, bound or stale |
| `GateMaster.NextKeepsInv` | gobang/gate_master/gate_master.cpp:38-271 | every step keeps bindings two-way and each service listed exactly once, by the gate it names; records never disappear or change owner or type |
| `GateMaster.After` | gobang/gate_master/gate_master.cpp:38-271 | hence the invariants hold in every reachable state |
| `GateMaster.OwnershipIsPermanent` | gobang/gate_master/gate_master.cpp:249-271 | over any run, owner and type of a recorded service never change |
| `GateMaster.BoundConnections` | gobang/gate_master/gate_master.cpp:178-202 | in every reachable state a bound connection is open, points back at its gate, and belongs to one gate only |
| `GateMaster.TakeoverDetaches` | gobang/gate_master/gate_master.cpp:178-204 | a registration that supersedes another connection detaches it, and refuses its uploads from then on, exactly when the new connection already belonged to the gate |
| `GateMaster.BoundCloseTakesOwnServicesOffline` | gobang/gate_master/gate_master.cpp:98-106 | closing the bound connection takes exactly that gate's services offline |
| `GateMaster.OnlyTheOwnerChanges` | gobang/gate_master/gate_master.cpp:66-271 | in every run a service goes online or offline only by its owner: an accepted request of that gate saying so, or the end of the connection that gate is bound to; refused requests and superseded connections change none |
| `MasterHistory.AddServicesTell` | gobang/gate_master/gate_master.cpp:259-271 | after a list of services was added, each one has the state of the last entry naming it; one that was known keeps owner and type, a new one has the gate and the type of the first entry naming it |
| `MasterHistory.HistoryDecides` | gobang/gate_master/gate_master.cpp:38-271 | in every run the tables are what the events say: each service with the owner and type it was first named with and the state last told, or offline since its gate's connection ended; each gate with the addresses and connection of its last registration; each connection with the gate that registered on it |
| `MasterHistory.AcceptedExactly` | gobang/gate_master/gate_master.cpp:157-257 | in every run a request is accepted if and only if its connection stands for no other gate and nothing it names was named first by another gate |
| `MasterHistory.RequestIsHeeded` | gobang/gate_master/gate_master.cpp:259-271 | in every run, after a gate's accepted request, a service it names belongs to that gate and has the state of the last entry naming it |
| `MasterHistory.NewServiceIsRecorded` | gobang/gate_master/gate_master.cpp:259-271 | in every run a service named for the first time has the type of the first entry naming it, and the requesting gate as its owner |
| `MasterHistory.EveryRequestIsAnswered` | gobang/gate_master/gate_master.cpp:157-247 | in every run each request gets exactly one answer, in order, on its own connection, with its session, saying whether it was accepted |
| `GateMasterService.Registry.AcceptSocket` | gobang/gate_master/gate_master.cpp:38-48 | a new connection is open, unattached and has received nothing |
| `GateMasterService.Registry.CheckServices` | gobang/gate_master/gate_master.cpp:249-257 | true exactly when no service in the request belongs to another gate |
| `GateMasterService.Registry.AddAll` | gobang/gate_master/gate_master.cpp:259-271 | the loop adds all services to the tables as `MasterHistory.AddServicesTell` says and changes no other gate |
| `GateMasterService.Registry.Info` | gobang/gate_master/gate_master.cpp:108-119 | the record sent for a gate describes its addresses and all its services in order |
| `GateMasterService.Registry.PublishGate` | gobang/gate_master/gate_master.cpp:121-135 | the loop over the gate table writes what a publish must write |
| `GateMasterService.Registry.SnapshotFor` | gobang/gate_master/gate_master.cpp:208-213 | the snapshot lists every gate but the registering one |
| `GateMasterService.Registry.Attach` | gobang/gate_master/gate_master.cpp:178-204 | new, repeated and takeover registrations bind the connection and detach the superseded one |
| `GateMasterService.Registry.Register` | gobang/gate_master/gate_master.cpp:157-216 | the handler refines the registration step: tables, acknowledgement with snapshot, then broadcasts; a refusal only answers |
| `GateMasterService.Registry.UploadServices` | gobang/gate_master/gate_master.cpp:218-247 | the handler refines the upload step: tables, acknowledgement, then broadcasts; a refusal only answers |
| `GateMasterService.Registry.GateDisconnect` | gobang/gate_master/gate_master.cpp:98-106 | unbinds the gate, takes its services offline and publishes it |
| `GateMasterService.Registry.SocketClosed` | gobang/gate_master/gate_master.cpp:66-75 | the clean-up refines the disconnect step, for bound and stale connections |
| `RoutingTable.MasterConnector.AcceptGate` | gobang/gate/master_connector.cpp:189-214 | applies one gate record: addresses replaced, unknown services added, known ones change only their online flag |
| `RoutingTable.MasterConnector.Receive` | gobang/gate/master_connector.cpp:221-241 | applies a whole message from the master |
| `Replication.ServicesApplied` | gobang/gate/remote_gate.cpp:144-160 | applying a gate's described services gives exactly the master's routes for them and changes no other |
| `Replication.SnapshotApplied` | gobang/gate/master_connector.cpp:181-184 | applying a register acknowledgement gives exactly the master's tables of all other gates |
| `Replication.SnapshotListsOthers` | gobang/gate_master/gate_master.cpp:208-213 | the snapshot describes exactly the gates other than the registering one |
| `Replication.LogIsTrue` | gobang/gate_master/gate_master.cpp:98-247 | whatever was ever sent names only true owners and types, however late it is read |
| `Replication.ReplayKeepsSound` | gobang/gate/master_connector.cpp:189-214 | replaying messages never gives an entry a wrong owner |
| `Replication.BroadcastRestores` | gobang/gate_master/gate_master.cpp:121-135 | after one gate changed, its broadcast brings every up-to-date replica up to date again |
| `Replication.RegisterInforms` | gobang/gate_master/gate_master.cpp:207-215 | a registering gate is up to date after its acknowledgement, whatever it knew before |
| `Replication.NextAgrees` | gobang/gate_master/gate_master.cpp:98-271 | every step of the master keeps every bound gate in agreement |
| `Replication.ReplicaAgreement` | gobang/gate_master/gate_master.cpp:98-271 | in every reachable state, replaying everything sent on a bound connection gives exactly the master's addresses and (id, type, online) of all other gates |
| `Cluster.TakeKeepsInv` | gobang/gate/local_listener.cpp:223-255 | the cluster invariant (requests, acknowledgements and tables name true owners) survives every step, with lost, repeated, late and reordered messages |
| `Cluster.Reached` | gobang/gate/master_connector.cpp:154-253 | it holds in every reachable state of master and gates |
| `Cluster.RoutesFollowOwnership` | gobang/gate/remote_gate.cpp:144-160 | in every run, restarts of gates included, each routing entry names the gate the master records as owner, and no id is local on two gates |
| `Cluster.OwnRegistrationIsAccepted` | gobang/gate/master_connector.cpp:154-175 | a gate re-registering with its local services is never refused |
| `Cluster.MasterRun` | gobang/gate_master/gate_master.cpp:38-271 | the master's part of a cluster run is a run of the master alone |
| `Cluster.CatchingUp` | gobang/gate/master_connector.cpp:182-241 | after any run, restarts of gates included, a bound gate that applies its whole connection to whatever table it has ends with exactly the master's tables of the others |
| `ClusterProgress.RegistrationCompletes` | gobang/gate/local_listener.cpp:223-260 | from any reachable state, a registration whose messages get through makes the id this gate's, online, with its type, if it was free or this gate's already, and otherwise leaves the table alone; it waits for nothing afterwards |
| `ClusterProgress.LateAnswerIsIgnored` | gobang/gate/local_listener.cpp:228-238 | an answer that comes after its registration was given up registers nothing, even if it was granted |
| `ClusterProgress.UpdateReachesMaster` | gobang/gate/master_connector.cpp:243-265 | an update that gets through makes the master's record of the service show the state its gate shows |
| `ClusterProgress.ChangeReachesMaster` | gobang/gate/master_connector.cpp:254-265 | a service that goes online or offline at its gate, with the update getting through, is so in the master's record |
| `ClusterProgress.RestartForgets` | gobang/gate/gate.cpp:9-23 | a gate that restarts has forgotten its tables and what it waited for, but not its session numbers, and the master's tables stay |
| `ClusterProgress.GateIsBound` | gobang/gate/master_connector.cpp:154-187 | a gate's registration that gets through binds the gate to its connection with the addresses it gives, and the master's records of the services it advertises show what the gate shows |
| `CatchUp.ReplaySame` | gobang/gate/master_connector.cpp:189-214 | replaying true messages over two tables that differ only in the gate's own services keeps them so |
| `CatchUp.NextMessageInStep` | gobang/gate/master_connector.cpp:104-117 | the next message of the connection, an acknowledged own registration included, keeps the gate in step with it |
| `CatchUp.RestIsEnough` | gobang/gate/master_connector.cpp:182-241 | in every run a bound gate that has read its connection in order, with its own registrations and changes in between, agrees with the master on all other gates once it applies just the unread rest |
| `WriteBack.NextKeeps` | gobang/db_proxy/db_proxy.cpp:272-353 | every atomic section keeps the write-back invariant, and no row moves to an earlier submission |
| `WriteBack.DatabaseNeverGoesBack` | gobang/db_proxy/db_proxy.cpp:272-353 | over all interleavings, with writes that fail after a prefix, the submission a row holds only moves forward |
| `WriteBack.OneWriterPerUser` | gobang/db_proxy/db_proxy.cpp:278-302 | pending users are the disjoint union of the batches in flight, repeated ids included; nothing is pending when nothing is in flight |
| `WriteBack.AcknowledgedIsStored` | gobang/db_proxy/db_proxy.cpp:315-352 | a batch that succeeded acknowledges each of its users once, in order, with the version of one of the user's submissions, and the row holds exactly that submission's data if and only if the row exists; a failed write acknowledges nothing |
| `WriteBack.AcknowledgedIsNeverLost` | gobang/db_proxy/db_proxy.cpp:344-352 | the row never falls behind an acknowledged submission again |
| `WriteBack.HistoryIsSubmitted` | gobang/db_proxy/db_proxy.cpp:279-298 | in every run the submissions that entries, rows and acknowledgements are numbered by are the updates submitted for the user, with versions modulo 65536 |
| `WriteBack.RequestPosts` | gobang/db_proxy/db_proxy.cpp:278-307 | a request posts one batch with exactly its users that were not pending, each at its first place, or none if there are none |
| `WriteBack.BatchGoesThrough` | gobang/db_proxy/db_proxy.cpp:309-352 | in every run a batch worked off undisturbed leaves each user's latest submission in the row, if there is one, acknowledges every user with its version, in order, and touches nobody else |
| `WriteBack.BatchFails` | gobang/db_proxy/db_proxy.cpp:326-342 | in every run a batch whose bulk write fails after some operations leaves exactly those in the rows, acknowledges nobody and leaves none of its users pending |
| `WriteBack.LateMergeShows` | gobang/db_proxy/db_proxy.cpp:282-289 | with distinct coexisting versions, the acknowledged version is the latest submitted one exactly when nothing was merged after the copy |
| `WriteBack.LateMergeHiddenExactly` | gobang/db_proxy/db_proxy.cpp:285 | with consecutive versions, a merged update is hidden exactly at multiples of 65536 |
| `WriteBack.WrappedVersionHidesUpdate` | gobang/db_proxy/db_proxy.cpp:285 | a run in which it is hidden |
| `WriteBack.DbProxy.Merge` | gobang/db_proxy/db_proxy.cpp:279-298 | each update is merged into its user's pending entry or entered, in order, and touches no job |
| `WriteBack.DbProxy.Request` | gobang/db_proxy/db_proxy.cpp:278-307 | each update is merged into a pending entry or entered, and exactly the newly entered users form the batch |
| `WriteBack.DbProxy.CopyNext` | gobang/db_proxy/db_proxy.cpp:316-325 | one entry is copied whole under its lock: version and data of the user's latest submission |
| `WriteBack.DbProxy.CopyAll` | gobang/db_proxy/db_proxy.cpp:315-326 | the copying loop copies one entry per user of the batch, whatever the scheduler merges before each copy |
| `WriteBack.DbProxy.Finish` | gobang/db_proxy/db_proxy.cpp:336-352 | erases the batch, then acknowledges every user of it, in order, with the copied version, unless the write failed |
| `Framing.HeaderRoundTrip` | gobang/kernel/headers.hpp:6-16 | a header reads back as written, its length modulo 2^24 |
| `Framing.HeaderLayout` | gobang/kernel/headers.hpp:6-16 | the bytes of a header: flag, length in three bytes, id in two, two zeros, session in eight, each lowest byte first |
| `Framing.FrameLayout` | gobang/kernel/proto_utils.cpp:11-20 | a frame begins with 0xe4 and the length of its body, and the body follows after 16 bytes |
| `Framing.FrameRoundTrip` | gobang/kernel/proto_utils.cpp:50-81 | a frame followed by anything comes back as sent, leaving the rest, exactly when its body is at most 10 MiB |
| `Framing.LongBody` | gobang/gate/remote_gate.cpp:15-23 | what the receiver makes of a longer body: refused, or cut at the wrapped length |
| `Framing.ReceivedWasSent` | gobang/kernel/proto_utils.cpp:50-81 | whatever is received was a frame: encoding it again, with zero padding, gives the bytes it was read from |
| `Framing.NotReceived` | gobang/kernel/proto_utils.cpp:56-81 | told from the first four bytes of any stream, when it ends early, has a wrong flag, is too long, or yields a frame |
| `Framing.ReceiveLoop` | gobang/kernel/proto_utils.cpp:50-81 | the receive loop returns the stream's frames and why it ended |
| `Framing.StreamRoundTrip` | gobang/kernel/proto_utils.cpp:11-20 | any sequence of encoded frames is returned in full, and what follows is parsed as if nothing preceded it |
| `Framing.CutStream` | gobang/kernel/proto_utils.cpp:56-77 | a stream cut inside a frame yields the complete frames and then the end |
| `Framing.ForwardRoundTrip` | gobang/kernel/proto_utils.cpp:22-28 | sender, receiver, id and session of a forwarded message read back as written |
| `Framing.ForwardLayout` | gobang/kernel/headers.hpp:29-40 | the bytes of a forward part: sender, receiver, id, two zeros, session, each lowest byte first |
| `Framing.WrapLayout` | gobang/gate/remote_gate.cpp:15-23 | between gates a message travels in a frame of id 0x6005 and session 0, its bytes unchanged after the header |
| `Framing.GateHop` | gobang/gate/remote_gate.cpp:15-23 | any sequence of forwarded messages survives wrapping and unwrapping between gates |
| `SendQueue.NextKeeps` | gobang/kernel/gate_connector.cpp:46-64 | each write, channel creation and drain step keeps output plus queue equal to what was submitted |
| `SendQueue.FirstInFirstOut` | gobang/kernel/gate_connector.cpp:306-317 | over any interleaving of them, what is in the channel followed by what is queued is what the events submitted, in order |
| `SendQueue.NoLostWakeUp` | gobang/gate/local_service.cpp:6-32 | from the start the channel has got the first messages submitted; a parked drain coroutine means that all of them are in the channel; the channel is open exactly once it was created |
| `SendQueue.EverythingIsDelivered` | gobang/kernel/gate_connector.cpp:306-317 | from any reachable state enough drain steps with room deliver everything |
| `SendQueue.StraightThrough` | gobang/kernel/gate_connector.cpp:46-64 | while the channel is open and has room, messages go straight through and nothing is queued |
| `SendQueue.Sender.Write` | gobang/kernel/gate_connector.cpp:46-64 | a message overtakes no queued one, and queueing wakes a parked drain coroutine |
| `SendQueue.Sender.CreateChannel` | gobang/kernel/gate_connector.cpp:281-287 | creating the channel starts the drain coroutine, once |
| `SendQueue.Sender.Resume` | gobang/gate/local_service.cpp:21-32 | the drain loop from one suspension to the next writes the front, then pops it, and parks only on an empty queue |
| `RemoteLink.OrderAcrossReconnects` | gobang/gate/remote_gate.cpp:31-37 | handed messages followed by queued ones are the sent ones over any reconnects, the queue is empty while a socket is held, and each connection was handed its own unbroken part |
| `RemoteLink.HandedWhileConnected` | gobang/gate/remote_gate.cpp:31-137 | in every run messages sent while a connection is up go out on it, those sent while none is up go out first on the next one, nothing goes out while none is up, and the socket is the one last reported |
| `RemoteLink.RemoteGate.SendBuffer` | gobang/gate/remote_gate.cpp:31-37 | a message is handed over at once if and only if a socket is held, else queued behind the others |
| `RemoteLink.RemoteGate.AutoSend` | gobang/gate/remote_gate.cpp:131-137 | the loop hands over the whole queue in order |
| `RemoteLink.RemoteGate.Connect` | gobang/gate/remote_gate.cpp:80-91 | a successful attempt hands over the whole queue before anything else; a failed one leaves it |
| `RemoteLink.RemoteGate.Disconnect` | gobang/gate/remote_gate.cpp:105-109 | only the socket is given up; queued messages stay |
| `Delivery.NextKeeps` | gobang/gate/gate.cpp:40-75 | forwarding, registration of local and remote services, drain steps and link changes keep every receiver's accounts |
| `Delivery.GateIsFifo` | gobang/gate/gate.cpp:40-75 | in every run, for each receiver, what went out followed by what the gate still holds is, byte for byte and in order, the messages whose third and fourth byte name that receiver, across registration and full channels |
| `Delivery.ForwardGoesTo` | gobang/gate/gate.cpp:60-75 | a message with a given header is recorded for exactly the receiver the header names, from the sender it names |
| `Delivery.PlacesAndLinks` | gobang/gate/gate.cpp:40-49 | in every run a receiver is where its first registration put it, on this machine or beside a linked gate, and each link has the socket last reported |
| `Delivery.GateDelivers` | gobang/gate/local_service.cpp:6-32 | in every run, enough drain turns with room bring a local receiver every message addressed to it |
| `Delivery.LinkDelivers` | gobang/gate/remote_gate.cpp:31-37 | in every run, while the link to a receiver's gate is up, nothing for that receiver is held back |
| `Delivery.GateService.ForwardMessage` | gobang/gate/gate.cpp:60-75 | a message goes to its receiver's channel or link, waits if the receiver is unknown, and is dropped only if too short to name one |
| `Delivery.GateService.EmplaceLocal` | gobang/gate/gate.cpp:40-49 | installing a local service flushes what waited for it through its channel |
| `Delivery.GateService.EmplaceRemote` | gobang/gate/gate.cpp:40-49 | installing a remote service flushes what waited for it to its gate |
| `Connections.EachConnectionInOrder` | gobang/gate/remote_listener.cpp:43-60 | from each connection the first packets handed to it were read, in order, each once |
| `Connections.NothingArrivesTwice` | gobang/gate/remote_listener.cpp:43-60 | no packet handed to the network is read twice, over all connections |
| `Connections.OrderOfTwo` | gobang/gate/remote_listener.cpp:30-60 | of two packets read, the first was handed over first if and only if it did not come on a newer connection |
| `EndToEnd.NextKeeps` | gobang/gate/local_service.cpp:34-43 | every step of many services, gates and connections accounts for each sender's packets at each gate |
| `EndToEnd.HandedBelongs` | gobang/gate/gate.cpp:60-75 | a packet handed from one gate to another was sent by a service of the first to a service of the second, as its header says |
| `EndToEnd.SubmittedByHeader` | gobang/kernel/proto_utils.cpp:22-28 | in every run what counts as submitted by one service for another is the messages it wrote with that header, in order |
| `EndToEnd.OneHop` | gobang/gate/gate.cpp:40-75 | between two services of one gate, submitted = delivered + held + unread: no loss, duplicate or reordering |
| `EndToEnd.TwoHops` | gobang/gate/remote_gate.cpp:15-37 | between services of two gates: submitted = handed + held + unread, what came is what was read from the connections, from each connection a beginning of its part in order, and nothing twice |
| `EndToEnd.SteadyConnection` | gobang/gate/remote_gate.cpp:80-109 | while the first connection lasts, submitted = landed + in flight + held + unread: no loss, duplicate or reordering |
| `EndToEnd.DeliveredInOrder` | gobang/gate/remote_listener.cpp:30-60 | a receiver gets a subsequence of what each sender submitted, in order and without repeats, in every run in which no packet of an older connection is read after one of a newer connection |
| `EndToEnd.InOrderExactly` | gobang/gate/remote_listener.cpp:30-60 | for distinct packets, what came is in order if and only if no such overtaking happened |
| `Overtaking.NewConnectionOvertakes` | gobang/gate/remote_gate.cpp:105-129 | a run with a reconnect after which the second message is delivered before the first |
| `RpcSessions.TicksCount` | gobang/kernel/proto_rpc.cpp:30-42 | the counter holds the latest clock reading, ignoring steps back, and how often it was used |
| `RpcSessions.SessionOrder` | gobang/kernel/proto_rpc.cpp:39-41 | session numbers compare by clock, then by use of that clock value modulo 2^25 |
| `RpcSessions.SessionsIncrease` | gobang/kernel/proto_rpc.cpp:30-42 | for any clock readings below 2^32, numbers strictly increase if and only if no clock value serves 2^25 of them |
| `RpcSessions.SessionsDiffer` | gobang/kernel/proto_rpc.cpp:30-42 | they are pairwise distinct if and only if none serves more than 2^25 |
| `RpcSessions.SessionsNonZero` | gobang/kernel/proto_rpc.cpp:30-42 | with a clock past zero no number is 0 |
| `RpcSessions.ProcessesDiffer` | gobang/kernel/proto_rpc.cpp:39-41 | processes whose ids differ in their low seven bits never hand out the same number |
| `RpcSessions.CallEnters` | gobang/kernel/proto_rpc.h:98-114 | a call keeps the table exactly the waiting callers if and only if it does not suspend or nobody waits for its number |
| `RpcSessions.CallKeeps` | gobang/kernel/proto_rpc.h:98-114 | a call keeps the table exact and numbers unshared among unfinished callers if and only if it does not suspend or no unfinished caller holds its number |
| `RpcSessions.CancelWakes` | gobang/kernel/proto_rpc.cpp:46-52 | a cancellation keeps an exact table exact if and only if it does not wake another caller, which it does when its own was woken already and somebody waits for the same number |
| `RpcSessions.CancelKeeps` | gobang/kernel/proto_rpc.cpp:46-52 | with unshared numbers a cancellation keeps the table exact: it wakes the caller itself or nobody |
| `RpcSessions.AckKeeps` | gobang/kernel/proto_rpc.cpp:54-64 | an answer keeps the table exact |
| `RpcSessions.WokenAtMostOnce` | gobang/kernel/proto_rpc.cpp:44-64 | in every run no caller is woken twice, even when session numbers repeat |
| `RpcSessions.NextExact` | gobang/kernel/proto_rpc.cpp:44-64 | a step leaves an exact table exact, whatever numbers the callers share, if and only if it is no suspending call with a number in the table and no cancellation of a woken caller whose number is in the table |
| `RpcSessions.ExactIffNeverMisled` | gobang/kernel/proto_rpc.cpp:44-64 | throughout a run the table holds exactly the waiting callers and each has the outcome its state calls for, if and only if the run has no such step |
| `RpcSessions.UnsharedIffNoClash` | gobang/kernel/proto_rpc.cpp:44-64 | throughout a run the table is exact and no two unfinished callers share a number, if and only if no suspending call gets a number an unfinished caller holds |
| `RpcSessions.ExactByClock` | gobang/kernel/proto_rpc.cpp:30-64 | in every run with at most 2^25 calls per clock value the table is exact and numbers are unshared throughout |
| `RpcSessions.UnansweredExactly` | gobang/kernel/proto_rpc.cpp:30-64 | in a run of suspending calls without answers or cancellations the table stays exact if and only if no clock value serves more than 2^25 of them |
| `RpcSessions.AckReachesItsCaller` | gobang/kernel/proto_rpc.cpp:54-64 | an answer wakes the caller that waits for its number and touches nobody else; for a caller already woken it changes nothing, and for a finished one it changes nothing if and only if nobody waits for the number again |
| `RpcSessions.CancelReachesItsCaller` | gobang/kernel/proto_rpc.h:98-114 | with unshared numbers a cancellation wakes its own caller, without a reply, if that one waits; it only marks one that was woken already and changes nothing otherwise |
| `RpcSessions.FirstEventDecides` | gobang/kernel/proto_rpc.h:98-114 | in every run without clashes a caller's outcome is decided by the first event that answers its number or cancels it: the answer's data, or no reply; until then it waits, and it goes on only when resumed after that |
| `RpcSessions.LateAnswersChangeNothing` | gobang/kernel/proto_rpc.cpp:54-64 | with at most 2^25 calls per clock value a late answer changes nothing |
| `RpcSessions.OutcomeIsFinal` | gobang/kernel/proto_rpc.cpp:9-18 | in every run a caller that was answered or cancelled keeps that outcome: it is never woken again or given another reply |
| `RpcSessions.RpcSystem.CreateSession` | gobang/kernel/proto_rpc.cpp:30-42 | the number is made of the advanced counter and process id; a clock that steps back does not move the counter back |
| `RpcSessions.RpcSystem.CallAndSuspend` | gobang/kernel/proto_rpc.h:98-114 | a caller whose cancellation is already requested is not entered; any other is |
| `RpcSessions.RpcSystem.Answer` | gobang/kernel/proto_rpc.cpp:54-64 | reports true exactly when a caller was waiting for that number |
| `RpcSessions.RpcSystem.RequestCancel` | gobang/kernel/proto_rpc.h:107-109 | a caller that is still waiting is woken without a reply; one already woken is only marked |
| `ProxySession.LoginAgrees` | gobang/proxy/proxy.cpp:179-192 | a login request is forwarded only as the connection's first, before any success |
| `ProxySession.OtherAgrees` | gobang/proxy/proxy.cpp:210-238 | other messages are discarded, answered, cached or forwarded exactly as the run so far demands |
| `ProxySession.ServiceAgrees` | gobang/proxy/proxy.cpp:262-351 | a successful answer grants user and logic service once and flushes the cache |
| `ProxySession.RunAgrees` | gobang/proxy/proxy.cpp:179-351 | in every run: at most one login request; nothing to logic before success; then all cached and later messages to the granted logic service, once, in arrival order, under the granted user |
| `ProxySession.GrantIsFinal` | gobang/proxy/proxy.cpp:278-281 | user and logic service are write-once |
| `ProxySession.OfflineOnce` | gobang/proxy/proxy.cpp:128-133 | offline is reported once, at close, if and only if the login had succeeded |
| `ProxySession.QuietBeforeLogin` | gobang/proxy/proxy.cpp:194-208 | if services address only logged-in users, nothing but the login request leaves before success, to any service |
| `ProxySession.RoomsFollowMatches` | gobang/proxy/proxy.cpp:353-396 | in every run room messages go, in order and under the current user, to the room last granted by login or match and not yet left, or nowhere |
| `ProxySession.MessageGoesTo` | gobang/proxy/proxy.cpp:39-49 | in every run a client's message goes by its number: 2 to the login service, once; 4 and 5 to the room, if there is one; any other to the granted logic service, or nowhere yet; 1 before success changes nothing |
| `ProxySession.Connection.ClientRegister` | gobang/proxy/proxy.cpp:179-192 | refines the login step: forwarded to the picked login service unless one was seen before |
| `ProxySession.Connection.ClientRoom` | gobang/proxy/proxy.cpp:194-208 | refines the room step: to the current room under the current user, or not at all |
| `ProxySession.Connection.ClientOther` | gobang/proxy/proxy.cpp:210-238 | refines the step of other messages: answered, cached, discarded or sent to logic |
| `ProxySession.Connection.FlushCache` | gobang/proxy/proxy.cpp:346-350 | the loop sends the cached messages in order and empties the cache |
| `ProxySession.Connection.ServiceMessage` | gobang/proxy/proxy.cpp:262-396 | refines the step of each kind of service message, ignoring those for another user |
| `ProxySession.Connection.SocketClosed` | gobang/proxy/proxy.cpp:128-133 | reports offline to the granted logic service, if there is one, and ends the connection |
| `Subscriptions.RemoveSwapRemoves` | gobang/gate/local_listener.cpp:96-107 | swap-with-last removal removes the connection and keeps all others, without duplicates |
| `Subscriptions.ForgetKeepsIndex` | gobang/gate/local_listener.cpp:90-112 | clean-up removes the closing connection from every list and nobody else from any |
| `Subscriptions.SubscribedKeepsIndex` | gobang/gate/local_listener.cpp:164-171 | subscribing keeps the index two-way, repeated subscriptions included |
| `Subscriptions.NextKeeps` | gobang/gate/local_listener.cpp:83-296 | every step keeps the index two-way and each service listed once under its type |
| `Subscriptions.UpdateFollows` | gobang/gate/local_listener.cpp:39-52 | a broadcast brings every up-to-date subscriber up to date with the changed or new service |
| `Subscriptions.AckFollows` | gobang/gate/local_listener.cpp:173-182 | a first or repeated acknowledgement leaves the subscriber with exactly the gate's list |
| `Subscriptions.ViewIsDistinct` | gobang/kernel/gate_connector.cpp:340-352 | a subscriber never lists an id twice |
| `Subscriptions.SubscriberAgreement` | gobang/gate/local_listener.cpp:149-183 | processing in order all that was written to a live subscriber gives the gate's list, in order, if and only if the gate lists no id of the type twice |
| `Subscriptions.UniqueIffNoRace` | gobang/gate/local_listener.cpp:223-247 | the gate keeps one service per id exactly in the runs in which no registration finds its id taken after its wait |
| `Subscriptions.AgreementWithoutRaces` | gobang/gate/local_listener.cpp:39-52 | in those runs in-order processing gives every live subscriber the gate's list |
| `Subscriptions.RaceBreaksAgreement` | gobang/gate/local_listener.cpp:246-260 | after such a race on a type, in-order processing gives no subscriber of it the gate's list |
| `RegistrationRace.RaceHappens` | gobang/gate/local_listener.cpp:223-260 | a run with such a race |
| `Subscriptions.PlayLocal` | gobang/gate/local_listener.cpp:248-255 | in every run only services of this machine are reached through a connection |
| `Subscriptions.RegistrationTakesOver` | gobang/gate/local_listener.cpp:257-260 | a connection that registers a known id becomes the one its service is reached through, in place of any other |
| `Subscriptions.ServiceChangesBy` | gobang/gate/local_listener.cpp:83-88 | in every run a service comes online only by a live connection registering it or by word from its own gate, and goes offline only by such word or by the end of the connection it is registered through; closing a superseded connection takes nothing offline |
| `ServiceChanges.EveryServiceAfter` | gobang/gate/local_listener.cpp:83-296 | at every point of every run, the exact state of every service after each kind of event: a registration, the word of another gate or the end of the registered connection changes the service concerned and no other, and only a first registration or first word adds one |
| `ServiceChanges.EveryoneIsTold` | gobang/gate/local_listener.cpp:39-52 | at every point of every run each connection is written exactly what the event calls for: the new state of a service of a type it follows, or the answer it asked for |
| `ServiceChanges.CloseTakesOffline` | gobang/gate/local_listener.cpp:83-88 | in every run, when the connection a service is registered through closes, the service is offline and without a connection, and every live follower of its type is told so once; the end of any other connection changes no service and tells nobody |
| `ServiceChanges.EveryConnectionAfter` | gobang/gate/local_listener.cpp:83-264 | at every point of every run, the exact state of every connection after each kind of event: what it stands for, what it follows, whether it is live |
| `GateNotes.LookupHeard` | gobang/kernel/gate_connector.cpp:340-352 | a subscriber's list shows, for each id, the last word it applied, or what it showed before |
| `GateNotes.NextTracked` | gobang/gate/local_listener.cpp:39-183 | after every step the gate's list of a type is any acknowledgement it wrote to a live connection followed by the broadcasts written to it since |
| `GateNotes.NextKnown` | gobang/gate/local_listener.cpp:39-183 | everything ever written names services the gate still has |
| `Subscriber.RunSound` | gobang/kernel/gate_connector.cpp:85-118 | in every run of gate and subscriber, with ignored, delayed and reordered acknowledgements and reconnects, between taking and applying an acknowledgement exactly the broadcasts read were applied |
| `Subscriber.NothingTakenIsLost` | gobang/kernel/gate_connector.cpp:85-118 | in every run each acknowledgement whose call still waited when it was read is applied once or still held, over any number of reconnects |
| `Subscriber.AnyAckAgrees` | gobang/kernel/gate_connector.cpp:98-114 | in every run, for an acknowledgement taken on any connection and applied however late: on an id it names the subscriber then agrees with the gate if and only if it tells what an acknowledgement of the present connection and the broadcasts since leave; on any other id, if and only if they agreed before |
| `Subscriber.AppliedAckAgrees` | gobang/kernel/gate_connector.cpp:98-114 | in every run, for an acknowledgement taken on the present connection, whatever was applied since: on an id it names the subscriber then agrees if and only if no broadcast since left another state; on any other id, if and only if they agreed before |
| `Subscriber.PendingAckAgrees` | gobang/kernel/gate_connector.cpp:98-114 | when the subscriber has read everything and applied no other acknowledgement since it took this one on the present connection, it then agrees on any id if and only if no broadcast since left another state than told; what it kept from earlier connections does not matter |
| `Subscriber.PromptAckAgrees` | gobang/kernel/gate_connector.cpp:98-114 | an acknowledgement of the present connection applied while it is the newest note there brings agreement on every id of its type |
| `Subscriber.BroadcastSettles` | gobang/kernel/gate_connector.cpp:319-338 | reading the newest broadcast of a service brings agreement on it, whatever happened before |
| `Subscriber.AgreementLasts` | gobang/kernel/gate_connector.cpp:206-214 | once in agreement on a service, a subscriber that only reads on agrees whenever it has caught up |
| `Subscriber.DistinctWithoutRaces` | gobang/gate/local_listener.cpp:223-247 | in a run without registration races the gate lists no id twice, so these results apply |
| `Subscriber.InOrderAgreement` | gobang/kernel/gate_connector.cpp:340-352 | a subscriber that applied every note in order has the gate's list, in order, if and only if the gate lists no id of the type twice |
| `Subscriber.AtOnceAgreement` | gobang/kernel/gate_connector.cpp:85-118 | a run on one connection in which each acknowledgement is applied before the next note is read is in order, so a subscriber that has caught up has the gate's list if and only if the gate lists no id of the type twice |
| `LateAcknowledgement.BroadcastOvertakesAck` | gobang/kernel/gate_connector.cpp:110-112 | a run in which an acknowledgement applied after a later broadcast leaves the subscriber with a wrong state |
| `LateAcknowledgement.IgnoredAckChangesOrder` | gobang/kernel/gate_connector.cpp:91-96 | a run in which a timed-out acknowledgement is ignored: after the retry the lists agree on every id but not in order |
| `Subscriptions.RandSubscribe` | gobang/kernel/gate_connector.cpp:129-154 | picks an id that the list marks online, or 0 if there is none |
| `LocalListener.ServiceListener.UpdateService` | gobang/gate/local_listener.cpp:39-52 | the loop tells every subscriber of the type |
| `LocalListener.ServiceListener.EmplaceService` | gobang/gate/gate.cpp:40-49 | enters the service in both tables |
| `LocalListener.ServiceListener.Connect` | gobang/gate/local_listener.cpp:257-260 | binds the connection to its service and announces it online |
| `LocalListener.ServiceListener.RegisterUnknown` | gobang/gate/local_listener.cpp:246-264 | the end of a first registration installs the service, binds the connection and tells all subscribers of the type |
| `LocalListener.ServiceListener.AddRemoteService` | gobang/gate/remote_gate.cpp:144-160 | a remote service is installed if unknown, takes the told online state, and all subscribers of its type are told |
| `LocalListener.ServiceListener.ServiceSubscribe` | gobang/gate/local_listener.cpp:149-183 | enters both sides of the index once and acknowledges with the whole list of the type; refuses unregistered connections |
| `LocalListener.ServiceListener.Leave` | gobang/gate/local_listener.cpp:96-107 | the removal loop computes the swap-with-last removal |
| `LocalListener.ServiceListener.SocketClosed` | gobang/gate/local_listener.cpp:83-112 | the registered service goes offline and loses its connection, the closing connection leaves every list, and nobody else does |
| `LocalListener.ServiceBook.UpdateSubscribe` | gobang/kernel/gate_connector.cpp:340-352 | updates or appends one entry in the list of its type and no other list |
| `LocalListener.ServiceBook.Hear` | gobang/kernel/gate_connector.cpp:319-338 | a whole acknowledgement or broadcast updates each type's list as if heard one entry at a time |
| `AccountIndex.RebuildIsExact` | gobang/center/center.cpp:53-74 | a rebuild partitions the slots into free ones and ones found under their user and account, if and only if users and accounts are distinct |
| `AccountIndex.RebuildFindsLast` | gobang/center/center.cpp:62-72 | where used slots share a user or an account, a rebuilt index leads to the last of them |
| `AccountIndex.RebuildFreeAscends` | gobang/center/center.cpp:62-67 | a rebuild lists the free slots from the first to the last |
| `AccountIndex.IndexesAreDetermined` | gobang/center/center.cpp:69-71 | the slots decide the indexes |
| `AccountIndex.RebuildRecovers` | gobang/center/center.cpp:61-73 | rebuilding from raw memory gives the indexes over it, and the same free slots |
| `AccountIndex.VisitKeeps` | gobang/center/center.cpp:102-126 | each eviction step keeps the partition |
| `AccountIndex.PlayKeeps` | gobang/center/center.cpp:95-127 | so does any sequence of visits with others writing times, versions and passwords in between |
| `AccountIndex.FreedExactly` | gobang/center/center.cpp:95-127 | over any visits and writes of others a used slot is freed if and only if some visit finds its versions equal and its last use 3600 seconds or more ago at that moment; any other slot keeps its user and account |
| `AccountIndex.QuietScanKeeps` | gobang/center/center.cpp:102-118 | while nobody else writes, a slot that is not freed keeps its whole content |
| `AccountIndex.NeededSurvives` | gobang/center/center.cpp:102-118 | while nobody else writes, a slot whose versions differ, or used less than 3600 seconds ago, comes through any scan whole |
| `AccountIndex.EverySlotOnce` | gobang/center/center.cpp:94-127 | a pass looks at every slot once, from the first to the last, by a clock read again after every 256 slots |
| `AccountIndex.PassFreesStale` | gobang/center/center.cpp:94-127 | whatever others write meanwhile, a pass frees a slot that is saved and unused for an hour whenever it is looked at |
| `AccountIndex.FreeListGrows` | gobang/center/center.cpp:124-126 | freed slots are appended to the free list in the order they are freed |
| `AccountIndex.CrashRecovers` | gobang/center/center.cpp:53-127 | a crash at any moment, during a scan or between frames, recovers the indexes and free slots of that moment |
| `AccountIndex.OthersKeep` | gobang/center/center.cpp:97-100 | updates of times, versions and passwords while the scan yields keep the partition |
| `AccountIndex.EveryFrame` | gobang/center/center.cpp:96-100 | the scan has yielded once per 256 slots |
| `AccountIndex.AccountCenter.constructor` | gobang/center/center.cpp:53-74 | clears new memory or reads old memory back |
| `AccountIndex.AccountCenter.Evict` | gobang/center/center.cpp:102-126 | frees the slot and removes its index entries if it is stale, else changes nothing |
| `AccountIndex.AccountCenter.CheckAccounts` | gobang/center/center.cpp:94-127 | one pass, with others writing at each yield and the clock read again after it, is exactly that sequence of visits and writes, and keeps the partition |

## Left out

- Generated protobuf code, JSON logging, configuration, the console client, the game rules and board display.
- Messages whose protobuf body does not parse: handlers return or close the connection before touching any state.
- Mongo queries, index creation and user creation; `update_account` repeats `update_user` with other columns and is covered by the same generic protocol.
- Heartbeats, idle-connection timers, reconnect back-off, TCP, KCP and WebSocket themselves, and restarts of the gate master. A gate that restarts keeps its used session numbers in `Cluster`, as the clock in them sees to.
- Iterator, pointer and `string_view` lifetime and the layout of shared memory: tables are keyed by value, and one slot is written atomically.
- Which thread pool worker runs a batch: a bulk write is a sequence of `Execute` events of its job, and it may fail after any prefix.
- `WriteBack.Next` executes operations only while their job is running: a bulk write that is reported as failed, for example by a driver time-out, and that the server still carries out afterwards is outside the model. Such an operation could take a row back behind a later batch.
- `Cluster.SendRegister` may advertise any part of a gate's local services, a superset of the program, which advertises all of them.
- `EndToEnd` takes the gate that owns each service as given and lets gates route by it; that routing entries name the owner is `Cluster.RoutesFollowOwnership`.
- Shifts and bit-wise or in session numbers are written as arithmetic on their three disjoint fields.
- The shared-memory overload of `rpc_call` (`gobang/kernel/proto_utils.h:38-46`), which suspends before its caller is entered; a call in the model creates its session and suspends in one step, as the other callers do.
- What the proxy writes back to its clients, kicking clients, and the narrowing of room ids beyond taking 16 bits.
- `gobang/kernel/gate_connector.cpp:83` requests the login type whatever type is asked for; agreement is stated for the type the gate received.
- Restarts of a gate as its subscribers see them: `Subscriber` follows one gate process, whose services are never removed.
- Replies to service registrations, which carry no table entries.
- Loading accounts into free slots, which the program does not implement yet.
- `Framing.LongBody`: bodies of 2^24 bytes and more as `create_net_buffer` would cut them, because it serialises into a buffer of the wrapped size; the lemma follows `remote_service::write`, which appends the whole message.
- `SendQueue.EverythingIsDelivered`: assumes that the reader makes room; fairness of the scheduler is not modelled.
