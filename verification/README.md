# lapinbeam in Dafny

lapinbeam is an actor runtime: a Rust transport connects nodes, and Python code supervises actors, links,
monitors and registers them across the cluster. This project models the parts whose correctness spans many
steps, and proves what holds over every run.

Each component follows one pattern. Functions on values say what one operation does. A step system
(`Enabled`, `Apply`, `Legal`, `Run`) lets those operations happen in any order, and the main results are
lemmas about every legal run. Where the source updates an object in place there is a class whose methods
are proved against the same functions the steps are made of.

| module | component |
|---|---|
| `NodeIds` | parsing and printing of `name@host:port`, the tiebreak |
| `PeerTable`, `Dialing` | one node's peer table; any number of nodes dialing each other |
| `Tiebreak`, `Survival` | which of several dials survives, and what becomes of the others |
| `Routing` | what a received frame sets off |
| `Framing` | length-prefixed frames, the batching writer, the incremental decoder |
| `RestartBudget`, `Supervision` | the restart window, the strategies, whole lives of a supervisor |
| `Escalation`, `EscalationWorst`, `EscalationMirror` | supervision trees: the bound on crashes, its exactness, agreement with `Supervision` |
| `Mailboxes` | mailboxes that survive restarts, and the names that reach them |
| `Pool` | the worker pool with a shared queue or one queue per key shard |
| `Links` | exit cascades |
| `Monitors`, `MonitorCauses`, `GroupSweeps` | one-way monitors; what a `Down` goes back to; whom a group restart tells |
| `Registry`, `RegistryNet` | cluster-wide names: one node, and any number of nodes |
| `Codec` | the type-preserving payload codec |
| `Discovery` | joining through seed nodes |
| `Common` | `Option` and `Result` |

`dafny verify dfyconfig.toml` checks everything.

## Where the code does not do what it says

Each of these but the last is a lemma that gives a run or an input, next to the condition under which the
property does hold.

- `Dialing.BroadcastUndoesTiebreak`: an inbound read loop subscribes to events before it registers
  (src/transport/mod.rs:435), so it can be ended by an older `PeerDisconnected` for the same peer
  (src/transport/mod.rs:459-465). After two simultaneous dials and nothing else going wrong, neither node is
  connected. `Tiebreak.LosableIffHeard` is the condition: a registered connection of the smaller id can still
  be lost by ordinary steps if and only if its loop heard such an event before it registered.
- `Tiebreak.StaleHandshakeUnseatsNewer`: with failures, the handshake of a connection that already broke on
  the dialer's side can be read after that of the redial and replace it (src/transport/mod.rs:541-556); the
  newer connection is then held by one end only.
- `Survival.OverlappingDialsDisagree`: nothing keeps a node from having two dials of the same peer under way
  (src/transport/mod.rs:224-245, src/py/node.rs:181-189). After two such dials and nothing else, everything is
  settled, nothing was lost, and the two ends hold different connections. For this and the entry above,
  `Survival.UnseatedIffSuperseded`: in every run, a step takes a connection of the smaller id from its two ends
  without losing it if and only if the smaller id inserts another dial of the same peer, or the larger id reads
  an acceptable handshake of another connection from it. `Survival.WinnerHeldIff` lifts this to settled states.
- `Survival.LoserStaysOpen`: exactly one connection is to survive and none to sit there unused
  (src/transport/mod.rs:180-184). After nothing but dials and handshakes the losing connection can stay open
  with nobody holding it, until its read timeout (src/transport/mod.rs:448-450), which is a failure in the
  model. `Survival.LoserStaysOpenIff`: it does if and only if its handshake was read while the smaller id had
  no entry yet.
- `Tiebreak.DialOutlivesShutdown`: `shutdown` drops all connections and an inbound handshake respects it
  (src/transport/mod.rs:500-510), but a dial does not look whether the node has stopped
  (src/transport/mod.rs:224-245). `Tiebreak.StoppedConnectsIffDials`: a stopped node becomes connected to a
  peer by a step if and only if that step is its own dial of that peer.
- `Supervision.SiblingsShareBudget`: under one-for-one "unrelated siblings are never affected"
  (lapinbeam/supervisor.py:116-121), yet the restart budget belongs to the supervisor
  (lapinbeam/supervisor.py:142, 668-675): a crash a child survives alone ends it when a sibling has crashed
  just before. `Supervision.DeniedIffSharedWindowFull`: a crash is denied if and only if the restarts granted
  to all children together fill the window. `Supervision.SameFateWithRoom`: as long as every window has room,
  a child's fate depends on its own crashes only.
- `MonitorCauses.SweepIsReported`: monitors are to fire only when the target is gone for good
  (lapinbeam/monitors.py:17-19, lapinbeam/node.py:524-530). A sibling torn down by a group restart within the
  budget sees a plain cancellation (lapinbeam/supervisor.py:490-496) and announces a shutdown (586-588) before
  it is brought back. `GroupSweeps.GroupRestartTells`: a granted crash of one child tells the watchers of
  another if and only if that other is in the strategy's restart set; the watchers of the one that crashed are
  not told.
- `MonitorCauses.RestartGapIsReported`: between a crash and its restart the name leads nowhere
  (lapinbeam/supervisor.py:590-602), and a monitor asked for in that gap is answered with a `Down`.
  `MonitorCauses.RestartsAreSilent` is the condition for both.
- `Codec.UnsettableFieldIsFatal`: the codec is to preserve dataclasses (lapinbeam/codec.py:3-5), but a field
  declared with `init=False` is encoded (lapinbeam/codec.py:70-73) and then refused by the constructor
  (lapinbeam/codec.py:135-136). `Codec.RoundTrip` has the exact condition.
- `Framing.AcceptedButTooLarge`: the sender bounds the payload (src/transport/mod.rs:324), the receiver the
  whole body (src/wire/framing.rs:42). A payload just under the limit is accepted and then costs the
  connection; `Framing.LargestPayloadIsLost` has one.
- `Mailboxes.RefusedRestartTakesName`: `register_actor` refuses a name that leads to another mailbox so that
  no actor loses its mail to a second one (lapinbeam/node.py:359-371). When the refused one is a restarting
  actor, its `except` branch unregisters the name all the same (lapinbeam/supervisor.py:589-590), and its next
  attempt takes the name over while the other actor keeps running.
  `Mailboxes.ReachableIffNotEvicted` says exactly which steps do that.
- `RegistryNet.ReleasedNameLingers`: a snapshot carries third-party entries (lapinbeam/registry.py:113), so a
  released name can stay registered for good on a node that never heard of its release.
  `RegistryNet.ReleasedIffHeldNearby`: a release clears the name everywhere if and only if nobody but the
  owner's node and its peers held it.
- `NodeIds.PrintNotInjective`: outside the identities `parse` can return, two identities print alike.
- src/wire/mod.rs:22 says that peers must answer a heartbeat with a heartbeat; the router does not
  (src/transport/mod.rs:644-655), and the model follows the router.

## Model

| member | source | states |
|---|---|---|
| `NodeIds.Parse` | src/runtime/node_id.rs:13-28 | whatever is accepted has a non-empty name without `@` and a non-empty host |
| `NodeIds.ParseVerdict` | src/runtime/node_id.rs:13-28 | for every text, cut at its first `@` and last `:`, the identity or the error it gives, in the order the errors are found |
| `NodeIds.LargePortRefused` | src/runtime/node_id.rs:22 | a printed number is read back as a port, with or without a plus sign, if and only if it is below 65536 |
| `NodeIds.PrintParse` | src/runtime/node_id.rs:13-71 | printing then parsing gives an identity back if and only if it is well formed |
| `NodeIds.ParsePrintParse` | src/runtime/node_id.rs:13-71 | every accepted text parses to an identity that survives print and parse |
| `NodeIds.PrintInjective` | src/runtime/node_id.rs:64-71 | well-formed identities that print alike are equal |
| `NodeIds.PrintNotInjective` | src/runtime/node_id.rs:64-71 | two identities that print alike when one name contains `@` |
| `NodeIds.TiebreakAgrees` | src/transport/mod.rs:190-197 | of two opposite dials exactly one wins, and both ends compute the same winner (`WinsIffDialerPrecedes` says which) |
| `NodeIds.LessIsLexicographic` | src/transport/mod.rs:190-197 | the comparison is the lexicographic order: one text is below another if and only if it is a proper prefix, or at the first place they differ it has the smaller character |
| `NodeIds.WinsIffDialerPrecedes` | src/transport/mod.rs:190-197 | a connection wins if and only if its dialer's printed id is lexicographically below its acceptor's, whichever end asks |
| `PeerTable.Transport.FinishDial` | src/transport/mod.rs:233-256 | the entry, the event and the refusal of a dial whose connection is open |
| `PeerTable.Transport.RegisterInbound` | src/transport/mod.rs:498-558 | an inbound handshake registers exactly when not stopped, authentic, parseable and not beaten |
| `PeerTable.Transport.EndLoop` | src/transport/mod.rs:578-590 | a loop's cleanup removes its own entry, announces it, and leaves any fresher entry alone |
| `Dialing.NoGhostPeers` | src/transport/mod.rs:476-590 | in every reachable state of any number of nodes, with any number of dials under way, each table entry is served by a live read loop registered with exactly that connection |
| `Dialing.EndedLoopCleansUp` | src/transport/mod.rs:578-590 | after any run an ending loop removes its own entry and changes no other entry of any node |
| `Tiebreak.SimultaneousDial` | src/transport/mod.rs:190-272 | with at most one dial under way per ordered pair, after every run of checks, inserts, handshakes, refusals by the tiebreak and EOFs, a settled pair holds the same connection on both ends (the smaller id's dial if it got past its check, else the other's, none if nobody dialed), an unsettled one has a step to take, and the pending work is bounded |
| `Dialing.PrevailingDialSurvives` | src/transport/mod.rs:190-272 | whatever else fails, is forgotten or shut down, and however often others dial: a settled pair holds the prevailing dial's connection as long as that dial was never under way twice and the tiebreak alone has dropped that dialer's connections |
| `Survival.WinnerHeldIff` | src/transport/mod.rs:224-558 | in every run, whatever fails, is refused, forgotten or shut down and however often anybody dials, also at the same time, a settled connection of the smaller id is held by both ends if and only if nothing but the tiebreak dropped it, no other dial of the smaller id inserted after its own and no other handshake from it was read after its own |
| `Survival.UnseatedIffSuperseded` | src/transport/mod.rs:233-245 | in every run, a step takes a connection of the smaller id from its two ends without losing it if and only if it is the insert of another dial of the same pair or an acceptable handshake of another connection from the smaller id |
| `Survival.OrdinaryNeverUnseats` | src/transport/mod.rs:541-556 | without failures, failed proofs, forgets, shutdowns and overlapping dials of the pair that never happens to a connection that was not lost |
| `Survival.OverlappingDialsDisagree` | src/transport/mod.rs:224-245 | a run of two overlapping dials and their handshakes after which all is settled, nothing lost and the two ends hold different connections |
| `Survival.BothEndsHoldSmallerDial` | src/transport/mod.rs:224-272 | with any number of dials at a time and nothing going wrong, each end of a settled pair holds a connection dialed by the smaller id, if that id got past its check |
| `Survival.LoserStaysOpenIff` | src/transport/mod.rs:180-184 | once any number of calm dials are settled and the smaller id got past its check, nobody holds a connection of the larger id, and it stays open if and only if its handshake was read while the smaller id had no entry |
| `Survival.LoserStaysOpen` | src/transport/mod.rs:180-184 | a run of dials and handshakes after which a connection nobody holds stays open |
| `Tiebreak.LostOnlyByHearing` | src/transport/mod.rs:459-465 | without failures, failed proofs, forgets, shutdowns and overlapping dials of the pair, the smaller id's connection is lost only by its in end's own loop, after that loop heard a `PeerDisconnected` |
| `Tiebreak.UnheardStaysHeld` | src/transport/mod.rs:435-465 | in such runs, registered without having heard, it is never lost and stays with both ends |
| `Tiebreak.LosableIffHeard` | src/transport/mod.rs:435-465 | in such runs, a registered connection of the smaller id can still be lost if and only if its loop heard a `PeerDisconnected` before it registered |
| `Tiebreak.CalmLosesNothing` | src/transport/mod.rs:224-272 | dials, handshakes and EOFs alone lose no connection other than by the tiebreak |
| `Tiebreak.StaleHandshakeUnseatsNewer` | src/transport/mod.rs:541-556 | a run with one failure after which the smaller id's newer, never lost connection is held by one end only |
| `Tiebreak.RefusedDialLostToPeer` | src/transport/mod.rs:224-245 | in every run, a dial past its check is dropped at its insert only by the larger id and for a live connection; unless that id had two dials of the peer under way, for one the peer dialed |
| `Tiebreak.ForgetDropsConnection` | src/transport/mod.rs:279-285 | after forgetting, the loop has been told to end, the other end then lets go too, and no continuation gives the connection back |
| `Tiebreak.StoppedConnectsIffDials` | src/transport/mod.rs:289-294 | after a shutdown a step connects the node to a peer if and only if it is the node's own dial of it |
| `Tiebreak.ShutdownKeepsInboundOut` | src/transport/mod.rs:498-510 | over every run after a shutdown, whoever the node is connected to it has dialed since |
| `Tiebreak.DialOutlivesShutdown` | src/transport/mod.rs:224-245 | a dial under way at the shutdown connects the stopped node |
| `Dialing.OwnHandshakeRegisters` | src/transport/mod.rs:541-557 | the prevailing dial's handshake is never turned down |
| `Dialing.LoopEndsSparesOthers` | src/transport/mod.rs:578-590 | an ending loop takes no entry from another connection and ends no other loop |
| `Dialing.PendingWorkEnds` | src/transport/mod.rs:224-272 | without new dials every run is bounded by a measure of the pending work |
| `Dialing.UnsettledCanMove` | src/transport/mod.rs:447-466 | while a pair is not settled, some ordinary step can be taken |
| `Dialing.BroadcastUndoesTiebreak` | src/transport/mod.rs:435-465 | a run of ordinary steps after which both nodes dialed, all is settled and neither is connected |
| `Routing.Router.SendError` | src/transport/mod.rs:352-377 | exactly when the peer is connected and its writer still runs, its queue and no other grows by one error frame with the correlation id |
| `Routing.Router.Route` | src/transport/mod.rs:641-700 | a data frame for an open channel is appended to it, no other channel changes and nothing is sent; for an unknown actor or a full channel the sender's queue, if it has one, grows by exactly one error with the frame's correlation id; heartbeats, errors and closed channels set nothing off |
| `Routing.DataArrives` | src/transport/mod.rs:641-700 | an arriving data frame is queued exactly when its channel takes it, refused exactly for an unknown actor or a full channel, and answered exactly when refused with its sender reachable |
| `Routing.EveryFrameIsSomewhere` | src/transport/mod.rs:641-700 | over every run each frame that ever was is in exactly one place: on its way, queued, handed to the callback, refused, read as other than data, or lost |
| `Routing.StepSpends` | src/transport/mod.rs:641-700 | every delivery lowers the number of deliveries still possible, and every step the number of steps |
| `Routing.NoMessageStorm` | src/transport/mod.rs:641-700 | without new sends a run delivers at most two per data frame, one per other frame and one per queued message, and takes at most three steps per data frame, one per other and two per queued |
| `Routing.IdleIffDrained` | src/transport/mod.rs:641-700 | nothing can happen any more if and only if the network is drained |
| `Routing.OneErrorPerData` | lapinbeam/node.py:397-412 | over every run all new frames are errors, each goes back to the sender of one data frame with its correlation id, and no data frame is answered twice |
| `Framing.LittleEndian` | src/wire/framing.rs:11-17 | four bytes that read back as the number |
| `Framing.LowByteFirst` | src/wire/framing.rs:11-17 | the least significant byte comes first |
| `Framing.FrameDecoder.DecodeChunk` | src/wire/framing.rs:34-57 | the incremental loop equals one scan of buffer and chunk, leftover and error included |
| `Framing.ScanSplit` | src/wire/framing.rs:34-57 | more bytes change neither what was already decoded nor an error |
| `Framing.CutsDoNotMatter` | src/wire/framing.rs:34-57 | for arbitrary bytes failure and first error are independent of the cuts; without an error so are messages and leftover |
| `Framing.WriterLoop` | src/transport/peer.rs:71-102 | whatever the batching, the bytes written are the frames of the queue in order |
| `Framing.ScanOneFrame` | src/wire/framing.rs:11-57 | a frame in front of any bytes decodes to its message, or is refused as too large exactly above the limit |
| `Framing.UndecodableIsError` | src/wire/framing.rs:46-52 | a complete frame whose body does not decode is an error and is taken from the buffer |
| `Framing.StreamDecodesIffFits` | src/wire/framing.rs:11-57 | a queue's stream decodes to the queue with nothing left over if and only if every body fits |
| `Framing.StreamFidelity` | src/transport/peer.rs:71-102 | for every batching and every cut the decoder yields the queued messages in order and an empty buffer |
| `Framing.AcceptedButTooLarge` | src/transport/mod.rs:323-326 | a message the sender accepts is lost with its connection if and only if the payload leaves no room for the rest of the body |
| `Framing.LargestPayloadIsLost` | src/transport/mod.rs:323-326 | a payload of exactly the limit, accepted by the sender and refused by the receiver |
| `RestartBudget.KeptIsHistoryInWindow` | lapinbeam/supervisor.py:668-675 | the pruned list is the full grant history pruned to the window, at every later moment (what pruning keeps is `PruneKeeps`) |
| `RestartBudget.DeniedIffWindowFull` | lapinbeam/supervisor.py:668-675 | a crash is denied if and only if at least `max_restarts` of all grants so far are less than a window old, counted by position in the unpruned history |
| `RestartBudget.PruneKeeps` | lapinbeam/supervisor.py:670-671 | pruning keeps every time less than a window old as often as it was there, no other, and the order |
| `RestartBudget.GrantsIffRoom` | lapinbeam/supervisor.py:670-675 | a restart is granted if and only if fewer than `max_restarts` recorded times are less than a window old |
| `RestartBudget.QuietWindowGrants` | lapinbeam/supervisor.py:668-675 | a crash at least a window after every grant is granted, unless `max_restarts` is zero or less |
| `RestartBudget.AnyWindowHoldsAtMostMax` | lapinbeam/supervisor.py:668-675 | no interval of the window's length contains more than `max_restarts` grants |
| `RestartBudget.NothingPruned` | lapinbeam/supervisor.py:670-671 | while nothing has left the window the list is kept whole |
| `Supervision.SpawnedLast` | lapinbeam/supervisor.py:155-169 | a child spawned last is swept by every granted group restart, changes nothing for those before it, and under one-for-one keeps the supervisor from giving up |
| `Supervision.Supervisor.AllowRestart` | lapinbeam/supervisor.py:668-675 | granted if and only if fewer than `max_restarts` recorded times are less than a window old; those are kept, and the moment is added exactly when granted |
| `Supervision.Supervisor.ShutdownExcept` | lapinbeam/supervisor.py:449-460 | every other child stopped, the excepted one untouched |
| `Supervision.Supervisor.RestartSiblings` | lapinbeam/supervisor.py:532-538 | the siblings in the strategy's set start a next life, all others are untouched: none under one-for-one, those spawned later under rest-for-one |
| `Supervision.Supervisor.ChildCrashed` | lapinbeam/supervisor.py:498-539 | a crash restarts exactly the strategy's set and charges the budget once, or discards the child, or stops the whole group with the original exception |
| `Supervision.RestartsByPosition` | lapinbeam/supervisor.py:468-475 | a granted crash restarts the crashed child alone under one-for-one, everyone under one-for-all, and under rest-for-one exactly the crashed child and those spawned after it |
| `Supervision.GroupLives` | lapinbeam/supervisor.py:498-539 | over a group supervisor's whole life children never move; each has had one life per granted crash that swept it; all run until the give-up, and then none |
| `Supervision.RestForOneLives` | lapinbeam/supervisor.py:468-475 | over a rest-for-one supervisor's whole life a child has lived once more for every granted crash at its own or an earlier position, and for no other |
| `Supervision.LoneLives` | lapinbeam/supervisor.py:510-522 | under one-for-one each denial costs one child, nobody else stops, and the give-up comes exactly with the last child |
| `Supervision.FateFollowsVerdicts` | lapinbeam/supervisor.py:510-522 | under one-for-one a child is restarted once per crash of its own that is granted and vanishes with the first that is denied; no sibling's restart or discard touches it |
| `Supervision.DeniedIffSharedWindowFull` | lapinbeam/supervisor.py:668-675 | over every life of a supervisor a crash is denied if and only if at least `max_restarts` of the restarts granted to all its children together are less than a window old |
| `Supervision.NoDenialIffRoomy` | lapinbeam/supervisor.py:668-675 | no crash of a run is denied if and only if at each crash fewer than `max_restarts` earlier crash times, whoever crashed, are less than a window old |
| `Supervision.SameFateWithRoom` | lapinbeam/supervisor.py:116-121 | in two runs that leave room, a child with as many crashes meets the same fate whatever its siblings do |
| `Supervision.SiblingsShareBudget` | lapinbeam/supervisor.py:116-121 | a crash a child survives alone ends it after a crash of an unrelated sibling |
| `Supervision.GiveUpRecordsItsCrash` | lapinbeam/supervisor.py:523-530 | the give-up is final and carries the exception of the denied crash |
| `EscalationMirror.AgreesWithSupervisor` | lapinbeam/supervisor.py:498-539 | a tree crashes upwards exactly when its supervisor gives up; otherwise the two agree, slot by slot, on who was restarted, who was discarded and what is left of the budget |
| `Escalation.CrashSpends` | lapinbeam/supervisor.py:619-637 | every crash inside the window, anywhere in the tree, lowers its remaining energy |
| `Escalation.RestartSpends` | lapinbeam/supervisor.py:619-637 | a granted restart, with its fresh budgets below, gives back less than it takes |
| `Escalation.DenialSpends` | lapinbeam/supervisor.py:510-522 | a denial that discards one child lowers the energy as well |
| `Escalation.EscalationBound` | lapinbeam/supervisor.py:498-539 | inside one window no run of crashes is longer than a recursive function of the tree |
| `Escalation.FreshEnergy` | lapinbeam/supervisor.py:619-624 | a freshly built tree has exactly the bound as its energy |
| `EscalationWorst.WorstCase` | lapinbeam/supervisor.py:619-637 | for every tree whose supervisors have children and an open window some run reaches that bound exactly and ends in the root's give-up |
| `EscalationWorst.ChainBound` | lapinbeam/supervisor.py:619-637 | on a chain of single-child supervisors the bound is the product of `max_restarts + 1` |
| `Mailboxes.Node.RegisterActor` | lapinbeam/node.py:356-372 | refused exactly when the name leads to a different mailbox |
| `Mailboxes.Node.SpawnActor` | lapinbeam/supervisor.py:155-169 | fails exactly for a name in use and then creates nothing |
| `Mailboxes.Node.BeginGeneration` | lapinbeam/supervisor.py:545-562 | a generation runs exactly when its registration was accepted; a refused one ends and unregisters the name |
| `Mailboxes.Node.EndsGeneration` | lapinbeam/supervisor.py:589-602 | the message in hand is lost, queue and accepted messages are untouched, nothing runs, the name is unregistered |
| `Mailboxes.Node.TakeNext` | lapinbeam/supervisor.py:649-650 | the oldest queued message leaves the queue before it is handled |
| `Mailboxes.Node.HandlerDone` | lapinbeam/supervisor.py:652-664 | the message in hand is handled, the queue untouched |
| `Mailboxes.Node.Put` | lapinbeam/node.py:397-399 | accepted exactly while there is room |
| `Mailboxes.TakenIffBelowCapacity` | lapinbeam/node.py:397-399 | a message goes to the end of the queue exactly while the mailbox is unbounded or holds fewer than its capacity |
| `Mailboxes.Node.SendLocal` | lapinbeam/node.py:421-435 | an unknown name is an error; a known one's mailbox, and no other, takes the message while it has room; a full one drops it and reports it |
| `Mailboxes.Node.RemoteCallback` | lapinbeam/node.py:397-412 | the captured mailbox takes the message, or the sender is notified, exactly when full |
| `Mailboxes.MailboxConserves` | lapinbeam/supervisor.py:545-617 | across all restarts and sweeps, accepted messages are the handled ones, the one in hand and the queue, in order and within capacity; lost ones never outnumber ended generations |
| `Mailboxes.ReachableIffNotEvicted` | lapinbeam/supervisor.py:589-591 | a step keeps every running actor reachable by name if and only if it begins or ends no generation of an actor whose name another running one holds |
| `Mailboxes.DistinctNamesStayReachable` | lapinbeam/node.py:359-371 | over every run that spawns no name twice all running actors stay reachable |
| `Mailboxes.NameMovesThroughAbsence` | lapinbeam/node.py:369-372 | no step moves a registered name to another mailbox without its being unregistered |
| `Mailboxes.RefusedRestartTakesName` | lapinbeam/supervisor.py:555-602 | for every name a run after which an actor is running and its name leads to the former owner |
| `Pool.WorkerPool.Send` | lapinbeam/supervisor.py:319-354 | the dispatcher queues, drops as full or reports a key error |
| `Pool.ArrivesWhere` | lapinbeam/supervisor.py:319-354 | a sharded pool without workers or with a failing key reports the message; any other message joins the shared queue or its key's, or is dropped exactly when that queue is bounded and full |
| `Pool.WorkerPool.PickUp` | lapinbeam/supervisor.py:371-402 | a worker takes the head of its own queue |
| `Pool.QueuesAreFifo` | lapinbeam/supervisor.py:319-402 | in every reachable state started followed by queued is accepted, in arrival order and within capacity, for each queue |
| `Pool.KeyOrder` | lapinbeam/supervisor.py:319-402 | for each key the started messages are a prefix of the accepted ones in arrival order, all on one worker |
| `Pool.PoolConserves` | lapinbeam/supervisor.py:319-402 | every received message is in exactly one place: queued, started, dropped as full or a key error |
| `Links.Node.LinkLocal` | lapinbeam/links.py:69-86 | both directions are recorded; a missing actor answers with an exit to the caller |
| `Links.Node.UnlinkLocal` | lapinbeam/links.py:92-104 | both directions are removed |
| `Links.Node.DeliverExit` | lapinbeam/node.py:443-457 | a message for a trapping actor, a kill for any other live one, nothing for a dead one |
| `Links.Node.ClearLinks` | lapinbeam/node.py:459-467 | returns what was linked and forgets links and trap flag |
| `Links.Node.NotifyLinks` | lapinbeam/node.py:485-496 | exactly one delivery per local target and one message per remote one |
| `Links.Node.EndForGood` | lapinbeam/supervisor.py:563-588 | the whole state after an actor that is not restarted |
| `Links.LinkingIsSymmetric` | lapinbeam/links.py:69-104 | linking and unlinking keep the link relation symmetric |
| `Links.TrappingShields` | lapinbeam/links.py:106-115 | an actor that traps exits is at no point of any cascade dead or doomed, and its trapping kills nobody else |
| `Links.UntrappedFollows` | lapinbeam/links.py:106-115 | an actor that turned trapping off is dead when the cascade of one it is linked to is over |
| `Links.CascadeOutcome` | lapinbeam/node.py:443-496 | for every link graph and every schedule, exactly the actors reached through non-trapping ones are dead, and each surviving trapping actor has exactly one exit per dead actor linked to it |
| `Links.CascadeEnds` | lapinbeam/node.py:443-496 | no cascade takes more steps than its live actors and links |
| `Monitors.Node.DeliverDown` | lapinbeam/node.py:510-522 | the watch is forgotten; a `Down` is enqueued only if it was there and the watcher lives |
| `Monitors.Node.MonitorLocal` | lapinbeam/monitors.py:86-94 | watch and watcher are recorded; a missing target is reported at once |
| `Monitors.Node.Demonitor` | lapinbeam/monitors.py:104-121 | an unknown ref changes nothing; a known one is forgotten here, and its watcher here or by request |
| `Monitors.Node.ClearMonitors` | lapinbeam/node.py:524-530 | returns and forgets the watchers of the ended generation |
| `Monitors.Node.NotifyMonitors` | lapinbeam/node.py:532-543 | one delivery per watcher of this node and one message per watcher elsewhere |
| `Monitors.Node.ReceiveRequest` | lapinbeam/monitors.py:141-161 | the whole new state for each request; a missing target is answered at once |
| `Monitors.Node.PeerDisconnected` | lapinbeam/node.py:276-286 | that peer's watchers are dropped and one delivery scheduled for every watch on it |
| `Monitors.AtMostOneDown` | lapinbeam/monitors.py:75-161 | for every ref and every interleaving of deaths, remote downs, missing targets, disconnects, restarts, losses and demonitors at most one `Down` |
| `Monitors.NothingAfterDemonitor` | lapinbeam/monitors.py:104-121 | a ref that is not outstanding never leads to a `Down` again |
| `Monitors.DemonitorSilences` | lapinbeam/monitors.py:104-121 | demonitoring on its own node leaves any ref not outstanding |
| `MonitorCauses.EveryDownIsCaused` | lapinbeam/node.py:510-543 | every `Down`, enqueued or under way, goes back to a step about its own ref: its target died for good or was swept by a sibling's restart, the connection from its node to its peer was lost, or its target was found missing |
| `MonitorCauses.RestartsAreSilent` | lapinbeam/supervisor.py:589-606 | for every ref, in every run without such a step there is no `Down`, however often its target and all others crash and restart and whoever else is swept, dies, disconnects or is lost |
| `MonitorCauses.RestartTellsIffSwept` | lapinbeam/supervisor.py:490-496 | a granted restart of the target tells an outstanding watcher if and only if it is a sibling's sweep |
| `MonitorCauses.SweepIsReported` | lapinbeam/supervisor.py:563-588 | a run without deaths for good or lost peers, the target found alive and back in the end, and yet a `Down` |
| `GroupSweeps.GroupRestartTells` | lapinbeam/supervisor.py:468-538 | a granted crash of child `i` tells the watchers of child `w` if and only if `w` is restarted with it and is not `i`: nobody under one-for-one, everyone else under one-for-all, those spawned later under rest-for-one; every restarted child is back |
| `MonitorCauses.RemoteMonitorReports` | lapinbeam/monitors.py:86-101 | a monitor on another node's actor does lead to one `Down`, at once for a missing actor and otherwise with its death, when its messages are delivered |
| `MonitorCauses.LostPeerReports` | lapinbeam/node.py:276-286 | a lost peer does lead to one `Down` for every outstanding monitor on its actors whose watcher lives |
| `MonitorCauses.LostPeerWatchersGo` | lapinbeam/node.py:276-283 | it makes a node forget exactly the watchers that sit on it |
| `MonitorCauses.DemonitorForgetsWatcher` | lapinbeam/monitors.py:104-121 | a demonitored ref leaves the watcher table as well, at once or when the request is read |
| `MonitorCauses.RestartGapIsReported` | lapinbeam/supervisor.py:589-602 | a run without deaths for good, sweeps or lost peers and yet a `Down`, asked for between a crash and its restart |
| `Registry.RegistryNode.Broadcast` | lapinbeam/registry.py:95-100 | one message to each connected peer |
| `Registry.RegistryNode.RegisterName` | lapinbeam/registry.py:57-69 | refused exactly for a name known to belong to someone else; otherwise stored and claimed at every peer |
| `Registry.RegistryNode.UnregisterName` | lapinbeam/registry.py:72-80 | only the owner's own entry is removed, and only then released at every peer |
| `Registry.RegistryNode.ClearRegistry` | lapinbeam/node.py:557-573 | a generation's end removes exactly its names and releases each at every peer |
| `Registry.RegistryNode.PeerDisconnected` | lapinbeam/registry.py:122-146 | the peer and exactly the names of its origin are dropped |
| `Registry.RegistryNode.ReceiveDelta` | lapinbeam/registry.py:160-176 | a claim never overwrites another owner and is reported instead; a release removes only its own owner |
| `Registry.RegistryNode.ReceiveSnapshot` | lapinbeam/registry.py:177-187 | absent names are added, present ones kept, and every clash is reported exactly once |
| `RegistryNet.StepNeverSwapsOwner` | lapinbeam/registry.py:57-187 | no step of any node replaces one owner by another |
| `RegistryNet.OwnerChangesThroughAbsence` | lapinbeam/registry.py:57-187 | between two different owners of a name at a node there is a moment without owner |
| `RegistryNet.OwnersAreGenuine` | lapinbeam/registry.py:57-187 | over every run each stored or in-flight owner was claimed on its own node |
| `RegistryNet.ClaimsComeFromRegister` | lapinbeam/registry.py:57-69 | what counts as claimed is a `register_name` on the owner's own node |
| `RegistryNet.EveryOwnerRegistered` | lapinbeam/registry.py:57-69 | from an empty cluster, every owner anyone names has called `register_name` in that run |
| `RegistryNet.DisconnectForgets` | lapinbeam/registry.py:122-146 | after a disconnect a node knows exactly what it knew except the names owned on the lost peer; no other node's table changes |
| `RegistryNet.LostPeerStaysForgotten` | lapinbeam/registry.py:122-187 | over every run after that it knows no name owned on the lost peer until a delivery names one |
| `RegistryNet.EndedGenerationReleases` | lapinbeam/node.py:557-573 | the end of a generation takes exactly its own names from its node and puts a release of each on the way to every peer |
| `RegistryNet.RegistryConverges` | lapinbeam/registry.py:57-187 | without releases or disconnects, once nothing is in flight a name with one claimant is held by it at home and at all its peers |
| `RegistryNet.ReleasedNameLingers` | lapinbeam/registry.py:111-119 | a run with a release after which a third node keeps the name although nothing is in flight |
| `RegistryNet.ReleaseReachesPeersOnly` | lapinbeam/registry.py:72-80 | once the releases are delivered, a node still holds the name for that owner if and only if it held it before and is neither the owner's node nor its peer |
| `RegistryNet.ReleasedIffHeldNearby` | lapinbeam/registry.py:72-80 | a release clears the name everywhere if and only if nobody but the owner's node and its peers held it |
| `RegistryNet.ConnectCatchesUp` | lapinbeam/registry.py:111-142 | a connect, its snapshot task and the delivery give the peer every name its neighbour knows and change none it had |
| `Codec.RoundTrip` | lapinbeam/codec.py:62-139 | decoding the encoded value gives it back if and only if no plain dict looks like an envelope, every tag resolves to its class and every class is constructed from all its fields |
| `Codec.UnsettableFieldIsFatal` | lapinbeam/codec.py:127-139 | an instance with a field its constructor does not take encodes to something that does not decode |
| `Codec.EncodeInjective` | lapinbeam/codec.py:62-139 | distinct such values have distinct encodings |
| `Codec.EnvelopeIff` | lapinbeam/codec.py:102-106 | a dict is read as an instance if and only if its reserved key is there and does not lead to `None` |
| `Codec.BadEnvelope` | lapinbeam/codec.py:127-139 | a missing body, an unknown tag and a body that is no dict each have their own error |
| `Codec.MissingFieldTakesDefault` | lapinbeam/codec.py:135-136 | a field that is not given takes its default and leaves the others alone; without a default the construction fails |
| `Codec.EncodeObj` | lapinbeam/codec.py:62-99 | the copy-avoiding encoder equals the full rebuild and returns its argument itself exactly when nothing inside was tagged |
| `Codec.EncodeItemLoop` | lapinbeam/codec.py:62-99 | a list's items in order; `changed` exactly when some item was tagged, and otherwise the list itself |
| `Codec.EncodeEntryLoop` | lapinbeam/codec.py:62-99 | the same for a dict's entries |
| `Codec.DecodeObj` | lapinbeam/codec.py:102-139 | the copy-avoiding decoder equals the full decoding, errors included, and returns its argument itself exactly when it holds no envelope |
| `Codec.RebuildObj` | lapinbeam/codec.py:127-139 | an envelope becomes an instance of the class its tag resolves to, missing fields taking their defaults, or the first error |
| `Codec.DecodeItemLoop` | lapinbeam/codec.py:102-124 | a list's items up to the first error; `changed` exactly when some item held an envelope |
| `Codec.DecodeEntryLoop` | lapinbeam/codec.py:102-124 | the same for a dict's entries |
| `Discovery.JoinViaSeeds` | lapinbeam/discovery.py:82-105 | terminates, tries no id twice, and returns exactly the ids reachable from the seeds through responsive nodes other than itself |
| `Discovery.OnePass` | lapinbeam/discovery.py:86-103 | a pass keeps the search invariant, and one that visits nothing new leaves nothing to do |
| `Discovery.Attempt` | lapinbeam/discovery.py:91-103 | one attempt is logged and visited once, and keeps the search invariant whether or not the peer responds |
| `Discovery.DoneMeansReachable` | lapinbeam/discovery.py:82-105 | an exhausted search has connected exactly the reachable ids |

## Left out

- Sockets, Tokio and asyncio scheduling, timers and the PyO3 boundary: scheduling is the choice of the next step, times are parameters.
- bincode and JSON byte formats: the body codec is a parameter with an explicit round-trip hypothesis.
- HMAC proofs of the handshake: their verdict is a boolean.
- lapinbeam/groups.py: the registry's gossip on an add-only set; it would only add easier members.
- Pydantic models, `register_codec` bodies and tuples: foreign functions, and tuples become lists.
- Executors, `PoolRef.map`, `ask`, actor decorators, examples and benchmarks: thin wrappers.
- The reconnect and heartbeat loops: a reconnect is one more dial, a heartbeat sets nothing off.
- A dial whose TCP connect fails: it changes no table, so it is a dial that has not reached its insert; the tail of a dial after its insert is one step.
- The capacity of the event broadcast channel: a loop that lags hears fewer events than the model allows.
- A write error ends the writer; the model has it as the failure of the connection.
- A supervisor's handling of one crash is one step (in `Monitors` the crash or sweep and the restart are two), and `build` either completes or has no effect: the source does not stop children spawned before `build` raised.
- A handler that swallows its cancellation and carries on.
- Delivery of exit signals while crash handling is itself cancelled, and that a `Down` is eventually delivered: best effort in the source.
- Links.CascadeOutcome: actors are not restarted (zero budget, one-for-one) and mailboxes are unbounded; only links between actors of one node cascade.
- RegistryNet.RegistryConverges: no releases, restarts, losses or disconnects, because snapshots may be stale (`RegistryNet.ReleasedNameLingers`).
- Escalation.EscalationBound: all crashes fall within one restart window of every supervisor.
- Tiebreak.SimultaneousDial: excludes runs with broadcasts that end a loop, failures, failed proofs, forgets, shutdowns and overlapping dials of one ordered pair; for those there are `Dialing.PrevailingDialSurvives`, `Survival.WinnerHeldIff` and `Tiebreak.LosableIffHeard`.
- Dialing.PrevailingDialSurvives: about a dialer that never had two dials of the peer under way at once, which the source allows; `Survival.WinnerHeldIff` and `Survival.BothEndsHoldSmallerDial` are without that restriction, and `Survival.OverlappingDialsDisagree` shows why this one needs it.
- Tiebreak.LostOnlyByHearing: no two dials of the pair under way at once, for the same reason.
- Tiebreak.UnheardStaysHeld: no two dials of the pair under way at once, for the same reason.
- Tiebreak.LosableIffHeard: no two dials of the pair under way at once, for the same reason.
- Survival.OrdinaryNeverUnseats: no two dials of the pair under way at once, for the same reason.
- A node that dials itself: one connection would then have both its handles in one table, which connection numbers do not tell apart.
- Framing.StreamFidelity: bodies are at most the frame limit (`Framing.StreamDecodesIffFits` has both directions).
- Monitors.AtMostOneDown: a watcher's mailbox is unbounded, so a `Down` dropped as full is counted as enqueued.
- Codec.RebuildObj: a default is one fixed value; `__post_init__`, `InitVar` and attributes that are not fields are not modelled.
- Discovery.JoinViaSeeds: answers and responsiveness do not change during the search, and exceptions other than connection errors and timeouts are not modelled.
- Mailboxes.Node.RegisterActor: the check that the node has been started, and the decoding of remote payloads, are not modelled.
