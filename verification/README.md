# A verified model of smolmesh2

smolmesh2 is a mesh VPN written twice, in C# and in Rust, over one wire protocol. This project models its three cores
in Dafny and proves what they are for. `dafny verify dfyconfig.toml` checks the whole project.

**The mesh.** A node keeps a cache of packet fingerprints (`SeenPackets`), a route table (`RouteTable`, `Routing`) and a
queue per link. `PacketStep` is what a node does with one packet; `MeshNode` holds the two packet loops, proved to take
exactly that step. `Network` lets any number of .NET and Rust nodes run together: messages in flight are a multiset, so
they arrive in any order, clocks are arbitrary, and links open, close and lose messages. On it stand loop freedom
(`LoopFreedom`), with exactly the steps that keep it and two runs that break it (`RemoveLoop`), flood coverage and cost
(`Flood`, `FloodCost`), how the next announcement repairs routes (`Healing`), how long a packet is remembered
(`Eviction`), data under way (`DataInMotion`) and all the way to the TUN of an owner (`Delivery`), the probes of a trace
(`Tracing`), what its table shows (`HopTable`) and a trace that misses a hop (`DeadReply`). `Queues` ties the queues that
the methods fill to what is in flight. Each theorem has the hypotheses it uses: loop freedom needs neither the cache nor
the clock nor the order of messages, coverage and cost need fixed links, fresh packets, no collision and no eviction.

**The executor of the Rust program.** `Executor` interleaves the atomic actions of the loop with those of any number of
wakers, under sequential consistency. `Timers` is the deadline heap with the futures that register in it, `PollRegistry`
one call of `poll_and_wake`, `ThreadFuture` the hand-over from a helper thread.

**The encrypted stream.** `Gimli` is the permutation (section 2 of "Gimli: a cross-platform permutation", CHES 2017)
with its inverse; `GimliForms` the row form and the column form over real bytes and words; `TestVector` the start of a
published value; `Sponge` hash, MAC and keystream, and `SpongeLaws` what each does with its input. `Session` says what
travels and what a receiver makes of it, `Connection` adds the handshake and the whole-session theorems, `KeyLaws` what
keys and MACs depend on, `LegacyTcp` and `RustTcp` are the loops of the two programs, and `Conversation` lets two
connections talk. `Speck` is the address derivation of node names. `Sums` and `Sets` are helpers.

Where code and comments differ the model follows the code:

- A packet from a removed peer is still flooded although nothing is learned from it, and `Remove` forgets timestamps, so
  "newer timestamps win" does not survive either (`RemoveLoop`). `StepKeepsIff` says which steps keep the invariant of
  loop freedom for an address, exactly; `CloseStrandsIff` which removals leave every route leading to an owner, exactly;
  and what is broken lasts until the next announcement of the address has flooded (`NextAnnouncementHeals`).
- The trace promises that every hop replies with its name (`dotnet/Smolmesh/MeshNode.cs:89`). Every .NET hop does, but a
  reply is recorded by the tracer or dropped, never relayed (`dotnet/Smolmesh/MeshNode.cs:157-160`), and the Rust loop
  ignores it (`rust/src/main.rs:277`). So a .NET hop shows iff its next hop towards the source is the tracer itself, a
  Rust hop never does (`TraceTable`), and on a line only the first does (`DeadReply`).
- The Rust sender casts a length to 16 bits where the .NET one refuses the packet (`FrameReadBackIff`).
- The wake pipe is drained after ready descriptors have been woken, which `NoSleepingOnWork` covers.

## Model

| member | source | states |
|---|---|---|
| Wire.U64RoundTrip | dotnet/Smolmesh/Protocol.cs:47 | A 64-bit field written little-endian reads back unchanged. |
| Wire.Packet | dotnet/Smolmesh/Protocol.cs:44-51 | A packet is 9 bytes longer than its payload and shows exactly its timestamp, command and payload at the fixed offsets. |
| Wire.LowByteFirst | dotnet/Smolmesh/Protocol.cs:47 | The low byte of a timestamp is the first on the wire. |
| Wire.FreshIff | dotnet/Smolmesh/Protocol.cs:61-62 | A timestamp is fresh iff it is at most three minutes from the local clock on either side. |
| Wire.DestinationIff | dotnet/Smolmesh/Protocol.cs:53-59 | The .NET destination is bytes 16 to 19 of an IPv4 packet as long as its header says, bytes 24 to 39 of an IPv6 packet, and nothing of anything else. |
| Wire.PlainDestination | rust/src/main.rs:258-268 | In a plain IPv4 or IPv6 packet both programs find the destination, which follows the source address. |
| Wire.RustTakesMore | rust/src/main.rs:258-268 | The Rust program finds what the .NET one finds, and more exactly for IPv4 data of at least 20 bytes with a false header length. |
| SeenPackets.CacheIsSlidingWindow | dotnet/Smolmesh/Protocol.cs:66-79 | After any run of calls the cache is exactly the last n accepted fingerprints, without repeats and at most n of them, and the next call reports a duplicate iff its fingerprint is among them; n may be 0. |
| SeenPackets.RememberedThroughCapacity | rust/src/seen_packets.rs:42-60 | An accepted fingerprint that is not accepted again is remembered iff at most n - 1 others were accepted since. |
| SeenPackets.SeenPackets.Add | dotnet/Smolmesh/Protocol.cs:71-78 | Hash set and queue together take exactly the step of the sliding window, and keep the same elements. |
| SeenPackets.SeenPackets.Contains | rust/src/seen_packets.rs:62-69 | Answers whether the fingerprint is in the window, from the hash set alone. |
| MeshNode.MeshNode.constructor | dotnet/Smolmesh/MeshNode.cs:17 | A .NET node starts with an empty cache of 16384 places, no routes and no traces. |
| MeshNode.RustNode.constructor | rust/src/main.rs:61 | So does a Rust node. |
| RouteTable.RoutesNameRegisteredPeers | dotnet/Smolmesh/Routing.cs:24-45 | After any Add, Remove and Learn calls every .NET route names a registered peer. |
| RouteTable.RouteIsEarliestOfNewest | dotnet/Smolmesh/Routing.cs:26-45 | The route of an address is the earliest accepted announcement with the greatest timestamp since the entry was last dropped; without an entry there was no accepted one since. |
| RouteTable.RustTableAgrees | rust/src/all_senders.rs:24-34 | Without removals, and with every announcing link registered, the Rust actor and the .NET table are the same function of the same calls. |
| RouteTable.AddUndone | dotnet/Smolmesh/Routing.cs:24-35 | Removing a link that was just added restores the table, of both programs. |
| Routing.Peer.Send | dotnet/Smolmesh/Routing.cs:15 | A packet is appended to the queue iff the queue is not completed, and the answer says so. |
| Routing.Routing.Add | dotnet/Smolmesh/Routing.cs:24 | Registers the peer and changes nothing else. |
| Routing.Routing.Remove | dotnet/Smolmesh/Routing.cs:26-35 | Forgets exactly the peer and the routes through it, and completes its queue; every route still names a registered, open peer. |
| Routing.Routing.Learn | dotnet/Smolmesh/Routing.cs:37-45 | Replaces the route iff the peer is registered and the timestamp is strictly newer. |
| Routing.Routing.Broadcast | dotnet/Smolmesh/Routing.cs:47-50 | Appends the packet once to the queue of every registered peer and to no other. |
| Routing.Routing.Send | dotnet/Smolmesh/Routing.cs:52-55 | Appends the packet to the queue of the route of the address only; without a route to none. |
| Routing.AllSenders.Handle | rust/src/all_senders.rs:24-44 | One message of the actor changes table, list and queues: a flooded packet goes to each open queue as often as it is listed, any other along the route; closed queues take nothing. |
| Routing.ReceivedOnce | rust/src/all_senders.rs:24-44 | When no sender is listed twice, each queue receives exactly what the table value says. |
| Routing.ShareCounts | rust/src/all_senders.rs:40-44 | Listed n times a sender gets n copies of a flooded packet, and nothing else. |
| Routing.ActorKnowsSenders | rust/src/all_senders.rs:24-26 | Over any mailbox the actor knows exactly the senders it knew before and those it was told of. |
| Queues.QueuedIsEmitted | dotnet/Smolmesh/Routing.cs:47-55 | What the methods append to the queue of a link is, packet for packet and as often, what the network model puts in flight on that link. |
| Queues.DeliveryFillsQueues | dotnet/Smolmesh/MeshNode.cs:119-167 | After a delivery each link carries what it carried before and what the receiver appended to the queue of that link. |
| Routing.AllSenders.CleanBrokenSenders | rust/src/all_senders.rs:45-59 | Keeps exactly the listed senders with an open queue, in order, gives each an empty packet, and keeps every route, also through dropped senders. |
| Routing.CleanIsRemove | rust/src/all_senders.rs:45-59 | When one sender is closed the cleaner does to the list what a removal does to the table of the model. |
| PacketStep.SendsKeepKinds | dotnet/Smolmesh/MeshNode.cs:119-166 | Only announcements are flooded, unchanged and after acceptance; what goes to one link follows a route and never announces anything. |
| PacketStep.ProcessKeepsIdentity | dotnet/Smolmesh/MeshNode.cs:119-167 | Processing a packet changes neither the owned addresses nor the links of a node. |
| PacketStep.AnnouncesIff | dotnet/Smolmesh/MeshNode.cs:126-144 | A packet announces an address iff it is a name that resolves to it, its 16 bytes or its 4 bytes, under command 0, 1 or 2. |
| PacketStep.NoticedIff | dotnet/Smolmesh/MeshNode.cs:121-123 | The cache changes iff a packet has 9 bytes, a timestamp within 180000 ms and a fingerprint the cache does not hold; otherwise nothing at all happens. |
| PacketStep.AnswerThenProbe | dotnet/Smolmesh/MeshNode.cs:73-85 | Byte for byte: first the answer, with nonce and TTL as they came and the name; last, if the TTL is above 1 and the target is elsewhere, the probe with its TTL lowered by one and nothing else changed. |
| PacketStep.UnreadableName | rust/src/main.rs:213-226 | A name that cannot be read is flooded by the Rust program and dropped by the .NET one, and neither learns from it. |
| MeshNode.MeshNode.ProcessPacket | dotnet/Smolmesh/MeshNode.cs:119-167 | The method with its early returns, cache, table and queues takes exactly the node step of the network model: new state and every queue. |
| MeshNode.MeshNode.HandleProbe | dotnet/Smolmesh/MeshNode.cs:73-85 | Answers the tracing node first, then passes the probe on with the TTL byte lowered in place unless it ends here; the answer carries the TTL as it arrived. |
| MeshNode.MeshNode.Forward | dotnet/Smolmesh/MeshNode.cs:145-153 | An owner writes the IP packet to its TUN, if it has one; anyone else sends the packet unchanged along the route; nothing else changes. |
| MeshNode.RustNode.ProcessPacket | rust/src/main.rs:181-281 | The Rust loop takes the same step for cache and TUN and posts to the actor what the step would do to the table; it panics iff it accepts IP data too short for its header. |
| MeshNode.TooShortIff | rust/src/main.rs:257-268 | The data on which the loop panics is empty, or IPv4 below 20 bytes, or IPv6 below 40, and never has a destination. |
| MeshNode.RustLoopThenActorIsProcess | rust/src/main.rs:203-280 | The Rust loop followed by its actor working off the messages is the node step of the network model. |
| Network.LearnEffect | dotnet/Smolmesh/MeshNode.cs:164 | Processing changes a table only by one announcement that is strictly newer than the route it replaces. |
| Network.FloodsWhatItKnows | dotnet/Smolmesh/MeshNode.cs:164-165 | Learn comes before Broadcast: who floods an announcement holds a route at least as new iff it is a Rust node, the link is registered, or it held such a route already; from a removed .NET link it learns nothing. |
| Network.DeliverFlight | dotnet/Smolmesh/MeshNode.cs:119-167 | After a delivery every message in flight was there before, is the delivered packet flooded to a link, or goes to the one link of a route. |
| LoopFreedom.StepKeeps | dotnet/Smolmesh/MeshNode.cs:148-166 | For each address d and time t, every step that is benign for d keeps: whoever forwards packets for d by a route from t on sends them to an owner of d or to a node with a newer, or as new and earlier learned, route; and an announcement of d from t on, on its way to a node that does not own d, was sent by an owner or by such a node. |
| LoopFreedom.CloseKeepsIff | dotnet/Smolmesh/Routing.cs:26-35 | A removal keeps this invariant iff it makes no .NET node forget d, or the node owns d, or nobody who uses his route for d sends over that node and nothing it announced of d is on its way to a node that does not own d. What an owner of d holds or hears does not matter. |
| LoopFreedom.CloseStrandsIff | dotnet/Smolmesh/Routing.cs:26-35 | For forwarding itself: after a removal every route for d still leads to an owner iff nobody who uses his route for d sends over a node that forgot d. |
| LoopFreedom.StaleAnnouncementLoopsIff | dotnet/Smolmesh/MeshNode.cs:164 | Two nodes of which k sends packets for d to n while n has forgotten d: an announcement of d from k to n, however old, makes them point at each other iff n accepts it from a registered link. |
| LoopFreedom.StepKeepsIff | dotnet/Smolmesh/MeshNode.cs:119-167 | From a state with the invariant for d a step keeps it iff the step is benign for d. |
| LoopFreedom.RunKeepsIff | dotnet/Smolmesh/MeshNode.cs:119-167 | A run keeps the invariant for d in all its states iff all its steps are benign for d. |
| LoopFreedom.NoRoutingLoops | dotnet/Smolmesh/Routing.cs:37-56 | In every state that a run benign for d reaches from the start of a mixed mesh, no chain of next hops for d outside owners visits a node twice; collisions, evictions, loss, reordering, new links, link death at Rust nodes, at owners and at nodes nobody sends over, and any removal that concerns other addresses only, are all allowed. |
| LoopFreedom.EveryRouteLeadsToOwner | dotnet/Smolmesh/Routing.cs:52-55 | In the same states a node with a route for d leads to an owner of d in at most as many hops as there are nodes. |
| LoopFreedom.NoDotNetRemoveIsBenign | rust/src/all_senders.rs:27-34 | Every run in which only Rust nodes lose links is benign for every address and makes no .NET node forget a route. |
| RemoveLoop.RemoveCanLoop | dotnet/Smolmesh/Routing.cs:26-35 | Why removals are restricted: a run of three .NET nodes, with one Remove, that ends with two of them routing to each other. |
| RemoveLoop.BlindFloodCanLoop | dotnet/Smolmesh/MeshNode.cs:164-165 | Why floods from removed links are restricted: a run whose only Remove makes no node forget a route, and which ends in the same loop because a node floods what it may not learn. |
| Flood.StepCovers | dotnet/Smolmesh/MeshNode.cs:104-108 | While links are fixed: whoever sent an announcement out has, for each link, a copy in flight or a neighbour that processed it, and whoever processed it has a route at least as new. Every step keeps this. |
| Flood.DeliverFirst | dotnet/Smolmesh/MeshNode.cs:123 | The first copy is remembered, learned from and flooded to every link. |
| Flood.DeliverAgain | dotnet/Smolmesh/MeshNode.cs:123 | A further copy disappears and changes nothing. |
| FloodCost.FloodReachesEveryone | dotnet/Smolmesh/MeshNode.cs:104-166 | Once no copy of an announcement is in flight, every node a walk of links leads to has processed it and holds a route with a timestamp at least as new. |
| FloodCost.FloodLeadsToOwner | dotnet/Smolmesh/MeshNode.cs:104-167 | And following next hops from any such node reaches an owner in at most as many hops as there are nodes, and visits no node twice. |
| FloodCost.EachLinkCarries | dotnet/Smolmesh/Routing.cs:47-50 | At rest each link has carried the announcement exactly once if its node has processed it, and once more at the originator. |
| Healing.NextAnnouncementHeals | dotnet/Smolmesh/MeshNode.cs:104-166 | From any state that any steps reach, loops after removals included: once an announcement of d newer than every route in use and every announcement of d under way has flooded over fixed links, next hops from each node it reached lead to an owner of d and visit no node twice. |
| FloodCost.OriginHearsItself | dotnet/Smolmesh/MeshNode.cs:104-111 | The originator does not remember its own announcement: at rest, with a link, it has processed it, holds a route for its own address at least as new, and each of its links has carried the announcement exactly twice. |
| FloodCost.DeliverySpendsOne | dotnet/Smolmesh/Routing.cs:47-50 | Copies in flight plus degrees of nodes that have not processed the announcement fall by exactly one per delivery of it and by no other step. |
| FloodCost.FloodCostsDegrees | dotnet/Smolmesh/MeshNode.cs:164-165 | At rest an announcement has been delivered exactly deg(origin) plus the degrees of all nodes that processed it times. |
| FloodCost.FloodEnds | dotnet/Smolmesh/MeshNode.cs:164-165 | At any time it has been delivered at most deg(origin) plus the sum of all degrees times. |
| FloodCost.FloodComesToRest | dotnet/Smolmesh/MeshNode.cs:113-117 | And from any such moment some deliveries of copies of it, nothing else, each enabled when it is its turn and at most as many as the budget left, bring the flood to rest. |
| Eviction.NeverEvictsIff | rust/src/seen_packets.rs:42-60 | Over any run of the mesh a node goes on remembering a packet iff the age of its entry plus the other packets accepted while it is remembered stays below the capacity. |
| Eviction.CalmRunIff | dotnet/Smolmesh/Protocol.cs:66-79 | The hypothesis of coverage and cost that no cache evicts the announcement holds iff every node accepts fewer than `capacity` other packets after it. |
| DataInMotion.NextHopStaysAhead | dotnet/Smolmesh/MeshNode.cs:148-152 | However long a packet for d is under way, while steps are benign for d and no .NET node that uses a route for d forgets it, the next hop it was sent to owns d or holds a strictly better route than the one used. |
| DataInMotion.JourneyMakesProgress | dotnet/Smolmesh/MeshNode.cs:145-153 | So over any number of hops, with the network running on like that between them, a packet is at an owner or at a node with a route better than the one first used. |
| DataInMotion.TunWritesAreOriginals | dotnet/Smolmesh/MeshNode.cs:169-178 | In any run at all, what a TUN receives is byte for byte an IP packet some node read from its TUN, at an owner of its destination. |
| DataInMotion.HandledAtMostOnce | dotnet/Smolmesh/MeshNode.cs:123 | A node acts on a packet at most once, if it accepts fewer than `capacity` other packets after it. |
| Delivery.DataReachesOwner | dotnet/Smolmesh/MeshNode.cs:145-178 | In every state that a run benign for d reaches from the start: what a node with a route for d reads from its TUN can travel, with at most one delivery per node, each enabled, to the owner at the end of its next hops, which writes it to its TUN; nobody else does, and no route changes. |
| Tracing.ProbeVisitsAtMost32 | dotnet/Smolmesh/MeshNode.cs:73-85 | Whatever the routes do, cycles included, probes of one nonce are delivered at most 32 times for each trace started. |
| HopTable.ReplyIsNotRelayed | dotnet/Smolmesh/MeshNode.cs:157-160 | A reply goes one hop: delivering it adds nothing to the flight and changes no table and no node but the receiver. |
| HopTable.ProcessTraces | dotnet/Smolmesh/MeshNode.cs:157-160 | A running trace gains a row, last in its queue, iff a .NET node accepts a reply with its nonce and a non-empty name. |
| HopTable.RunKeepsBooks | dotnet/Smolmesh/MeshNode.cs:73-102 | Along stable routes every state of a trace balances: each .NET hop that was passed, has a name and has the tracer as next hop towards the source is recorded or has its reply under way, once, and nothing else is; and the probe is at the next hop, with the TTL of that hop. |
| HopTable.TraceRecordsDirectHops | dotnet/Smolmesh/MeshNode.cs:73-102 | At rest, with nothing of the trace lost or refused, hop i is recorded iff it is a .NET node with a name whose next hop towards the source is the tracer itself, whatever the order of replies. |
| HopTable.EveryTraceHasAPath | dotnet/Smolmesh/MeshNode.cs:73-85 | The path of these theorems is no restriction: from every state the chain of next hops, up to an owner, a Rust node, a node without a route or hop 32, loops included, is one. |
| HopTable.TraceTable | dotnet/Smolmesh/MeshNode.cs:90-102 | The sorted table is exactly those hops in order of the path; it is (1, n1), (2, n2), ... up to 32 hops iff every hop within reach answers over a direct link. |
| DeadReply.SecondHopMissing | dotnet/Smolmesh/MeshNode.cs:73-102 | Why not every hop shows: three .NET nodes in a line, grown from nothing; the trace of the far end arrives and is answered, nothing is lost, and the table has the first hop only. |
| Executor.StepKeeps | rust/src/leo_async.rs:149-171 | Every atomic step of wakers and executor keeps: a task is held exactly once when its flag is set and otherwise not at all, and a blocked executor has nothing to do or will see a byte. |
| Executor.EachTaskHeldOnce | rust/src/leo_async.rs:398-421 | In every reachable state a task is in queue, batch or a waker between swap and push once if its flag is set and never otherwise; together they hold at most as many entries as there are tasks. |
| Executor.NoSleepingOnWork | rust/src/leo_async.rs:133-147 | Blocked in poll() with a timeout while a task is queued: the pipe has a byte, or a waker has pushed and its write leaves one there, full pipe and drains included. |
| Executor.NoLostWakeup | rust/src/leo_async.rs:149-171 | After any wake of a task, at any point of any interleaving, the task stays held until the executor takes it to poll it. |
| Executor.PushedTaskIsPolled | rust/src/leo_async.rs:384-435 | A pushed task is polled before the executor passes its emptiness check twice, whatever other threads do. |
| Executor.PoppingEnds | rust/src/leo_async.rs:398-400 | The pop loop takes each task at most once, however fast other threads push. |
| Executor.DrainEnds | rust/src/leo_async.rs:875-882 | The loop that drains the pipe reads at most as often as bytes are present or can still come. |
| Executor.RoundEmptiesPipe | rust/src/leo_async.rs:871-885 | Between a return of poll() and the next visit to the timers the pipe is found empty, in every run. |
| Executor.RoundsAreWhole | rust/src/leo_async.rs:384-441 | Over any stretch of a run two neighbouring phases of the loop end equally often, up to where the stretch starts and ends: no round skips or repeats a phase. |
| Executor.EveryPushIsWritten | rust/src/leo_async.rs:133-171 | Pushes are writes done plus writes still owed; with room in the pipe, bytes written are bytes present plus bytes read, at most 2048 for one read. |
| Executor.PolledInOrder | rust/src/leo_async.rs:398-421 | Over any run the tasks polled, then those in the batch, then those in the queue are the tasks queued, in that order. |
| Executor.ZeroTimeoutMeansWork | rust/src/leo_async.rs:423-435 | poll() gets the timeout zero only while a task is queued. |
| Executor.ForeignSpawnCanSleep | rust/src/leo_async.rs:272-290 | Why spawn belongs to the executor thread: from another one it can leave the executor asleep on a queued task with nobody about to wake it. |
| Timers.SleepStore.WakeAllReady | rust/src/leo_async.rs:770-781 | Wakes exactly the entries that are due, earliest first; only later deadlines remain. |
| Timers.SleepStore.Peek | rust/src/leo_async.rs:783-785 | Nothing for an empty heap, otherwise an entry with the least deadline. |
| Timers.Deadline.PollSleep | rust/src/leo_async.rs:445-466 | Ready iff the deadline has come; a pending poll registers unless the waker registered last wakes the same task. |
| Timers.Deadline.PollTimeout | rust/src/leo_async.rs:607-633 | Past the deadline the outcome is the timeout even if the inner future is ready; before it the inner result, or pending with the same registration rule. |
| Timers.SleepersAreConserved | rust/src/leo_async.rs:390-394 | Over any run what was registered is exactly what waits in the register, lies in the heap, or was woken; nothing is woken before its deadline. |
| Timers.PendingSleeperStaysRegistered | rust/src/leo_async.rs:452-466 | A future whose last poll was pending and which was not woken since has an entry with the waker of that poll, although unchanged wakers are not registered again. |
| Timers.PollsRegisterOnce | rust/src/leo_async.rs:452-466 | Any number of polls with a waker the future recognises register it exactly once if one of them was pending, and otherwise not at all. |
| Timers.DueSleeperIsWoken | rust/src/leo_async.rs:389-394 | A round that starts at or after the deadline, with the register emptied first, wakes the waiting future. |
| PollRegistry.PollCache.Collect | rust/src/leo_async.rs:832-837 | Empties the register into the table: each descriptor with its registrations in order, each waker under a key of its own. |
| PollRegistry.PollCache.ListFds | rust/src/leo_async.rs:839-856 | Lists each descriptor once and polls it for exactly what somebody waits for; the branch without any interest is never taken. |
| PollRegistry.PollCache.WakeReady | rust/src/leo_async.rs:868-893 | Wakes the owners on ready descriptors other than the wake pipe, each registration once, and drops exactly those descriptors; no lookup fails. |
| PollRegistry.PollCache.PollAndWake | rust/src/leo_async.rs:831-904 | Wakes exactly the registrations on ready descriptors, as a multiset, and registers exactly the rest again; when poll() fails the register is left empty. |
| PollRegistry.OnCounts | rust/src/leo_async.rs:885-904 | A registration is among those on a set of descriptors as often as it was made, if its descriptor is in the set. |
| PollRegistry.OwnersAreWakers | rust/src/leo_async.rs:885-904 | The owners woken are the wakers of exactly those registrations, in order. |
| ThreadFuture.YieldsOnce | rust/src/leo_async.rs:346-382 | In every interleaving at most one poll is ready, with the value the helper computed. |
| ThreadFuture.NoStrandedWaiter | rust/src/leo_async.rs:370-378 | Once the helper has finished, a future whose last poll was pending has been woken since that poll stored its waker, also when polls bring different wakers. |
| ThreadFuture.NextPollYields | rust/src/leo_async.rs:356-363 | Once the result is stored, any continuation of helper and polls has yielded it iff it contains a look; nothing but a missing poll delays it. |
| ThreadFuture.HelperFindsWaker | rust/src/leo_async.rs:370-378 | The helper goes on looking until the future has been polled, and then takes the waker of its latest poll. |
| Gimli.MixBijective | dotnet/Smolmesh/Crypto.cs:21-26 | The column map has exactly one preimage of every column, found by fixing one more bit of each word per refinement. |
| Gimli.PermutationBijective | rust/src/gimli.rs:35-64 | The 24-round permutation is a bijection on 384-bit states, with an explicit inverse. |
| GimliForms.LayoutRoundTrip | dotnet/Smolmesh/Crypto.cs:11-18 | The little-endian layout is a bijection between states and 48-byte strings. |
| GimliForms.PermutedBijective | dotnet/Smolmesh/Crypto.cs:13-42 | So the permutation is a bijection on the 48 bytes. |
| GimliForms.RowsAreLayer | dotnet/Smolmesh/Crypto.cs:21-26 | The vector operations on three rows are the column map on all four columns. |
| GimliForms.RowGimli.Permute | dotnet/Smolmesh/Crypto.cs:13-42 | The row form leaves in the 48 bytes exactly the permutation of what was there. |
| GimliForms.GimliColumns | rust/src/gimli.rs:35-64 | The column loop, in place on 12 words, computes the same permutation. |
| GimliForms.GimliState.Permute | rust/src/gimli.rs:14-23 | Through the word view the Rust state is permuted to the same 48 bytes as the .NET one. |
| TestVector.HashOfEmptyInput | rust/src/gimli.rs:116-119 | The first 16 bytes of the hash of the empty input are those the repository's test lists, through one whole permutation. |
| Sponge.Hash | dotnet/Smolmesh/Crypto.cs:46-67 | Hash absorbs, pads and squeezes to the hash value of input and length, any length. |
| Sponge.GimliHash | rust/src/gimli.rs:66-102 | gimli_hash, which counts bytes left instead, gives the same value for the length of its output. |
| Sponge.Multi | dotnet/Smolmesh/Crypto.cs:69-79 | Multi absorbs all lengths, then all inputs, for any number of inputs. |
| Sponge.MultiGimli2 | rust/src/legacy_tcp.rs:128-148 | multigimli2 is Multi of two inputs. |
| Sponge.MultiGimli3 | rust/src/legacy_tcp.rs:104-127 | multigimli3 is Multi of three inputs. |
| Sponge.Absorb | dotnet/Smolmesh/Crypto.cs:81-89 | Absorbs block after block and permutes after each, a short last one included. |
| Sponge.Keystream.Apply | dotnet/Smolmesh/Crypto.cs:104-115 | Adds keystream bytes used, used + 1, ... to the data in place and moves on by its length, across block borders. |
| Sponge.KeystreamGen.Next | rust/src/legacy_tcp.rs:37-46 | Returns the byte of the same keystream at the position reached and moves on by one. |
| Sponge.KeystreamGen.Apply | rust/src/legacy_tcp.rs:217-219 | The byte loop adds the same keystream as the .NET method. |
| Sponge.PartitionIsInvisible | dotnet/Smolmesh/Crypto.cs:104-115 | Applying the keystream to any partition of the data, part by part, is one application to the whole. |
| Sponge.AppliedTwice | dotnet/Smolmesh/Crypto.cs:104-115 | Two applications from the same position restore the data. |
| Sponge.DistinctKeysStartApart | dotnet/Smolmesh/Crypto.cs:97-102 | Distinct keys of one length up to 16 bytes start from distinct full states. |
| SpongeLaws.AppliedIsSqueezed | dotnet/Smolmesh/Crypto.cs:104-115 | From any position on, each byte sent is the byte of the data xor the byte that the hash would squeeze from the same state at that position. |
| SpongeLaws.AbsorbedConcat | dotnet/Smolmesh/Crypto.cs:81-89 | Whole blocks, then the rest: absorbing a concatenation is absorbing one part after the other. |
| SpongeLaws.AbsorbedTellsApart | dotnet/Smolmesh/Crypto.cs:81-89 | Inputs of one length that differ in one block, wherever it is, leave distinct states. |
| SpongeLaws.LengthIsStored | dotnet/Smolmesh/Crypto.cs:74 | The first 8 bytes of the state become the length, modulo 2^64, and the others stay. |
| SpongeLaws.MacTellsApart | rust/src/legacy_tcp.rs:128-148 | Packets of one length that differ in one block, wherever it is, have distinct MAC states under every key. |
| SpongeLaws.MacKeysTellApart | rust/src/legacy_tcp.rs:128-148 | Distinct MAC keys of one length up to 16 bytes give every packet distinct MAC states. |
| SpongeLaws.HashTellsApart | dotnet/Smolmesh/Crypto.cs:46-67 | Inputs with the same whole blocks and different ends, in bytes or in length, are squeezed from distinct states: the padding tells them apart. |
| SpongeLaws.HashBlocksTellApart | rust/src/gimli.rs:66-102 | Inputs that differ in a whole block followed by less than a block are squeezed from distinct states. |
| Session.OneFrameReceived | dotnet/Smolmesh/LegacyTcp.cs:205-219 | A receiver at the right place of the keystream reads one frame back and goes on right after it. |
| Session.PrefixYieldsPrefix | dotnet/Smolmesh/LegacyTcp.cs:200-220 | Any prefix of a stream yields exactly the packets whose frames are complete in it, in order, and never a MAC failure. |
| Session.OnlyTheMacOpens | dotnet/Smolmesh/LegacyTcp.cs:209-217 | A whole frame with any 16 bytes in place of the MAC is delivered iff they are the MAC of the packet; otherwise nothing more is delivered and the reason is the MAC. |
| Session.LengthBytes | dotnet/Smolmesh/LegacyTcp.cs:176 | The low byte of a length is the first on the wire. |
| Session.StreamGrows | dotnet/Smolmesh/LegacyTcp.cs:183-198 | One more packet adds its encrypted frame to the stream, an empty one nothing. |
| Connection.AgreesIff | dotnet/Smolmesh/LegacyTcp.cs:133-134 | The responder settles on the initiator's key iff the first of its keys that matches the keyfinder is that key. |
| Connection.SessionPrefix | dotnet/Smolmesh/LegacyTcp.cs:108-220 | Whatever part of a hello and frames has arrived, the receiver has delivered exactly the non-empty packets that are complete; no wrong key, no MAC failure. |
| Connection.SessionRoundTrip | dotnet/Smolmesh/LegacyTcp.cs:171-220 | When all has arrived exactly the non-empty packets are delivered, in order, for every list of packets of at most 65535 bytes. |
| Connection.BothDirections | dotnet/Smolmesh/LegacyTcp.cs:117-144 | Each side receives with the keys the other sends with, under the IV the other chose, and hears exactly what the other says. |
| KeyLaws.Labels | dotnet/Smolmesh/LegacyTcp.cs:143-162 | Keys are derived under the ASCII labels enc_key and mac_key, in these places, and a hello is the IV and what is derived under keyfinder. |
| KeyLaws.DerivedApart | dotnet/Smolmesh/LegacyTcp.cs:159 | A derived key depends on key, IV and label: changing one of them to another of the same length, up to 16 bytes, changes the state it is the beginning of. |
| KeyLaws.MacOfIsPrefix | dotnet/Smolmesh/LegacyTcp.cs:178 | A MAC is the beginning of the state after the MAC key and the whole packet. |
| KeyLaws.OnTheWire | dotnet/Smolmesh/LegacyTcp.cs:159-198 | After IV and keyfinder each byte written is a byte of the frames xor the byte squeezed from the state of the encryption key. |
| KeyLaws.StopsAtHelloIff | dotnet/Smolmesh/LegacyTcp.cs:120-136 | A side stops for want of a hello iff fewer than 32 bytes come, and for a wrong key iff none of its keys has the keyfinder received. |
| Connection.Reader.ReadExactly | dotnet/Smolmesh/LegacyTcp.cs:222-227 | Reads exactly the next bytes of the stream whatever the fragments are; fails iff too few are left. |
| LegacyTcp.Encode | dotnet/Smolmesh/LegacyTcp.cs:171-181 | A packet over 65535 bytes is refused before the keystream moves; any other becomes its encrypted frame. |
| LegacyTcp.Send | dotnet/Smolmesh/LegacyTcp.cs:183-198 | However polls and batches fall, the writes together are the stream of frames one by one; none is empty or larger than 65536 + 65535 + 18; an oversize packet ends the loop and loses less than a batch of earlier frames. |
| LegacyTcp.TakenMore | dotnet/Smolmesh/LegacyTcp.cs:190-193 | What a send loop takes from its queue is every packet the polls return, in order; an empty queue adds nothing. |
| LegacyTcp.ReceiveFrame | dotnet/Smolmesh/LegacyTcp.cs:207-217 | Three reads from a fragmented stream, decrypted in place, give the frame, or say that the stream ended or the MAC is wrong. |
| LegacyTcp.Receive | dotnet/Smolmesh/LegacyTcp.cs:200-220 | Delivers exactly what the bytes of the stream stand for, and stops for the same reason. |
| LegacyTcp.FindKey | dotnet/Smolmesh/LegacyTcp.cs:133 | Finds the first candidate whose keyfinder matches. |
| LegacyTcp.Run | dotnet/Smolmesh/LegacyTcp.cs:108-157 | All an initiator or a responder writes, hello and batches, with which keys, and what it delivers from any fragmented peer stream, failures included. |
| Conversation.Converse | dotnet/Smolmesh/LegacyTcp.cs:108-227 | A whole session of two programs, each .NET or Rust: each has received any beginning, in any fragments, of what the other says; each has delivered exactly the packets of the other whose frames arrived, sends with the keys the other receives with, and says what the other was supposed to hear from, at the time its program says it. |
| RustTcp.SendFrames | rust/src/legacy_tcp.rs:192-239 | The Rust sender writes the same bytes, one write for each non-empty packet; a packet over 65535 bytes goes out whole behind a length cut to 16 bits. |
| RustTcp.LongFrameIsCut | rust/src/legacy_tcp.rs:213-215 | Of such a frame a receiver takes the cut length as packet and the next 16 bytes as MAC: it delivers that part iff they happen to match, and otherwise stops. |
| RustTcp.FrameReadBackIff | rust/src/legacy_tcp.rs:273-312 | A frame is read back as the packet it carries iff that has at most 65535 bytes. |
| RustTcp.ReceiveFrames | rust/src/legacy_tcp.rs:273-312 | The Rust receiver delivers the same packets from the same bytes and stops for the same reason. |
| RustTcp.Connect | rust/src/legacy_tcp.rs:150-320 | The Rust initiator says its hello and all its frames whether or not the peer answers, and delivers what one with its key makes of the peer's bytes. |
| RustTcp.HandleConnection | rust/src/legacy_tcp.rs:347-511 | The Rust responder settles on the first key that matches the peer's hello, then says its hello and all its frames with that key, and otherwise nothing. |
| Speck.RoundUndone | rust/src/raw_speck.rs:2-23 | ernd and drnd are mutual inverses for every state and key. |
| Speck.OrbitIsCycle | dotnet/Smolmesh/Protocol.cs:13-18 | Under key 0 every orbit returns to its start within 2^128 rounds. |
| Speck.NoFitInACycle | dotnet/Smolmesh/Protocol.cs:30 | If none of the first 2^128 states fits, none ever does. |
| Speck.CycleSharesFate | dotnet/Smolmesh/Protocol.cs:30 | The search ends from one state of a cycle iff it ends from every state of it. |
| Speck.ZeroIsApart | dotnet/Smolmesh/Protocol.cs:13-18 | (0, 0) stays where it is under key 0, no other state ever reaches it, and the search from it never ends. |
| Speck.FitsByBytes | rust/src/ip_addr.rs:60-64 | The word test of .NET and the byte test of Rust accept the same states. |
| Speck.AddressUnique | dotnet/Smolmesh/Protocol.cs:20-35 | A name has at most one address, of 16 bytes, and it starts with fd00. |
| Speck.NamesTellApart | rust/src/ip_addr.rs:48-54 | Names of one length that differ in one byte search from distinct states. |
| Speck.ListedRounds | dotnet/Smolmesh.Tests/ProtocolTests.cs:10 | The round listed in the tests, and one round backwards. |
| Speck.ListedAddress | dotnet/Smolmesh.Tests/ProtocolTests.cs:11 | The two words behind the listed address of example_node fit, and are written in that order of bytes. |
| Speck.NodeAddress | dotnet/Smolmesh/Protocol.cs:20-35 | Returns the address of the first state that fits; gives up exactly when the program would search for ever. |
| Speck.FromNodeName | rust/src/ip_addr.rs:44-75 | The Rust version has the same contract, so both give every name the same address. |

## Left out

- LoopFreedom.NoRoutingLoops: benign steps are exactly those that keep the invariant (`RunKeepsIff`), a removal that breaks it for the routes strands somebody at once (`CloseStrandsIff`), and each half of the condition alone can end in a loop (`RemoveCanLoop`, `BlindFloodCanLoop`, `StaleAnnouncementLoopsIff`); that a run which breaks the invariant goes on to a loop is not claimed.
- Flood.StepCovers: coverage and cost are about one announcement at a time, with the hypotheses of `Calm` on the steps of the run; they do not bound floods while links change.
- Speck.NodeAddress: the unbounded search is cut after 2^128 rounds, which changes nothing but that it answers None where the program hangs.
- HopTable.TraceTable: the three-second wait and the times in the rows are not modelled; the theorem is about a trace at rest, along routes that stay, with nothing of it lost or refused.
- MeshNode.RustNode.ProcessPacket: what becomes of the process after the panic is not modelled; the network model ignores such data at a Rust node.
- Conversation.Converse: arrivals end before the first packet over 65535 bytes; `LongFrameIsCut` and `Send` say what becomes of such a packet.
- TestVector.HashOfEmptyInput: the second 16 of the 32 listed bytes, one more permutation of the same kind, are not worked out.
- Executor.NoSleepingOnWork: spawn runs on the executor thread only, as in all callers (`ForeignSpawnCanSleep`); relaxed memory ordering and write errors other than EAGAIN are not modelled.
- LegacyTcp.Run: timeouts, cancellation and socket errors are not modelled; a stream that ends stands for all of them, and the send and receive tasks run independently. The same holds for `RustTcp.Connect` and `RustTcp.HandleConnection`.
- Learn and Broadcast take the lock of the .NET table one after the other; the network model makes processing one packet one step.
- Names are bytes: `env.resolve` is the map from a name to its address, None for invalid UTF-8; a trace reply with an invalid name makes the .NET program throw, which is not modelled.
- Fingerprints (xxHash3, FxHasher) are a function without properties; freedom from collisions is a hypothesis where needed.
- The empty packets of the Rust cleaner are part of the actor, not of the network model.
- The dictionary of known peers for the control server, added routes, and the removal of a trace after its wait.
- The poll timeout the executor computes, and so the punctuality of timers.
- `yield_now`, `select2`, `join2`, `fused`, the key schedule, random numbers, TUN drivers, configuration, command line, control server and logging: they would only add easy members or foreign calls.
- Cryptographic strength of hash, MAC and keystream.
