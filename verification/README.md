# A verified model of the myprotocol4 routing protocol

myprotocol4 is a position-based routing protocol for mobile ad hoc networks. Every node floods updates of its own
position and velocity, keeps a table of everybody else's, and dead-reckons them from it. Data packets are forwarded
greedily to the neighbour predicted nearest to the destination; where there is none nearer, a packet is handed to a
random neighbour and carries the point where it got stuck; ten hops are the limit. Packets for a destination nobody
has heard of wait in a queue until its first update arrives.

The model has three layers.

1. **Per-node data structures**, as classes with the loops of the original: `RoutingTables.RoutingTable`,
   `IdCaches.IdCache`, `RequestQueues.RequestQueue`, and the byte-level `Serialize`/`Deserialize` of both headers in
   `Wire`. Each method is proved equal to a function of the old state, and theorems are proved about those functions:
   the duplicate filter against a history of calls, conservation of packets through the queue, round trips of the wire
   format, exactness of the fixed-width dead reckoning, next-hop selection as a lexicographic minimum.
2. **Per-node event handlers**: class `Protocol.RoutingProtocol`, whose methods call the classes of layer 1 step by
   step and are proved equal to the functions of module `Handlers`.
3. **A network** (`Networks`) of any number of nodes as a step relation over those functions: bags of updates and data
   packets in flight, arbitrary loss, delay and reordering, per-node timers with their random parts, a clock, and two
   records that influence nothing (every update ever advertised; every transmission of an update). Its theorems are about every run
   from the initial state: `Provenance`, `PacketPaths`, `LoopFreedom`, `Updates`, `KeepAlive`, `KeepAliveLimits`,
   `Floods`, `DeadReckoning`, `StaleReleases`, `RadioRange`, `Delivery`.

`QuietRuns` and `FloodExample` hold concrete runs. Module `Decisions` says of layer 2 when exactly a packet is sent, kept or given up. The zero address is never a node's:
the source uses it for "no next hop".

Time is a natural number of microseconds, constant during an event. `uint16_t` and `int16_t` are subset types, with
every narrowing conversion written out. Distances are only compared, so they are kept squared, over reals. What a node's
surroundings supply (measured motion, random draws, packet uids, the error statistic) is a parameter of the event.

## What the proofs found

- **Keep-alive has two exact deadlines.** `Update` overwrites an entry without comparing timestamps, and
  `RecvMyprotocol` calls it for every update that is not a duplicate. If updates are accepted in the order they were
  sent, a 7.975 s delivery deadline keeps a learned entry alive for ever. If one update may overtake another, the deadline
  is 3.975 s. `DeadlinesAreExact` proves both as equivalences: with one microsecond more there is a run, built step by
  step, in which a node that is alive and advertising is purged.
- **The speeds that prediction can follow are not symmetric.** Over the 29 s an entry lives, every in-box start is
  predicted exactly if and only if the speed lies in -1129..1095 (wide axes) or -1129..1119 (height); one more in either
  direction wraps `int16_t`.
- **Dead reckoning needs no speed limit, and not quite the box.** With dt = T - s + 1, the bound 376 + dt (that is,
  375 + (T - s) + 2) holds from a last-sent position less than 1 + dt outside the box exactly if the projected position
  is less than 376 + dt outside it (`RemotePredictionBounded`, in every run). That much nearness of the last-sent
  position is also necessary: from anywhere further out, as far as `int16_t` reaches, some motion breaks the bound
  (`LastSentSafeIff`); beyond, wrap-around can put it right by accident (`AliasedIsSafe`). A speed high enough to wrap
  would have left the region and made a new update due.
- **A queue release goes closer exactly if the update is younger than 30 s.** The handler stores the update, then purges
  the table. An update already 30 s old is removed at once, the destination is predicted at (-1,-1,-1), and the packet
  heads there. For every update from a node at rest, all greedy releases it triggers go closer if and only if it is not
  stale (`ReleasesCloserIffFresh`); `StaleReleaseGoesAway` is a run of a network of three standing nodes, from its
  initial state, in which a packet is sent further away.
- **Local delivery hands up the wrong bytes.** `RouteInput` removes a data header from the front of the packet, where
  the transport header stands, which forwarding and the queue take off first. The receiver's transport sees the low half
  of the packet's uid as ports, the hop count as length and the error field as checksum; delivery is intact exactly
  when these happen to equal the UDP header sent (`UdpIntactIff`), which they never do for a length above 10
  (`NeverIntact`).
- **One check sends two updates exactly when a drift is found after 65535 s** (`CheckSendsTwiceIff`), because the
  remembered send time has 16 bits and the comparison does not. Theorems that need 16-bit seconds to be faithful assume
  a clock below 65536 s (`ClockFits`) and say so.
- **The recovery draw includes one value too many.** `GetInteger (0, size)` can return `size`, which runs off the end
  of the map; a neighbour is picked exactly when the draw is smaller (`RecoveryPicksNeighborIff`).

## Model

| member | source | states |
|---|---|---|
| `Wire.VelocityRoundTrip` | model/myprotocol4-routing-protocol.cc:956-1014 | magnitudes plus sign code, serialized, deserialized and decoded, give back every int16 triple, -32768 included |
| `Wire.SignCodes` | model/myprotocol4-routing-protocol.cc:956-984 | the code table: none negative 0, single axes 1, 2, 3, and opposite sign patterns add up to 7 |
| `Wire.BadSignStandsStill` | model/myprotocol4-routing-protocol.cc:1012-1013 | any other code decodes to no motion |
| `Wire.ControlOnWire` | model/myprotocol4-packet.cc:53-66 | byte by byte: eight big-endian shorts in the source's order, the 64-bit uid at 16, the address at 24 |
| `Wire.DataOnWire` | model/myprotocol4-packet.cc:154-171 | byte by byte: twelve shorts, the 64-bit uid at 24, hop at 32, error at 34 |
| `Wire.ControlRoundTrip` | model/myprotocol4-packet.cc:53-87 | every control header takes 28 bytes and parses back to itself |
| `Wire.DataRoundTrip` | model/myprotocol4-packet.cc:154-196 | every data header takes 36 bytes and parses back to itself |
| `Wire.ControlBytesRoundTrip` | model/myprotocol4-packet.cc:69-87 | every 28-byte string is the encoding of the header it parses to |
| `Wire.DataBytesRoundTrip` | model/myprotocol4-packet.cc:174-196 | every 36-byte string is the encoding of the header it parses to |
| `Wire.SerializeControl` | model/myprotocol4-packet.cc:53-66 | writes exactly the 28 bytes of the header at the iterator and touches nothing else of the buffer |
| `Wire.DeserializeControl` | model/myprotocol4-packet.cc:69-87 | returns the header whose encoding the next 28 bytes are, and the distance 28 |
| `Wire.SerializeData` | model/myprotocol4-packet.cc:154-171 | writes exactly the 36 bytes of the header at the iterator and touches nothing else of the buffer |
| `Wire.DeserializeData` | model/myprotocol4-packet.cc:174-196 | returns the header whose encoding the next 36 bytes are, and the distance 36 |
| `IdCaches.IdCache.constructor` | model/myprotocol4-id-cache.h:13-15 | an empty cache with the given lifetime |
| `IdCaches.IdCache.IsDuplicate` | model/myprotocol4-id-cache.cc:7-24 | says whether an unexpired entry has the key; expired entries go, and a new key is appended with its expiry |
| `IdCaches.IdCache.Purge` | model/myprotocol4-id-cache.cc:26-30 | keeps exactly the entries whose expiry is not before now, in order |
| `IdCaches.IdCache.GetSize` | model/myprotocol4-id-cache.cc:33-37 | purges, then counts |
| `IdCaches.LiveMember` | model/myprotocol4-id-cache.h:58-61 | purging keeps exactly the entries not expired before now |
| `IdCaches.RunInvariant` | model/myprotocol4-id-cache.cc:7-37 | after any calls on a monotone clock: keys distinct, expiries sorted, and the entries are exactly the latest acceptances not yet swept |
| `IdCaches.PurgeDropsPrefix` | model/myprotocol4-id-cache.cc:26-30 | on such a cache purging removes exactly a prefix |
| `IdCaches.DuplicateIffRecentlyAccepted` | model/myprotocol4-id-cache.cc:7-30 | a key is a duplicate if and only if its most recent acceptance was at most one lifetime ago |
| `IdCaches.AcceptancesFarApart` | model/myprotocol4-id-cache.cc:7-24 | two acceptances of one key are more than a lifetime apart |
| `RequestQueues.RequestQueue.constructor` | model/myprotocol4-rqueue.h:132-136 | an empty queue with fixed limits |
| `RequestQueues.RequestQueue.GetSize` | model/myprotocol4-rqueue.cc:14-18 | purges, then counts |
| `RequestQueues.RequestQueue.Enqueue` | model/myprotocol4-rqueue.cc:21-41 | refuses exactly a live duplicate (uid, destination); otherwise evicts the front if full, with its callback, and appends with a fresh expiry |
| `RequestQueues.RequestQueue.DropPacketWithDst` | model/myprotocol4-rqueue.cc:44-58 | removes exactly the live entries for the destination, one callback each, in order |
| `RequestQueues.RequestQueue.Dequeue` | model/myprotocol4-rqueue.cc:61-74 | hands out the first live entry for the destination, if any, and leaves the others in order |
| `RequestQueues.RequestQueue.Find` | model/myprotocol4-rqueue.cc:77-88 | says whether any entry is for the destination, without purging |
| `RequestQueues.RequestQueue.Purge` | model/myprotocol4-rqueue.cc:100-113 | removes exactly the expired entries, one callback each, in order |
| `RequestQueues.RequestQueue.Drop` | model/myprotocol4-rqueue.cc:116-122 | one more callback, the queue itself unchanged |
| `RequestQueues.EnqueuePlaces` | model/myprotocol4-rqueue.cc:21-41 | by queue position: what has expired is reported; a packet that still waits (uid, destination) changes nothing more; any other goes to the back with a fresh expiry, and only at the limit is the front entry evicted and reported |
| `RequestQueues.PurgeSeparates` | model/myprotocol4-rqueue.cc:100-113 | by queue position: exactly the unexpired entries stay, exactly the expired ones are reported, both in order |
| `RequestQueues.DropSeparates` | model/myprotocol4-rqueue.cc:44-58 | by queue position: exactly the live entries for other destinations stay; reported are the expired and then exactly the live ones for this one, in order |
| `RequestQueues.Conservation` | model/myprotocol4-rqueue.cc:21-122 | after any calls every accepted packet is exactly once among: queued, handed out, reported failed |
| `RequestQueues.RunWellFormed` | model/myprotocol4-rqueue.cc:21-113 | after any calls on a monotone clock: at most maxLen entries, no (uid, destination) twice, expiries sorted front to back |
| `RequestQueues.PurgeDropsPrefix` | model/myprotocol4-rqueue.cc:100-113 | on such a queue purging drops exactly a prefix |
| `RequestQueues.OverflowEvictsNearestExpiry` | model/myprotocol4-rqueue.cc:34-40 | a full queue that accepts evicts one live entry, the one nearest expiry, reports it once and keeps all others |
| `RequestQueues.DequeueFirst` | model/myprotocol4-rqueue.cc:61-74 | the first dequeue takes the head of the waiting packets and leaves the rest of them |
| `RequestQueues.DequeueNext` | model/myprotocol4-rqueue.cc:61-74 | each later dequeue at the same instant takes the next waiting packet, until none is left |
| `RoutingTables.RoutingTable.constructor` | model/myprotocol4-rtable.cc:35-38 | an empty table |
| `RoutingTables.RoutingTable.LookupRoute` | model/myprotocol4-rtable.cc:41-55 | the entry of the address, or none |
| `RoutingTables.RoutingTable.AddRoute` | model/myprotocol4-rtable.cc:69-74 | inserts exactly when the address is new and says so |
| `RoutingTables.RoutingTable.Update` | model/myprotocol4-rtable.cc:77-87 | the entry is in the table afterwards, whatever was there and however fresh |
| `RoutingTables.RoutingTable.PredictPosition` | model/myprotocol4-rtable.cc:110-132 | the fixed-width prediction, (-1,-1,-1) for an unknown address |
| `RoutingTables.RoutingTable.LookupNeighbor` | model/myprotocol4-rtable.cc:136-148 | exactly the ordinary entries predicted within 250 m |
| `RoutingTables.RoutingTable.BestNeighbor` | model/myprotocol4-rtable.cc:153-179 | the nearest of the given neighbours, lowest address first among equals, if strictly nearer than this node; else zero |
| `RoutingTables.RoutingTable.Purge` | model/myprotocol4-rtable.cc:183-199 | keeps exactly the entries less than 30 whole seconds old |
| `RoutingTables.PurgedIff` | model/myprotocol4-rtable.cc:190 | an entry survives if and only if it is less than 30 whole seconds old, and unchanged |
| `RoutingTables.NeighborsIff` | model/myprotocol4-rtable.cc:137-146 | an entry is a neighbour if and only if it is not one of the three special addresses and is predicted within 250 m |
| `RoutingTables.ClampIsNearest` | model/myprotocol4-rtable.cc:121-129 | lifting and capping gives the nearest point of the axis |
| `RoutingTables.ElapsedWraps` | model/myprotocol4-rtable.cc:117 | the elapsed time used is the true one up to multiples of 65536 s |
| `RoutingTables.NextHopIsLeastStrictlyCloser` | model/myprotocol4-rtable.cc:135-199 | the three loops together return the least live in-range entry by (predicted distance, address), strictly closer than this node; zero if and only if none is closer |
| `RoutingTables.PredictionFitsInt32` | model/myprotocol4-rtable.cc:117-120 | no entry and no elapsed time overflows the 32-bit intermediate |
| `RoutingTables.PredictionInBox` | model/myprotocol4-rtable.cc:121-130 | every prediction lies in the 1000 x 1000 x 300 box |
| `RoutingTables.ExactSpeedsWide` | model/myprotocol4-rtable.cc:117-128 | on the 1000 m axes prediction is exact for all in-box starts and 0..29 s if and only if the speed is in -1129..1095 |
| `RoutingTables.ExactSpeedsHigh` | model/myprotocol4-rtable.cc:117-129 | on the 300 m axis, if and only if it is in -1129..1119 |
| `RoutingTables.SurvivorPredictedExactly` | model/myprotocol4-rtable.cc:117-130 | an unpurged in-box entry within those speeds is predicted at the exact clamp of x + v·dt |
| `Handlers.EntryOfUpdateHeader` | model/myprotocol4-routing-protocol.cc:698-708 | receivers rebuild exactly the entry that was advertised |
| `Handlers.DstEntryWithDst` | model/myprotocol4-routing-protocol.cc:500-527 | forwarders read back exactly the entry that was written into a data header |
| `Handlers.HeaderFields` | model/myprotocol4-routing-protocol.cc:500-504 | which field of either header is which field of a table entry, velocities decoded by the sign code |
| `Handlers.ExchangeSettlesOnFreshest` | model/myprotocol4-routing-protocol.cc:514-549 | afterwards header and table agree on the destination's timestamp, the larger of the two (the header's if the table had none); the staler side takes over the whole entry, equally fresh ones are left alone, and nothing else changes |
| `Handlers.CheckSendsTwiceIff` | model/myprotocol4-routing-protocol.cc:826-834 | a check sends two updates exactly after a drift at 65536 s or later, and none exactly when neither drifted nor overdue |
| `Handlers.CheckLeavesUpdateRecent` | model/myprotocol4-routing-protocol.cc:832-834 | after a check the last update is at most 20 s old |
| `Handlers.ReceptionLowersFreshnessIff` | model/myprotocol4-routing-protocol.cc:692-747 | reception loses the entry for the origin exactly when the update is accepted, packets wait for the origin and the update is 30 s old; otherwise it lowers the stored timestamp exactly when the update is accepted and older than what is stored |
| `Handlers.RecoveryPicksNeighborIff` | model/myprotocol4-routing-protocol.cc:633-644 | a neighbour is picked exactly when the draw is below their number |
| `Handlers.ForwardShape` | model/myprotocol4-routing-protocol.cc:490-628 | only below hop 10; one hop more; only mode, hop, destination and error fields change; and the send is greedy-and-closer, entering, or staying in recovery as the modes prescribe |
| `Handlers.RouteOutputShape` | model/myprotocol4-routing-protocol.cc:219-310 | a direct send starts at hop 1, carries the table's entry for the destination, and is greedy-and-closer or enters recovery here |
| `Handlers.ReceptionShape` | model/myprotocol4-routing-protocol.cc:692-766 | duplicates change only the cache; anything else is stored and rebroadcast unchanged |
| `Handlers.ReleaseShape` | model/myprotocol4-routing-protocol.cc:736-799 | a released packet is for the update's origin, starts at hop 0, carries the update's own fields, and is greedy-and-closer or enters recovery here |
| `Handlers.ReleasedFromQueue` | model/myprotocol4-routing-protocol.cc:919-954 | every released packet was waiting in the queue and only its data header is new |
| `Decisions.ForwardSendsIff` | model/myprotocol4-routing-protocol.cc:490-628 | a packet is passed on if and only if its hop is below 10, there is a neighbour, and it is greedy with a closer one or recovery is enabled; greedy goes to the nearest (lowest address first), recovery to the drawn neighbour; and what becomes of every header field |
| `Decisions.RouteOutputSendsIff` | model/myprotocol4-routing-protocol.cc:219-320 | an originated packet waits (64 places, 30 s) if and only if its destination is unknown and there is a queue, and is sent if and only if known, with neighbours, and a closer one or recovery; with the same choices of neighbour, and every header field |
| `Decisions.ReceptionSettlesWaiting` | model/myprotocol4-routing-protocol.cc:731-801 | an accepted update leaves no packet waiting for its origin: all are released, in queue order, to the nearest neighbour if one is closer and else to the one drawn, or, exactly if there is no such hop, all are reported failed once; every other packet is accounted for |
| `Decisions.ReceptionWithoutRelease` | model/myprotocol4-routing-protocol.cc:692-733 | a duplicate changes only the cache (lifetime 2.4 s); without a queue an accepted update is stored and sent on, no more |
| `Decisions.DrainSeparates` | model/myprotocol4-rqueue.cc:61-74 | by queue position: the packets released are exactly the live ones for the destination, in order, and exactly the live others stay |
| `Decisions.UpdateTells` | model/myprotocol4-routing-protocol.cc:851-892 | an update tells the position clamped to 1000 x 1000 x 300 and cut down, the velocity cut toward zero, the second, the sender and the uid |
| `Decisions.UpdateRemembered` | model/myprotocol4-routing-protocol.cc:846-859 | what the sender keeps: the exact motion and second, its unclamped record under 127.0.0.1, its own key for 2.4 s |
| `Decisions.CheckSilentIff` | model/myprotocol4-routing-protocol.cc:818-834 | a check is silent if and only if the projected position is within 375 m of the expected one (16-bit elapsed seconds) and the last update is at most 20 s old; otherwise, below 65536 s, it sends one update |
| `Decisions.RouteInputDecides` | model/myprotocol4-routing-protocol.cc:372-454 | swallowed if and only if at its source; delivered, without the first 36 bytes, if and only if at its destination; else forwarded |
| `Protocol.RoutingProtocol.constructor` | model/myprotocol4-routing-protocol.cc:118-139 | the documented constants, and the loopback and broadcast records |
| `Protocol.InitialKnowsNobody` | model/myprotocol4-routing-protocol.cc:1028-1033 | a node starts with two all-zero records, under 127.0.0.1 and 10.1.1.255, and everything else empty |
| `Protocol.RoutingProtocol.SendUpdate` | model/myprotocol4-routing-protocol.cc:840-916 | records what is sent, clamps and truncates the motion into the header, registers its own key |
| `Protocol.RoutingProtocol.CheckChange` | model/myprotocol4-routing-protocol.cc:806-834 | an update if projected and expected position differ by more than 375 m, then another if the last is over 20 s old |
| `Protocol.RoutingProtocol.RecvMyprotocol` | model/myprotocol4-routing-protocol.cc:692-801 | drops duplicates; else stores, rebroadcasts and drains or drops the packets waiting for the origin |
| `Protocol.RoutingProtocol.Forwarding` | model/myprotocol4-routing-protocol.cc:485-629 | hop limit, table/header exchange, leaving and entering recovery, next hop |
| `Protocol.RoutingProtocol.RecoveryMode` | model/myprotocol4-routing-protocol.cc:633-644 | the neighbour with as many lower addresses before it as drawn |
| `Protocol.RoutingProtocol.SendPacketFromQueue` | model/myprotocol4-routing-protocol.cc:919-954 | terminates; sends exactly the unexpired packets for the destination in queue order, data header replaced and outer header kept; the rest stay in order |
| `Protocol.RoutingProtocol.RouteInput` | model/myprotocol4-routing-protocol.cc:372-454 | swallowed at the source; at the destination handed up without its first 36 bytes; forwarded elsewhere |
| `Delivery.DeliveredIntactIff` | model/myprotocol4-routing-protocol.cc:427-436 | a packet at its destination is delivered, and what is delivered is what the transport sent exactly when the remnant of transport header and data header equals the transport header |
| `Delivery.UdpIntactIff` | model/myprotocol4-routing-protocol.cc:427-436 | for an 8-byte UDP header the delivered bytes start with the low half of the uid, the hop count and the error field, and are intact exactly when these equal it |
| `Delivery.NeverIntact` | model/myprotocol4-routing-protocol.cc:432-435 | in every run a UDP packet with a length field above 10 that reaches its destination is delivered, and not intact |
| `Protocol.RoutingProtocol.RouteOutput` | model/myprotocol4-routing-protocol.cc:216-320 | sends, queues or discards a packet of its own |
| `Networks.RecheckRunsCheckChange` | model/myprotocol4-routing-protocol.cc:806-836 | the network step for a check is the node's own check plus the broadcast of what it sends |
| `Networks.ReceiveRunsRecvMyprotocol` | model/myprotocol4-routing-protocol.cc:682-802 | the network step for a received update is the node's own reception plus the copies and packets it puts on the air |
| `Networks.SendNewRunsRouteOutput` | model/myprotocol4-routing-protocol.cc:183-321 | the step that originates a packet is the node's own `RouteOutput` plus what it sends |
| `Networks.PassOnRunsRouteInput` | model/myprotocol4-routing-protocol.cc:325-455 | the step that delivers a data copy is the node's own `RouteInput` plus what it passes on |
| `Provenance.StepTraced` | model/myprotocol4-routing-protocol.cc:515-549 | every step keeps: tables, updates and data headers carry only advertised (position, velocity, timestamp) triples of the node concerned |
| `Provenance.EverythingTraced` | model/myprotocol4-routing-protocol.cc:698-709 | that holds in every state of every run |
| `PacketPaths.StepPathsOk` | model/myprotocol4-routing-protocol.cc:488-492 | every step keeps: trails unbroken, leaving the source once, hop counts consecutive, destination timestamps never falling |
| `PacketPaths.TransmissionsBounded` | model/myprotocol4-routing-protocol.cc:488-492 | in every run no packet carries a hop above 10; direct ones are transmitted at most 10 times, released ones at most 11 |
| `PacketPaths.FreshnessNeverDecreases` | model/myprotocol4-routing-protocol.cc:512-549 | in every run the destination timestamp a packet carries never falls from hop to hop |
| `LoopFreedom.StepStill` | model/myprotocol4-routing-protocol.cc:569-626 | in a static in-box network every step keeps: exact logs, and every packet's trail descends |
| `LoopFreedom.PotentialNeverRises` | model/myprotocol4-routing-protocol.cc:569-626 | whatever partial tables nodes hold, the potential (distance of the next node if greedy, of the recovery point if recovering) never rises along a trail |
| `LoopFreedom.NoSecondGreedySend` | model/myprotocol4-routing-protocol.cc:577-594 | no node makes two greedy sends of one packet, in whatever modes in between |
| `LoopFreedom.RecoveryEntriesApproach` | model/myprotocol4-routing-protocol.cc:569-601 | successive recovery entry points are strictly closer to the destination |
| `LoopFreedom.DirectSendIsCloser` | model/myprotocol4-routing-protocol.cc:271-279 | a direct greedy send goes strictly closer to the destination |
| `RadioRange.TransmissionsInReach` | model/myprotocol4-rtable.cc:136-148 | in every run of a static network every transmission of a data packet, greedy or in recovery, direct or released, spans at most 250 m (the draw that names no neighbour apart) |
| `LoopFreedom.ReleaseIsCloserIfFresh` | model/myprotocol4-routing-protocol.cc:747-781 | in every static network so does a greedy release triggered by an update younger than 30 s (the converse is in `StaleReleases`) |
| `LoopFreedom.StaleReleaseAimsOutside` | model/myprotocol4-routing-protocol.cc:747-781 | any other greedy release goes strictly closer to (-1,-1,-1) instead |
| `StaleReleases.ReleasesCloserIffFresh` | model/myprotocol4-routing-protocol.cc:735-781 | for every update a node at rest in the box can advertise: all greedy releases it triggers at standing nodes with exact tables go strictly closer if and only if it is younger than 30 s |
| `StaleReleases.StaleGoesAway` | model/myprotocol4-routing-protocol.cc:735-781 | for every older one there is a standing node, having just queued the packet itself, whose release goes no closer |
| `StaleReleases.StaleReleaseGoesAway` | model/myprotocol4-routing-protocol.cc:735-781 | a run of a static network, from the initial state, to a greedy release that goes strictly further away |
| `Updates.RecheckOnce` | model/myprotocol4-routing-protocol.cc:826-834 | before 65536 s a check in the network advertises once or not at all |
| `Updates.StepOriginsOk` | model/myprotocol4-routing-protocol.cc:806-836 | every step keeps: each origin's updates stamped with their second, strictly later, spaced by the timers |
| `Updates.TimestampsIncrease` | model/myprotocol4-routing-protocol.cc:818-835 | in every run one origin's timestamps strictly increase, by at most 22 s |
| `Updates.StepKeysOk` | model/myprotocol4-routing-protocol.cc:692-728 | every step keeps: caches hold only keys their node transmitted, and only advertised keys are transmitted or in flight |
| `Updates.UpdateIsNew` | model/myprotocol4-routing-protocol.cc:890-903 | when an update is sent its (origin, timestamp) is in no cache, was never transmitted and is not in flight |
| `Updates.RejectedOnlyIfTransmitted` | model/myprotocol4-id-cache.cc:7-24 | a node rejects an update as a duplicate only if it has transmitted that very update |
| `KeepAlive.StepKeeps` | model/myprotocol4-rtable.cc:183-199 | every step keeps the entry of an origin once heard of, at most the given slack behind the newest heard |
| `KeepAlive.NeverPurgedInOrder` | model/myprotocol4-rtable.cc:183-199 | delivery within 7.975 s, accepted in order: the entry, once learned, is never purged |
| `KeepAlive.NeverPurgedAnyOrder` | model/myprotocol4-rtable.cc:76-87 | delivery within 3.975 s: the same in any order of arrival |
| `KeepAliveLimits.InOrderRun` | model/myprotocol4-routing-protocol.cc:832-835 | a run with deadline 7.975001 s, in order, that ends with the entry purged |
| `KeepAliveLimits.OvertakingRun` | model/myprotocol4-routing-protocol.cc:709-709 | a run with deadline 3.975001 s, one update overtaking another, that ends with the entry purged |
| `KeepAliveLimits.DeadlinesAreExact` | model/myprotocol4-rtable.cc:183-199 | the entry is kept in all such runs if and only if the deadline is at most 7.975 s in order, 3.975 s in any order |
| `Floods.ArrivalIsNewIff` | model/myprotocol4-routing-protocol.cc:692-695 | during a flood a node ignores a copy if and only if it has transmitted the update |
| `Floods.StepFlooding` | model/myprotocol4-routing-protocol.cc:692-728 | every step keeps: transmitters transmitted once, remember it, and each of their neighbours has it or has a copy coming |
| `Floods.StepBalanced` | model/myprotocol4-routing-protocol.cc:711-728 | every step keeps the account of copies: put on the air = delivered + still in flight |
| `Floods.AtRestCoversConnected` | model/myprotocol4-routing-protocol.cc:711-728 | with no copy in flight, exactly the nodes connected to the origin have transmitted it |
| `Floods.FloodCoverage` | model/myprotocol4-routing-protocol.cc:692-728 | from any reachable state: every node transmits a new update at most once, deliveries are bounded, and when it is over exactly the connected nodes have transmitted it |
| `FloodExample.OneLink` | model/myprotocol4-routing-protocol.cc:711-728 | the assumptions of `FloodCoverage` can be met: a run in which one node starts, the other hears it, and the flood is over |
| `DeadReckoning.AdvertErrorIff` | model/myprotocol4-rtable.cc:117-130 | from a last-sent position less than 1 + dt outside the box, the prediction dt seconds on is strictly within 376 + dt of the projected position on each axis if and only if that position is less than 376 + dt outside the box |
| `DeadReckoning.CheckedOrigin` | model/myprotocol4-routing-protocol.cc:808-834 | after any check in any run the last advertised motion explains the projected position to within 375 m and is at most 20 s old |
| `DeadReckoning.RemotePredictionBounded` | model/myprotocol4-routing-protocol.cc:808-888 | in every run, after any check at second T, any table holding the sender's last update (second s, sent from less than T - s + 2 outside the box) predicts for T + 1 strictly within 375 + (T - s) + 2 on each axis, if and only if the projected position is less than that outside the box |
| `DeadReckoning.LastSentSafeIff` | model/myprotocol4-routing-protocol.cc:863-885 | an update is safe to reckon from, whatever the motion, if and only if it was sent from less than 1 + dt outside the box |
| `DeadReckoning.AliasedIsSafe` | model/myprotocol4-rtable.cc:118-120 | 65536 m below the box, 21 s on, wrap-around makes every motion safe again |

## Left out

- RecoveryMode: the draw that equals the number of neighbours dereferences the end of the map; the model returns the zero address there, the source's value is undefined.
- Enqueue: needs a positive length limit, because with limit 0 the source reads the front of an empty vector.
- RemotePredictionBounded: last-sent positions further than T - s + 2 outside the box, because from there some motion breaks the bound (see `LastSentSafeIff`).
- LastSentSafeIff: positions further from an axis than `int16_t` reaches, because there the equivalence is false (see `AliasedIsSafe`).
- FloodCoverage: loss of this update's copies and arrivals later than its cache lifetime are excluded, because coverage is promised only without them; everything else may be lost, delayed and interleaved.
- TimestampsIncrease: runs of 65536 s and more are excluded, because timestamps are 16-bit seconds.
- UpdateIsNew: the same.
- CheckChange: the check interval is fixed at its default of one second; rescheduling is part of the network step, not of the method.
- Conversions of a `double` outside the range of `uint16_t` or `int16_t` are undefined in C++; the model cuts off the fraction and wraps.
- Rounding of `double` arithmetic and square roots: reals and squared distances.
- The error field and the god location service: the value is a parameter, since no decision reads it.
- Contents of UDP and ICMP headers: opaque bytes in front of the data header, removed and put back; what a transport makes of the bytes handed up to it.
- The loopback device: a packet routed to it is queued or discarded within `RouteOutput`, in the same event.
- The branch of `RouteOutput` for a null packet, broadcast and multicast delivery in `RouteInput`, and interfaces with forwarding switched off: library plumbing.
- Interface up, down and address notifications, several interfaces per node, sockets, attributes, logging and printing.
- `DeleteRoute`, `Clear`, and changing lifetimes or limits during a run: no handler calls them.
- Packets as shared pointers: the source edits a queued packet in place after taking it out; the model edits a copy.
- Real radio timing: a broadcast reaches whatever receivers the step names, each copy after any delay or never.
