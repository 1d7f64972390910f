/** The protocol object of one node: the event handlers, as they run on the table, the cache and the queue. */
module Protocol {
  import opened Machine
  import opened Geometry
  import opened Sequences
  import opened Wire
  import opened IdCaches
  import opened RequestQueues
  import opened RoutingTables
  import opened Handlers

  class RoutingProtocol {
    const addr: Address
    const enableRecoveryMode: bool
    const enableQueue: bool
    const routingTable: RoutingTable
    const idCache: IdCache
    const queue: RequestQueue
    var lastSendTime: u16
    var lastSendPos: Vector
    var lastSendVelocity: Vector

    /** A node with its loopback and broadcast records, before `Start`. */
    constructor (addr: Address, enableRecoveryMode: bool, enableQueue: bool)
      ensures Valid() && fresh(routingTable) && fresh(idCache) && fresh(queue)
      ensures State() == Initial(addr, enableRecoveryMode, enableQueue)
    {
      this.addr := addr;
      this.enableRecoveryMode := enableRecoveryMode;
      this.enableQueue := enableQueue;
      routingTable := new RoutingTable();
      idCache := new IdCache(ID_LIFETIME);
      queue := new RequestQueue(MAX_QUEUE_LEN, QUEUE_TIMEOUT);
      lastSendTime := 0;
      lastSendPos := Vector(0.0, 0.0, 0.0);
      lastSendVelocity := Vector(0.0, 0.0, 0.0);
      new;
      var _ := routingTable.AddRoute(Entry(0, 0, 0, 0, 0, 0, 0, LOOPBACK));
      var _ := routingTable.AddRoute(Entry(0, 0, 0, 0, 0, 0, 0, SUBNET_BROADCAST));
    }

    ghost predicate Valid()
      reads this, idCache, queue
    {
      idCache.lifetime == ID_LIFETIME && queue.maxLen == MAX_QUEUE_LEN && queue.timeout == QUEUE_TIMEOUT
    }

    function State(): NodeState
      reads this, routingTable, idCache, queue
    {
      NodeState(addr, enableRecoveryMode, enableQueue, routingTable.positions, idCache.ids, queue.State(),
                lastSendTime, lastSendPos, lastSendVelocity)
    }

    method SendUpdate(env: Env, now: Time) returns (header: ControlHeader)
      requires Valid()
      modifies this, routingTable, idCache
      ensures Valid()
      ensures Update(State(), header) == Handlers.SendUpdate(old(State()), env, now)
    {
      var myPos, myVel := env.pos, env.vel;
      lastSendTime := ToU16(Seconds(now));
      lastSendPos := myPos;
      lastSendVelocity := myVel;
      var vx: i16, vy: i16, vz: i16 := ToI16(Trunc(myVel.x)), ToI16(Trunc(myVel.y)), ToI16(Trunc(myVel.z));
      var sign := SetRightVelocity(vx, vy, vz);
      routingTable.Update(Entry(ToU16(Trunc(myPos.x)), ToU16(Trunc(myPos.y)), ToU16(Trunc(myPos.z)),
                                vx, vy, vz, ToU16(Seconds(now)), LOOPBACK));
      if myPos.x < 0.0 {
        myPos := myPos.(x := 0.0);
      }
      if myPos.y < 0.0 {
        myPos := myPos.(y := 0.0);
      }
      if myPos.z < 0.0 {
        myPos := myPos.(z := 0.0);
      }
      if myPos.x > 1000.0 {
        myPos := myPos.(x := 1000.0);
      }
      if myPos.y > 1000.0 {
        myPos := myPos.(y := 1000.0);
      }
      if myPos.z > 300.0 {
        myPos := myPos.(z := 300.0);
      }
      header := ControlHeader(ToU16(Trunc(myPos.x)), ToU16(Trunc(myPos.y)), ToU16(Trunc(myPos.z)),
                              Abs(vx), Abs(vy), Abs(vz), sign, lastSendTime, addr, env.uid);
      var _ := idCache.IsDuplicate(Key(addr, header.ts), now);
    }

    method CheckChange(env: Env, now: Time) returns (sent: seq<ControlHeader>)
      requires Valid()
      modifies this, routingTable, idCache
      ensures Valid()
      ensures Checked(State(), sent) == Handlers.CheckChange(old(State()), env, now)
    {
      sent := [];
      var nextTimeMobilityPos := Add(env.pos, env.vel);
      var t: int := ToU16(Seconds(now) - lastSendTime);
      var nextTimeTablePos := Add(lastSendPos, Scale(t + 1, lastSendVelocity));
      if Distance2(nextTimeMobilityPos, nextTimeTablePos) > CHANGE2 {
        var h := SendUpdate(env, now);
        sent := sent + [h];
      }
      if Seconds(now) - lastSendTime > MAX_INTERVAL {
        var h := SendUpdate(env, now);
        sent := sent + [h];
      }
    }

    /** `i` increments of an iterator that starts at the first neighbour; ZERO stands for running off the end. */
    method RecoveryMode(neighborTable: Table, random: nat) returns (hop: Address)
      ensures hop == NthKey(neighborTable.Keys, random)
    {
      var todo := neighborTable.Keys;
      var i := random;
      while i > 0 && todo != {}
        invariant NthKey(todo, i) == NthKey(neighborTable.Keys, random)
      {
        MinUnique(todo);
        var k :| k in todo && IsMin(k, todo);
        todo := todo - {k};
        i := i - 1;
      }
      if todo == {} {
        return ZERO;
      }
      MinUnique(todo);
      var k :| k in todo && IsMin(k, todo);
      hop := k;
    }

    /** Hands out every waiting packet for `dst`, in order, with its data header replaced. */
    method SendPacketFromQueue(dst: Address, gateway: Address, dataHeader: DataHeader, now: Time) returns (sends: seq<DataSend>)
      modifies queue
      ensures sends == Rewrapped(Waiting(old(queue.State()), dst, now), gateway, dataHeader)
      ensures queue.State() == Drained(old(queue.State()), dst, now)
    {
      hide Filter, FirstFor, RequestQueues.Purged;
      sends := [];
      ghost var q0 := queue.State();
      ghost var done: seq<QueueEntry> := [];
      DequeueFirst(q0, dst, now);
      var entry := queue.Dequeue(dst, now);
      while entry.Some?
        invariant Unexpired(queue.State(), now)
        invariant queue.failed == RequestQueues.Purged(q0, now).failed
        invariant done + Head(entry) + Filter(For(dst), queue.queue) == Waiting(q0, dst, now)
        invariant Filter(NotFor(dst), queue.queue) == Drained(q0, dst, now).queue
        invariant entry.None? ==> FirstFor(queue.queue, dst) == |queue.queue|
        invariant sends == Rewrapped(done, gateway, dataHeader)
        decreases entry.Some?, |queue.queue|
      {
        var p := entry.value.packet;
        sends := sends + [DataSend(gateway, p.(data := dataHeader))];
        done := done + [entry.value];
        DequeueNext(queue.State(), dst, now);
        entry := queue.Dequeue(dst, now);
      }
      TakeNone(queue.queue, dst);
    }

    method RecvMyprotocol(h: ControlHeader, env: Env, now: Time)
        returns (rebroadcast: Option<ControlHeader>, released: seq<DataSend>)
      requires Valid()
      modifies routingTable, idCache, queue
      ensures Valid()
      ensures Received(State(), rebroadcast, released) == Handlers.RecvMyprotocol(old(State()), h, env, now)
    {
      rebroadcast, released := None, [];
      var duplicate := idCache.IsDuplicate(Key(h.addr, h.ts), now);
      if duplicate {
        return;
      }
      var velocity := GetRightVelocity(h.vx, h.vy, h.vz, h.sign);
      routingTable.Update(Entry(h.x, h.y, h.z, ToI16(velocity.x), ToI16(velocity.y), ToI16(velocity.z), h.ts, h.addr));
      rebroadcast := Some(h);
      if !enableQueue {
        return;
      }
      var found := queue.Find(h.addr);
      if !found {
        return;
      }
      var dataHeader := BLANK.(dstX := h.x, dstY := h.y, dstZ := h.z, dstVx := h.vx, dstVy := h.vy, dstVz := h.vz,
                               dstSign := h.sign, dstTs := h.ts);
      routingTable.Purge(now);
      var neighborTable := routingTable.LookupNeighbor(env.pos, now);
      var dstPos := routingTable.PredictPosition(h.addr, now);
      dataHeader := dataHeader.(error := env.error);
      if neighborTable == map[] {
        queue.DropPacketWithDst(h.addr, now);
        return;
      }
      var nexthop := routingTable.BestNeighbor(neighborTable, dstPos, env.pos, now);
      if nexthop != ZERO {
        dataHeader := dataHeader.(recX := 0, recY := 0, recZ := 0, inRec := 0);
      } else {
        if enableRecoveryMode {
          dataHeader := dataHeader.(recX := ToU16(Trunc(env.pos.x)), recY := ToU16(Trunc(env.pos.y)),
                                    recZ := ToU16(Trunc(env.pos.z)), inRec := 1);
          nexthop := RecoveryMode(neighborTable, env.draw);
        } else {
          queue.DropPacketWithDst(h.addr, now);
          return;
        }
      }
      released := SendPacketFromQueue(h.addr, nexthop, dataHeader, now);
    }

    method Forwarding(packet: Packet, env: Env, now: Time) returns (send: Option<DataSend>)
      modifies routingTable
      ensures Forwarded(State(), send) == Handlers.Forwarding(old(State()), packet, env, now)
    {
      DstEntryFields(packet.data, packet.dst);
      hide Distance2, Predict, Neighbors, RoutingTables.Purged, Best, NthKey, DstEntry, WithDst, ToU16, Trunc;
      var d := packet.data;
      if d.hop >= MAX_HOP {
        return None;
      }
      var dst := packet.dst;
      var position := IntVector(d.recX, d.recY, d.recZ);
      var inRec := d.inRec;
      var heard := DstEntry(d, dst);

      routingTable.Purge(now);
      var rt := routingTable.LookupRoute(dst);
      if rt.Some? {
        if rt.value.ts > heard.ts {
          d := WithDst(d, rt.value);
        } else if rt.value.ts < heard.ts {
          routingTable.Update(heard);
        }
      } else {
        var _ := routingTable.AddRoute(heard);
      }
      var neighborTable := routingTable.LookupNeighbor(env.pos, now);
      var predictDst := routingTable.PredictPosition(dst, now);
      d := d.(error := env.error);
      if neighborTable == map[] {
        return None;
      }
      if inRec == 1 && Distance2(env.pos, predictDst) < Distance2(position, predictDst) {
        inRec := 0;
        d := d.(inRec := 0, recX := 0, recY := 0, recZ := 0);
      }
      if inRec == 0 {
        var nextHop := routingTable.BestNeighbor(neighborTable, predictDst, env.pos, now);
        if nextHop != ZERO {
          d := d.(hop := ToU16(d.hop + 1));
          return Some(DataSend(nextHop, packet.(data := d)));
        } else {
          inRec := 1;
          d := d.(inRec := 1, recX := ToU16(Trunc(env.pos.x)), recY := ToU16(Trunc(env.pos.y)), recZ := ToU16(Trunc(env.pos.z)));
        }
      }
      if inRec == 1 {
        if enableRecoveryMode {
          d := d.(hop := ToU16(d.hop + 1));
          var nextHop := RecoveryMode(neighborTable, env.draw);
          return Some(DataSend(nextHop, packet.(data := d)));
        } else {
          return None;
        }
      }
      send := None;
    }

    /** Data packets from the link: swallowed at their source, delivered at their destination, else forwarded. */
    method RouteInput(packet: Packet, env: Env, now: Time) returns (arrival: Arrival)
      modifies routingTable
      ensures Arrived(State(), arrival) == Handlers.RouteInput(old(State()), packet, env, now)
    {
      if packet.src == addr {
        return Returned;
      }
      if packet.dst == addr {
        DataRoundTrip(packet.data);
        return Delivered(OnWire(packet)[DATA_SIZE..]);
      }
      var send := Forwarding(packet, env, now);
      arrival := Passed(send);
    }

    /** The unicast branch, together with the loopback delivery that queues or discards. */
    method RouteOutput(p: Packet, env: Env, now: Time) returns (outcome: Outcome)
      requires Valid()
      modifies routingTable, queue
      ensures Valid()
      ensures Routed(State(), outcome) == Handlers.RouteOutput(old(State()), p, env, now)
    {
      var dataHeader := BLANK.(uid := p.uid, hop := 1);
      routingTable.Purge(now);
      var rt := routingTable.LookupRoute(p.dst);
      if rt.Some? {
        dataHeader := WithDst(dataHeader, rt.value);
        var neighborTable := routingTable.LookupNeighbor(env.pos, now);
        var dstPos := routingTable.PredictPosition(p.dst, now);
        dataHeader := dataHeader.(error := env.error);
        if neighborTable == map[] {
          return Discarded;
        }
        var nexthop := routingTable.BestNeighbor(neighborTable, dstPos, env.pos, now);
        if nexthop != ZERO {
          return Sent(DataSend(nexthop, p.(data := dataHeader)));
        } else if enableRecoveryMode {
          dataHeader := dataHeader.(recX := ToU16(Trunc(env.pos.x)), recY := ToU16(Trunc(env.pos.y)),
                                    recZ := ToU16(Trunc(env.pos.z)), inRec := 1);
          nexthop := RecoveryMode(neighborTable, env.draw);
          return Sent(DataSend(nexthop, p.(data := dataHeader)));
        } else {
          return Discarded;
        }
      }
      if enableQueue {
        var _ := queue.Enqueue(p.(data := dataHeader), now);
        outcome := Deferred;
      } else {
        outcome := Discarded;
      }
    }
  }

  /** The node state the constructor sets up. */
  function Initial(addr: Address, recovery: bool, useQueue: bool): NodeState {
    var zero := Vector(0.0, 0.0, 0.0);
    NodeState(addr, recovery, useQueue,
              map[LOOPBACK := Entry(0, 0, 0, 0, 0, 0, 0, LOOPBACK),
                  SUBNET_BROADCAST := Entry(0, 0, 0, 0, 0, 0, 0, SUBNET_BROADCAST)],
              [], QueueState([], []), 0, zero, zero)
  }

  /** A node starts with nothing but two placeholder records, all zero, under 127.0.0.1 and 10.1.1.255. */
  lemma InitialKnowsNobody(addr: Address, recovery: bool, useQueue: bool)
    ensures var n := Initial(addr, recovery, useQueue);
            && n.addr == addr && n.recovery == recovery && n.useQueue == useQueue
            && n.table.Keys == {0x7F00_0001, 0x0A01_01FF}
            && (forall a :: a in n.table ==> n.table[a] == Entry(0, 0, 0, 0, 0, 0, 0, a))
            && n.ids == [] && n.queue == QueueState([], [])
            && n.lastSendTime == 0 && n.lastSendPos == Vector(0.0, 0.0, 0.0) && n.lastSendVel == Vector(0.0, 0.0, 0.0)
  {
  }

  lemma DstEntryFields(d: DataHeader, dst: Address)
    ensures DstEntry(d, dst).ts == d.dstTs && DstEntry(d, dst).addr == dst
    ensures forall e ::
              WithDst(d, e).inRec == d.inRec && WithDst(d, e).hop == d.hop && RecPosition(WithDst(d, e)) == RecPosition(d)
  {
  }

  lemma MinUnique(keys: set<Address>)
    requires keys != {}
    ensures exists k :: k in keys && IsMin(k, keys)
    ensures forall k :: IsMin(k, keys) ==> k == MinKey(keys)
  {
    MinExists(keys);
    var k :| IsMin(k, keys);
  }
}
