/** When exactly the handlers send a data packet, keep it, or give it up, and what becomes of the packets that wait. */
module Decisions {
  import opened Machine
  import opened Geometry
  import opened Sequences
  import opened Wire
  import opened IdCaches
  import RequestQueues
  import opened RoutingTables
  import opened Handlers

  /** Some neighbour is predicted strictly closer to `dst` than this node is. */
  ghost predicate HasCloser(t: Table, dst: Address, pos: Vector, now: Time) {
    exists a ::
      a in Neighbors(t, pos, now) && Distance2(Predict(t, a, now), Predict(t, dst, now)) < Distance2(Predict(t, dst, now), pos)
  }

  /** The greedy choice: the neighbour nearest to the destination, lowest address first. */
  ghost predicate GreedyChoice(send: DataSend, t: Table, pos: Vector, now: Time) {
    && send.packet.data.inRec == 0
    && IsClosest(send.gateway, Neighbors(t, pos, now).Keys, t, Predict(t, send.packet.dst, now), now)
  }

  /** The recovery choice: the neighbour with `draw` lower addresses before it, or no address if there is none. */
  ghost predicate RandomChoice(send: DataSend, t: Table, pos: Vector, now: Time, draw: nat) {
    var keys := Neighbors(t, pos, now).Keys;
    && send.packet.data.inRec == 1
    && (if draw < |keys| then send.gateway in keys && Rank(send.gateway, keys) == draw else send.gateway == ZERO)
  }

  /** The recovery fields of a header: no recovery, or recovery since `pos`. */
  predicate NoRecovery(d: DataHeader) {
    d.inRec == 0 && d.recX == 0 && d.recY == 0 && d.recZ == 0
  }

  predicate RecoversFrom(d: DataHeader, pos: Vector) {
    d.inRec == 1 && d.recX == ToU16(Trunc(pos.x)) && d.recY == ToU16(Trunc(pos.y)) && d.recZ == ToU16(Trunc(pos.z))
  }

  predicate SameRecoveryPoint(d: DataHeader, e: DataHeader) {
    d.recX == e.recX && d.recY == e.recY && d.recZ == e.recZ
  }

  lemma BestIffCloser(t: Table, dst: Address, pos: Vector, now: Time)
    requires ZERO !in t
    ensures var keys, dstPos := Neighbors(t, pos, now).Keys, Predict(t, dst, now);
            var hop := Best(keys, t, dstPos, pos, now);
            && (hop != ZERO <==> HasCloser(t, dst, pos, now))
            && (hop != ZERO ==> IsClosest(hop, keys, t, dstPos, now))
  {
    hide Distance2, Predict;
    var keys, dstPos := Neighbors(t, pos, now).Keys, Predict(t, dst, now);
    if keys != {} {
      assert IsClosest(Closest(keys, t, dstPos, now), keys, t, dstPos, now);
    }
  }

  /** A greedy choice is predicted within 250 m. */
  lemma GreedyWithinRange(send: DataSend, t: Table, pos: Vector, now: Time)
    requires GreedyChoice(send, t, pos, now)
    ensures send.gateway in t && Distance2(Predict(t, send.gateway, now), pos) <= 250.0 * 250.0
  {
    hide Distance2, Predict, Neighbors;
    NeighborsIff(t, pos, now, send.gateway);
  }

  // ---------------------------------------------------------------- forwarding

  /** Whether this node is nearer to the destination than the point where the packet entered recovery. */
  ghost predicate Nearer(t: Table, p: Packet, pos: Vector, now: Time) {
    var dstPos := Predict(t, p.dst, now);
    Distance2(pos, dstPos) < Distance2(IntVector(p.data.recX, p.data.recY, p.data.recZ), dstPos)
  }

  /** How forwarding rewrites the header `d`, settled to `x`: `d'`. */
  ghost predicate Rewritten(d: DataHeader, x: DataHeader, d': DataHeader, escaped: bool, greedy: bool, env: Env) {
    && SameDst(d', x) && d'.hop == d.hop + 1 && d'.uid == d.uid && d'.error == env.error
    && (greedy && escaped ==> NoRecovery(d'))
    && (greedy && !escaped ==> d'.inRec == 0 && SameRecoveryPoint(d', d))
    && (!greedy && (d.inRec == 0 || escaped) ==> RecoversFrom(d', env.pos))
    && (!greedy && d.inRec == 1 && !escaped ==> d'.inRec == 1 && SameRecoveryPoint(d', d))
  }

  /**
   * A forwarder passes a packet on exactly when it has made fewer than 10 hops, there are neighbours, and one is closer
   * or recovery is allowed; greedily to the nearest, else to the neighbour drawn.
   */
  lemma ForwardSendsIff(n: NodeState, p: Packet, env: Env, now: Time)
    requires ZERO !in n.table && p.dst != ZERO
    ensures var f, x := Forwarding(n, p, env, now), Exchange(Purged(n.table, now), p.dst, p.data);
            var escaped := p.data.inRec == 1 && Nearer(x.table, p, env.pos, now);
            var greedy := (p.data.inRec == 0 || escaped) && HasCloser(x.table, p.dst, env.pos, now);
            && (f.send.Some? <==>
                  && p.data.hop < 10 && Neighbors(x.table, env.pos, now) != map[]
                  && (greedy || (n.recovery && p.data.inRec <= 1)))
            && (f.send.Some? ==>
                  var send := f.send.value;
                  && send.packet == p.(data := send.packet.data)
                  && Rewritten(p.data, x.header, send.packet.data, escaped, greedy, env)
                  && (greedy ==> GreedyChoice(send, x.table, env.pos, now))
                  && (!greedy ==> RandomChoice(send, x.table, env.pos, now, env.draw)))
            && f.node == n.(table := if p.data.hop < 10 then x.table else n.table)
  {
    hide Neighbors, HasCloser, Nearer, Purged, DstEntry, SetRightVelocity, ForwardRoute, GreedyChoice, RandomChoice,
      RecPosition;
    var x := Exchange(Purged(n.table, now), p.dst, p.data);
    assert ZERO !in x.table by { PurgedKeys(n.table, now); }
    if p.data.hop < MAX_HOP {
      SettledHeader(Purged(n.table, now), p.dst, p.data, x.header);
      ForwardRouteIs(n.(table := x.table), p, x.header.(error := env.error), env, now);
    }
  }

  /** The exchange leaves everything but the destination fields of the header alone. */
  lemma SettledHeader(t: Table, dst: Address, d: DataHeader, x: DataHeader)
    requires x == Exchange(t, dst, d).header
    ensures x.inRec == d.inRec && SameRecoveryPoint(x, d) && x.uid == d.uid && x.hop == d.hop
  {
    hide DstEntry, SetRightVelocity;
  }

  lemma ForwardRouteIs(n: NodeState, p: Packet, d: DataHeader, env: Env, now: Time)
    requires ZERO !in n.table && d.hop < 10 && d.error == env.error
    requires d.inRec == p.data.inRec && SameRecoveryPoint(d, p.data) && d.uid == p.data.uid && d.hop == p.data.hop
    ensures var keys, t := Neighbors(n.table, env.pos, now).Keys, n.table;
            var send := ForwardRoute(n, keys, p, d, env, now);
            var escaped := p.data.inRec == 1 && Nearer(t, p, env.pos, now);
            var greedy := (p.data.inRec == 0 || escaped) && HasCloser(t, p.dst, env.pos, now);
            && (send.Some? <==> greedy || (n.recovery && p.data.inRec <= 1))
            && (send.Some? ==>
                  && send.value.packet == p.(data := send.value.packet.data)
                  && Rewritten(p.data, d, send.value.packet.data, escaped, greedy, env)
                  && (greedy ==> GreedyChoice(send.value, t, env.pos, now))
                  && (!greedy ==> RandomChoice(send.value, t, env.pos, now, env.draw)))
  {
    hide Distance2, Predict, Neighbors, Best, NthKey, Trunc, HasCloser, IsClosest, Rank;
    BestIffCloser(n.table, p.dst, env.pos, now);
    NthKeyRank(Neighbors(n.table, env.pos, now).Keys, env.draw);
  }

  lemma PurgedKeys(t: Table, now: Time)
    ensures Purged(t, now).Keys <= t.Keys
  {
  }

  lemma NthKeyRank(keys: set<Address>, i: nat)
    ensures var k := NthKey(keys, i); if i < |keys| then k in keys && Rank(k, keys) == i else k == ZERO
  {
    hide Rank;
  }

  // ---------------------------------------------------------------- originating

  /** The header of a packet sent at once to a destination known as `e`. */
  ghost predicate Fresh(d: DataHeader, p: Packet, e: Entry, greedy: bool, env: Env) {
    && d.uid == p.uid && d.hop == 1 && d.error == env.error && DstEntry(d, e.addr) == e
    && (greedy ==> NoRecovery(d)) && (!greedy ==> RecoversFrom(d, env.pos))
  }

  /** The header of a packet that waits: its uid, hop 1, and zeros. */
  function WaitingHeader(p: Packet): DataHeader {
    DataHeader(0, 0, 0, 0, 0, 0, 0, 0, 0, 0, 0, 0, p.uid, 1, 0)
  }

  /**
   * An originated packet waits exactly if its destination is unknown and there is a queue, of 64 places and 30 s; it is
   * sent exactly if it can be, with the same choice of neighbour.
   */
  lemma RouteOutputSendsIff(n: NodeState, p: Packet, env: Env, now: Time)
    requires ZERO !in n.table && (p.dst in n.table ==> n.table[p.dst].addr == p.dst)
    ensures var r, t := RouteOutput(n, p, env, now), Purged(n.table, now);
            var greedy := HasCloser(t, p.dst, env.pos, now);
            && (r.outcome.Deferred? <==> p.dst !in t && n.useQueue)
            && (r.outcome.Sent? <==> p.dst in t && Neighbors(t, env.pos, now) != map[] && (greedy || n.recovery))
            && (r.outcome.Sent? ==>
                  var send := r.outcome.send;
                  && send.packet == p.(data := send.packet.data) && Fresh(send.packet.data, p, t[p.dst], greedy, env)
                  && (greedy ==> GreedyChoice(send, t, env.pos, now))
                  && (!greedy ==> RandomChoice(send, t, env.pos, now, env.draw)))
            && r.node == n.(table := t, queue := r.node.queue)
            && r.node.queue == (if !r.outcome.Deferred? then n.queue
                                else RequestQueues.Enqueued(n.queue, p.(data := WaitingHeader(p)), now, 64, 30_000_000))
  {
    hide Distance2, Predict, Neighbors, Best, NthKey, Trunc, HasCloser, Purged, IsClosest, Rank, RequestQueues.Enqueued;
    var t := Purged(n.table, now);
    assert ZERO !in t by { PurgedKeys(n.table, now); }
    PurgedIff(n.table, now, p.dst);
    BestIffCloser(t, p.dst, env.pos, now);
    NthKeyRank(Neighbors(t, env.pos, now).Keys, env.draw);
    if p.dst in t {
      DstEntryWithDst(BLANK.(uid := p.uid, hop := 1), t[p.dst]);
    }
    hide SetRightVelocity, GetRightVelocity, ToI16;
  }

  // ---------------------------------------------------------------- reception and the queue

  /** The header of a released packet: the update's own fields, hop 0. */
  ghost predicate Released(d: DataHeader, h: ControlHeader, greedy: bool, env: Env) {
    && d.dstX == h.x && d.dstY == h.y && d.dstZ == h.z && d.dstVx == h.vx && d.dstVy == h.vy && d.dstVz == h.vz
    && d.dstSign == h.sign && d.dstTs == h.ts && d.uid == 0 && d.hop == 0 && d.error == env.error
    && (greedy ==> NoRecovery(d)) && (!greedy ==> RecoversFrom(d, env.pos))
  }

  /** The neighbour that every packet released on table `t` goes to. */
  ghost predicate ReleaseChoice(hop: Address, h: ControlHeader, t: Table, greedy: bool, env: Env, now: Time) {
    var keys := Neighbors(t, env.pos, now).Keys;
    && (greedy ==> IsClosest(hop, keys, t, Predict(t, h.addr, now), now))
    && (!greedy ==> if env.draw < |keys| then hop in keys && Rank(hop, keys) == env.draw else hop == ZERO)
  }

  lemma ReleaseRouteIs(n: NodeState, h: ControlHeader, env: Env, now: Time)
    requires ZERO !in n.table
    ensures var t, route := n.table, ReleaseRoute(n, h, env, now);
            var greedy := HasCloser(t, h.addr, env.pos, now);
            && (route.Some? <==> Neighbors(t, env.pos, now) != map[] && (greedy || n.recovery))
            && (route.Some? ==>
                  Released(route.value.1, h, greedy, env) && ReleaseChoice(route.value.0, h, t, greedy, env, now))
  {
    hide Distance2, Predict, Neighbors, Best, NthKey, Trunc, HasCloser, IsClosest, Rank;
    BestIffCloser(n.table, h.addr, env.pos, now);
    NthKeyRank(Neighbors(n.table, env.pos, now).Keys, env.draw);
  }

  /** What an accepted update does for the packets that wait for its origin: all are released, in order, or none is. */
  ghost predicate Settles(n: NodeState, h: ControlHeader, env: Env, now: Time, r: Received) {
    var waiting, t := Waiting(n.queue, h.addr, now), Purged(n.table[h.addr := EntryOf(h)], now);
    var waited := exists e :: e in n.queue.queue && e.packet.dst == h.addr;
    var greedy := HasCloser(t, h.addr, env.pos, now);
    var routed := Neighbors(t, env.pos, now) != map[] && (greedy || n.recovery);
    && |r.released| == (if waited && routed then |waiting| else 0)
    && (forall i :: 0 <= i < |r.released| ==>
          var send := r.released[i];
          && send.packet == waiting[i].packet.(data := send.packet.data)
          && Released(send.packet.data, h, greedy, env) && ReleaseChoice(send.gateway, h, t, greedy, env, now))
    && r.node.table == (if waited then t else n.table[h.addr := EntryOf(h)])
    && r.node.queue == (if !waited then n.queue
                        else if routed then Drained(n.queue, h.addr, now)
                        else RequestQueues.DroppedFor(n.queue, h.addr, now))
  }

  /**
   * An accepted update leaves nobody waiting for its origin: each waiting packet is released, to the nearest neighbour if
   * one is closer and else to the one drawn, or its error callback runs; and every other packet is accounted for.
   */
  lemma ReceptionSettlesWaiting(n: NodeState, h: ControlHeader, env: Env, now: Time)
    requires n.useQueue && !Holds(Live(n.ids, now), Key(h.addr, h.ts)) && ZERO !in n.table && h.addr != ZERO
    ensures var r := RecvMyprotocol(n, h, env, now);
            && Settles(n, h, env, now, r)
            && (forall e :: e in r.node.queue.queue ==> e.packet.dst != h.addr)
            && RequestQueues.Total(r.node.queue) + multiset(if r.released == [] then [] else Waiting(n.queue, h.addr, now))
            == RequestQueues.Total(n.queue)
  {
    hide HasCloser, Neighbors, Purged, EntryOf, ReleaseRoute, Released, ReleaseChoice, Live, Holds, Registered,
      RequestQueues.Total, RequestQueues.Purged, RequestQueues.FirstFor, Waiting, Drained, RequestQueues.DroppedFor;
    var t := Purged(n.table[h.addr := EntryOf(h)], now);
    assert ZERO !in t by { PurgedKeys(n.table[h.addr := EntryOf(h)], now); }
    var n3 := n.(ids := Registered(n.ids, ID_LIFETIME, Key(h.addr, h.ts), now), table := t);
    ReleaseRouteIs(n3, h, env, now);
    NothingWaits(n.queue, h.addr, now);
    SomethingWaits(n.queue, h.addr);
    DrainedTotal(n.queue, h.addr, now);
    DroppedTotal(n.queue, h.addr, now);
  }

  lemma SomethingWaits(q: QueueState, dst: Address)
    ensures RequestQueues.FirstFor(q.queue, dst) < |q.queue| <==> exists e :: e in q.queue && e.packet.dst == dst
  {
    var i := RequestQueues.FirstFor(q.queue, dst);
    if i < |q.queue| {
      assert q.queue[i] in q.queue;
    }
  }

  /** The packets that wait are exactly the live ones for the destination; draining keeps exactly the live ones for others. */
  lemma DrainSeparates(q: QueueState, dst: Address, now: Time)
      returns (waiting: seq<nat>, kept: seq<nat>, gone: seq<nat>, expired: seq<RequestQueues.QueueEntry>)
    ensures Picks(q.queue, waiting, Waiting(q, dst, now)) && Picks(q.queue, kept, Drained(q, dst, now).queue)
    ensures Picks(q.queue, gone, expired) && Drained(q, dst, now).failed == q.failed + expired
    ensures forall k: nat :: k in waiting <==> k < |q.queue| && q.queue[k].expire >= now && q.queue[k].packet.dst == dst
    ensures forall k: nat :: k in kept <==> k < |q.queue| && q.queue[k].expire >= now && q.queue[k].packet.dst != dst
    ensures forall k: nat :: k in gone <==> k < |q.queue| && q.queue[k].expire < now
  {
    waiting := RequestQueues.LivePicks(q, RequestQueues.For(dst), now);
    kept := RequestQueues.LivePicks(q, RequestQueues.NotFor(dst), now);
    var live;
    live, gone := RequestQueues.PurgeSeparates(q, now);
    expired := RequestQueues.Purged(q, now).failed[|q.failed|..];
  }

  lemma NothingWaits(q: QueueState, dst: Address, now: Time)
    ensures RequestQueues.FirstFor(q.queue, dst) == |q.queue| ==>
              Waiting(q, dst, now) == [] && forall e :: e in q.queue ==> e.packet.dst != dst
  {
    if RequestQueues.FirstFor(q.queue, dst) == |q.queue| {
      var live := RequestQueues.Purged(q, now).queue;
      forall e | e in live ensures e.packet.dst != dst {
        RequestQueues.PurgedMember(q, now, e);
      }
      FilterNone(RequestQueues.For(dst), live);
    }
  }

  lemma DrainedTotal(q: QueueState, dst: Address, now: Time)
    ensures RequestQueues.Total(Drained(q, dst, now)) + multiset(Waiting(q, dst, now)) == RequestQueues.Total(q)
    ensures forall e :: e in Drained(q, dst, now).queue ==> e.packet.dst != dst
  {
    var live := RequestQueues.Purged(q, now);
    RequestQueues.TotalPurged(q, now);
    FilterSplits(RequestQueues.NotFor(dst), RequestQueues.For(dst), live.queue);
    forall e | e in Drained(q, dst, now).queue ensures e.packet.dst != dst {
      FilterMember(RequestQueues.NotFor(dst), live.queue, e);
    }
  }

  lemma DroppedTotal(q: QueueState, dst: Address, now: Time)
    ensures RequestQueues.Total(RequestQueues.DroppedFor(q, dst, now)) == RequestQueues.Total(q)
    ensures forall e :: e in RequestQueues.DroppedFor(q, dst, now).queue ==> e.packet.dst != dst
  {
    RequestQueues.TotalDroppedFor(q, dst, now);
    forall e | e in RequestQueues.DroppedFor(q, dst, now).queue ensures e.packet.dst != dst {
      FilterMember(RequestQueues.NotFor(dst), RequestQueues.Purged(q, now).queue, e);
    }
  }

  /** Without a queue an accepted update is stored and sent on; a duplicate does not even touch the table. */
  lemma ReceptionWithoutRelease(n: NodeState, h: ControlHeader, env: Env, now: Time)
    ensures var r, k := RecvMyprotocol(n, h, env, now), Key(h.addr, h.ts);
            var n1 := n.(ids := Registered(n.ids, 2_400_000, k, now));
            && (Holds(Live(n.ids, now), k) ==> r == Received(n1, None, []))
            && (!Holds(Live(n.ids, now), k) ==> r.rebroadcast == Some(h) && r.node.ids == n1.ids)
            && (!Holds(Live(n.ids, now), k) && !n.useQueue ==>
                  r == Received(n1.(table := n.table[h.addr := EntryOf(h)]), Some(h), []))
  {
    hide EntryOf, Live, Holds, Registered, Purged, ReleaseRoute, RequestQueues.FirstFor;
  }

  // ---------------------------------------------------------------- advertising

  /** `c` is the coordinate `x` clamped to `0..max` and cut to an integer. */
  predicate Tells(c: u16, x: real, max: u16) {
    && (x < 0.0 ==> c == 0)
    && (0.0 <= x <= max as real ==> c as real <= x < c as real + 1.0)
    && (x > max as real ==> c == max)
  }

  /** `w` is the velocity `v` cut toward zero. */
  predicate Cuts(w: int, v: real) {
    && (v >= 0.0 ==> w as real <= v < w as real + 1.0)
    && (v <= 0.0 ==> w as real - 1.0 < v <= w as real)
  }

  lemma ClampedTells(x: real, max: u16)
    ensures Tells(ToU16(Trunc(ClampReal(x, max as real))), x, max)
  {
  }

  lemma TruncCuts(v: real)
    ensures Cuts(Trunc(v), v)
  {
  }

  /** An update tells the position clamped into the box, the velocity cut toward zero, and the second, in 16 bits each. */
  lemma UpdateTells(n: NodeState, env: Env, now: Time)
    ensures var h := SendUpdate(n, env, now).header;
            var e := EntryOf(h);
            && Tells(h.x, env.pos.x, 1000) && Tells(h.y, env.pos.y, 1000) && Tells(h.z, env.pos.z, 300)
            && Cuts(Trunc(env.vel.x), env.vel.x) && e.vx == ToI16(Trunc(env.vel.x))
            && Cuts(Trunc(env.vel.y), env.vel.y) && e.vy == ToI16(Trunc(env.vel.y))
            && Cuts(Trunc(env.vel.z), env.vel.z) && e.vz == ToI16(Trunc(env.vel.z))
            && h.vx == Abs(e.vx) && h.vy == Abs(e.vy) && h.vz == Abs(e.vz) && h.sign == SetRightVelocity(e.vx, e.vy, e.vz)
            && h.ts == Seconds(now) % 0x1_0000 && h.addr == n.addr && h.uid == env.uid
  {
    EntryOfUpdateHeader(Advertised(n.addr, env.pos, env.vel, now), env.uid);
    ClampedTells(env.pos.x, 1000);
    ClampedTells(env.pos.y, 1000);
    ClampedTells(env.pos.z, 300);
    TruncCuts(env.vel.x);
    TruncCuts(env.vel.y);
    TruncCuts(env.vel.z);
    hide Trunc, ClampReal, EntryOf, ToI16, Registered, OwnEntry;
  }

  /**
   * What the sender remembers: the exact motion and the second; under 127.0.0.1 its motion truncated but not clamped;
   * and its own update's key, for 2.4 s.
   */
  lemma UpdateRemembered(n: NodeState, env: Env, now: Time)
    ensures var n' := SendUpdate(n, env, now).node;
            var own := Entry(ToU16(Trunc(env.pos.x)), ToU16(Trunc(env.pos.y)), ToU16(Trunc(env.pos.z)),
                             ToI16(Trunc(env.vel.x)), ToI16(Trunc(env.vel.y)), ToI16(Trunc(env.vel.z)),
                             Seconds(now) % 0x1_0000, 0x7F00_0001);
            n' == n.(lastSendTime := Seconds(now) % 0x1_0000, lastSendPos := env.pos, lastSendVel := env.vel,
                     table := n.table[0x7F00_0001 := own],
                     ids := Registered(n.ids, 2_400_000, Key(n.addr, Seconds(now) % 0x1_0000), now))
  {
    hide Trunc, ToI16, Registered, UpdateHeader, ClampReal;
  }

  /**
   * A check sends nothing exactly if the position one second from now is within 375 m of where the last update lets it
   * be expected after `dt` seconds, and that update is at most 20 s old. Otherwise it sends one update, below 65536 s.
   */
  lemma CheckSilentIff(n: NodeState, env: Env, now: Time, dt: nat, expected: Vector)
    requires dt == (Seconds(now) - n.lastSendTime) % 0x1_0000 + 1
    requires expected.x == n.lastSendPos.x + dt as real * n.lastSendVel.x
    requires expected.y == n.lastSendPos.y + dt as real * n.lastSendVel.y
    requires expected.z == n.lastSendPos.z + dt as real * n.lastSendVel.z
    ensures var c := CheckChange(n, env, now);
            var projected := Vector(env.pos.x + env.vel.x, env.pos.y + env.vel.y, env.pos.z + env.vel.z);
            && (c.sent == [] <==> Distance2(projected, expected) <= 375.0 * 375.0 && Seconds(now) - n.lastSendTime <= 20)
            && (c.sent == [] ==> c.node == n)
            && (c.sent != [] && Seconds(now) < 0x1_0000 ==>
                  c == Checked(SendUpdate(n, env, now).node, [SendUpdate(n, env, now).header]))
  {
    hide Distance2, Drifted, Advertised, OwnEntry, UpdateHeader, Registered;
    SentNow(n, env, now);
    DriftIs(n, env, now, dt, expected);
  }

  lemma DriftIs(n: NodeState, env: Env, now: Time, dt: nat, expected: Vector)
    requires dt == (Seconds(now) - n.lastSendTime) % 0x1_0000 + 1
    requires expected.x == n.lastSendPos.x + dt as real * n.lastSendVel.x
    requires expected.y == n.lastSendPos.y + dt as real * n.lastSendVel.y
    requires expected.z == n.lastSendPos.z + dt as real * n.lastSendVel.z
    ensures var projected := Vector(env.pos.x + env.vel.x, env.pos.y + env.vel.y, env.pos.z + env.vel.z);
            Drifted(n, env, now) <==> Distance2(projected, expected) > 375.0 * 375.0
  {
    hide Distance2, Seconds;
    assert ToU16(Seconds(now) - n.lastSendTime) == dt - 1;
    hide ToU16;
    assert Expected(n, now) == Add(n.lastSendPos, Scale(dt, n.lastSendVel));
    assert Expected(n, now) == expected;
  }

  // ---------------------------------------------------------------- arrivals

  /**
   * A packet from the link is swallowed exactly at its source, and delivered exactly at its destination if that is not
   * its source; neither changes the node. Delivery hands up the packet without its first 36 bytes.
   */
  lemma RouteInputDecides(n: NodeState, p: Packet, env: Env, now: Time)
    ensures var r := RouteInput(n, p, env, now);
            var bytes := p.outer.bits + DataWire(p.data) + p.payload;
            && |bytes| >= 36
            && (r.arrival.Returned? <==> p.src == n.addr)
            && (r.arrival.Delivered? <==> p.src != n.addr && p.dst == n.addr)
            && (r.arrival.Delivered? ==> r.arrival.bytes == bytes[36..])
            && (!r.arrival.Passed? ==> r.node == n)
            && (r.arrival.Passed? ==>
                  var f := Forwarding(n, p, env, now);
                  r.node == f.node && r.arrival.send == f.send)
  {
    hide Forwarding, DataWire;
    DataRoundTrip(p.data);
  }
}
