/** What each event handler of the protocol does to one node's state, and what it transmits. */
module Handlers {
  import opened Machine
  import opened Geometry
  import opened Sequences
  import opened Wire
  import opened IdCaches
  import RequestQueues
  import opened RoutingTables

  type Packet = RequestQueues.Packet
  type QueueState = RequestQueues.QueueState

  const ID_LIFETIME: Time := 2_400_000      // 2 * (2 * 15 * 40 ms)
  const MAX_QUEUE_LEN: nat := 64
  const QUEUE_TIMEOUT: Time := 30_000_000
  const MAX_INTERVAL: nat := 20
  const CHANGE2: real := 140625.0           // the square of 250 * 1.5
  const MAX_HOP: u16 := 10

  /** The protocol state of one node. */
  datatype NodeState = NodeState(
    addr: Address,
    recovery: bool,
    useQueue: bool,
    table: Table,
    ids: seq<UniqueId>,
    queue: QueueState,
    lastSendTime: u16,
    lastSendPos: Vector,
    lastSendVel: Vector)

  /** What the node's surroundings supply to one event: its measured motion, a random draw, a packet uid, an error statistic. */
  datatype Env = Env(pos: Vector, vel: Vector, draw: nat, uid: u64, error: u16)

  /** A data packet handed to the link for `gateway`. */
  datatype DataSend = DataSend(gateway: Address, packet: Packet)

  // ---------------------------------------------------------------- what is advertised

  function ClampReal(x: real, max: real): real {
    if x < 0.0 then 0.0 else if x > max then max else x
  }

  /** A node's motion as an update tells it to the others: clamped into the box and truncated. */
  function Advertised(addr: Address, pos: Vector, vel: Vector, now: Time): Entry {
    Entry(ToU16(Trunc(ClampReal(pos.x, 1000.0))), ToU16(Trunc(ClampReal(pos.y, 1000.0))), ToU16(Trunc(ClampReal(pos.z, 300.0))),
          ToI16(Trunc(vel.x)), ToI16(Trunc(vel.y)), ToI16(Trunc(vel.z)), ToU16(Seconds(now)), addr)
  }

  /** A node's motion as it records it under its own loopback address: truncated, not clamped. */
  function OwnEntry(pos: Vector, vel: Vector, now: Time): Entry {
    Entry(ToU16(Trunc(pos.x)), ToU16(Trunc(pos.y)), ToU16(Trunc(pos.z)),
          ToI16(Trunc(vel.x)), ToI16(Trunc(vel.y)), ToI16(Trunc(vel.z)), ToU16(Seconds(now)), LOOPBACK)
  }

  /** The control header that carries an entry: magnitudes and a sign code. */
  function UpdateHeader(e: Entry, uid: u64): ControlHeader {
    ControlHeader(e.x, e.y, e.z, Abs(e.vx), Abs(e.vy), Abs(e.vz), SetRightVelocity(e.vx, e.vy, e.vz), e.ts, e.addr, uid)
  }

  /** The table entry a receiver builds from a control header. */
  function EntryOf(h: ControlHeader): Entry {
    var v := GetRightVelocity(h.vx, h.vy, h.vz, h.sign);
    Entry(h.x, h.y, h.z, ToI16(v.x), ToI16(v.y), ToI16(v.z), h.ts, h.addr)
  }

  /** The table entry a forwarder reads out of a data header bound for `dst`. */
  function DstEntry(d: DataHeader, dst: Address): Entry {
    var v := GetRightVelocity(d.dstVx, d.dstVy, d.dstVz, d.dstSign);
    Entry(d.dstX, d.dstY, d.dstZ, ToI16(v.x), ToI16(v.y), ToI16(v.z), d.dstTs, dst)
  }

  /** A data header with a table entry written into its destination fields. */
  function WithDst(d: DataHeader, e: Entry): DataHeader {
    d.(dstX := e.x, dstY := e.y, dstZ := e.z, dstVx := Abs(e.vx), dstVy := Abs(e.vy), dstVz := Abs(e.vz),
       dstSign := SetRightVelocity(e.vx, e.vy, e.vz), dstTs := e.ts)
  }

  lemma AdvertisedFields(a: Address, pos: Vector, vel: Vector, now: Time)
    ensures Advertised(a, pos, vel, now).addr == a && Advertised(a, pos, vel, now).ts == ToU16(Seconds(now))
  {
  }

  lemma EntryOfFields(h: ControlHeader)
    ensures EntryOf(h).ts == h.ts && EntryOf(h).addr == h.addr
  {
    hide GetRightVelocity;
  }

  /** Which field of a header is which field of the entry; velocities are decoded. */
  lemma HeaderFields(h: ControlHeader, d: DataHeader, dst: Address)
    ensures var e, v := EntryOf(h), GetRightVelocity(h.vx, h.vy, h.vz, h.sign);
            && e.x == h.x && e.y == h.y && e.z == h.z && e.ts == h.ts && e.addr == h.addr
            && e.vx == ToI16(v.x) && e.vy == ToI16(v.y) && e.vz == ToI16(v.z)
    ensures var e, v := DstEntry(d, dst), GetRightVelocity(d.dstVx, d.dstVy, d.dstVz, d.dstSign);
            && e.x == d.dstX && e.y == d.dstY && e.z == d.dstZ && e.ts == d.dstTs && e.addr == dst
            && e.vx == ToI16(v.x) && e.vy == ToI16(v.y) && e.vz == ToI16(v.z)
  {
    hide GetRightVelocity, ToI16;
  }

  /** Receivers rebuild exactly what was advertised. */
  lemma EntryOfUpdateHeader(e: Entry, uid: u64)
    ensures EntryOf(UpdateHeader(e, uid)) == e
  {
    NoWrap(e.vx);
    NoWrap(e.vy);
    NoWrap(e.vz);
  }

  /** Forwarders read back exactly the entry that was written. */
  lemma DstEntryWithDst(d: DataHeader, e: Entry)
    ensures DstEntry(WithDst(d, e), e.addr) == e
  {
    NoWrap(e.vx);
    NoWrap(e.vy);
    NoWrap(e.vz);
  }

  // ---------------------------------------------------------------- sending updates

  datatype Update = Update(node: NodeState, header: ControlHeader)

  ghost function SendUpdate(n: NodeState, env: Env, now: Time): Update {
    var e := Advertised(n.addr, env.pos, env.vel, now);
    Update(n.(lastSendTime := e.ts, lastSendPos := env.pos, lastSendVel := env.vel,
              table := n.table[LOOPBACK := OwnEntry(env.pos, env.vel, now)],
              ids := Registered(n.ids, ID_LIFETIME, Key(n.addr, e.ts), now)),
           UpdateHeader(e, env.uid))
  }

  /** Where the last update makes others expect this node one second from now. */
  function Expected(n: NodeState, now: Time): Vector {
    var t: int := ToU16(Seconds(now) - n.lastSendTime);
    Add(n.lastSendPos, Scale(t + 1, n.lastSendVel))
  }

  /** Whether the motion has drifted beyond the threshold from what was last advertised. */
  predicate Drifted(n: NodeState, env: Env, now: Time) {
    Distance2(Add(env.pos, env.vel), Expected(n, now)) > CHANGE2
  }

  predicate Overdue(n: NodeState, now: Time) {
    Seconds(now) - n.lastSendTime > MAX_INTERVAL
  }

  datatype Checked = Checked(node: NodeState, sent: seq<ControlHeader>)

  ghost function CheckChange(n: NodeState, env: Env, now: Time): Checked {
    var c1 := if Drifted(n, env, now) then var u := SendUpdate(n, env, now); Checked(u.node, [u.header]) else Checked(n, []);
    if Overdue(c1.node, now) then var u := SendUpdate(c1.node, env, now); Checked(u.node, c1.sent + [u.header]) else c1
  }

  // ---------------------------------------------------------------- receiving updates

  /** The modes a data header can be put in. */
  function InRecovery(d: DataHeader, pos: Vector): DataHeader {
    d.(inRec := 1, recX := ToU16(Trunc(pos.x)), recY := ToU16(Trunc(pos.y)), recZ := ToU16(Trunc(pos.z)))
  }

  function Greedy(d: DataHeader): DataHeader {
    d.(inRec := 0, recX := 0, recY := 0, recZ := 0)
  }

  function RecPosition(d: DataHeader): Vector {
    IntVector(d.recX, d.recY, d.recZ)
  }

  const BLANK: DataHeader := DataHeader(0, 0, 0, 0, 0, 0, 0, 0, 0, 0, 0, 0, 0, 0, 0)

  /** The data header for packets released by an update: the update's own fields, copied unread. */
  function ReleaseHeader(h: ControlHeader, error: u16): DataHeader {
    BLANK.(dstX := h.x, dstY := h.y, dstZ := h.z, dstVx := h.vx, dstVy := h.vy, dstVz := h.vz,
           dstSign := h.sign, dstTs := h.ts, error := error)
  }

  /** The queued packets, each with its data header replaced and its outer header kept. */
  function Rewrapped(es: seq<RequestQueues.QueueEntry>, gateway: Address, d: DataHeader): seq<DataSend> {
    seq(|es|, i requires 0 <= i < |es| => DataSend(gateway, es[i].packet.(data := d)))
  }

  /** The unexpired entries for `dst`, in queue order. */
  function Waiting(q: QueueState, dst: Address, now: Time): seq<RequestQueues.QueueEntry> {
    Filter(RequestQueues.For(dst), RequestQueues.Purged(q, now).queue)
  }

  /** The queue after everything for `dst` has been taken out. */
  function Drained(q: QueueState, dst: Address, now: Time): QueueState {
    var live := RequestQueues.Purged(q, now);
    live.(queue := Filter(RequestQueues.NotFor(dst), live.queue))
  }

  datatype Received = Received(node: NodeState, rebroadcast: Option<ControlHeader>, released: seq<DataSend>)

  /** Gateway and header for the packets waiting for the origin of an update; None when they must be dropped. */
  ghost function ReleaseRoute(n: NodeState, h: ControlHeader, env: Env, now: Time): Option<(Address, DataHeader)> {
    var neighbors := Neighbors(n.table, env.pos, now).Keys;
    var hop := Best(neighbors, n.table, Predict(n.table, h.addr, now), env.pos, now);
    var d := ReleaseHeader(h, env.error);
    if neighbors == {} then None
    else if hop != ZERO then Some((hop, d))
    else if n.recovery then Some((NthKey(neighbors, env.draw), InRecovery(d, env.pos)))
    else None
  }

  ghost function RecvMyprotocol(n: NodeState, h: ControlHeader, env: Env, now: Time): Received {
    var k := Key(h.addr, h.ts);
    var n1 := n.(ids := Registered(n.ids, ID_LIFETIME, k, now));
    if Holds(Live(n.ids, now), k) then Received(n1, None, [])
    else
      var n2 := n1.(table := n.table[h.addr := EntryOf(h)]);
      if !n.useQueue || RequestQueues.FirstFor(n.queue.queue, h.addr) == |n.queue.queue| then Received(n2, Some(h), [])
      else
        var n3 := n2.(table := Purged(n2.table, now));
        match ReleaseRoute(n3, h, env, now)
        case None => Received(n3.(queue := RequestQueues.DroppedFor(n.queue, h.addr, now)), Some(h), [])
        case Some((hop, d)) =>
          Received(n3.(queue := Drained(n.queue, h.addr, now)), Some(h), Rewrapped(Waiting(n.queue, h.addr, now), hop, d))
  }

  // ---------------------------------------------------------------- forwarding data

  datatype Exchanged = Exchanged(table: Table, header: DataHeader)

  /** The fresher of table and header is copied into the other; an unknown destination is learned from the header. */
  function Exchange(t: Table, dst: Address, d: DataHeader): Exchanged {
    if dst in t && t[dst].ts > d.dstTs then Exchanged(t, WithDst(d, t[dst]))
    else if dst in t && t[dst].ts == d.dstTs then Exchanged(t, d)
    else Exchanged(t[dst := DstEntry(d, dst)], d)
  }

  datatype Forwarded = Forwarded(node: NodeState, send: Option<DataSend>)

  ghost function Forwarding(n: NodeState, p: Packet, env: Env, now: Time): Forwarded {
    if p.data.hop >= MAX_HOP then Forwarded(n, None)
    else
      var x := Exchange(Purged(n.table, now), p.dst, p.data);
      var n1 := n.(table := x.table);
      var neighbors := Neighbors(x.table, env.pos, now).Keys;
      if neighbors == {} then Forwarded(n1, None)
      else Forwarded(n1, ForwardRoute(n1, neighbors, p, x.header.(error := env.error), env, now))
  }

  /** Mode changes and the choice of next hop, once the destination's position is settled. */
  ghost function ForwardRoute(n: NodeState, neighbors: set<Address>, p: Packet, d: DataHeader, env: Env, now: Time):
    Option<DataSend>
  {
    var dstPos := Predict(n.table, p.dst, now);
    var d1 := if d.inRec == 1 && Distance2(env.pos, dstPos) < Distance2(RecPosition(d), dstPos) then Greedy(d) else d;
    var hop := Best(neighbors, n.table, dstPos, env.pos, now);
    if d1.inRec == 0 && hop != ZERO then Some(DataSend(hop, p.(data := Hopped(d1))))
    else
      var d2 := if d1.inRec == 0 then InRecovery(d1, env.pos) else d1;
      if d2.inRec == 1 && n.recovery then Some(DataSend(NthKey(neighbors, env.draw), p.(data := Hopped(d2))))
      else None
  }

  function Hopped(d: DataHeader): DataHeader {
    d.(hop := ToU16(d.hop + 1))
  }

  // ---------------------------------------------------------------- originating and delivering data

  datatype Outcome = Sent(send: DataSend) | Deferred | Discarded
  datatype Routed = Routed(node: NodeState, outcome: Outcome)

  /** The unicast branch. `p` is the packet before its data header exists; its `data` field is overwritten. */
  ghost function RouteOutput(n: NodeState, p: Packet, env: Env, now: Time): Routed {
    var n1 := n.(table := Purged(n.table, now));
    var blank := BLANK.(uid := p.uid, hop := 1);
    if p.dst !in n1.table then
      if n.useQueue then
        Routed(n1.(queue := RequestQueues.Enqueued(n.queue, p.(data := blank), now, MAX_QUEUE_LEN, QUEUE_TIMEOUT)), Deferred)
      else Routed(n1, Discarded)
    else
      var d := WithDst(blank, n1.table[p.dst]).(error := env.error);
      var neighbors := Neighbors(n1.table, env.pos, now).Keys;
      var hop := Best(neighbors, n1.table, Predict(n1.table, p.dst, now), env.pos, now);
      if neighbors == {} then Routed(n1, Discarded)
      else if hop != ZERO then Routed(n1, Sent(DataSend(hop, p.(data := d))))
      else if n.recovery then Routed(n1, Sent(DataSend(NthKey(neighbors, env.draw), p.(data := InRecovery(d, env.pos)))))
      else Routed(n1, Discarded)
  }

  /** A data packet as it is laid out behind its IP header: transport header, data header, payload. */
  function OnWire(p: Packet): seq<byte> {
    p.outer.bits + DataWire(p.data) + p.payload
  }

  /** What local delivery hands up: the packet without its first 36 bytes, which are taken for the data header. */
  function HandedUp(p: Packet): seq<byte> {
    DataRoundTrip(p.data);
    OnWire(p)[DATA_SIZE..]
  }

  /** What becomes of a data packet that arrives from the link. */
  datatype Arrival = Returned | Delivered(bytes: seq<byte>) | Passed(send: Option<DataSend>)
  datatype Arrived = Arrived(node: NodeState, arrival: Arrival)

  /** A packet back at its source is swallowed; one at its destination is delivered; any other is forwarded. */
  ghost function RouteInput(n: NodeState, p: Packet, env: Env, now: Time): Arrived {
    if p.src == n.addr then Arrived(n, Returned)
    else if p.dst == n.addr then Arrived(n, Delivered(HandedUp(p)))
    else var f := Forwarding(n, p, env, now); Arrived(f.node, Passed(f.send))
  }

  // ---------------------------------------------------------------- facts about single events

  /**
   * After the exchange the header and the table agree on the destination's timestamp, which is the larger of the
   * two, or the header's when the table had none. The staler side takes over the whole entry, the other is unchanged;
   * equally fresh ones are both left alone, and nothing else changes.
   */
  lemma ExchangeSettlesOnFreshest(t: Table, dst: Address, d: DataHeader)
    requires dst in t ==> t[dst].addr == dst
    ensures var x := Exchange(t, dst, d);
            && dst in x.table
            && x.header.dstTs == x.table[dst].ts
            && x.header.dstTs == (if dst in t && t[dst].ts > d.dstTs then t[dst].ts else d.dstTs)
            && (dst in t && t[dst].ts > d.dstTs ==> x.table == t && DstEntry(x.header, dst) == t[dst])
            && (dst in t && t[dst].ts == d.dstTs ==> x.table == t && x.header == d)
            && (dst !in t || t[dst].ts < d.dstTs ==> x.table == t[dst := DstEntry(d, dst)] && x.header == d)
            && x.header.(dstX := d.dstX, dstY := d.dstY, dstZ := d.dstZ, dstVx := d.dstVx, dstVy := d.dstVy,
                         dstVz := d.dstVz, dstSign := d.dstSign, dstTs := d.dstTs) == d
  {
    if dst in t {
      DstEntryWithDst(d, t[dst]);
    }
  }

  /** One `CheckChange` sends at most one update, except that a drift after 65535 s is reported twice. */
  lemma CheckSendsTwiceIff(n: NodeState, env: Env, now: Time)
    ensures var c := CheckChange(n, env, now);
            && |c.sent| <= 2
            && (|c.sent| == 2 <==> Drifted(n, env, now) && Seconds(now) >= 0x1_0000)
            && (|c.sent| == 0 <==> !Drifted(n, env, now) && !Overdue(n, now))
  {
    hide Drifted, Advertised, OwnEntry, UpdateHeader, Registered;
    var u := SendUpdate(n, env, now);
    SentNow(n, env, now);
    assert Overdue(u.node, now) <==> Seconds(now) >= 0x1_0000;
  }

  /** An update stamps the node with the current second, cut to 16 bits. */
  lemma SentNow(n: NodeState, env: Env, now: Time)
    ensures SendUpdate(n, env, now).node.lastSendTime == Seconds(now) % 0x1_0000
    ensures Seconds(now) < 0x1_0000 <==> Seconds(now) - Seconds(now) % 0x1_0000 <= MAX_INTERVAL
  {
  }

  /** Before 65536 s, once a check is over the last update is at most 20 s old. */
  lemma CheckLeavesUpdateRecent(n: NodeState, env: Env, now: Time)
    requires Seconds(now) < 0x1_0000
    ensures Seconds(now) - CheckChange(n, env, now).node.lastSendTime <= MAX_INTERVAL
  {
  }

  /**
   * What a received update does to what is known of its origin. The entry is lost exactly when the update is accepted,
   * packets wait for the origin, and the update is 30 s old; otherwise its timestamp falls exactly when the update is
   * accepted and older than the entry.
   */
  lemma ReceptionLowersFreshnessIff(n: NodeState, h: ControlHeader, env: Env, now: Time)
    requires h.addr in n.table
    ensures var after := RecvMyprotocol(n, h, env, now).node.table;
            var accepted := !Holds(Live(n.ids, now), Key(h.addr, h.ts));
            var waited := n.useQueue && RequestQueues.FirstFor(n.queue.queue, h.addr) < |n.queue.queue|;
            && (h.addr !in after <==> accepted && waited && Stale(EntryOf(h), now))
            && (h.addr in after ==>
                  (after[h.addr].ts < n.table[h.addr].ts <==> accepted && h.ts < n.table[h.addr].ts))
  {
    hide GetRightVelocity, Best, NthKey, Neighbors, Predict;
  }

  /** The recovery draw picks a neighbour exactly when it is below the number of neighbours; the draw may equal it. */
  lemma RecoveryPicksNeighborIff(neighbors: set<Address>, draw: nat)
    requires ZERO !in neighbors && draw <= |neighbors|
    ensures NthKey(neighbors, draw) in neighbors <==> draw < |neighbors|
  {
  }

  // ---------------------------------------------------------------- the shape of what is sent

  /** Two data headers say the same about the destination. */
  predicate SameDst(d: DataHeader, e: DataHeader) {
    && d.dstX == e.dstX && d.dstY == e.dstY && d.dstZ == e.dstZ && d.dstVx == e.dstVx && d.dstVy == e.dstVy
    && d.dstVz == e.dstVz && d.dstSign == e.dstSign && d.dstTs == e.dstTs
  }

  /** A greedy send: to a predicted neighbour that is predicted strictly closer to the destination than this node is. */
  ghost predicate GreedySend(t: Table, send: DataSend, pos: Vector, now: Time) {
    var dstPos := Predict(t, send.packet.dst, now);
    && send.packet.data.inRec == 0
    && send.gateway != ZERO && send.gateway in Neighbors(t, pos, now)
    && Distance2(Predict(t, send.gateway, now), dstPos) < Distance2(dstPos, pos)
  }

  /** A send that enters recovery here: this node's truncated position is recorded. */
  ghost predicate EnteringSend(send: DataSend, pos: Vector) {
    send.packet.data.inRec == 1 && RecPosition(send.packet.data) == RecPosition(InRecovery(BLANK, pos))
  }

  /** A send that stays in recovery: the recorded position is kept. */
  ghost predicate StayingSend(send: DataSend, before: DataHeader) {
    send.packet.data.inRec == 1 && before.inRec == 1 && RecPosition(send.packet.data) == RecPosition(before)
  }

  /** Whether this node is nearer to the destination than the point where the packet entered recovery. */
  ghost predicate Escapes(t: Table, p: Packet, pos: Vector, now: Time) {
    var dstPos := Predict(t, p.dst, now);
    p.data.inRec == 1 && Distance2(pos, dstPos) < Distance2(RecPosition(p.data), dstPos)
  }

  lemma BestIsNearer(keys: set<Address>, t: Table, dst: Vector, pos: Vector, now: Time)
    ensures var hop := Best(keys, t, dst, pos, now);
            hop != ZERO ==> hop in keys && Distance2(Predict(t, hop, now), dst) < Distance2(dst, pos)
  {
  }

  /** The three ways a forwarder can pass `p` on. */
  ghost predicate PassedOn(t: Table, p: Packet, send: DataSend, pos: Vector, now: Time) {
    || ((p.data.inRec == 0 || Escapes(t, p, pos, now)) && GreedySend(t, send, pos, now))
    || ((p.data.inRec == 0 || Escapes(t, p, pos, now)) && EnteringSend(send, pos))
    || (!Escapes(t, p, pos, now) && StayingSend(send, p.data))
  }

  lemma RouteShape(n: NodeState, p: Packet, d: DataHeader, env: Env, now: Time)
    requires d.inRec == p.data.inRec && RecPosition(d) == RecPosition(p.data) && d.hop == p.data.hop < MAX_HOP
    ensures var send := ForwardRoute(n, Neighbors(n.table, env.pos, now).Keys, p, d, env, now);
            send.Some? ==>
              && send.value.packet == p.(data := send.value.packet.data)
              && send.value.packet.data.hop == p.data.hop + 1 && SameDst(send.value.packet.data, d)
              && PassedOn(n.table, p, send.value, env.pos, now)
  {
    hide Distance2, Predict, Neighbors, Best, NthKey, Trunc;
    BestIsNearer(Neighbors(n.table, env.pos, now).Keys, n.table, Predict(n.table, p.dst, now), env.pos, now);
  }

  /** Nothing about a forwarded packet changes but its mode, its hop count, its destination fields and the error field. */
  lemma ForwardShape(n: NodeState, p: Packet, env: Env, now: Time)
    ensures var f := Forwarding(n, p, env, now);
            var x := Exchange(Purged(n.table, now), p.dst, p.data);
            && f.node == n.(table := if p.data.hop >= MAX_HOP then n.table else x.table)
            && (f.send.Some? ==>
                  var send := f.send.value;
                  && p.data.hop < MAX_HOP && send.packet == p.(data := send.packet.data)
                  && send.packet.data.hop == p.data.hop + 1 && SameDst(send.packet.data, x.header)
                  && PassedOn(x.table, p, send, env.pos, now))
  {
    if p.data.hop < MAX_HOP {
      var x := Exchange(Purged(n.table, now), p.dst, p.data);
      assert x.header.inRec == p.data.inRec && x.header.hop == p.data.hop && RecPosition(x.header) == RecPosition(p.data);
      RouteShape(n.(table := x.table), p, x.header.(error := env.error), env, now);
      hide Exchange, Purged, Neighbors, ForwardRoute, PassedOn;
    }
  }

  /** A packet a node originates and sends at once. */
  lemma RouteOutputShape(n: NodeState, p: Packet, env: Env, now: Time)
    ensures var r := RouteOutput(n, p, env, now);
            var t := Purged(n.table, now);
            && r.node == n.(table := t, queue := r.node.queue)
            && (r.outcome.Sent? ==>
                  var send := r.outcome.send;
                  && p.dst in t && send.packet == p.(data := send.packet.data)
                  && send.packet.data.hop == 1 && SameDst(send.packet.data, WithDst(BLANK, t[p.dst]))
                  && (GreedySend(t, send, env.pos, now) || EnteringSend(send, env.pos)))
  {
    hide Distance2, Predict, Purged, Neighbors, Best, NthKey, Trunc, SetRightVelocity, RequestQueues.Enqueued;
    var t := Purged(n.table, now);
    BestIsNearer(Neighbors(t, env.pos, now).Keys, t, Predict(t, p.dst, now), env.pos, now);
  }

  /** What a received update does: it is accepted and rebroadcast, or ignored; packets released are for its origin. */
  lemma ReceptionShape(n: NodeState, h: ControlHeader, env: Env, now: Time)
    ensures var r := RecvMyprotocol(n, h, env, now);
            var k := Key(h.addr, h.ts);
            && r.node.ids == Registered(n.ids, ID_LIFETIME, k, now)
            && r.node == n.(ids := r.node.ids, table := r.node.table, queue := r.node.queue)
            && (Holds(Live(n.ids, now), k) ==> r.rebroadcast.None? && r.released == [] && r.node.table == n.table)
            && (!Holds(Live(n.ids, now), k) ==>
                  var t := n.table[h.addr := EntryOf(h)];
                  && r.rebroadcast == Some(h)
                  && (r.node.table == t || r.node.table == Purged(t, now))
                  && (r.released != [] ==> r.node.table == Purged(t, now)))
  {
    hide Best, NthKey, Neighbors, Purged, Predict, GetRightVelocity;
  }

  lemma ReleaseShape(n: NodeState, h: ControlHeader, env: Env, now: Time, i: nat)
    requires i < |RecvMyprotocol(n, h, env, now).released|
    ensures var r := RecvMyprotocol(n, h, env, now);
            var send := r.released[i];
            && send.packet.dst == h.addr
            && send.packet.data.hop == 0 && SameDst(send.packet.data, ReleaseHeader(h, 0))
            && (GreedySend(r.node.table, send, env.pos, now) || EnteringSend(send, env.pos))
  {
    hide Distance2, Predict, Purged, Neighbors, Best, NthKey, Trunc, Filter, GetRightVelocity;
    var r := RecvMyprotocol(n, h, env, now);
    var t := r.node.table;
    var neighbors := Neighbors(t, env.pos, now).Keys;
    var waiting := Waiting(n.queue, h.addr, now);
    BestIsNearer(neighbors, t, Predict(t, h.addr, now), env.pos, now);
    FilterMember(RequestQueues.For(h.addr), RequestQueues.Purged(n.queue, now).queue, waiting[i]);
  }

  /** No handler puts a packet into the queue but `RouteOutput`, which puts the one it was given. */
  lemma ReceptionQueue(n: NodeState, h: ControlHeader, env: Env, now: Time, e: RequestQueues.QueueEntry)
    requires e in RecvMyprotocol(n, h, env, now).node.queue.queue
    ensures e in n.queue.queue
  {
    hide Best, NthKey, Neighbors, Purged, Predict, GetRightVelocity, Filter;
    var live := RequestQueues.Purged(n.queue, now);
    FilterMember(RequestQueues.NotFor(h.addr), live.queue, e);
    if e in live.queue {
      RequestQueues.PurgedMember(n.queue, now, e);
    }
  }

  /** Every released packet was waiting in the queue; only its data header is new. */
  lemma ReleasedFromQueue(n: NodeState, h: ControlHeader, env: Env, now: Time, i: nat)
    requires i < |RecvMyprotocol(n, h, env, now).released|
    ensures var p := RecvMyprotocol(n, h, env, now).released[i].packet;
            exists e :: e in n.queue.queue && p == e.packet.(data := p.data)
  {
    hide Best, NthKey, Neighbors, Purged, Predict, GetRightVelocity, Filter;
    var waiting := Waiting(n.queue, h.addr, now);
    var e := waiting[i];
    FilterMember(RequestQueues.For(h.addr), RequestQueues.Purged(n.queue, now).queue, e);
    RequestQueues.PurgedMember(n.queue, now, e);
    var p := RecvMyprotocol(n, h, env, now).released[i].packet;
    assert p == e.packet.(data := p.data);
  }

  lemma RouteOutputQueue(n: NodeState, p: Packet, env: Env, now: Time, e: RequestQueues.QueueEntry)
    requires e in RouteOutput(n, p, env, now).node.queue.queue
    ensures e in n.queue.queue || e.packet.src == p.src
  {
    hide Best, NthKey, Neighbors, Purged, Predict, SetRightVelocity, RequestQueues.Enqueued;
    var q := p.(data := BLANK.(uid := p.uid, hop := 1));
    if e in RequestQueues.Enqueued(n.queue, q, now, MAX_QUEUE_LEN, QUEUE_TIMEOUT).queue {
      RequestQueues.EnqueuedMember(n.queue, q, now, MAX_QUEUE_LEN, QUEUE_TIMEOUT, e);
    }
  }
}
