/** Static networks: greedy forwarding and recovery together never run a packet in a circle unnoticed. */
module LoopFreedom {
  import opened Machine
  import opened Geometry
  import opened Sequences
  import opened Wire
  import opened RoutingTables
  import opened Handlers
  import opened Networks
  import Provenance
  import PacketPaths

  /** A position with integer coordinates inside the box. */
  datatype Point = Point(x: u16, y: u16, z: u16)

  /** Where every node stands, for good. */
  type Places = map<Address, Point>

  predicate InBox(p: Point) {
    p.x <= MAX_X && p.y <= MAX_Y && p.z <= MAX_Z
  }

  function At(p: Point): Vector {
    IntVector(p.x, p.y, p.z)
  }

  function PlaceOf(places: Places, a: Address): Vector {
    if a in places then At(places[a]) else IntVector(0, 0, 0)
  }

  ghost predicate PlacesOk(places: Places, s: Net) {
    s.nodes.Keys <= places.Keys && forall a :: a in places ==> InBox(places[a])
  }

  /** Node `a` measures its fixed position and no velocity. */
  ghost predicate StandsStill(env: Env, places: Places, a: Address) {
    env.pos == PlaceOf(places, a) && env.vel == IntVector(0, 0, 0)
  }

  ghost predicate StaticStep(s: Net, step: Step, places: Places)
    requires Enabled(s, step)
  {
    match step
    case Start(a, env, jitter, rx) => StandsStill(env, places, a)
    case Check(a, env, jitter, rx) => StandsStill(env, places, a)
    case DeliverControl(i, env, rx) => StandsStill(env, places, s.control[i].to)
    case Originate(a, p, env) => StandsStill(env, places, a)
    case DeliverData(i, env) => StandsStill(env, places, s.data[i].to)
    case _ => true
  }

  ghost predicate StaticRun(s: Net, steps: seq<Step>, places: Places)
    requires Runs(s, steps)
    decreases |steps|
  {
    steps != [] ==> StaticStep(s, steps[0], places) && StaticRun(Next(s, steps[0]), steps[1..], places)
  }

  // ---------------------------------------------------------------- exact tables

  ghost predicate Exact(e: Entry, p: Point) {
    e.x == p.x && e.y == p.y && e.z == p.z && e.vx == 0 && e.vy == 0 && e.vz == 0
  }

  ghost predicate HistoryExact(adverts: seq<Advert>, p: Point) {
    forall i :: 0 <= i < |adverts| ==> Exact(adverts[i].entry, p)
  }

  ghost predicate LogExact(log: map<Address, seq<Advert>>, places: Places) {
    forall a :: a in log ==> a in places && HistoryExact(log[a], places[a])
  }

  ghost predicate TableExact(t: Table, places: Places) {
    forall b :: b in t && !Special(b) ==> b in places && Exact(t[b], places[b])
  }

  lemma TruncOfInt(x: nat)
    ensures Trunc(x as real) == x
  {
  }

  /** A standing node advertises exactly where it stands. */
  lemma AdvertisedExactly(a: Address, env: Env, now: Time, places: Places)
    requires a in places && InBox(places[a]) && StandsStill(env, places, a)
    ensures Exact(Advertised(a, env.pos, env.vel, now), places[a])
  {
    var p := places[a];
    TruncOfInt(p.x);
    TruncOfInt(p.y);
    TruncOfInt(p.z);
    TruncOfInt(0);
  }

  lemma RecordedExactly(p: Point)
    ensures RecPosition(InRecovery(BLANK, At(p))) == At(p)
  {
    TruncOfInt(p.x);
    TruncOfInt(p.y);
    TruncOfInt(p.z);
  }

  lemma TracedIsExact(t: Table, log: map<Address, seq<Advert>>, places: Places)
    requires Provenance.TableTraced(t, log) && LogExact(log, places)
    ensures TableExact(t, places)
  {
    forall b | b in t && !Special(b) ensures b in places && Exact(t[b], places[b]) {
      assert Provenance.Known(log, b, t[b]);
    }
  }

  /** An exact entry is predicted, at any time, where the node stands. */
  lemma PredictedExactly(t: Table, b: Address, places: Places, now: Time)
    requires TableExact(t, places) && b in t && !Special(b) && InBox(places[b])
    ensures Predict(t, b, now) == PlaceOf(places, b)
  {
    var e, dt := t[b], Elapsed(now, t[b].ts);
    assert dt * 0 == 0;
    NoWrap(e.x);
    NoWrap(e.y);
    NoWrap(e.z);
  }

  // ---------------------------------------------------------------- the potential

  /** Squared distance of node `a` to `dst`. */
  function Away(places: Places, a: Address, dst: Address): real {
    Distance2(PlaceOf(places, a), PlaceOf(places, dst))
  }

  /** The potential of a transmission: distance of the receiver if greedy, of the recovery point if recovering. */
  function Potential(places: Places, h: Hop, dst: Address): real {
    if h.header.inRec == 1 then Distance2(RecPosition(h.header), PlaceOf(places, dst)) else Away(places, h.to, dst)
  }

  ghost predicate SameRecovery(d: DataHeader, e: DataHeader) {
    d.inRec == 1 && e.inRec == 1 && RecPosition(d) == RecPosition(e)
  }

  /** A greedy transmission goes closer to the destination than its sender is. */
  ghost predicate GoesDown(places: Places, h: Hop, dst: Address) {
    h.header.inRec == 0 ==> Potential(places, h, dst) < Away(places, h.from, dst)
  }

  /** How a later transmission of a packet relates to an earlier one. */
  ghost predicate Below(places: Places, later: Hop, earlier: Hop, dst: Address) {
    && Potential(places, later, dst) <= Potential(places, earlier, dst)
    && (later.header.inRec == 0 ==> Away(places, later.from, dst) <= Potential(places, earlier, dst))
    && (earlier.header.inRec == 1 ==>
          || Potential(places, later, dst) < Potential(places, earlier, dst)
          || SameRecovery(earlier.header, later.header))
  }

  /** What the trail of a packet keeps in a static network. */
  ghost predicate Descends(places: Places, trail: seq<Hop>, dst: Address) {
    && (forall i :: 0 < i < |trail| ==> GoesDown(places, trail[i], dst))
    && (forall i, j :: 0 <= i < j < |trail| ==> Below(places, trail[j], trail[i], dst))
  }

  /** How one more transmission relates to the one before it. */
  ghost predicate StepsDown(places: Places, last: Hop, next: Hop, dst: Address) {
    GoesDown(places, next, dst) && Below(places, next, last, dst)
  }

  lemma BelowTransitive(places: Places, last: Hop, middle: Hop, first: Hop, dst: Address)
    requires Below(places, last, middle, dst) && Below(places, middle, first, dst)
    ensures Below(places, last, first, dst)
  {
    hide Potential, Away, SameRecovery;
    if SameRecovery(first.header, middle.header) {
      SameRecoveryTransitive(first.header, middle.header, last.header);
    }
  }

  lemma ExtendDescends(places: Places, trail: seq<Hop>, next: Hop, dst: Address)
    requires trail != [] && Descends(places, trail, dst)
    requires StepsDown(places, trail[|trail| - 1], next, dst)
    ensures Descends(places, trail + [next], dst)
  {
    hide GoesDown, Below;
    var n := |trail|;
    forall i | 0 <= i < n ensures Below(places, next, trail[i], dst) {
      if i < n - 1 {
        BelowTransitive(places, next, trail[n - 1], trail[i], dst);
      }
    }
  }

  lemma SameRecoveryTransitive(d: DataHeader, e: DataHeader, f: DataHeader)
    requires SameRecovery(d, e)
    ensures e.inRec == 1
    ensures SameRecovery(e, f) ==> SameRecovery(d, f)
  {
  }

  /** A greedy send made with exact knowledge of the destination goes strictly closer to it. */
  lemma GreedyIsCloser(places: Places, t: Table, from: Address, send: DataSend, now: Time)
    requires TableExact(t, places) && (forall a :: a in places ==> InBox(places[a]))
    requires !Special(send.packet.dst) && send.packet.dst in t
    requires GreedySend(t, send, PlaceOf(places, from), now)
    ensures Away(places, send.gateway, send.packet.dst) < Away(places, from, send.packet.dst)
  {
    var dst := send.packet.dst;
    PredictedExactly(t, dst, places, now);
    PredictedExactly(t, send.gateway, places, now);
    DistanceSymmetric(PlaceOf(places, dst), PlaceOf(places, from));
  }

  /** Every forwarding step goes down: greedy strictly, entering and leaving recovery never up, staying level. */
  lemma ForwardStepsDown(places: Places, n: NodeState, c: DataCopy, env: Env, now: Time)
    requires PacketPaths.PathOk(c) && n.addr == c.to && c.to in places && !Special(c.packet.dst)
    requires forall a :: a in places ==> InBox(places[a])
    requires StandsStill(env, places, c.to)
    requires var x := Exchange(Purged(n.table, now), c.packet.dst, c.packet.data);
             TableExact(x.table, places)
    requires Forwarding(n, c.packet, env, now).send.Some?
    ensures var send := Forwarding(n, c.packet, env, now).send.value;
            StepsDown(places, c.trail[|c.trail| - 1], Hop(c.to, send.gateway, send.packet.data), c.packet.dst)
  {
    var p, dst := c.packet, c.packet.dst;
    var x := Exchange(Purged(n.table, now), dst, p.data);
    var last := c.trail[|c.trail| - 1];
    ForwardShape(n, p, env, now);
    var send := Forwarding(n, p, env, now).send.value;
    assert dst in x.table;
    hide Forwarding, Exchange;
    PassedOnStepsDown(places, x.table, c, send, now);
  }

  lemma PassedOnStepsDown(places: Places, t: Table, c: DataCopy, send: DataSend, now: Time)
    requires PacketPaths.PathOk(c) && c.to in places && !Special(c.packet.dst) && c.packet.dst in t
    requires TableExact(t, places) && (forall a :: a in places ==> InBox(places[a]))
    requires send.packet.dst == c.packet.dst
    requires PassedOn(t, c.packet, send, PlaceOf(places, c.to), now)
    ensures StepsDown(places, c.trail[|c.trail| - 1], Hop(c.to, send.gateway, send.packet.data), c.packet.dst)
  {
    var p, dst, here := c.packet, c.packet.dst, PlaceOf(places, c.to);
    var last := c.trail[|c.trail| - 1];
    assert last.to == c.to && last.header == p.data && p.data.inRec <= 1;
    PredictedExactly(t, dst, places, now);
    if GreedySend(t, send, here, now) {
      GreedyIsCloser(places, t, c.to, send, now);
    } else if EnteringSend(send, here) {
      RecordedExactly(places[c.to]);
    }
    hide Distance2, GreedySend, Predict;
  }

  // ---------------------------------------------------------------- every step, every run

  /** The invariant of a static network. */
  ghost predicate Still(s: Net, places: Places) {
    && PlacesOk(places, s) && Provenance.Traced(s) && PacketPaths.PathsOk(s)
    && LogExact(s.log, places)
    && (forall c :: c in s.data ==> Descends(places, c.trail, c.packet.dst))
  }

  lemma AdvertiseLogExact(s: Net, a: Address, env: Env, rx: seq<Address>, places: Places)
    requires LogExact(s.log, places) && a in s.nodes && a in places && InBox(places[a]) && StandsStill(env, places, a)
    ensures LogExact(Advertise(s, a, SendUpdate(s.nodes[a], env, s.now), env, rx).log, places)
  {
    hide Advertised, Exact, SendUpdate;
    AdvertisedExactly(a, env, s.now, places);
    assert HistoryExact(History(s.log, a) + [Advert(Advertised(a, env.pos, env.vel, s.now), s.now)], places[a]);
  }

  lemma RecheckLogExact(s: Net, a: Address, env: Env, rx: seq<Address>, places: Places)
    requires LogExact(s.log, places) && a in s.nodes && a in places && InBox(places[a]) && StandsStill(env, places, a)
    ensures LogExact(Recheck(s, a, env, rx).log, places)
  {
    hide LogExact, SendUpdate, Drifted, Overdue;
    AdvertiseLogExact(s, a, env, rx, places);
    if Drifted(s.nodes[a], env, s.now) {
      AdvertiseLogExact(Advertise(s, a, SendUpdate(s.nodes[a], env, s.now), env, rx), a, env, rx, places);
    }
  }

  lemma StepLogExact(s: Net, step: Step, places: Places)
    requires Still(s, places) && Enabled(s, step) && StaticStep(s, step, places)
    ensures LogExact(Next(s, step).log, places) && PlacesOk(places, Next(s, step))
  {
    hide LogExact, SendUpdate, Drifted, Overdue, RecvMyprotocol, RouteOutput, Forwarding, Recheck;
    if step.Start? {
      AdvertiseLogExact(s, step.node, step.env, step.rx, places);
    } else if step.Check? {
      RecheckLogExact(s, step.node, step.env, step.rx, places);
      RecheckRunsCheckChange(s, step.node, step.env, step.rx);
    }
  }

  lemma ForwardDescends(s: Net, i: nat, env: Env, places: Places)
    requires Still(s, places) && Enabled(s, DeliverData(i, env)) && StandsStill(env, places, s.data[i].to)
    ensures var c := s.data[i];
            var f := Forwarding(s.nodes[c.to], c.packet, env, s.now);
            f.send.Some? ==> Descends(places, Launch(c.to, f.send.value, c.trail, c.released).trail, f.send.value.packet.dst)
  {
    hide Forwarding, Exchange, StepsDown, Descends, Potential, PacketPaths.PathOk, Provenance.TableTraced, TableExact, LogExact,
      Provenance.Known, Provenance.LogOwned, DstEntry;
    var c := s.data[i];
    assert c in s.data;
    var n := s.nodes[c.to];
    var f, live := Forwarding(n, c.packet, env, s.now), Purged(n.table, s.now);
    if f.send.Some? {
      PurgedTraced(n.table, s.now, s.log);
      Provenance.ExchangeTraced(live, c.packet, s.log, s.nodes.Keys);
      TracedIsExact(Exchange(live, c.packet.dst, c.packet.data).table, s.log, places);
      ForwardStepsDown(places, n, c, env, s.now);
      ForwardShape(n, c.packet, env, s.now);
      HasTrail(c);
      ExtendDescends(places, c.trail, Hop(c.to, f.send.value.gateway, f.send.value.packet.data), c.packet.dst);
    }
  }

  lemma PurgedTraced(t: Table, now: Time, log: map<Address, seq<Advert>>)
    requires Provenance.TableTraced(t, log)
    ensures Provenance.TableTraced(Purged(t, now), log)
  {
  }

  lemma HasTrail(c: DataCopy)
    requires PacketPaths.PathOk(c)
    ensures c.trail != []
  {
  }

  lemma StepDescends(s: Net, step: Step, places: Places, d: DataCopy)
    requires Still(s, places) && Enabled(s, step) && StaticStep(s, step, places) && d in Next(s, step).data
    ensures Descends(places, d.trail, d.packet.dst)
  {
    hide Descends, RecvMyprotocol, RouteOutput, Forwarding, Drifted, Overdue;
    match step
    case Tick(to) =>
    case Start(a, env, jitter, rx) =>
    case Check(a, env, jitter, rx) =>
    case LoseControl(i) =>
    case LoseData(i) => WithoutMember(s.data, i, d);
    case DeliverControl(i, env, rx) =>
      if d !in s.data {
        var j := ReceivedData(s, i, env, rx, d);
        assert d.trail == [d.trail[0]];
        SingleDescends(places, d.trail[0], d.packet.dst);
      }
    case Originate(a, p, env) =>
      if d !in s.data {
        var r := RouteOutput(s.nodes[a], p, env, s.now);
        assert d == Launch(a, r.outcome.send, [], false);
        assert d.trail == [d.trail[0]];
        SingleDescends(places, d.trail[0], d.packet.dst);
      }
    case DeliverData(i, env) =>
      if d in Without(s.data, i) {
        WithoutMember(s.data, i, d);
      } else {
        ForwardDescends(s, i, env, places);
      }
  }

  lemma SingleDescends(places: Places, h: Hop, dst: Address)
    ensures Descends(places, [h], dst)
  {
  }

  lemma StepStill(s: Net, step: Step, places: Places)
    requires Still(s, places) && Enabled(s, step) && StaticStep(s, step, places)
    ensures Still(Next(s, step), places)
  {
    hide Next, Descends, LogExact, PlacesOk, Provenance.Traced, PacketPaths.PathsOk;
    StepLogExact(s, step, places);
    Provenance.StepTraced(s, step);
    PacketPaths.TracedIsOwned(s);
    PacketPaths.StepPathsOk(s, step);
    forall d | d in Next(s, step).data ensures Descends(places, d.trail, d.packet.dst) {
      StepDescends(s, step, places, d);
    }
  }

  lemma {:induction false} RunStill(s: Net, steps: seq<Step>, places: Places)
    requires Still(s, places) && Runs(s, steps) && StaticRun(s, steps, places)
    ensures Still(Reached(s, steps), places)
    decreases |steps|
  {
    if steps != [] {
      StepStill(s, steps[0], places);
      RunStill(Next(s, steps[0]), steps[1..], places);
    }
  }

  lemma InitStill(s: Net, places: Places)
    requires Init(s) && PlacesOk(places, s)
    ensures Still(s, places)
  {
    Provenance.InitTraced(s);
  }

  // ---------------------------------------------------------------- the theorems

  /** Along a packet's path the potential never rises. */
  lemma PotentialNeverRises(s: Net, steps: seq<Step>, places: Places, c: DataCopy, i: nat, j: nat)
    requires Init(s) && PlacesOk(places, s) && Runs(s, steps) && StaticRun(s, steps, places)
    requires c in Reached(s, steps).data && i < j < |c.trail|
    ensures Potential(places, c.trail[j], c.packet.dst) <= Potential(places, c.trail[i], c.packet.dst)
  {
    InitStill(s, places);
    RunStill(s, steps, places);
  }

  /** No node makes a greedy send of the same packet twice, however often recovery mode comes in between. */
  lemma NoSecondGreedySend(s: Net, steps: seq<Step>, places: Places, c: DataCopy, i: nat, j: nat)
    requires Init(s) && PlacesOk(places, s) && Runs(s, steps) && StaticRun(s, steps, places)
    requires c in Reached(s, steps).data && i < j < |c.trail|
    requires c.trail[i].header.inRec == 0 && c.trail[j].header.inRec == 0
    ensures c.trail[i].from != c.trail[j].from
  {
    InitStill(s, places);
    RunStill(s, steps, places);
    var dst := c.packet.dst;
    if i > 0 {
      assert Potential(places, c.trail[i], dst) < Away(places, c.trail[i].from, dst);
      assert Away(places, c.trail[j].from, dst) <= Potential(places, c.trail[i], dst);
    }
  }

  /** Transmission `i` enters recovery: the packet was not recovering from this point before. */
  ghost predicate Enters(c: DataCopy, i: nat)
    requires i < |c.trail|
  {
    c.trail[i].header.inRec == 1 && (i == 0 || !SameRecovery(c.trail[i - 1].header, c.trail[i].header))
  }

  /** Successive recovery entry points are strictly closer to the destination. */
  lemma RecoveryEntriesApproach(s: Net, steps: seq<Step>, places: Places, c: DataCopy, i: nat, j: nat)
    requires Init(s) && PlacesOk(places, s) && Runs(s, steps) && StaticRun(s, steps, places)
    requires c in Reached(s, steps).data && i < j < |c.trail|
    requires Enters(c, i) && Enters(c, j)
    ensures Distance2(RecPosition(c.trail[j].header), PlaceOf(places, c.packet.dst))
          < Distance2(RecPosition(c.trail[i].header), PlaceOf(places, c.packet.dst))
  {
    InitStill(s, places);
    RunStill(s, steps, places);
    var dst := c.packet.dst;
    var before, at := c.trail[j - 1], c.trail[j];
    assert Potential(places, at, dst) <= Potential(places, before, dst);
    assert i < j - 1 ==> Potential(places, before, dst) < Potential(places, c.trail[i], dst)
                         || SameRecovery(c.trail[i].header, before.header);
  }

  /** A greedy send by the packet's own source, sent directly, goes strictly closer to the destination. */
  lemma DirectSendIsCloser(s: Net, a: Address, p: Packet, env: Env, places: Places)
    requires Still(s, places) && Enabled(s, Originate(a, p, env)) && StandsStill(env, places, a)
    ensures var r := RouteOutput(s.nodes[a], p, env, s.now);
            r.outcome.Sent? && r.outcome.send.packet.data.inRec == 0 ==>
              Away(places, r.outcome.send.gateway, p.dst) < Away(places, a, p.dst)
  {
    var n := s.nodes[a];
    RouteOutputShape(n, p, env, s.now);
    TracedIsExact(n.table, s.log, places);
    var r := RouteOutput(n, p, env, s.now);
    if r.outcome.Sent? && r.outcome.send.packet.data.inRec == 0 {
      GreedyIsCloser(places, Purged(n.table, s.now), a, r.outcome.send, s.now);
    }
  }

  /**
   * A greedy queue release goes strictly closer too, provided the update that triggers it is younger than the
   * table's 30 s: an older one is purged again before the next hop is chosen, and the destination is then
   * predicted at (-1, -1, -1).
   */
  lemma ReleaseIsCloserIfFresh(s: Net, i: nat, env: Env, rx: seq<Address>, places: Places, j: nat)
    requires Still(s, places) && Enabled(s, DeliverControl(i, env, rx)) && StandsStill(env, places, s.control[i].to)
    requires j < |RecvMyprotocol(s.nodes[s.control[i].to], s.control[i].header, env, s.now).released|
    requires !Stale(EntryOf(s.control[i].header), s.now)
    ensures var c := s.control[i];
            var send := RecvMyprotocol(s.nodes[c.to], c.header, env, s.now).released[j];
            send.packet.data.inRec == 0 ==> Away(places, send.gateway, c.header.addr) < Away(places, c.to, c.header.addr)
  {
    hide RecvMyprotocol, Stale, EntryOf;
    var c := s.control[i];
    assert c in s.control;
    var n := s.nodes[c.to];
    var r := RecvMyprotocol(n, c.header, env, s.now);
    ReceptionShape(n, c.header, env, s.now);
    ReleaseShape(n, c.header, env, s.now, j);
    Provenance.ReceptionTraced(n, c.header, env, s.now, s.log);
    TracedIsExact(r.node.table, s.log, places);
    if r.released[j].packet.data.inRec == 0 {
      GreedyIsCloser(places, r.node.table, c.to, r.released[j], s.now);
    }
  }

  /** The aim of a greedy release whose update is too old for the table: outside the box, whatever the destination. */
  lemma StaleReleaseAimsOutside(n: NodeState, h: ControlHeader, env: Env, now: Time, j: nat)
    requires j < |RecvMyprotocol(n, h, env, now).released| && Stale(EntryOf(h), now)
    ensures var r := RecvMyprotocol(n, h, env, now);
            var gateway := r.released[j].gateway;
            r.released[j].packet.data.inRec == 0 ==>
              Distance2(Predict(r.node.table, gateway, now), IntVector(-1, -1, -1)) < Distance2(IntVector(-1, -1, -1), env.pos)
  {
    hide *;
    ReceptionShape(n, h, env, now);
    ReleaseShape(n, h, env, now, j);
    var r := RecvMyprotocol(n, h, env, now);
    UnknownOnceStale(n.table, h, now);
    assert r.released != [];
    if r.released[j].packet.data.inRec == 0 {
      GreedyNotEntering(r.released[j], env.pos);
      GreedyAims(r.node.table, r.released[j], env.pos, now);
    }
  }

  lemma UnknownOnceStale(t: Table, h: ControlHeader, now: Time)
    requires Stale(EntryOf(h), now)
    ensures Predict(Purged(t[h.addr := EntryOf(h)], now), h.addr, now) == IntVector(-1, -1, -1)
  {
    hide EntryOf, PredictEntry;
  }

  lemma EnteringMode(send: DataSend, pos: Vector)
    requires EnteringSend(send, pos)
    ensures send.packet.data.inRec == 1
  {
  }

  lemma GreedyNotEntering(send: DataSend, pos: Vector)
    requires send.packet.data.inRec == 0
    ensures !EnteringSend(send, pos)
  {
    hide *;
    if EnteringSend(send, pos) {
      EnteringMode(send, pos);
    }
  }

  lemma GreedyAims(t: Table, send: DataSend, pos: Vector, now: Time)
    requires GreedySend(t, send, pos, now)
    ensures var dstPos := Predict(t, send.packet.dst, now);
            Distance2(Predict(t, send.gateway, now), dstPos) < Distance2(dstPos, pos)
  {
    hide Distance2, Predict, Neighbors;
  }
}
