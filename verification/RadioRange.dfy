/** Static networks: whatever mode a packet is in, it is only ever handed to a node within 250 m. */
module RadioRange {
  import opened Machine
  import opened Geometry
  import opened Sequences
  import opened Wire
  import opened IdCaches
  import opened RoutingTables
  import opened Handlers
  import opened Decisions
  import opened Networks
  import opened LoopFreedom
  import PacketPaths
  import Provenance

  /** The sender and the receiver of a transmission stand within 250 m, unless the draw left the receiver undefined. */
  ghost predicate InReach(places: Places, h: Hop) {
    h.to != ZERO ==> Distance2(PlaceOf(places, h.from), PlaceOf(places, h.to)) <= 250.0 * 250.0
  }

  ghost predicate AllInReach(s: Net, places: Places) {
    forall c :: c in s.data ==> forall i :: 0 <= i < |c.trail| ==> InReach(places, c.trail[i])
  }

  /** A neighbour by exact tables stands within reach. */
  lemma NeighborInReach(places: Places, t: Table, from: Address, to: Address, now: Time, header: DataHeader)
    requires TableExact(t, places) && forall a :: a in places ==> InBox(places[a])
    requires to == ZERO || to in Neighbors(t, PlaceOf(places, from), now)
    ensures InReach(places, Hop(from, to, header))
  {
    hide Distance2, Predict, Neighbors, Exact;
    if to != ZERO {
      NeighborsIff(t, PlaceOf(places, from), now, to);
      PredictedExactly(t, to, places, now);
      DistanceSymmetric(PlaceOf(places, from), PlaceOf(places, to));
    }
  }

  lemma ChosenIsNeighbor(send: DataSend, t: Table, pos: Vector, now: Time, draw: nat)
    requires GreedyChoice(send, t, pos, now) || RandomChoice(send, t, pos, now, draw)
    ensures send.gateway == ZERO || send.gateway in Neighbors(t, pos, now)
  {
    hide Neighbors, Predict, Rank;
  }

  /** No table has an entry for the zero address. */
  lemma ZeroUnknown(t: Table, s: Net)
    requires Provenance.Traced(s) && Provenance.TableTraced(t, s.log)
    ensures ZERO !in t
    ensures forall b :: b in t && !Special(b) ==> t[b].addr == b
  {
    ZeroIsNobody(s);
    if ZERO in t {
      assert Provenance.Known(s.log, ZERO, t[ZERO]);
      Provenance.KnownOwned(s.log, s.nodes.Keys, ZERO, t[ZERO]);
    }
    forall b | b in t && !Special(b) ensures t[b].addr == b {
      Provenance.KnownOwned(s.log, s.nodes.Keys, b, t[b]);
    }
  }

  lemma ZeroIsNobody(s: Net)
    requires Provenance.Traced(s)
    ensures ZERO !in s.nodes
  {
    forall a | a in s.nodes ensures a != ZERO {
      assert Provenance.NodeTraced(s.nodes[a], a, s.log);
    }
  }

  lemma DstNotZero(s: Net, a: Address, e: Entry)
    requires Provenance.Traced(s) && Provenance.Known(s.log, a, e)
    ensures a != ZERO
  {
    ZeroIsNobody(s);
    Provenance.KnownOwned(s.log, s.nodes.Keys, a, e);
  }

  lemma ForwardInReach(s: Net, i: nat, env: Env, places: Places)
    requires Still(s, places) && Enabled(s, DeliverData(i, env)) && StandsStill(env, places, s.data[i].to)
    ensures var c := s.data[i];
            var f := Forwarding(s.nodes[c.to], c.packet, env, s.now);
            f.send.Some? ==> InReach(places, Hop(c.to, f.send.value.gateway, f.send.value.packet.data))
  {
    hide Forwarding, Exchange, Provenance.Known, Provenance.LogOwned, DstEntry, InReach, Distance2, Neighbors, HasCloser, Purged,
      GreedyChoice, RandomChoice, Rewritten, Nearer, PacketPaths.PathOk, Descends, LogExact, Exact;
    var c := s.data[i];
    assert c in s.data;
    var n := s.nodes[c.to];
    var live := Purged(n.table, s.now);
    var x := Exchange(live, c.packet.dst, c.packet.data);
    PurgedTraced(n.table, s.now, s.log);
    Provenance.ExchangeTraced(live, c.packet, s.log, s.nodes.Keys);
    TracedIsExact(x.table, s.log, places);
    ZeroUnknown(n.table, s);
    DstNotZero(s, c.packet.dst, DstEntry(c.packet.data, c.packet.dst));
    ForwardSendsIff(n, c.packet, env, s.now);
    var f := Forwarding(n, c.packet, env, s.now);
    if f.send.Some? {
      ChosenIsNeighbor(f.send.value, x.table, env.pos, s.now, env.draw);
      NeighborInReach(places, x.table, c.to, f.send.value.gateway, s.now, f.send.value.packet.data);
    }
  }

  lemma OriginateInReach(s: Net, a: Address, p: Packet, env: Env, places: Places)
    requires Still(s, places) && Enabled(s, Originate(a, p, env)) && StandsStill(env, places, a)
    ensures var r := RouteOutput(s.nodes[a], p, env, s.now);
            r.outcome.Sent? ==> InReach(places, Hop(a, r.outcome.send.gateway, r.outcome.send.packet.data))
  {
    hide RouteOutput, Provenance.Known, Provenance.LogOwned, InReach, Distance2, Neighbors, HasCloser, Purged,
      GreedyChoice, RandomChoice, Fresh, PacketPaths.PathsOk, Descends, LogExact, Exact;
    var n := s.nodes[a];
    var t := Purged(n.table, s.now);
    PurgedTraced(n.table, s.now, s.log);
    TracedIsExact(t, s.log, places);
    ZeroUnknown(n.table, s);
    RouteOutputSendsIff(n, p, env, s.now);
    var r := RouteOutput(n, p, env, s.now);
    if r.outcome.Sent? {
      ChosenIsNeighbor(r.outcome.send, t, env.pos, s.now, env.draw);
      NeighborInReach(places, t, a, r.outcome.send.gateway, s.now, r.outcome.send.packet.data);
    }
  }

  lemma ReleaseInReach(s: Net, i: nat, env: Env, rx: seq<Address>, places: Places, j: nat)
    requires Still(s, places) && Enabled(s, DeliverControl(i, env, rx)) && StandsStill(env, places, s.control[i].to)
    requires j < |RecvMyprotocol(s.nodes[s.control[i].to], s.control[i].header, env, s.now).released|
    ensures var c := s.control[i];
            var send := RecvMyprotocol(s.nodes[c.to], c.header, env, s.now).released[j];
            InReach(places, Hop(c.to, send.gateway, send.packet.data))
  {
    hide RecvMyprotocol, EntryOf, Provenance.Known, Provenance.LogOwned, InReach, Distance2, Neighbors, HasCloser, Purged,
      Released, Waiting, Drained, PacketPaths.PathsOk, Descends, LogExact, Exact, Live, Holds, Registered;
    var c := s.control[i];
    assert c in s.control;
    var n := s.nodes[c.to];
    var r := RecvMyprotocol(n, c.header, env, s.now);
    ReceptionWithoutRelease(n, c.header, env, s.now);
    Provenance.ReceptionTraced(n, c.header, env, s.now, s.log);
    TracedIsExact(r.node.table, s.log, places);
    ZeroUnknown(n.table, s);
    DstNotZero(s, c.header.addr, EntryOf(c.header));
    ReceptionSettlesWaiting(n, c.header, env, s.now);
    ReleasedTo(n, c.header, env, s.now, j);
    NeighborInReach(places, r.node.table, c.to, r.released[j].gateway, s.now, r.released[j].packet.data);
  }

  lemma ReleasedTo(n: NodeState, h: ControlHeader, env: Env, now: Time, j: nat)
    requires Settles(n, h, env, now, RecvMyprotocol(n, h, env, now))
    requires j < |RecvMyprotocol(n, h, env, now).released|
    ensures var r := RecvMyprotocol(n, h, env, now);
            r.released[j].gateway == ZERO || r.released[j].gateway in Neighbors(r.node.table, env.pos, now)
  {
    hide RecvMyprotocol, EntryOf, Neighbors, HasCloser, Purged, Released, Waiting, Drained, Predict, Rank;
  }

  // ---------------------------------------------------------------- every step, every run

  lemma StepInReach(s: Net, step: Step, places: Places, d: DataCopy, k: nat)
    requires Still(s, places) && AllInReach(s, places) && Enabled(s, step) && StaticStep(s, step, places)
    requires d in Next(s, step).data && k < |d.trail|
    ensures InReach(places, d.trail[k])
  {
    hide InReach, RecvMyprotocol, RouteOutput, Forwarding, Drifted, Overdue, Still;
    match step
    case Tick(to) =>
    case Start(a, env, jitter, rx) =>
    case Check(a, env, jitter, rx) =>
    case LoseControl(i) =>
    case LoseData(i) => WithoutMember(s.data, i, d);
    case DeliverControl(i, env, rx) =>
      if d !in s.data {
        var j := ReceivedData(s, i, env, rx, d);
        ReleaseInReach(s, i, env, rx, places, j);
      }
    case Originate(a, p, env) =>
      if d !in s.data {
        assert d == Launch(a, RouteOutput(s.nodes[a], p, env, s.now).outcome.send, [], false);
        OriginateInReach(s, a, p, env, places);
      }
    case DeliverData(i, env) =>
      if d in Without(s.data, i) {
        WithoutMember(s.data, i, d);
      } else {
        assert s.data[i] in s.data;
        ForwardInReach(s, i, env, places);
      }
  }

  lemma {:induction false} RunInReach(s: Net, steps: seq<Step>, places: Places)
    requires Still(s, places) && AllInReach(s, places) && Runs(s, steps) && StaticRun(s, steps, places)
    ensures AllInReach(Reached(s, steps), places)
    decreases |steps|
  {
    hide Still, StaticStep, InReach, Next, Enabled;
    if steps != [] {
      StepStill(s, steps[0], places);
      forall d, k | d in Next(s, steps[0]).data && 0 <= k < |d.trail| ensures InReach(places, d.trail[k]) {
        StepInReach(s, steps[0], places, d, k);
      }
      RunInReach(Next(s, steps[0]), steps[1..], places);
    }
  }

  /** In every run of a static network every transmission, greedy or in recovery, direct or released, spans at most 250 m. */
  lemma TransmissionsInReach(s: Net, steps: seq<Step>, places: Places, c: DataCopy, i: nat)
    requires Init(s) && PlacesOk(places, s) && Runs(s, steps) && StaticRun(s, steps, places)
    requires c in Reached(s, steps).data && i < |c.trail| && c.trail[i].to != ZERO
    ensures Distance2(PlaceOf(places, c.trail[i].from), PlaceOf(places, c.trail[i].to)) <= 250.0 * 250.0
  {
    hide Still, Runs, StaticRun, Reached, Distance2;
    InitStill(s, places);
    RunInReach(s, steps, places);
    assert InReach(places, c.trail[i]);
  }
}
