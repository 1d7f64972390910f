/** What holds along the path of every data packet: hop counts, freshness, and an unbroken chain of transmissions. */
module PacketPaths {
  import opened Machine
  import opened Sequences
  import opened IdCaches
  import opened RoutingTables
  import opened Handlers
  import opened Networks
  import Provenance

  /** The hop count a transmission carries: a direct send starts at 1, a queue release at 0. */
  function HopAt(i: nat, released: bool): nat {
    if released then i else i + 1
  }

  /** The trail starts at the packet's source and, being swallowed there on return, never leaves it again. */
  ghost predicate PathOk(c: DataCopy) {
    && c.trail != [] && c.trail[0].from == c.packet.src
    && (forall i :: 0 < i < |c.trail| ==> c.trail[i].from != c.packet.src)
    && c.trail[|c.trail| - 1].to == c.to && c.trail[|c.trail| - 1].header == c.packet.data
    && (forall i :: 0 < i < |c.trail| ==> c.trail[i].from == c.trail[i - 1].to)
    && (forall i :: 0 <= i < |c.trail| ==> c.trail[i].header.hop == HopAt(i, c.released) <= MAX_HOP)
    && (forall i :: 0 <= i < |c.trail| ==> c.trail[i].header.inRec <= 1)
    && (forall i, j :: 0 <= i <= j < |c.trail| ==> c.trail[i].header.dstTs <= c.trail[j].header.dstTs)
  }

  /** Nodes queue only packets of their own. */
  ghost predicate QueueOwned(n: NodeState) {
    forall e :: e in n.queue.queue ==> e.packet.src == n.addr
  }

  ghost predicate PathsOk(s: Net) {
    && (forall c :: c in s.data ==> PathOk(c))
    && (forall a :: a in s.nodes ==> s.nodes[a].addr == a && QueueOwned(s.nodes[a]))
  }

  lemma LaunchOk(from: Address, send: DataSend, released: bool)
    requires from == send.packet.src
    requires send.packet.data.hop == HopAt(0, released) && send.packet.data.inRec <= 1
    ensures PathOk(Launch(from, send, [], released))
  {
  }

  /** Forwarding appends one transmission, one hop higher and no staler. */
  lemma ForwardOk(n: NodeState, c: DataCopy, env: Env, now: Time)
    requires PathOk(c) && n.addr == c.to
    requires forall b :: b in n.table && !Special(b) ==> n.table[b].addr == b
    requires !Special(c.packet.dst) && c.packet.src != c.to
    ensures var f := Forwarding(n, c.packet, env, now);
            f.send.Some? ==> PathOk(Launch(c.to, f.send.value, c.trail, c.released))
  {
    var live := Purged(n.table, now);
    ForwardShape(n, c.packet, env, now);
    ExchangeSettlesOnFreshest(live, c.packet.dst, c.packet.data);
    var f, x := Forwarding(n, c.packet, env, now), Exchange(live, c.packet.dst, c.packet.data);
    hide Forwarding, Exchange, Purged;
    if f.send.Some? {
      var send := f.send.value;
      assert x.header.dstTs >= c.packet.data.dstTs;
      ExtendOk(c, send);
    }
  }

  lemma ExtendOk(c: DataCopy, send: DataSend)
    requires PathOk(c) && c.packet.data.hop < MAX_HOP
    requires send.packet.src == c.packet.src != c.to
    requires send.packet.data.hop == c.packet.data.hop + 1
    requires send.packet.data.inRec <= 1 && send.packet.data.dstTs >= c.packet.data.dstTs
    ensures PathOk(Launch(c.to, send, c.trail, c.released))
  {
    var n := |c.trail|;
    var d := Launch(c.to, send, c.trail, c.released);
    var last := c.trail[n - 1];
    assert d.trail == c.trail + [Hop(c.to, send.gateway, send.packet.data)];
    assert last.header.hop == HopAt(n - 1, c.released);
    forall i | 0 <= i < |d.trail|
      ensures d.trail[i].header.hop == HopAt(i, d.released) <= MAX_HOP && d.trail[i].header.inRec <= 1
      ensures i > 0 ==> d.trail[i].from == d.trail[i - 1].to && d.trail[i].from != d.packet.src
    {
      assert i < n ==> d.trail[i] == c.trail[i];
    }
    forall i, j | 0 <= i <= j < |d.trail| ensures d.trail[i].header.dstTs <= d.trail[j].header.dstTs {
      assert i < n ==> d.trail[i] == c.trail[i] && c.trail[i].header.dstTs <= last.header.dstTs;
      assert j < n ==> d.trail[j] == c.trail[j];
    }
  }

  /** Facts about nodes that paths rest on. */
  ghost predicate NodesOwned(s: Net) {
    && (forall a, b :: a in s.nodes && b in s.nodes[a].table && !Special(b) ==> s.nodes[a].table[b].addr == b)
    && (forall c :: c in s.data ==> !Special(c.packet.dst))
  }

  lemma TracedIsOwned(s: Net)
    requires Provenance.Traced(s)
    ensures NodesOwned(s)
  {
    forall a, b | a in s.nodes && b in s.nodes[a].table && !Special(b) ensures s.nodes[a].table[b].addr == b {
      Provenance.KnownOwned(s.log, s.nodes.Keys, b, s.nodes[a].table[b]);
    }
  }

  lemma ReleasedOk(s: Net, i: nat, env: Env, rx: seq<Address>, d: DataCopy)
    requires PathsOk(s) && Enabled(s, DeliverControl(i, env, rx))
    requires d in Receive(s, i, env, rx).data && d !in s.data
    ensures PathOk(d)
  {
    hide PathOk, RecvMyprotocol;
    var c := s.control[i];
    var n := s.nodes[c.to];
    var j := ReceivedData(s, i, env, rx, d);
    ReleaseShape(n, c.header, env, s.now, j);
    ReleasedFromQueue(n, c.header, env, s.now, j);
    LaunchOk(c.to, RecvMyprotocol(n, c.header, env, s.now).released[j], true);
  }

  lemma StepDataOk(s: Net, step: Step, d: DataCopy)
    requires PathsOk(s) && NodesOwned(s) && Enabled(s, step) && d in Next(s, step).data
    ensures PathOk(d)
  {
    hide PathOk, RecvMyprotocol, RouteOutput, Forwarding, QueueOwned;
    match step
    case Tick(to) =>
    case Start(a, env, jitter, rx) =>
    case Check(a, env, jitter, rx) =>
    case LoseControl(i) =>
    case LoseData(i) => WithoutMember(s.data, i, d);
    case DeliverControl(i, env, rx) =>
      if d !in s.data {
        ReleasedOk(s, i, env, rx, d);
      }
    case Originate(a, p, env) =>
      RouteOutputShape(s.nodes[a], p, env, s.now);
      if d !in s.data {
        LaunchOk(a, RouteOutput(s.nodes[a], p, env, s.now).outcome.send, false);
      }
    case DeliverData(i, env) =>
      if d in Without(s.data, i) {
        WithoutMember(s.data, i, d);
      } else {
        var c := s.data[i];
        assert c in s.data;
        ForwardOk(s.nodes[c.to], c, env, s.now);
      }
  }

  lemma StepQueueOk(s: Net, step: Step, a: Address)
    requires PathsOk(s) && Enabled(s, step) && a in Next(s, step).nodes
    ensures Next(s, step).nodes[a].addr == a && QueueOwned(Next(s, step).nodes[a])
  {
    hide Receive, SendNew, PassOn, Recheck, Advertise, SendUpdate, PathOk, QueueOwned;
    NodesStay(s, step);
    assert a in s.nodes.Keys && StillOwned(s, a);
    match step
    case Tick(to) =>
    case Start(b, env, jitter, rx) => AdvertiseQueueOk(s, b, env, rx, a);
    case Check(b, env, jitter, rx) => RecheckQueueOk(s, b, env, rx, a);
    case LoseControl(i) =>
    case LoseData(i) =>
    case DeliverControl(i, env, rx) => ReceiveQueueOk(s, i, env, rx, a);
    case Originate(b, p, env) => SendNewQueueOk(s, b, p, env, a);
    case DeliverData(i, env) => PassOnQueueOk(s, i, env, a);
  }

  /** `a` is still `a`, and its queue still holds only packets of its own. */
  ghost predicate StillOwned(s: Net, a: Address) {
    a in s.nodes && s.nodes[a].addr == a && QueueOwned(s.nodes[a])
  }

  lemma AdvertiseQueueOk(s: Net, b: Address, env: Env, rx: seq<Address>, a: Address)
    requires b in s.nodes && a in s.nodes && StillOwned(s, a)
    ensures StillOwned(Advertise(s, b, SendUpdate(s.nodes[b], env, s.now), env, rx), a)
  {
    hide Advertised, OwnEntry, Registered, Broadcast, UpdateHeader, History;
  }

  lemma RecheckQueueOk(s: Net, b: Address, env: Env, rx: seq<Address>, a: Address)
    requires b in s.nodes && a in s.nodes && StillOwned(s, a)
    ensures StillOwned(Recheck(s, b, env, rx), a)
  {
    hide StillOwned, SendUpdate, Drifted, Overdue;
    AdvertiseQueueOk(s, b, env, rx, a);
    if Drifted(s.nodes[b], env, s.now) {
      AdvertiseQueueOk(Advertise(s, b, SendUpdate(s.nodes[b], env, s.now), env, rx), b, env, rx, a);
    }
  }

  lemma ReceiveQueueOk(s: Net, i: nat, env: Env, rx: seq<Address>, a: Address)
    requires i < |s.control| && s.control[i].to in s.nodes && a in s.nodes && StillOwned(s, a)
    ensures StillOwned(Receive(s, i, env, rx), a)
  {
    hide RecvMyprotocol, Registered, Broadcast, Launches, Without, EntryOf, Purged, Live, Holds;
    var c := s.control[i];
    ReceptionShape(s.nodes[c.to], c.header, env, s.now);
    var n := Receive(s, i, env, rx).nodes[a];
    forall e | e in n.queue.queue ensures e.packet.src == a {
      if a == c.to {
        ReceptionQueue(s.nodes[a], c.header, env, s.now, e);
      }
    }
  }

  lemma SendNewQueueOk(s: Net, b: Address, p: Packet, env: Env, a: Address)
    requires b in s.nodes && a in s.nodes && StillOwned(s, a) && p.src == b
    ensures StillOwned(SendNew(s, b, p, env), a)
  {
    hide RouteOutput, Launch, SameDst, GreedySend, EnteringSend, Purged;
    RouteOutputShape(s.nodes[b], p, env, s.now);
    var n := SendNew(s, b, p, env).nodes[a];
    forall e | e in n.queue.queue ensures e.packet.src == a {
      if a == b {
        RouteOutputQueue(s.nodes[a], p, env, s.now, e);
      }
    }
  }

  lemma PassOnQueueOk(s: Net, i: nat, env: Env, a: Address)
    requires i < |s.data| && s.data[i].to in s.nodes && a in s.nodes && StillOwned(s, a)
    ensures StillOwned(PassOn(s, i, env), a)
  {
    hide Forwarding, Launch, SameDst, PassedOn, Exchange, Without, Purged;
    ForwardShape(s.nodes[s.data[i].to], s.data[i].packet, env, s.now);
  }

  lemma StepPathsOk(s: Net, step: Step)
    requires PathsOk(s) && NodesOwned(s) && Enabled(s, step)
    ensures PathsOk(Next(s, step))
  {
    hide PathOk, QueueOwned, Next;
    forall d | d in Next(s, step).data ensures PathOk(d) {
      StepDataOk(s, step, d);
    }
    forall a | a in Next(s, step).nodes ensures Next(s, step).nodes[a].addr == a && QueueOwned(Next(s, step).nodes[a]) {
      StepQueueOk(s, step, a);
    }
  }

  lemma {:induction false} RunPathsOk(s: Net, steps: seq<Step>)
    requires PathsOk(s) && Provenance.Traced(s) && Runs(s, steps)
    ensures PathsOk(Reached(s, steps))
    decreases |steps|
  {
    if steps != [] {
      TracedIsOwned(s);
      StepPathsOk(s, steps[0]);
      Provenance.StepTraced(s, steps[0]);
      RunPathsOk(Next(s, steps[0]), steps[1..]);
    }
  }

  /**
   * In every run no data packet carries a hop count above 10; one sent directly has been transmitted at most
   * 10 times, one released from a queue at most 11, and its hop count tells how often.
   */
  lemma TransmissionsBounded(s: Net, steps: seq<Step>, c: DataCopy)
    requires Init(s) && Runs(s, steps) && c in Reached(s, steps).data
    ensures c.packet.data.hop <= 10
    ensures |c.trail| == c.packet.data.hop + if c.released then 1 else 0
    ensures |c.trail| <= if c.released then 11 else 10
  {
    Provenance.InitTraced(s);
    RunPathsOk(s, steps);
    assert c.trail[|c.trail| - 1].header.hop == HopAt(|c.trail| - 1, c.released);
  }

  /** The destination timestamp a packet carries never decreases over its transmissions. */
  lemma FreshnessNeverDecreases(s: Net, steps: seq<Step>, c: DataCopy, i: nat, j: nat)
    requires Init(s) && Runs(s, steps) && c in Reached(s, steps).data
    requires i <= j < |c.trail|
    ensures c.trail[i].header.dstTs <= c.trail[j].header.dstTs <= c.packet.data.dstTs
  {
    Provenance.InitTraced(s);
    RunPathsOk(s, steps);
    assert PathOk(c);
  }
}
