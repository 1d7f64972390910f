/** A network of nodes running the protocol: its state, its steps, and its runs. */
module Networks {
  import opened Machine
  import opened Sequences
  import opened Wire
  import opened IdCaches
  import RequestQueues
  import opened RoutingTables
  import opened Handlers

  /** An update some node advertised, and when. */
  datatype Advert = Advert(entry: Entry, at: Time)

  /** A copy of a broadcast update on its way to one receiver. */
  datatype ControlCopy = ControlCopy(to: Address, header: ControlHeader)

  /** One transmission of a data packet: sender, link destination, and the data header it carried. */
  datatype Hop = Hop(from: Address, to: Address, header: DataHeader)

  /** A data packet on its way to one receiver, with all its transmissions so far; `released` if a queue let it go. */
  datatype DataCopy = DataCopy(to: Address, packet: Packet, trail: seq<Hop>, released: bool)

  /**
   * The state. In-flight copies are bags: a step may pick any of them.
   * `log` (everything ever advertised) and `sent` (every transmission of an update, by node and update) only record.
   */
  datatype Net = Net(
    nodes: map<Address, NodeState>,
    timers: map<Address, Time>,
    control: seq<ControlCopy>,
    data: seq<DataCopy>,
    now: Time,
    log: map<Address, seq<Advert>>,
    sent: multiset<(Address, Key)>)

  /** `rx` are the nodes a broadcast of this step reaches; `jitter` is the random part of the next timer. */
  datatype Step =
    | Tick(to: Time)
    | Start(node: Address, env: Env, jitter: nat, rx: seq<Address>)
    | Check(node: Address, env: Env, jitter: nat, rx: seq<Address>)
    | DeliverControl(i: nat, env: Env, rx: seq<Address>)
    | LoseControl(i: nat)
    | Originate(node: Address, packet: Packet, env: Env)
    | DeliverData(i: nat, env: Env)
    | LoseData(i: nat)

  // ---------------------------------------------------------------- effects of a step

  function Broadcast(h: ControlHeader, rx: seq<Address>): seq<ControlCopy> {
    seq(|rx|, i requires 0 <= i < |rx| => ControlCopy(rx[i], h))
  }

  function KeyOf(h: ControlHeader): Key {
    Key(h.addr, h.ts)
  }

  function History(log: map<Address, seq<Advert>>, a: Address): seq<Advert> {
    if a in log then log[a] else []
  }

  /** A node broadcasts an update of its own: it is logged, counted, and put on the air. */
  ghost function Advertise(s: Net, a: Address, u: Update, env: Env, rx: seq<Address>): Net {
    s.(nodes := s.nodes[a := u.node],
       control := s.control + Broadcast(u.header, rx),
       log := s.log[a := History(s.log, a) + [Advert(Advertised(a, env.pos, env.vel, s.now), s.now)]],
       sent := s.sent + multiset{(a, KeyOf(u.header))})
  }

  /** `CheckChange` in the network: at most two updates, one after the other. */
  ghost function Recheck(s: Net, a: Address, env: Env, rx: seq<Address>): Net
    requires a in s.nodes
  {
    var s1 := if Drifted(s.nodes[a], env, s.now) then Advertise(s, a, SendUpdate(s.nodes[a], env, s.now), env, rx) else s;
    if Overdue(s1.nodes[a], s.now) then Advertise(s1, a, SendUpdate(s1.nodes[a], env, s.now), env, rx) else s1
  }

  /** A node lets go of data packets, for the first time if `trail` is empty. */
  function Launch(from: Address, send: DataSend, trail: seq<Hop>, released: bool): DataCopy {
    DataCopy(send.gateway, send.packet, trail + [Hop(from, send.gateway, send.packet.data)], released)
  }

  function Launches(from: Address, sends: seq<DataSend>): seq<DataCopy> {
    seq(|sends|, i requires 0 <= i < |sends| => Launch(from, sends[i], [], true))
  }

  const CHECK_INTERVAL: Time := 1_000_000
  const MILLISECOND: Time := 1_000

  ghost predicate Enabled(s: Net, step: Step) {
    match step
    case Tick(to) => s.now <= to && forall a :: a in s.timers ==> to <= s.timers[a]
    case Start(a, env, jitter, rx) => a in s.nodes && a !in s.timers && 1000 <= jitter <= 2000
    case Check(a, env, jitter, rx) => a in s.nodes && a in s.timers && s.timers[a] == s.now && jitter <= 1000
    case DeliverControl(i, env, rx) => i < |s.control| && s.control[i].to in s.nodes
    case LoseControl(i) => i < |s.control|
    case Originate(a, p, env) => a in s.nodes && p.src == a && !Special(p.dst)
    case DeliverData(i, env) => i < |s.data| && s.data[i].to in s.nodes
    case LoseData(i) => i < |s.data|
  }

  /** Reception of an update: accepted updates go on the air again, released packets leave. */
  ghost function Receive(s: Net, i: nat, env: Env, rx: seq<Address>): Net
    requires i < |s.control| && s.control[i].to in s.nodes
  {
    var c := s.control[i];
    var r := RecvMyprotocol(s.nodes[c.to], c.header, env, s.now);
    var nodes, rest := s.nodes[c.to := r.node], Without(s.control, i);
    if r.rebroadcast.None? then s.(nodes := nodes, control := rest)
    else s.(nodes := nodes, control := rest + Broadcast(c.header, rx), data := s.data + Launches(c.to, r.released),
            sent := s.sent + multiset{(c.to, KeyOf(c.header))})
  }

  ghost function SendNew(s: Net, a: Address, p: Packet, env: Env): Net
    requires a in s.nodes
  {
    var r := RouteOutput(s.nodes[a], p, env, s.now);
    s.(nodes := s.nodes[a := r.node],
       data := s.data + if r.outcome.Sent? then [Launch(a, r.outcome.send, [], false)] else [])
  }

  ghost function PassOn(s: Net, i: nat, env: Env): Net
    requires i < |s.data| && s.data[i].to in s.nodes
  {
    var c := s.data[i];
    var r := RouteInput(s.nodes[c.to], c.packet, env, s.now);
    s.(nodes := s.nodes[c.to := r.node],
       data := Without(s.data, i) +
               if r.arrival.Passed? && r.arrival.send.Some? then [Launch(c.to, r.arrival.send.value, c.trail, c.released)]
               else [])
  }

  ghost function Next(s: Net, step: Step): Net
    requires Enabled(s, step)
  {
    match step
    case Tick(to) => s.(now := to)
    case Start(a, env, jitter, rx) =>
      Advertise(s, a, SendUpdate(s.nodes[a], env, s.now), env, rx).(timers := s.timers[a := s.now + MILLISECOND * jitter])
    case Check(a, env, jitter, rx) =>
      Recheck(s, a, env, rx).(timers := s.timers[a := s.now + CHECK_INTERVAL + 25 * jitter])
    case DeliverControl(i, env, rx) => Receive(s, i, env, rx)
    case LoseControl(i) => s.(control := Without(s.control, i))
    case Originate(a, p, env) => SendNew(s, a, p, env)
    case DeliverData(i, env) => PassOn(s, i, env)
    case LoseData(i) => s.(data := Without(s.data, i))
  }

  // ---------------------------------------------------------------- runs

  ghost predicate Runs(s: Net, steps: seq<Step>)
    decreases |steps|
  {
    steps != [] ==> Enabled(s, steps[0]) && Runs(Next(s, steps[0]), steps[1..])
  }

  ghost function Reached(s: Net, steps: seq<Step>): Net
    requires Runs(s, steps)
    decreases |steps|
  {
    if steps == [] then s else Reached(Next(s, steps[0]), steps[1..])
  }

  /** A network whose nodes have their records set up and nothing has happened yet. */
  ghost predicate Init(s: Net) {
    && s.timers == map[] && s.control == [] && s.data == [] && s.log == map[] && s.sent == multiset{}
    && (forall a :: a in s.nodes ==> a != ZERO && !Special(a) && FreshNode(s.nodes[a], a))
  }

  /** A node as its constructor leaves it: only the loopback and broadcast records, all zero. */
  ghost predicate FreshNode(n: NodeState, a: Address) {
    && n.addr == a && n.ids == [] && n.queue == RequestQueues.QueueState([], []) && n.lastSendTime == 0
    && forall b :: b in n.table ==> Special(b)
  }

  /** The network step for a check runs the node's own `CheckChange` and puts on the air what that sends. */
  lemma RecheckRunsCheckChange(s: Net, a: Address, env: Env, rx: seq<Address>)
    requires a in s.nodes
    ensures var c := CheckChange(s.nodes[a], env, s.now);
            var s' := Recheck(s, a, env, rx);
            && s'.nodes == s.nodes[a := c.node]
            && |History(s'.log, a)| == |History(s.log, a)| + |c.sent|
            && s'.control == (if |c.sent| == 0 then s.control
                              else if |c.sent| == 1 then s.control + Broadcast(c.sent[0], rx)
                              else s.control + Broadcast(c.sent[0], rx) + Broadcast(c.sent[1], rx))
  {
    hide Drifted, Overdue, SendUpdate, Advertised, Broadcast;
    var n := s.nodes[a];
    if Drifted(n, env, s.now) {
      var u := SendUpdate(n, env, s.now);
      assert Advertise(s, a, u, env, rx).nodes == s.nodes[a := u.node];
      var v := SendUpdate(u.node, env, s.now);
      assert s.nodes[a := u.node][a := v.node] == s.nodes[a := v.node];
    }
  }

  /** The step that delivers a data copy runs `RouteInput` there, and puts on the air exactly what that passes on. */
  lemma PassOnRunsRouteInput(s: Net, i: nat, env: Env)
    requires i < |s.data| && s.data[i].to in s.nodes
    ensures var c, s' := s.data[i], PassOn(s, i, env);
            var r := RouteInput(s.nodes[c.to], c.packet, env, s.now);
            && s' == s.(nodes := s.nodes[c.to := r.node], data := s'.data)
            && multiset(s'.data) + multiset{c} == multiset(s.data) +
               if r.arrival.Passed? && r.arrival.send.Some? then
                 var send := r.arrival.send.value;
                 multiset{DataCopy(send.gateway, send.packet, c.trail + [Hop(c.to, send.gateway, send.packet.data)], c.released)}
               else multiset{}
  {
    hide RouteInput;
    WithoutCount(s.data, i);
  }

  /** The step that originates a packet runs `RouteOutput`, and puts on the air exactly what that sends. */
  lemma SendNewRunsRouteOutput(s: Net, a: Address, p: Packet, env: Env)
    requires a in s.nodes
    ensures var r, s' := RouteOutput(s.nodes[a], p, env, s.now), SendNew(s, a, p, env);
            && s' == s.(nodes := s.nodes[a := r.node], data := s'.data)
            && s'.data == s.data +
               if r.outcome.Sent? then
                 var send := r.outcome.send;
                 [DataCopy(send.gateway, send.packet, [Hop(a, send.gateway, send.packet.data)], false)]
               else []
  {
    hide RouteOutput;
    var r := RouteOutput(s.nodes[a], p, env, s.now);
    if r.outcome.Sent? {
      var h := Hop(a, r.outcome.send.gateway, r.outcome.send.packet.data);
      assert [] + [h] == [h];
    }
  }

  /** The step that delivers an update runs `RecvMyprotocol`: the copy goes, what is rebroadcast and released comes. */
  lemma ReceiveRunsRecvMyprotocol(s: Net, i: nat, env: Env, rx: seq<Address>)
    requires i < |s.control| && s.control[i].to in s.nodes
    ensures var c, s' := s.control[i], Receive(s, i, env, rx);
            var r := RecvMyprotocol(s.nodes[c.to], c.header, env, s.now);
            && s'.nodes == s.nodes[c.to := r.node] && s'.now == s.now && s'.timers == s.timers && s'.log == s.log
            && (r.rebroadcast.None? ==> s' == s.(nodes := s'.nodes, control := s'.control))
            && |s'.control| == |s.control| - 1 + (if r.rebroadcast.Some? then |rx| else 0)
            && (forall k :: 0 <= k < |s.control| - 1 ==> s'.control[k] == s.control[if k < i then k else k + 1])
            && (r.rebroadcast.Some? ==>
                  forall k :: 0 <= k < |rx| ==> s'.control[|s.control| - 1 + k] == ControlCopy(rx[k], c.header))
            && |s'.data| == |s.data| + |r.released|
            && (forall k :: 0 <= k < |s.data| ==> s'.data[k] == s.data[k])
            && (forall k :: 0 <= k < |r.released| ==>
                  var send := r.released[k];
                  s'.data[|s.data| + k]
                    == DataCopy(send.gateway, send.packet, [Hop(c.to, send.gateway, send.packet.data)], true))
  {
    hide RecvMyprotocol, Holds, Live, Registered, Purged, EntryOf;
    ReceptionShape(s.nodes[s.control[i].to], s.control[i].header, env, s.now);
  }

  /** Nodes neither appear nor disappear. */
  lemma NodesStay(s: Net, step: Step)
    requires Enabled(s, step)
    ensures Next(s, step).nodes.Keys == s.nodes.Keys
    ensures forall a :: a in Next(s, step).log || a in Next(s, step).timers ==> a in s.log || a in s.timers || a in s.nodes
  {
    hide RecvMyprotocol, RouteOutput, Forwarding, SendUpdate, Drifted, Overdue, Broadcast, Launches, Launch, Advertised, Without;
  }

  /** The copies in flight after a reception: old ones, or new ones of the same update. */
  lemma ReceivedControl(s: Net, i: nat, env: Env, rx: seq<Address>, d: ControlCopy)
    requires i < |s.control| && s.control[i].to in s.nodes && d in Receive(s, i, env, rx).control
    ensures d in s.control || (d.header == s.control[i].header && d.to in rx)
  {
    if d in Without(s.control, i) {
      WithoutMember(s.control, i, d);
    } else {
      assert d in Broadcast(s.control[i].header, rx);
    }
  }

  lemma ReceivedData(s: Net, i: nat, env: Env, rx: seq<Address>, d: DataCopy) returns (j: nat)
    requires i < |s.control| && s.control[i].to in s.nodes && d in Receive(s, i, env, rx).data && d !in s.data
    ensures var c := s.control[i];
            var released := RecvMyprotocol(s.nodes[c.to], c.header, env, s.now).released;
            j < |released| && d == Launch(c.to, released[j], [], true)
  {
    hide RecvMyprotocol;
    var c := s.control[i];
    var released := RecvMyprotocol(s.nodes[c.to], c.header, env, s.now).released;
    assert d in Launches(c.to, released);
    j :| 0 <= j < |released| && d == Launches(c.to, released)[j];
  }

  lemma {:induction false} ClockMonotone(s: Net, steps: seq<Step>)
    requires Runs(s, steps)
    ensures s.now <= Reached(s, steps).now
    decreases |steps|
  {
    if steps != [] {
      ClockMonotone(Next(s, steps[0]), steps[1..]);
    }
  }
}
