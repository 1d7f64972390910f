/** One update flooding the network: who transmits it, how often, and who is reached. */
module Floods {
  import opened Machine
  import opened Sequences
  import opened Wire
  import opened IdCaches
  import opened RoutingTables
  import opened Handlers
  import opened Networks
  import opened Updates

  /** The radio graph: the nodes that each node's broadcasts reach. */
  type Graph = map<Address, seq<Address>>

  ghost predicate Radio(g: Graph, nodes: set<Address>) {
    g.Keys == nodes && forall n :: n in g ==> forall m :: m in g[n] ==> m in nodes
  }

  ghost predicate IsPath(g: Graph, path: seq<Address>) {
    && path != []
    && (|path| > 1 ==>
          var rest := path[..|path| - 1];
          IsPath(g, rest) && rest[|rest| - 1] in g && path[|path| - 1] in g[rest[|rest| - 1]])
  }

  ghost predicate Connected(g: Graph, a: Address, n: Address) {
    exists path :: IsPath(g, path) && path[0] == a && path[|path| - 1] == n
  }

  /** The cache remembers `k` at least until `t`. */
  ghost predicate Remembers(ids: seq<UniqueId>, k: Key, t: Time) {
    exists u :: u in ids && u.key == k && u.expire >= t
  }

  function OfKey(k: Key): ControlCopy -> bool {
    (c: ControlCopy) => KeyOf(c.header) == k
  }

  /** How many copies of `k` are in flight. */
  function Copies(control: seq<ControlCopy>, k: Key): nat {
    |Filter(OfKey(k), control)|
  }

  ghost predicate InFlight(control: seq<ControlCopy>, to: Address, k: Key) {
    exists c :: c in control && c.to == to && KeyOf(c.header) == k
  }

  /** Every node that transmitted `k` did so once and still remembers it, and each of its neighbours has it or is about to. */
  ghost predicate Transmitter(s: Net, g: Graph, a: Address, k: Key, end: Time, n: Address)
    requires Radio(g, s.nodes.Keys)
  {
    && n in s.nodes && Connected(g, a, n)
    && (s.now <= end ==> Remembers(s.nodes[n].ids, k, end))
    && forall m :: m in g[n] ==> (m, k) in s.sent || InFlight(s.control, m, k)
  }

  /** What every step of a flood of `k`, started by `a` one cache lifetime before `end`, keeps. */
  ghost predicate Flooding(s: Net, g: Graph, a: Address, k: Key, end: Time) {
    && Radio(g, s.nodes.Keys) && end <= s.now + ID_LIFETIME && (a, k) in s.sent
    && (forall n :: s.sent[(n, k)] <= 1)
    && (forall n :: (n, k) in s.sent ==> Transmitter(s, g, a, k, end, n))
    && (forall c :: c in s.control && KeyOf(c.header) == k ==> c.to in s.nodes && Connected(g, a, c.to))
  }

  /** No copy of `k` is lost or reaches beyond the radio graph, and none arrives after the origin's cache entry expires. */
  ghost predicate Lossless(s: Net, step: Step, g: Graph, k: Key, end: Time)
    requires Enabled(s, step)
  {
    && (step.LoseControl? ==> KeyOf(s.control[step.i].header) != k)
    && (step.DeliverControl? && KeyOf(s.control[step.i].header) == k ==>
          s.now <= end && s.control[step.i].to in g && step.rx == g[s.control[step.i].to])
  }

  ghost predicate LosslessRun(s: Net, steps: seq<Step>, g: Graph, k: Key, end: Time)
    requires Runs(s, steps)
    decreases |steps|
  {
    steps != [] ==> Lossless(s, steps[0], g, k, end) && LosslessRun(Next(s, steps[0]), steps[1..], g, k, end)
  }

  // ---------------------------------------------------------------- paths

  lemma Alone(g: Graph, a: Address)
    ensures Connected(g, a, a)
  {
    assert IsPath(g, [a]);
  }

  lemma OneFurther(g: Graph, a: Address, n: Address, m: Address)
    requires Connected(g, a, n) && n in g && m in g[n]
    ensures Connected(g, a, m)
  {
    var path :| IsPath(g, path) && path[0] == a && path[|path| - 1] == n;
    assert (path + [m])[..|path|] == path;
    assert IsPath(g, path + [m]);
  }

  // ---------------------------------------------------------------- caches

  lemma RegisteredRemembers(ids: seq<UniqueId>, j: Key, now: Time, k: Key, t: Time)
    requires Remembers(ids, k, t) && now <= t
    ensures Holds(Live(ids, now), k)
    ensures Remembers(Registered(ids, ID_LIFETIME, j, now), k, t)
  {
    var u :| u in ids && u.key == k && u.expire >= t;
    LiveMember(ids, now, u);
    var i :| 0 <= i < |Live(ids, now)| && Live(ids, now)[i] == u;
    assert u in Registered(ids, ID_LIFETIME, j, now);
  }

  lemma RegisteredNew(ids: seq<UniqueId>, k: Key, now: Time)
    requires !Holds(Live(ids, now), k)
    ensures Remembers(Registered(ids, ID_LIFETIME, k, now), k, ID_LIFETIME + now)
  {
    assert UniqueId(k, ID_LIFETIME + now) in Registered(ids, ID_LIFETIME, k, now);
  }

  // ---------------------------------------------------------------- steps that do not concern the flood

  /** Nothing about `k` changes but that time may pass. */
  ghost predicate Apart(s: Net, s': Net, k: Key, end: Time) {
    && s'.nodes.Keys == s.nodes.Keys && s.now <= s'.now
    && (forall n :: s'.sent[(n, k)] == s.sent[(n, k)])
    && Filter(OfKey(k), s'.control) == Filter(OfKey(k), s.control)
    && (forall n :: n in s.nodes && s'.now <= end && Remembers(s.nodes[n].ids, k, end) ==> Remembers(s'.nodes[n].ids, k, end))
  }

  lemma ApartFlooding(s: Net, s': Net, g: Graph, a: Address, k: Key, end: Time)
    requires Flooding(s, g, a, k, end) && Apart(s, s', k, end)
    ensures Flooding(s', g, a, k, end)
  {
    hide Connected, Remembers, KeyOf, Filter;
    forall c: ControlCopy | KeyOf(c.header) == k ensures c in s'.control <==> c in s.control {
      FilterMember(OfKey(k), s'.control, c);
      FilterMember(OfKey(k), s.control, c);
    }
    forall n | (n, k) in s'.sent ensures Transmitter(s', g, a, k, end, n) {
      assert Transmitter(s, g, a, k, end, n);
      forall m | m in g[n] ensures (m, k) in s'.sent || InFlight(s'.control, m, k) {
        if (m, k) !in s.sent {
          var c :| c in s.control && c.to == m && KeyOf(c.header) == k;
          assert c in s'.control;
        }
      }
    }
  }

  lemma BroadcastOther(control: seq<ControlCopy>, h: ControlHeader, rx: seq<Address>, k: Key)
    requires KeyOf(h) != k
    ensures Filter(OfKey(k), control + Broadcast(h, rx)) == Filter(OfKey(k), control)
  {
    FilterConcat(OfKey(k), control, Broadcast(h, rx));
    FilterNone(OfKey(k), Broadcast(h, rx));
  }

  lemma BroadcastOwn(control: seq<ControlCopy>, h: ControlHeader, rx: seq<Address>)
    ensures Copies(control + Broadcast(h, rx), KeyOf(h)) == Copies(control, KeyOf(h)) + |rx|
  {
    FilterConcat(OfKey(KeyOf(h)), control, Broadcast(h, rx));
    FilterAll(OfKey(KeyOf(h)), Broadcast(h, rx));
  }

  lemma AdvertiseApart(s: Net, b: Address, env: Env, rx: seq<Address>, k: Key, end: Time)
    requires b in s.nodes && s.nodes[b].addr == b && ClockFits(s.now) && k != Key(b, Seconds(s.now))
    ensures Apart(s, Advertise(s, b, SendUpdate(s.nodes[b], env, s.now), env, rx), k, end)
  {
    hide Advertised, OwnEntry, Remembers, Registered;
    AdvertisedFields(b, env.pos, env.vel, s.now);
    var u := SendUpdate(s.nodes[b], env, s.now);
    var s' := Advertise(s, b, u, env, rx);
    var j := KeyOf(u.header);
    assert j == Key(b, Seconds(s.now));
    BroadcastOther(s.control, u.header, rx, k);
    if s.now <= end && Remembers(s.nodes[b].ids, k, end) {
      RegisteredRemembers(s.nodes[b].ids, j, s.now, k, end);
    }
  }

  lemma OwnUpdateApart(s: Net, step: Step, k: Key, end: Time)
    requires OriginsOk(s) && ClockFits(s.now) && Logged(s.log, k)
    requires Enabled(s, step) && (step.Start? || step.Check?)
    ensures Apart(s, Next(s, step), k, end)
  {
    hide *;
    var b := step.node;
    NewKeyUnlogged(s, step, b);
    OwnAddress(s, step);
    AdvertiseApart(s, b, step.env, step.rx, k, end);
    RecheckOnce(s, b, step.env, step.rx);
    OwnUpdate(s, step);
    TimersApart(s, Next(s, step).(timers := s.timers), Next(s, step).timers, k, end);
  }

  lemma OwnAddress(s: Net, step: Step)
    requires OriginsOk(s) && Enabled(s, step) && (step.Start? || step.Check?)
    ensures step.node in s.nodes && s.nodes[step.node].addr == step.node
  {
    hide Spaced, LastSent, TimerOk;
    if step.node in s.nodes {
      assert OriginOk(s, step.node);
    }
  }

  /** A node's own step advertises once or not at all, and sets a timer. */
  lemma OwnUpdate(s: Net, step: Step)
    requires Enabled(s, step) && (step.Start? || step.Check?) && ClockFits(s.now) && step.node in s.nodes
    ensures var s' := Next(s, step).(timers := s.timers);
            || (s' == s && step.Check?)
            || s' == Advertise(s, step.node, SendUpdate(s.nodes[step.node], step.env, s.now), step.env, step.rx)
  {
    hide Drifted, Overdue, SendUpdate, Advertised, Broadcast, Recheck;
    RecheckOnce(s, step.node, step.env, step.rx);
  }

  lemma TimersApart(s: Net, s': Net, timers: map<Address, Time>, k: Key, end: Time)
    requires s' == s || Apart(s, s', k, end)
    ensures Apart(s, s'.(timers := timers), k, end)
  {
    hide Remembers, KeyOf;
  }

  lemma OtherCopyApart(s: Net, i: nat, env: Env, rx: seq<Address>, k: Key, end: Time)
    requires i < |s.control| && s.control[i].to in s.nodes && KeyOf(s.control[i].header) != k
    ensures Apart(s, Receive(s, i, env, rx), k, end)
  {
    hide RecvMyprotocol, Remembers, Registered, Live, Holds, Without;
    var c := s.control[i];
    var s' := Receive(s, i, env, rx);
    ReceptionShape(s.nodes[c.to], c.header, env, s.now);
    FilterWithout(OfKey(k), s.control, i);
    BroadcastOther(Without(s.control, i), c.header, rx, k);
    if s.now <= end && Remembers(s.nodes[c.to].ids, k, end) {
      RegisteredRemembers(s.nodes[c.to].ids, KeyOf(c.header), s.now, k, end);
    }
  }

  lemma OtherStepApart(s: Net, step: Step, k: Key, end: Time)
    requires OriginsOk(s) && ClockFits(s.now) && Logged(s.log, k) && Enabled(s, step)
    requires step.DeliverControl? || step.LoseControl? ==> KeyOf(s.control[step.i].header) != k
    ensures Apart(s, Next(s, step), k, end)
  {
    hide *;
    match step
    case Tick(to) => TickApart(s, to, k, end);
    case Start(b, env, jitter, rx) => OwnUpdateApart(s, step, k, end);
    case Check(b, env, jitter, rx) => OwnUpdateApart(s, step, k, end);
    case DeliverControl(i, env, rx) => ReceiveStep(s, i, env, rx); OtherCopyApart(s, i, env, rx, k, end);
    case LoseControl(i) => LoseApart(s, i, k, end);
    case Originate(b, p, env) => SendNewApart(s, b, p, env, k, end);
    case DeliverData(i, env) => PassOnApart(s, i, env, k, end);
    case LoseData(i) => LoseDataApart(s, i, k, end);
  }

  lemma TickApart(s: Net, to: Time, k: Key, end: Time)
    requires Enabled(s, Tick(to))
    ensures Apart(s, Next(s, Tick(to)), k, end)
  {
    hide KeyOf, Remembers;
  }

  lemma ReceiveStep(s: Net, i: nat, env: Env, rx: seq<Address>)
    requires Enabled(s, DeliverControl(i, env, rx))
    ensures i < |s.control| && s.control[i].to in s.nodes
    ensures Next(s, DeliverControl(i, env, rx)) == Receive(s, i, env, rx)
  {
    hide Receive;
  }

  lemma LoseApart(s: Net, i: nat, k: Key, end: Time)
    requires Enabled(s, LoseControl(i)) && KeyOf(s.control[i].header) != k
    ensures Apart(s, Next(s, LoseControl(i)), k, end)
  {
    hide KeyOf, Remembers;
    FilterWithout(OfKey(k), s.control, i);
  }

  lemma SendNewApart(s: Net, b: Address, p: Packet, env: Env, k: Key, end: Time)
    requires Enabled(s, Originate(b, p, env))
    ensures Apart(s, Next(s, Originate(b, p, env)), k, end)
  {
    hide RouteOutput, Remembers, GreedySend, EnteringSend, SameDst, Launch, KeyOf;
    RouteOutputShape(s.nodes[b], p, env, s.now);
  }

  lemma PassOnApart(s: Net, i: nat, env: Env, k: Key, end: Time)
    requires Enabled(s, DeliverData(i, env))
    ensures Apart(s, Next(s, DeliverData(i, env)), k, end)
  {
    hide Forwarding, Remembers, PassedOn, SameDst, Launch, KeyOf, Without;
    ForwardShape(s.nodes[s.data[i].to], s.data[i].packet, env, s.now);
  }

  lemma LoseDataApart(s: Net, i: nat, k: Key, end: Time)
    requires Enabled(s, LoseData(i))
    ensures Apart(s, Next(s, LoseData(i)), k, end)
  {
    hide KeyOf, Remembers;
  }

  // ---------------------------------------------------------------- a copy arrives

  /** A node that has transmitted the update ignores it; any other accepts it and transmits it. */
  lemma ArrivalIsNewIff(s: Net, i: nat, g: Graph, a: Address, k: Key, end: Time)
    requires Flooding(s, g, a, k, end) && KeysOk(s) && s.now <= end
    requires i < |s.control| && s.control[i].to in s.nodes && KeyOf(s.control[i].header) == k
    ensures var n := s.control[i].to;
            Holds(Live(s.nodes[n].ids, s.now), k) <==> (n, k) in s.sent
  {
    hide Connected;
    var n := s.control[i].to;
    var ids := s.nodes[n].ids;
    assert CacheBacked(s.nodes[n], n, s.sent);
    if (n, k) in s.sent {
      assert Transmitter(s, g, a, k, end, n);
      RegisteredRemembers(ids, k, s.now, k, end);
    } else if Holds(Live(ids, s.now), k) {
      LiveHolds(ids, s.now, k);
    }
  }

  /** After the arrival the copies that were in flight are still in flight, or their receiver has transmitted. */
  lemma ArrivalCovers(s: Net, i: nat, env: Env, rx: seq<Address>, k: Key, m: Address)
    requires i < |s.control| && s.control[i].to in s.nodes
    requires (m, k) in s.sent || InFlight(s.control, m, k)
    requires (s.control[i].to, k) in Receive(s, i, env, rx).sent
    ensures var s' := Receive(s, i, env, rx);
            (m, k) in s'.sent || InFlight(s'.control, m, k)
  {
    hide RecvMyprotocol, KeyOf;
    var s' := Receive(s, i, env, rx);
    if (m, k) !in s.sent && m != s.control[i].to {
      var c :| c in s.control && c.to == m && KeyOf(c.header) == k;
      WithoutOther(s.control, i, c);
      assert c in s'.control;
    }
  }

  lemma ArrivalFlooding(s: Net, i: nat, env: Env, rx: seq<Address>, g: Graph, a: Address, k: Key, end: Time)
    requires Flooding(s, g, a, k, end) && KeysOk(s) && s.now <= end
    requires i < |s.control| && s.control[i].to in s.nodes && KeyOf(s.control[i].header) == k
    requires rx == g[s.control[i].to]
    ensures Flooding(Receive(s, i, env, rx), g, a, k, end)
  {
    hide RecvMyprotocol, Connected, Remembers, Registered, Live, Holds, Without, InFlight, KeysOk;
    var c := s.control[i];
    assert c in s.control;
    var n, s' := c.to, Receive(s, i, env, rx);
    ReceptionShape(s.nodes[n], c.header, env, s.now);
    ArrivalIsNewIff(s, i, g, a, k, end);
    assert (n, k) in s'.sent;
    forall b | (b, k) in s'.sent ensures Transmitter(s', g, a, k, end, b) {
      ArrivalTransmitter(s, i, env, rx, g, a, k, end, b);
    }
    forall d | d in s'.control && KeyOf(d.header) == k ensures d.to in s'.nodes && Connected(g, a, d.to) {
      ReceivedControl(s, i, env, rx, d);
      if d !in s.control {
        OneFurther(g, a, n, d.to);
      }
    }
  }

  lemma ArrivalTransmitter(s: Net, i: nat, env: Env, rx: seq<Address>, g: Graph, a: Address, k: Key, end: Time, b: Address)
    requires Flooding(s, g, a, k, end) && KeysOk(s) && s.now <= end
    requires i < |s.control| && s.control[i].to in s.nodes && KeyOf(s.control[i].header) == k
    requires rx == g[s.control[i].to] && (b, k) in Receive(s, i, env, rx).sent
    requires (s.control[i].to, k) in Receive(s, i, env, rx).sent
    ensures Transmitter(Receive(s, i, env, rx), g, a, k, end, b)
  {
    hide RecvMyprotocol, Connected, Remembers, Registered, Live, Holds, Without, KeysOk, InFlight;
    var c := s.control[i];
    assert c in s.control;
    var n, s' := c.to, Receive(s, i, env, rx);
    ReceptionShape(s.nodes[n], c.header, env, s.now);
    ArrivalIsNewIff(s, i, g, a, k, end);
    if (b, k) in s.sent {
      assert Transmitter(s, g, a, k, end, b);
      RegisteredRemembers(s.nodes[b].ids, k, s.now, k, end);
      forall m | m in g[b] ensures (m, k) in s'.sent || InFlight(s'.control, m, k) {
        ArrivalCovers(s, i, env, rx, k, m);
      }
    } else {
      assert b == n;
      RegisteredNew(s.nodes[n].ids, k, s.now);
      RemembersLess(s'.nodes[n].ids, k, ID_LIFETIME + s.now, end);
      forall m | m in g[n] ensures InFlight(s'.control, m, k) {
        BroadcastInFlight(s'.control, Without(s.control, i), c.header, rx, m);
      }
    }
  }

  lemma RemembersLess(ids: seq<UniqueId>, k: Key, t: Time, u: Time)
    requires Remembers(ids, k, t) && u <= t
    ensures Remembers(ids, k, u)
  {
  }

  lemma BroadcastInFlight(control: seq<ControlCopy>, rest: seq<ControlCopy>, h: ControlHeader, rx: seq<Address>, m: Address)
    requires control == rest + Broadcast(h, rx) && m in rx
    ensures InFlight(control, m, KeyOf(h))
  {
    var j :| 0 <= j < |rx| && rx[j] == m;
    assert Broadcast(h, rx)[j] == ControlCopy(m, h);
    assert ControlCopy(m, h) in control;
  }

  // ---------------------------------------------------------------- every step

  lemma StepFlooding(s: Net, step: Step, g: Graph, a: Address, k: Key, end: Time)
    requires Flooding(s, g, a, k, end) && KeysOk(s) && OriginsOk(s) && ClockFits(s.now)
    requires Enabled(s, step) && Lossless(s, step, g, k, end)
    ensures Flooding(Next(s, step), g, a, k, end)
  {
    hide Transmitter, OriginsOk, Logged, Apart;
    assert Logged(s.log, k);
    if step.DeliverControl? && KeyOf(s.control[step.i].header) == k {
      ArrivalFlooding(s, step.i, step.env, step.rx, g, a, k, end);
    } else {
      OtherStepApart(s, step, k, end);
      ApartFlooding(s, Next(s, step), g, a, k, end);
    }
  }

  /** The flood begins with the origin's own transmission. */
  lemma FloodBegins(s: Net, start: Step, a: Address, g: Graph)
    requires OriginsOk(s) && KeysOk(s) && ClockFits(s.now) && Enabled(s, start) && Advertises(s, start, a)
    requires Radio(g, s.nodes.Keys) && start.rx == g[a]
    ensures Flooding(Next(s, start), g, a, Key(a, Seconds(s.now)), s.now + ID_LIFETIME)
  {
    hide *;
    StartFields(s, start, a);
    var k := Key(a, Seconds(s.now));
    NewKeyUnlogged(s, start, a);
    UnloggedIsUnseen(s, k);
    OwnAddress(s, start);
    var s' := Next(s, start);
    var u := FirstAdvert(s, start, a);
    FirstTransmission(s, s', a, g, k, u);
  }

  lemma StartFields(s: Net, start: Step, a: Address)
    requires Enabled(s, start) && Advertises(s, start, a) && ClockFits(s.now)
    ensures (start.Start? || start.Check?) && start.node == a && Seconds(s.now) < 0x1_0000
  {
    hide Next, Enabled;
  }

  lemma FirstAdvert(s: Net, start: Step, a: Address) returns (u: Update)
    requires ClockFits(s.now) && Enabled(s, start) && Advertises(s, start, a) && a in s.nodes && s.nodes[a].addr == a
    ensures var s', k := Next(s, start), Key(a, Seconds(s.now));
            && KeyOf(u.header) == k && u.node.ids == Registered(s.nodes[a].ids, ID_LIFETIME, k, s.now)
            && s'.nodes == s.nodes[a := u.node] && s'.control == s.control + Broadcast(u.header, start.rx) && s'.now == s.now
            && s'.sent == s.sent + multiset{(a, k)}
  {
    hide Next, Enabled, Advertised, OwnEntry, Registered, Broadcast;
    OwnUpdate(s, start);
    u := SendUpdate(s.nodes[a], start.env, s.now);
    assert Next(s, start).(timers := s.timers) == Advertise(s, a, u, start.env, start.rx);
    AdvertisedFields(a, start.env.pos, start.env.vel, s.now);
  }

  lemma FirstTransmission(s: Net, s': Net, a: Address, g: Graph, k: Key, u: Update)
    requires Unseen(s, k) && Radio(g, s.nodes.Keys) && a in s.nodes
    requires KeyOf(u.header) == k && u.node.ids == Registered(s.nodes[a].ids, ID_LIFETIME, k, s.now)
    requires s'.nodes == s.nodes[a := u.node] && s'.control == s.control + Broadcast(u.header, g[a]) && s'.now == s.now
    requires s'.sent == s.sent + multiset{(a, k)}
    ensures Flooding(s', g, a, k, s.now + ID_LIFETIME)
  {
    hide Connected, Remembers, Registered, Live, Holds, InFlight;
    if Holds(Live(s.nodes[a].ids, s.now), k) {
      LiveHolds(s.nodes[a].ids, s.now, k);
    }
    RegisteredNew(s.nodes[a].ids, k, s.now);
    Alone(g, a);
    forall m | m in g[a] ensures InFlight(s'.control, m, k) {
      BroadcastInFlight(s'.control, s.control, u.header, g[a], m);
    }
    forall c | c in s'.control && KeyOf(c.header) == k ensures c.to in s'.nodes && Connected(g, a, c.to) {
      assert c in Broadcast(u.header, g[a]);
      OneFurther(g, a, a, c.to);
    }
  }

  // ---------------------------------------------------------------- counting

  ghost function Transmitters(s: Net, k: Key): set<Address> {
    set n | n in s.nodes && (n, k) in s.sent
  }

  /** The copies that one transmission by each of `keys` puts on the air. */
  ghost function Load(g: Graph, keys: set<Address>): nat
    requires keys <= g.Keys
  {
    if keys == {} then 0
    else
      var m := MinKey(keys);
      |g[m]| + Load(g, keys - {m})
  }

  lemma {:induction false} LoadInsert(g: Graph, keys: set<Address>, x: Address)
    requires x !in keys && keys + {x} <= g.Keys
    ensures Load(g, keys + {x}) == Load(g, keys) + |g[x]|
    decreases keys
  {
    var all := keys + {x};
    var m := MinKey(all);
    if m == x {
      assert all - {m} == keys;
    } else {
      assert MinKey(keys) == m;
      assert all - {m} == keys - {m} + {x};
      LoadInsert(g, keys - {m}, x);
    }
  }

  lemma {:induction false} LoadMonotone(g: Graph, keys: set<Address>, all: set<Address>)
    requires keys <= all <= g.Keys
    ensures Load(g, keys) <= Load(g, all)
    decreases all - keys
  {
    if keys != all {
      var x :| x in all && x !in keys;
      LoadInsert(g, keys, x);
      LoadMonotone(g, keys + {x}, all);
    }
  }

  /** Whether a step delivers a copy of `k`. */
  ghost function Delivered(s: Net, step: Step, k: Key): nat
    requires Enabled(s, step)
  {
    if step.DeliverControl? && KeyOf(s.control[step.i].header) == k then 1 else 0
  }

  ghost function Deliveries(s: Net, steps: seq<Step>, k: Key): nat
    requires Runs(s, steps)
    decreases |steps|
  {
    if steps == [] then 0 else Delivered(s, steps[0], k) + Deliveries(Next(s, steps[0]), steps[1..], k)
  }

  /** A delivery uses up one copy; a transmission by a node puts one on the air for each of its neighbours. */
  ghost predicate Balanced(s: Net, s': Net, g: Graph, k: Key, delivered: nat) {
    && Transmitters(s, k) <= g.Keys && Transmitters(s', k) <= g.Keys
    && Copies(s'.control, k) + delivered + Load(g, Transmitters(s, k)) == Copies(s.control, k) + Load(g, Transmitters(s', k))
  }

  lemma ApartBalanced(s: Net, s': Net, g: Graph, k: Key, end: Time)
    requires Apart(s, s', k, end) && Radio(g, s.nodes.Keys)
    ensures Balanced(s, s', g, k, 0)
  {
    hide Filter, Load, Remembers;
    forall n ensures n in Transmitters(s', k) <==> n in Transmitters(s, k) {
      assert n in s'.nodes.Keys <==> n in s.nodes.Keys;
    }
    assert Transmitters(s', k) == Transmitters(s, k);
  }

  lemma ArrivalBalanced(s: Net, i: nat, env: Env, rx: seq<Address>, g: Graph, a: Address, k: Key, end: Time)
    requires Flooding(s, g, a, k, end) && KeysOk(s) && s.now <= end
    requires i < |s.control| && s.control[i].to in s.nodes && KeyOf(s.control[i].header) == k
    requires rx == g[s.control[i].to]
    ensures Balanced(s, Receive(s, i, env, rx), g, k, 1)
  {
    hide *;
    ArrivalIsNewIff(s, i, g, a, k, end);
    CopyTaken(s.control, i, k);
    RadioOf(s, g, a, k, end);
    ArrivalAccounts(s, i, env, rx, g, k);
  }

  lemma CopyTaken(control: seq<ControlCopy>, i: nat, k: Key)
    requires i < |control| && KeyOf(control[i].header) == k
    ensures Copies(Without(control, i), k) + 1 == Copies(control, k)
  {
    FilterWithoutOne(OfKey(k), control, i);
  }

  lemma RadioOf(s: Net, g: Graph, a: Address, k: Key, end: Time)
    requires Flooding(s, g, a, k, end)
    ensures Radio(g, s.nodes.Keys)
  {
    hide Transmitter, Connected, Radio;
  }

  lemma ArrivalAccounts(s: Net, i: nat, env: Env, rx: seq<Address>, g: Graph, k: Key)
    requires i < |s.control| && s.control[i].to in s.nodes && KeyOf(s.control[i].header) == k
    requires Radio(g, s.nodes.Keys) && rx == g[s.control[i].to]
    requires var n := s.control[i].to;
             Holds(Live(s.nodes[n].ids, s.now), k) <==> (n, k) in s.sent
    requires Copies(Without(s.control, i), k) + 1 == Copies(s.control, k)
    ensures Balanced(s, Receive(s, i, env, rx), g, k, 1)
  {
    hide RecvMyprotocol, Registered, Live, Holds, Without, Copies, Load, Broadcast, EntryOf, Purged;
    var c, s' := s.control[i], Receive(s, i, env, rx);
    ReceptionShape(s.nodes[c.to], c.header, env, s.now);
    BroadcastOwn(Without(s.control, i), c.header, rx);
    if (c.to, k) in s.sent {
      assert Transmitters(s', k) == Transmitters(s, k);
    } else {
      assert Transmitters(s', k) == Transmitters(s, k) + {c.to};
      LoadInsert(g, Transmitters(s, k), c.to);
    }
  }

  lemma StepBalanced(s: Net, step: Step, g: Graph, a: Address, k: Key, end: Time)
    requires Flooding(s, g, a, k, end) && KeysOk(s) && OriginsOk(s) && ClockFits(s.now)
    requires Enabled(s, step) && Lossless(s, step, g, k, end)
    ensures Balanced(s, Next(s, step), g, k, Delivered(s, step, k))
  {
    hide Transmitter, OriginsOk, Logged, Apart, Balanced;
    assert Logged(s.log, k);
    if step.DeliverControl? && KeyOf(s.control[step.i].header) == k {
      ArrivalBalanced(s, step.i, step.env, step.rx, g, a, k, end);
    } else {
      OtherStepApart(s, step, k, end);
      ApartBalanced(s, Next(s, step), g, k, end);
    }
  }

  // ---------------------------------------------------------------- the whole flood

  lemma {:induction false} RunFlooding(s: Net, steps: seq<Step>, g: Graph, a: Address, k: Key, end: Time)
    requires Flooding(s, g, a, k, end) && KeysOk(s) && OriginsOk(s)
    requires Runs(s, steps) && ClockFits(Reached(s, steps).now) && LosslessRun(s, steps, g, k, end)
    ensures Flooding(Reached(s, steps), g, a, k, end)
    ensures Balanced(s, Reached(s, steps), g, k, Deliveries(s, steps, k))
    decreases |steps|
  {
    hide Flooding, KeysOk, OriginsOk, Next, Lossless, Load, Copies, Transmitters, Enabled;
    if steps != [] {
      ClockMonotone(s, steps);
      StepFlooding(s, steps[0], g, a, k, end);
      StepBalanced(s, steps[0], g, a, k, end);
      StepKeysOk(s, steps[0]);
      StepOriginsOk(s, steps[0]);
      RunFlooding(Next(s, steps[0]), steps[1..], g, a, k, end);
    } else {
      StillBalanced(s, g, a, k, end);
    }
  }

  lemma StillBalanced(s: Net, g: Graph, a: Address, k: Key, end: Time)
    requires Flooding(s, g, a, k, end)
    ensures Balanced(s, s, g, k, 0)
  {
  }

  lemma {:induction false} PathTransmits(s: Net, g: Graph, a: Address, k: Key, end: Time, path: seq<Address>)
    requires Flooding(s, g, a, k, end) && Copies(s.control, k) == 0
    requires IsPath(g, path) && path[0] == a
    ensures (path[|path| - 1], k) in s.sent
    decreases |path|
  {
    if |path| > 1 {
      var rest, m := path[..|path| - 1], path[|path| - 1];
      PathTransmits(s, g, a, k, end, rest);
      hide Connected, Remembers, Filter;
      assert Transmitter(s, g, a, k, end, rest[|rest| - 1]);
      if InFlight(s.control, m, k) {
        var c :| c in s.control && c.to == m && KeyOf(c.header) == k;
        FilterMember(OfKey(k), s.control, c);
      }
    }
  }

  /** Once nothing of the update is in flight, exactly the nodes connected to its origin have transmitted it. */
  lemma AtRestCoversConnected(s: Net, g: Graph, a: Address, k: Key, end: Time, n: Address)
    requires Flooding(s, g, a, k, end) && Copies(s.control, k) == 0
    ensures (n, k) in s.sent <==> Connected(g, a, n)
  {
    if Connected(g, a, n) {
      var path :| IsPath(g, path) && path[0] == a && path[|path| - 1] == n;
      PathTransmits(s, g, a, k, end, path);
    }
    assert (n, k) in s.sent ==> Transmitter(s, g, a, k, end, n);
  }

  /**
   * Flood coverage. Let `a` advertise at the end of any run, its broadcasts and the rebroadcasts of this update reach
   * exactly the radio neighbours, no copy of it be lost, and none arrive later than one cache lifetime after it was sent.
   * Then, whatever else happens, every node transmits it at most once; deliveries so far and copies still in flight add
   * up to the copies its transmitters put on the air, so there is a bound on the deliveries and the flood comes to an
   * end; and when nothing of it is in flight, the nodes that have transmitted it are exactly those connected to `a`.
   */
  lemma FloodCoverage(s0: Net, before: seq<Step>, start: Step, a: Address, flood: seq<Step>, g: Graph)
    requires Init(s0) && Runs(s0, before)
    requires var s := Reached(s0, before);
             && ClockFits(s.now) && Enabled(s, start) && Advertises(s, start, a)
             && Radio(g, s.nodes.Keys) && start.rx == g[a]
             && var k, s1 := Key(a, Seconds(s.now)), Next(s, start);
             && Runs(s1, flood) && ClockFits(Reached(s1, flood).now)
             && LosslessRun(s1, flood, g, k, s.now + 2_400_000)
    ensures var s := Reached(s0, before);
            var k, s1 := Key(a, Seconds(s.now)), Next(s, start);
            var s2 := Reached(s1, flood);
            && (forall n: Address :: s2.sent[(n, k)] <= 1)
            && Transmitters(s2, k) <= g.Keys
            && Deliveries(s1, flood, k) + Copies(s2.control, k) == Load(g, Transmitters(s2, k)) <= Load(g, g.Keys)
            && (Copies(s2.control, k) == 0 ==> forall n: Address :: (n, k) in s2.sent <==> Connected(g, a, n))
  {
    hide *;
    var s := Reached(s0, before);
    var s1, end := Next(s, start), s.now + 2_400_000;
    Lifetime();
    var s2 := Reached(s1, flood);
    InitOriginsOk(s0);
    RunOriginsOk(s0, before);
    InitKeysOk(s0);
    RunKeysOk(s0, before);
    StartFields(s, start, a);
    var k := Key(a, Seconds(s.now));
    FloodBegins(s, start, a, g);
    StepOriginsOk(s, start);
    StepKeysOk(s, start);
    RunFlooding(s1, flood, g, a, k, end);
    FirstBalance(s, start, a, g);
    FloodResult(s1, s2, g, a, k, end, Deliveries(s1, flood, k));
  }

  lemma Lifetime()
    ensures ID_LIFETIME == 2_400_000
  {
  }

  lemma FirstBalance(s: Net, start: Step, a: Address, g: Graph)
    requires OriginsOk(s) && KeysOk(s) && ClockFits(s.now) && Enabled(s, start) && Advertises(s, start, a)
    requires Radio(g, s.nodes.Keys) && start.rx == g[a]
    ensures var s1, k := Next(s, start), Key(a, Seconds(s.now));
            Transmitters(s1, k) <= g.Keys && Copies(s1.control, k) == Load(g, Transmitters(s1, k))
  {
    hide *;
    StartFields(s, start, a);
    OwnAddress(s, start);
    NewKeyUnlogged(s, start, a);
    UnloggedIsUnseen(s, Key(a, Seconds(s.now)));
    var u := FirstAdvert(s, start, a);
    FirstLoad(s, Next(s, start), a, g, Key(a, Seconds(s.now)), u);
  }

  lemma FirstLoad(s: Net, s': Net, a: Address, g: Graph, k: Key, u: Update)
    requires Unseen(s, k) && Radio(g, s.nodes.Keys) && a in s.nodes && KeyOf(u.header) == k
    requires s'.nodes == s.nodes[a := u.node] && s'.control == s.control + Broadcast(u.header, g[a])
    requires s'.sent == s.sent + multiset{(a, k)}
    ensures Transmitters(s', k) <= g.Keys && Copies(s'.control, k) == Load(g, Transmitters(s', k))
  {
    hide Holds;
    assert Transmitters(s', k) == {} + {a};
    LoadInsert(g, {}, a);
    FilterNone(OfKey(k), s.control);
    BroadcastOwn(s.control, u.header, g[a]);
  }

  lemma FloodResult(s1: Net, s2: Net, g: Graph, a: Address, k: Key, end: Time, delivered: nat)
    requires Flooding(s2, g, a, k, end) && Balanced(s1, s2, g, k, delivered)
    requires Copies(s1.control, k) == Load(g, Transmitters(s1, k))
    ensures forall n: Address :: s2.sent[(n, k)] <= 1
    ensures Transmitters(s2, k) <= g.Keys
    ensures delivered + Copies(s2.control, k) == Load(g, Transmitters(s2, k)) <= Load(g, g.Keys)
    ensures Copies(s2.control, k) == 0 ==> forall n: Address :: (n, k) in s2.sent <==> Connected(g, a, n)
  {
    hide Transmitter, Connected, Copies, Transmitters;
    LoadMonotone(g, Transmitters(s2, k), g.Keys);
    if Copies(s2.control, k) == 0 {
      forall n: Address ensures (n, k) in s2.sent <==> Connected(g, a, n) {
        AtRestCoversConnected(s2, g, a, k, end, n);
      }
    }
  }
}
