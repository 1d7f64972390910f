/** Where every piece of position data in the network comes from. */
module Provenance {
  import opened Machine
  import opened Sequences
  import opened Wire
  import opened IdCaches
  import opened RoutingTables
  import opened Handlers
  import opened Networks

  /** `a` really advertised exactly this entry. */
  ghost predicate Known(log: map<Address, seq<Advert>>, a: Address, e: Entry) {
    exists i :: 0 <= i < |History(log, a)| && History(log, a)[i].entry == e
  }

  /** Every ordinary entry of the table was advertised by the node it is about. */
  ghost predicate TableTraced(t: Table, log: map<Address, seq<Advert>>) {
    forall b :: b in t && !Special(b) ==> Known(log, b, t[b])
  }

  ghost predicate NodeTraced(n: NodeState, a: Address, log: map<Address, seq<Advert>>) {
    n.addr == a && !Special(a) && a != ZERO && TableTraced(n.table, log)
  }

  ghost predicate ControlTraced(h: ControlHeader, log: map<Address, seq<Advert>>) {
    !Special(h.addr) && Known(log, h.addr, EntryOf(h))
  }

  ghost predicate DataTraced(p: Packet, log: map<Address, seq<Advert>>) {
    !Special(p.dst) && Known(log, p.dst, DstEntry(p.data, p.dst))
  }

  ghost predicate LogOwned(log: map<Address, seq<Advert>>, nodes: set<Address>) {
    forall a :: a in log ==> a in nodes && forall i :: 0 <= i < |log[a]| ==> log[a][i].entry.addr == a
  }

  /**
   * Provenance: tables, updates in flight and data headers in flight carry only what the node concerned
   * advertised, position, velocity and timestamp together.
   */
  ghost predicate Traced(s: Net) {
    && LogOwned(s.log, s.nodes.Keys)
    && (forall a :: a in s.nodes ==> NodeTraced(s.nodes[a], a, s.log))
    && (forall c :: c in s.control ==> ControlTraced(c.header, s.log))
    && (forall c :: c in s.data ==> DataTraced(c.packet, s.log))
  }

  // ---------------------------------------------------------------- growing logs

  ghost predicate Extends(log: map<Address, seq<Advert>>, log': map<Address, seq<Advert>>) {
    forall a :: History(log, a) <= History(log', a)
  }

  lemma KnownExtends(log: map<Address, seq<Advert>>, log': map<Address, seq<Advert>>, a: Address, e: Entry)
    requires Extends(log, log') && Known(log, a, e)
    ensures Known(log', a, e)
  {
    var i :| 0 <= i < |History(log, a)| && History(log, a)[i].entry == e;
    assert History(log', a)[i].entry == e;
  }

  lemma TableExtends(t: Table, log: map<Address, seq<Advert>>, log': map<Address, seq<Advert>>)
    requires Extends(log, log') && TableTraced(t, log)
    ensures TableTraced(t, log')
  {
    forall b | b in t && !Special(b) ensures Known(log', b, t[b]) {
      KnownExtends(log, log', b, t[b]);
    }
  }

  /** Advertising leaves every earlier claim traced and adds the new update as a traced one. */
  lemma AdvertiseTraced(s: Net, a: Address, env: Env, rx: seq<Address>)
    requires Traced(s) && a in s.nodes
    ensures Traced(Advertise(s, a, SendUpdate(s.nodes[a], env, s.now), env, rx))
  {
    var u := SendUpdate(s.nodes[a], env, s.now);
    var s' := Advertise(s, a, u, env, rx);
    var e := Advertised(a, env.pos, env.vel, s.now);
    assert Extends(s.log, s'.log);
    assert Known(s'.log, a, e) by {
      assert History(s'.log, a)[|History(s.log, a)|].entry == e;
    }
    EntryOfUpdateHeader(e, env.uid);
    assert u.header == UpdateHeader(e, env.uid);
    assert ControlTraced(u.header, s'.log);
    hide Advertised, EntryOf, UpdateHeader, DstEntry, Known, OwnEntry;
    forall b | b in s'.nodes ensures NodeTraced(s'.nodes[b], b, s'.log) {
      TableExtends(s.nodes[b].table, s.log, s'.log);
    }
    forall c | c in s'.control ensures ControlTraced(c.header, s'.log) {
      if c in s.control {
        KnownExtends(s.log, s'.log, c.header.addr, EntryOf(c.header));
      } else {
        assert c in Broadcast(u.header, rx);
      }
    }
    forall c | c in s'.data ensures DataTraced(c.packet, s'.log) {
      KnownExtends(s.log, s'.log, c.packet.dst, DstEntry(c.packet.data, c.packet.dst));
    }
  }

  lemma RecheckTraced(s: Net, a: Address, env: Env, rx: seq<Address>)
    requires Traced(s) && a in s.nodes
    ensures Traced(Recheck(s, a, env, rx))
  {
    hide Drifted, SendUpdate, Overdue, Traced;
    AdvertiseTraced(s, a, env, rx);
    if Drifted(s.nodes[a], env, s.now) {
      AdvertiseTraced(Advertise(s, a, SendUpdate(s.nodes[a], env, s.now), env, rx), a, env, rx);
    }
  }

  // ---------------------------------------------------------------- single events

  /** Receiving an advertised update keeps the table traced, and whatever is released carries the update's entry. */
  lemma ReceptionTraced(n: NodeState, h: ControlHeader, env: Env, now: Time, log: map<Address, seq<Advert>>)
    requires TableTraced(n.table, log) && ControlTraced(h, log)
    ensures var r := RecvMyprotocol(n, h, env, now);
            && TableTraced(r.node.table, log)
            && forall send :: send in r.released ==> DataTraced(send.packet, log)
  {
    var r := RecvMyprotocol(n, h, env, now);
    ReceptionShape(n, h, env, now);
    assert EntryOf(h).addr == h.addr;
    assert TableTraced(r.node.table, log) by {
      hide RecvMyprotocol, EntryOf;
      assert TableTraced(n.table[h.addr := EntryOf(h)], log);
    }
    forall send | send in r.released ensures DataTraced(send.packet, log) {
      var i :| 0 <= i < |r.released| && r.released[i] == send;
      ReleaseShape(n, h, env, now, i);
      assert DstEntry(send.packet.data, send.packet.dst) == EntryOf(h);
    }
  }

  /** The exchange moves advertised entries between table and header; nothing else appears. */
  lemma ExchangeTraced(t: Table, p: Packet, log: map<Address, seq<Advert>>, nodes: set<Address>)
    requires TableTraced(t, log) && DataTraced(p, log) && LogOwned(log, nodes)
    ensures var x := Exchange(t, p.dst, p.data);
            && TableTraced(x.table, log) && DataTraced(p.(data := x.header), log)
  {
    var x := Exchange(t, p.dst, p.data);
    if p.dst in t {
      KnownOwned(log, nodes, p.dst, t[p.dst]);
    }
    ExchangeSettlesOnFreshest(t, p.dst, p.data);
    forall b | b in x.table && !Special(b) ensures Known(log, b, x.table[b]) {
      if b != p.dst {
        assert x.table[b] == t[b];
      }
    }
  }

  lemma KnownOwned(log: map<Address, seq<Advert>>, nodes: set<Address>, a: Address, e: Entry)
    requires LogOwned(log, nodes) && Known(log, a, e)
    ensures e.addr == a && a in nodes
  {
  }

  lemma ForwardTraced(n: NodeState, p: Packet, env: Env, now: Time, log: map<Address, seq<Advert>>, nodes: set<Address>)
    requires TableTraced(n.table, log) && DataTraced(p, log) && LogOwned(log, nodes)
    ensures var f := Forwarding(n, p, env, now);
            && TableTraced(f.node.table, log)
            && (f.send.Some? ==> DataTraced(f.send.value.packet, log))
  {
    var live := Purged(n.table, now);
    ForwardShape(n, p, env, now);
    ExchangeTraced(live, p, log, nodes);
    var f, x := Forwarding(n, p, env, now), Exchange(live, p.dst, p.data);
    if f.send.Some? {
      assert DstEntry(f.send.value.packet.data, p.dst) == DstEntry(x.header, p.dst);
    }
  }

  lemma RouteOutputTraced(n: NodeState, p: Packet, env: Env, now: Time, log: map<Address, seq<Advert>>, nodes: set<Address>)
    requires TableTraced(n.table, log) && !Special(p.dst) && LogOwned(log, nodes)
    ensures var r := RouteOutput(n, p, env, now);
            && TableTraced(r.node.table, log)
            && (r.outcome.Sent? ==> DataTraced(r.outcome.send.packet, log))
  {
    RouteOutputShape(n, p, env, now);
    var r, t := RouteOutput(n, p, env, now), Purged(n.table, now);
    if r.outcome.Sent? {
      KnownOwned(log, nodes, p.dst, t[p.dst]);
      DstEntryWithDst(BLANK, t[p.dst]);
      assert DstEntry(r.outcome.send.packet.data, p.dst) == t[p.dst];
    }
  }

  // ---------------------------------------------------------------- every step, every run

  lemma ReceiveTraced(s: Net, i: nat, env: Env, rx: seq<Address>)
    requires Traced(s) && i < |s.control| && s.control[i].to in s.nodes
    ensures Traced(Receive(s, i, env, rx))
  {
    hide RecvMyprotocol, EntryOf, DstEntry, Known, Registered;
    var c := s.control[i];
    assert c in s.control;
    var r := RecvMyprotocol(s.nodes[c.to], c.header, env, s.now);
    var s' := Receive(s, i, env, rx);
    ReceptionTraced(s.nodes[c.to], c.header, env, s.now, s.log);
    ReceptionShape(s.nodes[c.to], c.header, env, s.now);
    forall d | d in s'.control ensures ControlTraced(d.header, s.log) {
      ReceivedControl(s, i, env, rx, d);
    }
    forall d | d in s'.data ensures DataTraced(d.packet, s.log) {
      if d !in s.data {
        var j := ReceivedData(s, i, env, rx, d);
        assert r.released[j] in r.released;
      }
    }
  }

  lemma PassOnTraced(s: Net, i: nat, env: Env)
    requires Traced(s) && i < |s.data| && s.data[i].to in s.nodes
    ensures Traced(PassOn(s, i, env))
  {
    hide Forwarding, EntryOf, DstEntry, Known;
    var c := s.data[i];
    var s' := PassOn(s, i, env);
    assert c in s.data;
    ForwardTraced(s.nodes[c.to], c.packet, env, s.now, s.log, s.nodes.Keys);
    ForwardShape(s.nodes[c.to], c.packet, env, s.now);
    forall d | d in s'.data ensures DataTraced(d.packet, s.log) {
      if d in Without(s.data, i) {
        WithoutMember(s.data, i, d);
      }
    }
  }

  lemma SendNewTraced(s: Net, a: Address, p: Packet, env: Env)
    requires Traced(s) && a in s.nodes && !Special(p.dst)
    ensures Traced(SendNew(s, a, p, env))
  {
    hide RouteOutput, EntryOf, DstEntry, Known;
    RouteOutputTraced(s.nodes[a], p, env, s.now, s.log, s.nodes.Keys);
    RouteOutputShape(s.nodes[a], p, env, s.now);
  }

  lemma StepTraced(s: Net, step: Step)
    requires Traced(s) && Enabled(s, step)
    ensures Traced(Next(s, step))
  {
    match step
    case Tick(to) =>
    case Start(a, env, jitter, rx) => AdvertiseTraced(s, a, env, rx);
    case Check(a, env, jitter, rx) => RecheckTraced(s, a, env, rx);
    case DeliverControl(i, env, rx) => ReceiveTraced(s, i, env, rx);
    case LoseControl(i) =>
    case Originate(a, p, env) => SendNewTraced(s, a, p, env);
    case DeliverData(i, env) => PassOnTraced(s, i, env);
    case LoseData(i) =>
  }

  lemma {:induction false} RunTraced(s: Net, steps: seq<Step>)
    requires Traced(s) && Runs(s, steps)
    ensures Traced(Reached(s, steps))
    decreases |steps|
  {
    if steps != [] {
      StepTraced(s, steps[0]);
      RunTraced(Next(s, steps[0]), steps[1..]);
    }
  }

  lemma InitTraced(s: Net)
    requires Init(s)
    ensures Traced(s)
  {
  }

  /** Provenance over every run, whatever is lost, delayed, reordered or drawn. */
  lemma EverythingTraced(s: Net, steps: seq<Step>)
    requires Init(s) && Runs(s, steps)
    ensures Traced(Reached(s, steps))
  {
    InitTraced(s);
    RunTraced(s, steps);
  }
}
