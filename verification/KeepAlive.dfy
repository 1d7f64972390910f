/** With updates arriving in time, a position once learned is never purged. */
module KeepAlive {
  import opened Machine
  import opened Sequences
  import opened Wire
  import opened IdCaches
  import opened RoutingTables
  import opened Handlers
  import opened Networks
  import opened Updates
  import Provenance

  /** Node `n` has accepted, and so retransmitted, the update of `a` stamped `ts`. */
  ghost predicate Heard(s: Net, n: Address, a: Address, ts: u16) {
    (n, Key(a, ts)) in s.sent
  }

  /**
   * Delivery within `d`: an update of `a` older than `d` has been accepted at `n`, and no copy of an update
   * of `a` is still on its way to `n` more than `d` after it was sent.
   */
  ghost predicate Timely(s: Net, n: Address, a: Address, d: Time) {
    var h := History(s.log, a);
    && (forall i :: 0 <= i < |h| && h[i].at + d < s.now ==> Heard(s, n, a, h[i].entry.ts))
    && (forall c, i :: c in s.control && c.to == n && c.header.addr == a && 0 <= i < |h| && h[i].entry.ts == c.header.ts ==>
          s.now <= h[i].at + d)
  }

  /** The step does not make `n` accept an update of `a` more than `slack` seconds older than one it already has. */
  ghost predicate InOrder(s: Net, step: Step, n: Address, a: Address, slack: nat)
    requires Enabled(s, step)
  {
    step.DeliverControl? && s.control[step.i].to == n && s.control[step.i].header.addr == a
      && !Holds(Live(s.nodes[n].ids, s.now), KeyOf(s.control[step.i].header)) ==>
      forall ts: u16 :: Heard(s, n, a, ts) ==> ts <= s.control[step.i].header.ts + slack
  }

  ghost predicate TimelyRun(s: Net, steps: seq<Step>, n: Address, a: Address, d: Time)
    requires Runs(s, steps)
    decreases |steps|
  {
    Timely(s, n, a, d) && (steps != [] ==> TimelyRun(Next(s, steps[0]), steps[1..], n, a, d))
  }

  ghost predicate OrderedRun(s: Net, steps: seq<Step>, n: Address, a: Address, slack: nat)
    requires Runs(s, steps)
    decreases |steps|
  {
    steps != [] ==> InOrder(s, steps[0], n, a, slack) && OrderedRun(Next(s, steps[0]), steps[1..], n, a, slack)
  }

  /** What earlier modules establish about every run. */
  ghost predicate Sound(s: Net) {
    Provenance.Traced(s) && OriginsOk(s) && KeysOk(s)
  }

  /** Once `n` has heard of `a` its table has an entry for `a`, at most `slack` seconds behind the newest heard. */
  ghost predicate Keeps(s: Net, n: Address, a: Address, slack: nat) {
    && n in s.nodes && a in s.nodes && n != a
    && forall ts: u16 :: Heard(s, n, a, ts) ==>
         a in s.nodes[n].table && ts <= s.nodes[n].table[a].ts + slack
  }

  // ---------------------------------------------------------------- the age of an entry

  /** The newest update sent more than `d` ago, if there is one. */
  lemma NewestOverdue(h: seq<Advert>, d: Time, now: Time) returns (j: int)
    ensures -1 <= j < |h|
    ensures j >= 0 ==> h[j].at + d < now
    ensures j + 1 < |h| ==> now <= h[j + 1].at + d
  {
    j := |h| - 1;
    while j >= 0 && now <= h[j].at + d
      invariant -1 <= j < |h|
      invariant j + 1 < |h| ==> now <= h[j + 1].at + d
      decreases j + 1
    {
      j := j - 1;
    }
  }

  /** The age of an update that is at most `slack` seconds behind the newest overdue one. */
  lemma AgeBound(h: seq<Advert>, i: nat, timer: Time, now: Time, d: Time, slack: nat)
    requires Spaced(h) && i < |h| && TimerOk(h, timer, now) && slack * SECOND + d <= 7_975_000
    requires forall j :: 0 <= j < |h| && h[j].at + d < now ==> h[j].entry.ts <= h[i].entry.ts + slack
    ensures Seconds(now) < h[i].entry.ts + ENTRY_LIFETIME
  {
    var j := NewestOverdue(h, d, now);
    SecondsBounds(h[0].at);
    SecondsBounds(now);
    assert h[0].entry.ts <= h[i].entry.ts;
    if j < 0 {
      assert now <= h[0].at + d;
    } else if j + 1 < |h| {
      assert h[j + 1].at < h[j].entry.ts * SECOND + LATEST;
    }
  }

  /** While `a` keeps its timers and its updates arrive, the entry `n` holds for `a` is younger than 30 s. */
  lemma EntryIsYoung(s: Net, n: Address, a: Address, d: Time, slack: nat)
    requires Sound(s) && Keeps(s, n, a, slack) && Timely(s, n, a, d) && slack * SECOND + d <= 7_975_000
    ensures (exists ts: u16 :: Heard(s, n, a, ts)) ==>
              a in s.nodes[n].table && !Stale(s.nodes[n].table[a], s.now)
  {
    hide Spaced, TimerOk, Sound, LastSent, Seconds, Provenance.Known, Stale, OriginOk;
    if exists ts: u16 :: Heard(s, n, a, ts) {
      var h := History(s.log, a);
      var i := HeldAdvert(s, n, a);
      OriginTimer(s, a);
      AgeBound(h, i, s.timers[a], s.now, d, slack);
      FreshIsKept(s.nodes[n].table[a], s.now);
    }
  }

  lemma FreshIsKept(e: Entry, now: Time)
    requires Seconds(now) < e.ts + ENTRY_LIFETIME
    ensures !Stale(e, now)
  {
  }

  /** The advertisement that a table entry came from. */
  lemma HeldAdvert(s: Net, n: Address, a: Address) returns (i: nat)
    requires Sound(s) && n in s.nodes && a in s.nodes && a in s.nodes[n].table
    ensures i < |History(s.log, a)| && History(s.log, a)[i].entry == s.nodes[n].table[a]
  {
    hide OriginsOk, KeysOk;
    assert Provenance.NodeTraced(s.nodes[a], a, s.log) && Provenance.NodeTraced(s.nodes[n], n, s.log);
    assert Provenance.Known(s.log, a, s.nodes[n].table[a]);
    i :| i < |History(s.log, a)| && History(s.log, a)[i].entry == s.nodes[n].table[a];
  }

  lemma OriginTimer(s: Net, a: Address)
    requires Sound(s) && a in s.nodes && History(s.log, a) != []
    ensures Spaced(History(s.log, a)) && a in s.timers && TimerOk(History(s.log, a), s.timers[a], s.now)
  {
    hide Spaced, TimerOk, LastSent, KeysOk, Provenance.Traced;
    assert OriginOk(s, a);
  }

  // ---------------------------------------------------------------- every step

  /** The accepted update itself is young when it arrives, and not behind what was heard. */
  lemma ArrivalIsYoung(s: Net, i: nat, n: Address, a: Address, d: Time)
    requires Sound(s) && Timely(s, n, a, d) && d <= 7_975_000 && i < |s.control| && a in s.nodes
    requires s.control[i].to == n && s.control[i].header.addr == a
    ensures !Stale(EntryOf(s.control[i].header), s.now)
  {
    var c, h := s.control[i], History(s.log, a);
    assert c in s.control;
    assert Provenance.Known(s.log, a, EntryOf(c.header));
    var j :| 0 <= j < |h| && h[j].entry == EntryOf(c.header);
    assert OriginOk(s, a);
    SecondsBounds(h[j].at);
    SecondsBounds(s.now);
  }

  lemma ReceiveKeeps(s: Net, i: nat, env: Env, rx: seq<Address>, n: Address, a: Address, d: Time, slack: nat)
    requires Sound(s) && Keeps(s, n, a, slack) && Timely(s, n, a, d) && slack * SECOND + d <= 7_975_000
    requires Enabled(s, DeliverControl(i, env, rx)) && InOrder(s, DeliverControl(i, env, rx), n, a, slack)
    requires s.control[i].to == n
    ensures Keeps(Receive(s, i, env, rx), n, a, slack)
  {
    hide Sound, Timely, RecvMyprotocol, Stale, Registered, Live, Holds, GetRightVelocity, Broadcast, Launches, Without;
    var c := s.control[i];
    var t, h := s.nodes[n].table, c.header;
    ReceptionShape(s.nodes[n], h, env, s.now);
    EntryIsYoung(s, n, a, d, slack);
    if h.addr == a {
      ArrivalIsYoung(s, i, n, a, d);
    }
    var s' := Receive(s, i, env, rx);
    var t' := s'.nodes[n].table;
    forall ts: u16 | Heard(s', n, a, ts) ensures a in t' && ts <= t'[a].ts + slack {
      if Holds(Live(s.nodes[n].ids, s.now), KeyOf(h)) {
        assert Heard(s, n, a, ts);
      } else if h.addr == a {
        assert t'[a] == EntryOf(h);
        assert ts == h.ts || Heard(s, n, a, ts);
      } else {
        assert Heard(s, n, a, ts);
        assert t'[a] == t[a];
      }
    }
  }

  lemma PassOnKeeps(s: Net, i: nat, env: Env, n: Address, a: Address, d: Time, slack: nat)
    requires Sound(s) && Keeps(s, n, a, slack) && Timely(s, n, a, d) && slack * SECOND + d <= 7_975_000
    requires Enabled(s, DeliverData(i, env)) && s.data[i].to == n
    ensures Keeps(PassOn(s, i, env), n, a, slack)
  {
    hide Sound, Timely, Forwarding, Stale, PassedOn, Without, SameDst, GetRightVelocity, SetRightVelocity;
    ForwardShape(s.nodes[n], s.data[i].packet, env, s.now);
    EntryIsYoung(s, n, a, d, slack);
    var t' := PassOn(s, i, env).nodes[n].table;
    forall ts: u16 | Heard(PassOn(s, i, env), n, a, ts) ensures a in t' && ts <= t'[a].ts + slack {
      assert Heard(s, n, a, ts);
    }
  }

  lemma SendNewKeeps(s: Net, p: Packet, env: Env, n: Address, a: Address, d: Time, slack: nat)
    requires Sound(s) && Keeps(s, n, a, slack) && Timely(s, n, a, d) && slack * SECOND + d <= 7_975_000
    requires Enabled(s, Originate(n, p, env))
    ensures Keeps(SendNew(s, n, p, env), n, a, slack)
  {
    hide Sound, Timely, RouteOutput, Stale, GreedySend, EnteringSend, SameDst;
    RouteOutputShape(s.nodes[n], p, env, s.now);
    EntryIsYoung(s, n, a, d, slack);
    var t' := SendNew(s, n, p, env).nodes[n].table;
    forall ts: u16 | Heard(SendNew(s, n, p, env), n, a, ts) ensures a in t' && ts <= t'[a].ts + slack {
      assert Heard(s, n, a, ts);
    }
  }

  /** A step that leaves the table entry for `a` at `n` alone and adds nothing heard. */
  lemma UntouchedKeeps(s: Net, s': Net, n: Address, a: Address, slack: nat)
    requires Keeps(s, n, a, slack) && n in s'.nodes && a in s'.nodes
    requires a in s.nodes[n].table ==> a in s'.nodes[n].table && s'.nodes[n].table[a] == s.nodes[n].table[a]
    requires forall ts: u16 :: Heard(s', n, a, ts) ==> Heard(s, n, a, ts)
    ensures Keeps(s', n, a, slack)
  {
  }

  lemma AdvertiseKeeps(s: Net, b: Address, env: Env, rx: seq<Address>, n: Address, a: Address, slack: nat)
    requires Keeps(s, n, a, slack) && b in s.nodes && s.nodes[b].addr == b && !Special(a)
    ensures Keeps(Advertise(s, b, SendUpdate(s.nodes[b], env, s.now), env, rx), n, a, slack)
  {
    hide Advertised, OwnEntry;
    AdvertisedFields(b, env.pos, env.vel, s.now);
    var s' := Advertise(s, b, SendUpdate(s.nodes[b], env, s.now), env, rx);
    forall ts: u16 | Heard(s', n, a, ts) ensures Heard(s, n, a, ts) {
      assert (n, Key(a, ts)) != (b, Key(b, ToU16(Seconds(s.now))));
    }
    UntouchedKeeps(s, s', n, a, slack);
  }

  lemma StepKeeps(s: Net, step: Step, n: Address, a: Address, d: Time, slack: nat)
    requires Sound(s) && Keeps(s, n, a, slack) && Timely(s, n, a, d) && slack * SECOND + d <= 7_975_000
    requires Enabled(s, step) && InOrder(s, step, n, a, slack) && ClockFits(s.now)
    ensures Keeps(Next(s, step), n, a, slack)
  {
    SenderOwned(s, a);
    hide RecvMyprotocol, RouteOutput, Forwarding, SendUpdate, Advertise, Sound, Timely, Drifted, InOrder, Broadcast, Launches,
      Registered, Keeps, Recheck;
    if !step.Start? && !step.Check? {
      EventKeeps(s, step, n, a, d, slack);
    } else {
      SenderOwned(s, step.node);
      AdvertiseKeeps(s, step.node, step.env, step.rx, n, a, slack);
      RecheckOnce(s, step.node, step.env, step.rx);
      TimersAreApart(Next(s, step), s, step, n, a, slack);
    }
  }

  /** Setting a timer does not touch tables. */
  lemma TimersAreApart(s': Net, s: Net, step: Step, n: Address, a: Address, slack: nat)
    requires Enabled(s, step) && (step.Start? || step.Check?) && s' == Next(s, step) && Keeps(s, n, a, slack)
    requires var b, env := step.node, step.env;
             var u := Advertise(s, b, SendUpdate(s.nodes[b], env, s.now), env, step.rx);
             && Keeps(u, n, a, slack)
             && (step.Check? ==> Recheck(s, b, env, step.rx) == s || Recheck(s, b, env, step.rx) == u)
    ensures Keeps(s', n, a, slack)
  {
    hide Recheck, Advertise, SendUpdate;
    var b, env := step.node, step.env;
    var u := Advertise(s, b, SendUpdate(s.nodes[b], env, s.now), env, step.rx);
    UntouchedKeeps(if step.Check? && Recheck(s, b, env, step.rx) == s then s else u, s', n, a, slack);
  }

  lemma EventKeeps(s: Net, step: Step, n: Address, a: Address, d: Time, slack: nat)
    requires Sound(s) && Keeps(s, n, a, slack) && Timely(s, n, a, d) && slack * SECOND + d <= 7_975_000
    requires Enabled(s, step) && InOrder(s, step, n, a, slack) && !step.Start? && !step.Check?
    ensures Keeps(Next(s, step), n, a, slack)
  {
    hide RecvMyprotocol, RouteOutput, Forwarding, Sound, Timely, InOrder, Broadcast, Launches, Registered;
    match step
    case Tick(to) => UntouchedKeeps(s, Next(s, step), n, a, slack);
    case DeliverControl(i, env, rx) =>
      if s.control[i].to == n {
        ReceiveKeeps(s, i, env, rx, n, a, d, slack);
      } else {
        UntouchedKeeps(s, Next(s, step), n, a, slack);
      }
    case LoseControl(i) => UntouchedKeeps(s, Next(s, step), n, a, slack);
    case Originate(b, p, env) =>
      if b == n {
        SendNewKeeps(s, p, env, n, a, d, slack);
      } else {
        UntouchedKeeps(s, Next(s, step), n, a, slack);
      }
    case DeliverData(i, env) =>
      if s.data[i].to == n {
        PassOnKeeps(s, i, env, n, a, d, slack);
      } else {
        UntouchedKeeps(s, Next(s, step), n, a, slack);
      }
    case LoseData(i) => UntouchedKeeps(s, Next(s, step), n, a, slack);
  }

  lemma SenderOwned(s: Net, b: Address)
    requires Sound(s) && b in s.nodes
    ensures s.nodes[b].addr == b && !Special(b)
  {
    assert Provenance.NodeTraced(s.nodes[b], b, s.log);
  }

  lemma StepSound(s: Net, step: Step)
    requires Sound(s) && Enabled(s, step) && ClockFits(s.now)
    ensures Sound(Next(s, step))
  {
    hide Provenance.Traced, OriginsOk, KeysOk, Next;
    Provenance.StepTraced(s, step);
    StepOriginsOk(s, step);
    StepKeysOk(s, step);
  }

  lemma {:induction false} RunKeeps(s: Net, steps: seq<Step>, n: Address, a: Address, d: Time, slack: nat)
    requires Sound(s) && Keeps(s, n, a, slack) && slack * SECOND + d <= 7_975_000
    requires Runs(s, steps) && ClockFits(Reached(s, steps).now)
    requires TimelyRun(s, steps, n, a, d) && OrderedRun(s, steps, n, a, slack)
    ensures Sound(Reached(s, steps)) && Keeps(Reached(s, steps), n, a, slack) && Timely(Reached(s, steps), n, a, d)
    decreases |steps|
  {
    hide Sound, Keeps, Timely, InOrder, Next;
    if steps != [] {
      ClockMonotone(s, steps);
      StepKeeps(s, steps[0], n, a, d, slack);
      StepSound(s, steps[0]);
      RunKeeps(Next(s, steps[0]), steps[1..], n, a, d, slack);
    }
  }

  // ---------------------------------------------------------------- the theorems

  /**
   * If updates of `a` reach `n` within 7.975 s and `n` accepts none older than it already has, then in every
   * state after `n` first accepts one, `n` has an entry for `a` that `Purge` keeps.
   */
  lemma NeverPurgedInOrder(s: Net, steps: seq<Step>, n: Address, a: Address)
    requires Init(s) && Runs(s, steps) && ClockFits(Reached(s, steps).now)
    requires n in s.nodes && a in s.nodes && n != a
    requires TimelyRun(s, steps, n, a, 7_975_000) && OrderedRun(s, steps, n, a, 0)
    requires exists ts: u16 :: Heard(Reached(s, steps), n, a, ts)
    ensures var s' := Reached(s, steps);
            n in s'.nodes && a in s'.nodes[n].table && a in Purged(s'.nodes[n].table, s'.now)
  {
    InitSound(s);
    RunKeeps(s, steps, n, a, 7_975_000, 0);
    EntryIsYoung(Reached(s, steps), n, a, 7_975_000, 0);
  }

  /**
   * Because `Update` overwrites newer entries with older ones, copies that overtake each other need a shorter
   * deadline: 3.975 s is enough whatever the order of arrival.
   */
  lemma NeverPurgedAnyOrder(s: Net, steps: seq<Step>, n: Address, a: Address)
    requires Init(s) && Runs(s, steps) && ClockFits(Reached(s, steps).now)
    requires n in s.nodes && a in s.nodes && n != a
    requires TimelyRun(s, steps, n, a, 3_975_000)
    requires exists ts: u16 :: Heard(Reached(s, steps), n, a, ts)
    ensures var s' := Reached(s, steps);
            n in s'.nodes && a in s'.nodes[n].table && a in Purged(s'.nodes[n].table, s'.now)
  {
    InitSound(s);
    TimelyIsOrdered(s, steps, n, a);
    RunKeeps(s, steps, n, a, 3_975_000, 4);
    EntryIsYoung(Reached(s, steps), n, a, 3_975_000, 4);
  }

  lemma InitSound(s: Net)
    requires Init(s)
    ensures Sound(s)
    ensures forall n, a, slack :: n in s.nodes && a in s.nodes && n != a ==> Keeps(s, n, a, slack)
  {
    Provenance.InitTraced(s);
    InitOriginsOk(s);
    InitKeysOk(s);
  }

  /** A 3.975 s deadline keeps acceptances within 4 s of the newest one heard. */
  lemma {:induction false} TimelyIsOrdered(s: Net, steps: seq<Step>, n: Address, a: Address)
    requires Sound(s) && Runs(s, steps) && ClockFits(Reached(s, steps).now)
    requires n in s.nodes && a in s.nodes && TimelyRun(s, steps, n, a, 3_975_000)
    ensures OrderedRun(s, steps, n, a, 4)
    decreases |steps|
  {
    hide Sound, Timely, Next, InOrder;
    if steps != [] {
      ClockMonotone(s, steps);
      TimelyStepIsOrdered(s, steps[0], n, a);
      StepSound(s, steps[0]);
      NodesStay(s, steps[0]);
      TimelyIsOrdered(Next(s, steps[0]), steps[1..], n, a);
    }
  }

  lemma TimelyStepIsOrdered(s: Net, step: Step, n: Address, a: Address)
    requires Sound(s) && Enabled(s, step) && a in s.nodes && Timely(s, n, a, 3_975_000)
    ensures InOrder(s, step, n, a, 4)
  {
    hide LastSent, TimerOk, Holds, Live, EntryOf, Provenance.NodeTraced, CacheBacked, Seconds;
    if step.DeliverControl? && s.control[step.i].to == n && s.control[step.i].header.addr == a {
      var c, h := s.control[step.i], History(s.log, a);
      assert c in s.control;
      assert OriginOk(s, a);
      assert Provenance.Known(s.log, a, EntryOf(c.header));
      var j :| 0 <= j < |h| && h[j].entry == EntryOf(c.header);
      EntryOfFields(c.header);
      assert s.now <= h[j].at + 3_975_000;
      forall ts: u16 | Heard(s, n, a, ts) ensures ts <= c.header.ts + 4 {
        assert Logged(s.log, Key(a, ts));
        var i :| 0 <= i < |h| && h[i].entry.ts == ts;
        SecondsBounds(h[i].at);
        SecondsBounds(h[j].at);
      }
    }
  }
}
