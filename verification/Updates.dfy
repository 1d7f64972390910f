/** Updates over a whole run: their timestamps, their spacing, and that each is new when it is sent. */
module Updates {
  import opened Machine
  import opened Sequences
  import opened IdCaches
  import opened RoutingTables
  import opened Handlers
  import opened Networks
  import Provenance

  /** Timestamps are 16-bit seconds: these theorems are about runs that stay below 65536 s. */
  ghost predicate ClockFits(now: Time) {
    Seconds(now) < 0x1_0000
  }

  /** From the second of an update, the next check that could be due comes before this. */
  const LATEST: Time := 22_025_000

  // ---------------------------------------------------------------- one origin

  /** Stamped with their second, in strictly later seconds, and none much later than the one before. */
  ghost predicate Spaced(h: seq<Advert>) {
    && (forall i :: 0 <= i < |h| ==> h[i].entry.ts == Seconds(h[i].at))
    && (forall i, j :: 0 <= i < j < |h| ==> h[i].entry.ts < h[j].entry.ts)
    && (forall i :: 0 < i < |h| ==> h[i].at < h[i - 1].entry.ts * SECOND + LATEST)
  }

  ghost predicate LastSent(n: NodeState, h: seq<Advert>) {
    h != [] ==>
      && n.lastSendTime == h[|h| - 1].entry.ts
      && h[|h| - 1].entry == Advertised(n.addr, n.lastSendPos, n.lastSendVel, h[|h| - 1].at)
  }

  ghost predicate TimerOk(h: seq<Advert>, timer: Time, now: Time) {
    h != [] && now <= timer && h[|h| - 1].at + CHECK_INTERVAL <= timer < h[|h| - 1].entry.ts * SECOND + LATEST
  }

  ghost predicate OriginOk(s: Net, a: Address)
    requires a in s.nodes
  {
    var h := History(s.log, a);
    && s.nodes[a].addr == a
    && Spaced(h) && LastSent(s.nodes[a], h)
    && (forall i :: 0 <= i < |h| ==> h[i].at <= s.now)
    && (a in s.timers <==> h != [])
    && (a in s.timers ==> TimerOk(h, s.timers[a], s.now))
  }

  ghost predicate OriginsOk(s: Net) {
    && (forall a :: a in s.nodes ==> OriginOk(s, a))
    && (forall a :: a in s.log || a in s.timers ==> a in s.nodes)
  }

  lemma SecondsBounds(t: Time)
    ensures Seconds(t) * SECOND <= t < Seconds(t) * SECOND + SECOND
  {
  }

  lemma SecondsMonotone(t: Time, u: Time)
    requires t <= u
    ensures Seconds(t) <= Seconds(u)
  {
  }

  lemma SecondLater(t: Time, u: Time)
    requires t + CHECK_INTERVAL <= u
    ensures Seconds(t) < Seconds(u)
  {
  }

  /** Adding an update now keeps the spacing, if the timer rules allow an update now. */
  lemma SpacedExtends(h: seq<Advert>, e: Entry, now: Time)
    requires Spaced(h) && ClockFits(now) && e.ts == Seconds(now)
    requires h != [] ==> TimerOk(h, now, now)
    ensures Spaced(h + [Advert(e, now)])
  {
    if h != [] {
      SecondLater(h[|h| - 1].at, now);
    }
    var h' := h + [Advert(e, now)];
    forall i, j | 0 <= i < j < |h'| ensures h'[i].entry.ts < h'[j].entry.ts {
      assert h'[i] == h[i];
      if j == |h| && i < |h| - 1 {
        assert h[i].entry.ts < h[|h| - 1].entry.ts;
      }
    }
  }

  /** A check before 65536 s sends nothing, or one update. */
  lemma RecheckOnce(s: Net, a: Address, env: Env, rx: seq<Address>)
    requires a in s.nodes && ClockFits(s.now)
    ensures var s' := Recheck(s, a, env, rx);
            || (s' == s && !Drifted(s.nodes[a], env, s.now) && !Overdue(s.nodes[a], s.now))
            || s' == Advertise(s, a, SendUpdate(s.nodes[a], env, s.now), env, rx)
  {
    hide Drifted, Advertised, OwnEntry, UpdateHeader, Registered;
    SentNow(s.nodes[a], env, s.now);
  }

  /** What the sender's own record becomes when it advertises. */
  lemma AdvertiseOrigin(s: Net, a: Address, env: Env, rx: seq<Address>)
    requires a in s.nodes && OriginOk(s, a) && ClockFits(s.now)
    requires a in s.timers ==> s.timers[a] == s.now
    ensures var s' := Advertise(s, a, SendUpdate(s.nodes[a], env, s.now), env, rx);
            var h := History(s'.log, a);
            && h == History(s.log, a) + [Advert(Advertised(a, env.pos, env.vel, s.now), s.now)]
            && Spaced(h) && LastSent(s'.nodes[a], h) && s'.nodes[a].addr == a
            && (forall i :: 0 <= i < |h| ==> h[i].at <= s.now)
            && h[|h| - 1].entry.ts == Seconds(s.now)
  {
    hide Trunc, ClampReal, Registered, UpdateHeader, OwnEntry, Spaced;
    SpacedExtends(History(s.log, a), Advertised(a, env.pos, env.vel, s.now), s.now);
  }

  lemma StartOriginOk(s: Net, a: Address, env: Env, jitter: nat, rx: seq<Address>)
    requires Enabled(s, Start(a, env, jitter, rx)) && OriginOk(s, a) && ClockFits(s.now)
    ensures OriginOk(Next(s, Start(a, env, jitter, rx)), a)
  {
    hide Advertised, Spaced, LastSent, SendUpdate;
    AdvertiseOrigin(s, a, env, rx);
    SecondsBounds(s.now);
  }

  /** The next timer after a check that sent nothing. */
  lemma TimerAfterSkip(n: NodeState, h: seq<Advert>, now: Time, jitter: nat)
    requires h != [] && LastSent(n, h) && TimerOk(h, now, now) && jitter <= 1000 && !Overdue(n, now)
    ensures TimerOk(h, now + CHECK_INTERVAL + 25 * jitter, now)
  {
    hide Advertised;
    SecondsBounds(now);
  }

  /** The next timer after an update. */
  lemma TimerAfterUpdate(h: seq<Advert>, now: Time, delay: nat)
    requires h != [] && h[|h| - 1].at == now && h[|h| - 1].entry.ts == Seconds(now)
    requires CHECK_INTERVAL <= delay <= 2_000_000
    ensures TimerOk(h, now + delay, now)
  {
    SecondsBounds(now);
  }

  lemma CheckOriginOk(s: Net, a: Address, env: Env, jitter: nat, rx: seq<Address>)
    requires Enabled(s, Check(a, env, jitter, rx)) && OriginOk(s, a) && ClockFits(s.now)
    ensures OriginOk(Next(s, Check(a, env, jitter, rx)), a)
  {
    hide Advertised, Spaced, SendUpdate, Drifted, Recheck, TimerOk, LastSent, Seconds, Overdue;
    RecheckOnce(s, a, env, rx);
    if Recheck(s, a, env, rx) == s {
      TimerAfterSkip(s.nodes[a], History(s.log, a), s.now, jitter);
    } else {
      AdvertiseOrigin(s, a, env, rx);
      TimerAfterUpdate(History(Recheck(s, a, env, rx).log, a), s.now, CHECK_INTERVAL + 25 * jitter);
    }
  }

  /** What a step leaves alone about a node that is not the one advertising. */
  ghost predicate SameOrigin(s: Net, s': Net, a: Address)
    requires a in s.nodes
  {
    && a in s'.nodes && s'.nodes[a].addr == s.nodes[a].addr
    && s'.nodes[a].lastSendTime == s.nodes[a].lastSendTime
    && s'.nodes[a].lastSendPos == s.nodes[a].lastSendPos && s'.nodes[a].lastSendVel == s.nodes[a].lastSendVel
    && History(s'.log, a) == History(s.log, a)
    && (a in s'.timers <==> a in s.timers) && (a in s.timers ==> s'.timers[a] == s.timers[a])
    && s'.now == s.now
  }

  lemma SameOriginOk(s: Net, s': Net, a: Address)
    requires a in s.nodes && SameOrigin(s, s', a) && OriginOk(s, a)
    ensures OriginOk(s', a)
  {
    hide Advertised, Spaced, TimerOk;
  }

  lemma RecheckOthers(s: Net, b: Address, env: Env, rx: seq<Address>, a: Address)
    requires b in s.nodes && a in s.nodes && a != b
    ensures SameOrigin(s, Recheck(s, b, env, rx), a)
  {
    hide SendUpdate, Drifted, Overdue;
  }

  lemma OtherOrigins(s: Net, step: Step, a: Address)
    requires Enabled(s, step) && a in s.nodes && !step.Tick?
    requires (step.Start? || step.Check?) ==> step.node != a
    ensures SameOrigin(s, Next(s, step), a)
  {
    hide RecvMyprotocol, RouteOutput, Forwarding, SendUpdate, Recheck, Exchange, Purged, PassedOn, Registered,
      Launches, Broadcast, Without;
    match step
    case Start(b, env, jitter, rx) =>
    case Check(b, env, jitter, rx) =>
      RecheckOthers(s, b, env, rx, a);
    case DeliverControl(i, env, rx) =>
      ReceptionShape(s.nodes[s.control[i].to], s.control[i].header, env, s.now);
    case LoseControl(i) =>
    case Originate(b, p, env) =>
      RouteOutputShape(s.nodes[b], p, env, s.now);
    case DeliverData(i, env) =>
      ForwardShape(s.nodes[s.data[i].to], s.data[i].packet, env, s.now);
    case LoseData(i) =>
  }

  lemma StepOriginsOk(s: Net, step: Step)
    requires OriginsOk(s) && Enabled(s, step) && ClockFits(s.now)
    ensures OriginsOk(Next(s, step))
  {
    hide OriginOk, Next, SameOrigin;
    NodesStay(s, step);
    var s' := Next(s, step);
    forall a | a in s'.nodes ensures OriginOk(s', a) {
      assert OriginOk(s, a);
      if step.Start? && step.node == a {
        StartOriginOk(s, a, step.env, step.jitter, step.rx);
      } else if step.Check? && step.node == a {
        CheckOriginOk(s, a, step.env, step.jitter, step.rx);
      } else if !step.Tick? {
        OtherOrigins(s, step, a);
        SameOriginOk(s, s', a);
      } else {
        TickOriginOk(s, step.to, a);
      }
    }
  }

  lemma TickOriginOk(s: Net, to: Time, a: Address)
    requires Enabled(s, Tick(to)) && a in s.nodes && OriginOk(s, a)
    ensures OriginOk(Next(s, Tick(to)), a)
  {
    hide Advertised, Spaced;
  }

  lemma {:induction false} RunOriginsOk(s: Net, steps: seq<Step>)
    requires OriginsOk(s) && Runs(s, steps) && ClockFits(Reached(s, steps).now)
    ensures OriginsOk(Reached(s, steps))
    decreases |steps|
  {
    if steps != [] {
      ClockMonotone(s, steps);
      StepOriginsOk(s, steps[0]);
      RunOriginsOk(Next(s, steps[0]), steps[1..]);
    }
  }

  lemma InitOriginsOk(s: Net)
    requires Init(s)
    ensures OriginsOk(s)
  {
  }

  /** The timestamps of one origin's updates strictly increase over every run, by at most 22 s from one to the next. */
  lemma TimestampsIncrease(s: Net, steps: seq<Step>, a: Address)
    requires Init(s) && Runs(s, steps) && ClockFits(Reached(s, steps).now)
    ensures var h := History(Reached(s, steps).log, a);
            && (forall i, j :: 0 <= i < j < |h| ==> h[i].entry.ts < h[j].entry.ts)
            && (forall i :: 0 < i < |h| ==> h[i].entry.ts - h[i - 1].entry.ts <= 22)
  {
    InitOriginsOk(s);
    RunOriginsOk(s, steps);
    var s' := Reached(s, steps);
    var h := History(s'.log, a);
    if h != [] {
      assert OriginOk(s', a);
      forall i | 0 < i < |h| ensures h[i].entry.ts - h[i - 1].entry.ts <= 22 {
        SecondsBounds(h[i].at);
      }
    }
  }

  // ---------------------------------------------------------------- update identity

  /** Some update of `k.origin` carries this timestamp. */
  ghost predicate Logged(log: map<Address, seq<Advert>>, k: Key) {
    exists i :: 0 <= i < |History(log, k.origin)| && History(log, k.origin)[i].entry.ts == k.ts
  }

  ghost predicate CacheBacked(n: NodeState, a: Address, sent: multiset<(Address, Key)>) {
    n.addr == a && forall k :: Holds(n.ids, k) ==> (a, k) in sent
  }

  /** Caches hold only keys their node has transmitted; only logged keys are transmitted or in flight. */
  ghost predicate KeysOk(s: Net) {
    && (forall a :: a in s.nodes ==> CacheBacked(s.nodes[a], a, s.sent))
    && (forall a, k :: (a, k) in s.sent ==> Logged(s.log, k))
    && (forall c :: c in s.control ==> Logged(s.log, KeyOf(c.header)))
  }

  lemma LoggedExtends(log: map<Address, seq<Advert>>, log': map<Address, seq<Advert>>, k: Key)
    requires Provenance.Extends(log, log') && Logged(log, k)
    ensures Logged(log', k)
  {
    var i :| 0 <= i < |History(log, k.origin)| && History(log, k.origin)[i].entry.ts == k.ts;
    assert History(log', k.origin)[i] == History(log, k.origin)[i];
  }

  lemma AdvertiseKeysOk(s: Net, a: Address, env: Env, rx: seq<Address>)
    requires KeysOk(s) && a in s.nodes
    ensures KeysOk(Advertise(s, a, SendUpdate(s.nodes[a], env, s.now), env, rx))
  {
    hide Advertised, OwnEntry, Holds, Logged, Registered;
    var u := SendUpdate(s.nodes[a], env, s.now);
    var s' := Advertise(s, a, u, env, rx);
    var e := Advertised(a, env.pos, env.vel, s.now);
    AdvertisedFields(a, env.pos, env.vel, s.now);
    var key := Key(a, e.ts);
    assert s.nodes[a].addr == a;
    assert KeyOf(u.header) == key;
    assert Provenance.Extends(s.log, s'.log);
    LastIsLogged(s.log, s'.log, a, Advert(e, s.now), key);
    forall b | b in s'.nodes ensures CacheBacked(s'.nodes[b], b, s'.sent) {
      assert CacheBacked(s.nodes[b], b, s.sent);
      forall k | Holds(s'.nodes[b].ids, k) ensures (b, k) in s'.sent {
        if b == a {
          RegisteredHolds(s.nodes[a].ids, ID_LIFETIME, key, s.now, k);
        }
      }
    }
    forall b, k | (b, k) in s'.sent ensures Logged(s'.log, k) {
      if (b, k) in s.sent {
        LoggedExtends(s.log, s'.log, k);
      }
    }
    forall c | c in s'.control ensures Logged(s'.log, KeyOf(c.header)) {
      if c in s.control {
        LoggedExtends(s.log, s'.log, KeyOf(c.header));
      } else {
        assert c in Broadcast(u.header, rx);
      }
    }
  }

  lemma LastIsLogged(log: map<Address, seq<Advert>>, log': map<Address, seq<Advert>>, a: Address, x: Advert, k: Key)
    requires History(log', a) == History(log, a) + [x] && k.origin == a && k.ts == x.entry.ts
    ensures Logged(log', k)
  {
    assert History(log', a)[|History(log, a)|] == x;
  }

  lemma ReceiveKeysOk(s: Net, i: nat, env: Env, rx: seq<Address>)
    requires KeysOk(s) && i < |s.control| && s.control[i].to in s.nodes
    ensures KeysOk(Receive(s, i, env, rx))
  {
    hide RecvMyprotocol, Holds, Logged, Registered, Live, EntryOf;
    var c := s.control[i];
    assert c in s.control;
    var key, n := KeyOf(c.header), s.nodes[c.to];
    var s' := Receive(s, i, env, rx);
    ReceptionShape(n, c.header, env, s.now);
    forall b | b in s'.nodes ensures CacheBacked(s'.nodes[b], b, s'.sent) {
      assert CacheBacked(s.nodes[b], b, s.sent);
      forall k | Holds(s'.nodes[b].ids, k) ensures (b, k) in s'.sent {
        if b == c.to {
          RegisteredHolds(n.ids, ID_LIFETIME, key, s.now, k);
          if k == key && Holds(Live(n.ids, s.now), key) {
            LiveHolds(n.ids, s.now, key);
          }
        }
      }
    }
    forall d | d in s'.control ensures Logged(s.log, KeyOf(d.header)) {
      ReceivedControl(s, i, env, rx, d);
    }
  }

  lemma StepKeysOk(s: Net, step: Step)
    requires KeysOk(s) && Enabled(s, step)
    ensures KeysOk(Next(s, step))
  {
    hide RouteOutput, Forwarding, RecvMyprotocol, Recheck, SendUpdate, Logged, Holds, Launches, PassedOn,
      GreedySend, EnteringSend, SameDst;
    match step
    case Tick(to) =>
    case Start(a, env, jitter, rx) => AdvertiseKeysOk(s, a, env, rx);
    case Check(a, env, jitter, rx) =>
      AdvertiseKeysOk(s, a, env, rx);
      RecheckKeysOk(s, a, env, rx);
    case DeliverControl(i, env, rx) => ReceiveKeysOk(s, i, env, rx);
    case LoseControl(i) =>
    case Originate(a, p, env) =>
      RouteOutputShape(s.nodes[a], p, env, s.now);
    case DeliverData(i, env) =>
      ForwardShape(s.nodes[s.data[i].to], s.data[i].packet, env, s.now);
    case LoseData(i) =>
  }

  lemma RecheckKeysOk(s: Net, a: Address, env: Env, rx: seq<Address>)
    requires KeysOk(s) && a in s.nodes
    ensures KeysOk(Recheck(s, a, env, rx))
  {
    hide KeysOk, SendUpdate, Drifted, Overdue;
    AdvertiseKeysOk(s, a, env, rx);
    if Drifted(s.nodes[a], env, s.now) {
      AdvertiseKeysOk(Advertise(s, a, SendUpdate(s.nodes[a], env, s.now), env, rx), a, env, rx);
    }
  }

  lemma {:induction false} RunKeysOk(s: Net, steps: seq<Step>)
    requires KeysOk(s) && Runs(s, steps)
    ensures KeysOk(Reached(s, steps))
    decreases |steps|
  {
    if steps != [] {
      StepKeysOk(s, steps[0]);
      RunKeysOk(Next(s, steps[0]), steps[1..]);
    }
  }

  lemma InitKeysOk(s: Net)
    requires Init(s)
    ensures KeysOk(s)
  {
  }

  /** No trace of an update's key anywhere: in no cache, never transmitted, not in flight. */
  ghost predicate Unseen(s: Net, k: Key) {
    && (forall a :: a in s.nodes ==> !Holds(s.nodes[a].ids, k))
    && (forall a :: (a, k) !in s.sent)
    && (forall c :: c in s.control ==> KeyOf(c.header) != k)
  }

  lemma UnloggedIsUnseen(s: Net, k: Key)
    requires KeysOk(s) && !Logged(s.log, k)
    ensures Unseen(s, k)
  {
    hide Logged, Holds;
  }

  /** Whether a step makes `a` advertise. */
  ghost predicate Advertises(s: Net, step: Step, a: Address)
    requires Enabled(s, step)
  {
    (step.Start? || step.Check?) && step.node == a && History(Next(s, step).log, a) != History(s.log, a)
  }

  /** An update is new when it is sent: its name, origin and second, has been used nowhere before. */
  lemma UpdateIsNew(s: Net, steps: seq<Step>, step: Step, a: Address)
    requires Init(s) && Runs(s, steps) && ClockFits(Reached(s, steps).now)
    requires Enabled(Reached(s, steps), step) && Advertises(Reached(s, steps), step, a)
    ensures Unseen(Reached(s, steps), Key(a, Seconds(Reached(s, steps).now)))
  {
    var s1 := Reached(s, steps);
    InitOriginsOk(s);
    RunOriginsOk(s, steps);
    InitKeysOk(s);
    RunKeysOk(s, steps);
    NewKeyUnlogged(s1, step, a);
    UnloggedIsUnseen(s1, Key(a, Seconds(s1.now)));
  }

  lemma NewKeyUnlogged(s: Net, step: Step, a: Address)
    requires OriginsOk(s) && ClockFits(s.now) && Enabled(s, step) && (step.Start? || step.Check?) && step.node == a
    ensures !Logged(s.log, Key(a, Seconds(s.now)))
  {
    hide Next, Advertised;
    assert OriginOk(s, a);
    var h := History(s.log, a);
    forall i | 0 <= i < |h| ensures h[i].entry.ts != Seconds(s.now) {
      SecondLater(h[|h| - 1].at, s.now);
      assert i < |h| - 1 ==> h[i].entry.ts < h[|h| - 1].entry.ts;
    }
  }

  /** A received update is rejected as a duplicate only by a node that has itself transmitted that very update. */
  lemma RejectedOnlyIfTransmitted(s: Net, steps: seq<Step>, i: nat)
    requires Init(s) && Runs(s, steps) && i < |Reached(s, steps).control|
    ensures var s1 := Reached(s, steps);
            var c := s1.control[i];
            c.to in s1.nodes && Holds(Live(s1.nodes[c.to].ids, s1.now), KeyOf(c.header)) ==> (c.to, KeyOf(c.header)) in s1.sent
  {
    InitKeysOk(s);
    RunKeysOk(s, steps);
    var s1 := Reached(s, steps);
    var c := s1.control[i];
    if c.to in s1.nodes && Holds(Live(s1.nodes[c.to].ids, s1.now), KeyOf(c.header)) {
      LiveHolds(s1.nodes[c.to].ids, s1.now, KeyOf(c.header));
      assert CacheBacked(s1.nodes[c.to], c.to, s1.sent);
    }
  }
}
