/** How far a remote prediction can be from where its sender is about to be. */
module DeadReckoning {
  import opened Machine
  import opened Geometry
  import opened RoutingTables
  import opened Handlers
  import opened Networks
  import opened Updates
  import KeepAlive
  import Provenance

  /** `x` is less than `margin` outside `0..max`, or inside. */
  predicate Near(x: real, margin: real, max: u16) {
    -margin < x < max as real + margin
  }

  predicate NearBox(p: Vector, margin: real) {
    Near(p.x, margin, MAX_X) && Near(p.y, margin, MAX_Y) && Near(p.z, margin, MAX_Z)
  }

  /** The error bound `dt` seconds after an update: with dt = T + 1 - s this is 375 + (T - s) + 2. */
  function Bound(dt: nat): real {
    376.0 + dt as real
  }

  /** Every coordinate of `p` is strictly within `bound` of that of `q`. */
  predicate Within(p: Vector, q: Vector, bound: real) {
    -bound < p.x - q.x < bound && -bound < p.y - q.y < bound && -bound < p.z - q.z < bound
  }

  lemma SquareBound(x: real)
    requires Square(x) <= CHANGE2
    ensures -375.0 <= x <= 375.0
  {
    if x > 375.0 {
      Above(x, 375.0);
    } else if x < -375.0 {
      Above(-x, 375.0);
      NegatedSquare(x);
    }
  }

  lemma Above(x: real, c: real)
    requires x > c > 0.0
    ensures x * x > x * c
  {
  }

  /** Points within 375 m of each other differ by at most 375 m on each axis. */
  lemma AxesWithin(p: Vector, q: Vector)
    requires Distance2(p, q) <= CHANGE2
    ensures -375.0 <= p.x - q.x <= 375.0 && -375.0 <= p.y - q.y <= 375.0 && -375.0 <= p.z - q.z <= 375.0
  {
    SquareBound(p.x - q.x);
    SquareBound(p.y - q.y);
    SquareBound(p.z - q.z);
  }

  lemma TruncWithin(x: real)
    ensures -1.0 < Trunc(x) as real - x < 1.0
    ensures x >= 0.0 ==> 0 <= Trunc(x) && Trunc(x) as real <= x
    ensures x <= 0.0 ==> Trunc(x) <= 0 && x <= Trunc(x) as real
  {
  }

  /** `b` falls short of `a`, toward zero, by less than `slack`. */
  predicate ShortOf(b: real, a: real, slack: real) {
    -slack < b - a < slack && (a >= 0.0 ==> 0.0 <= b <= a) && (a <= 0.0 ==> a <= b <= 0.0)
  }

  /** Truncating a speed shortens `dt` seconds of travel by less than `dt`. */
  lemma {:induction false} TravelWithin(v: real, dt: nat)
    requires dt >= 1
    ensures ShortOf((dt * Trunc(v)) as real, dt as real * v, dt as real)
    ensures (v >= 0.0 ==> dt as real * v >= 0.0) && (v <= 0.0 ==> dt as real * v <= 0.0)
  {
    hide Trunc;
    TruncWithin(v);
    if dt > 1 {
      TravelWithin(v, dt - 1);
      assert dt * Trunc(v) == (dt - 1) * Trunc(v) + Trunc(v);
      assert dt as real * v == (dt - 1) as real * v + v;
    } else {
      assert 1 * Trunc(v) == Trunc(v);
      assert 1.0 * v == v;
    }
  }

  lemma SmallFits(x: int)
    requires 0 <= x < 0x1_0000
    ensures ToU16(x) == x
  {
  }

  lemma Further(v: real, dt: nat, reach: real)
    requires dt >= 1 && v > reach >= 0.0
    ensures dt as real * v > reach
  {
    assert (dt - 1) as real * v >= 0.0;
    assert dt as real * v == (dt - 1) as real * v + v;
  }

  /** Travel that stays within reach is at a speed within reach. */
  lemma SpeedWithin(v: real, dt: nat, reach: real)
    requires dt >= 1 && reach >= 0.0 && -reach <= dt as real * v <= reach
    ensures -reach <= v <= reach
  {
    assert dt as real * -v == -(dt as real * v);
    if v > reach {
      Further(v, dt, reach);
    } else if v < -reach {
      Further(-v, dt, reach);
    }
  }

  /** What a prediction makes of a coordinate and a speed that were advertised `dt` seconds ago. */
  function Told(pos: real, v: real, dt: u16, max: u16): u16 {
    PredictAxis(ToU16(Trunc(ClampReal(pos, max as real))), ToI16(Trunc(v)), dt, max)
  }

  predicate AxisWithin(pos: real, v: real, dt: u16, target: real, max: u16) {
    -Bound(dt) < Told(pos, v, dt, max) as real - target < Bound(dt)
  }

  /** `c` is a coordinate as an update tells it: clamped and truncated. */
  predicate ToldFrom(c: int, pos: real, max: u16) {
    && (pos < 0.0 ==> c == 0)
    && (0.0 <= pos <= max as real ==> c as real <= pos < c as real + 1.0)
    && (pos > max as real ==> c == max)
  }

  lemma TellsClamped(pos: real, max: u16)
    ensures 0 <= Trunc(ClampReal(pos, max as real)) <= max
    ensures ToldFrom(Trunc(ClampReal(pos, max as real)), pos, max)
  {
  }

  /** The whole error on one axis: of the told coordinate, of the told travel, of the drift, and of clamping. */
  lemma ClampedError(c: int, b: int, pos: real, a: real, dt: nat, target: real, max: u16)
    requires dt >= 1 && ToldFrom(c, pos, max) && ShortOf(b as real, a, dt as real)
    requires Near(pos, 1.0 + dt as real, max) && Near(target, Bound(dt), max) && -375.0 <= target - (pos + a) <= 375.0
    ensures -Bound(dt) < Clamp(c + b, max) as real - target < Bound(dt)
  {
  }

  /** One axis: from a last-sent position this near, the bound holds exactly if the projected position is this near. */
  lemma AxisErrorIff(pos: real, v: real, dt: u16, target: real, max: u16)
    requires 1 <= dt <= 21 && max <= 1000 && Near(pos, 1.0 + dt as real, max)
    requires -375.0 <= target - (pos + dt as real * v) <= 375.0
    ensures AxisWithin(pos, v, dt, target, max) <==> Near(target, Bound(dt), max)
  {
    hide Trunc, ToI16, ToU16, ClampReal, PredictAxis, Clamp;
    if Near(target, Bound(dt), max) {
      AxisUnwrapped(pos, v, dt, target, max);
      TravelWithin(v, dt);
      TellsClamped(pos, max);
      ClampedError(Trunc(ClampReal(pos, max as real)), dt * Trunc(v), pos, dt as real * v, dt, target, max);
    }
  }

  /** There, nothing wraps: a speed high enough would have carried the sender out of the region. */
  lemma AxisUnwrapped(pos: real, v: real, dt: u16, target: real, max: u16)
    requires 1 <= dt <= 21 && max <= 1000 && Near(pos, 1.0 + dt as real, max) && Near(target, Bound(dt), max)
    requires -375.0 <= target - (pos + dt as real * v) <= 375.0
    ensures Told(pos, v, dt, max) == Clamp(Trunc(ClampReal(pos, max as real)) + dt * Trunc(v), max)
  {
    hide Trunc, ToI16, ToU16, ClampReal, PredictAxis, Clamp;
    SpeedWithin(v, dt, 1800.0);
    TruncWithin(v);
    TravelWithin(v, dt);
    TellsClamped(pos, max);
    var x, w := Trunc(ClampReal(pos, max as real)), Trunc(v);
    NoWrap(w);
    SmallFits(x);
    AxisExact(x, w, dt, max);
  }

  /** From a last-sent position near the box, the bound holds on all axes exactly if the projected position is near it. */
  lemma AdvertErrorIff(a: Address, pos: Vector, vel: Vector, at: Time, target: Vector, later: Time, dt: u16)
    requires ClockFits(at) && Seconds(later) == Seconds(at) + dt && 1 <= dt <= 21
    requires NearBox(pos, 1.0 + dt as real) && Distance2(target, Add(pos, Scale(dt, vel))) <= CHANGE2
    ensures Within(PredictEntry(Advertised(a, pos, vel, at), later), target, Bound(dt)) <==> NearBox(target, Bound(dt))
  {
    hide Told, Distance2, Seconds, PredictEntry, Advertised, Bound, Near;
    AxesWithin(target, Add(pos, Scale(dt, vel)));
    AxisErrorIff(pos.x, vel.x, dt, target.x, MAX_X);
    AxisErrorIff(pos.y, vel.y, dt, target.y, MAX_Y);
    AxisErrorIff(pos.z, vel.z, dt, target.z, MAX_Z);
    AdvertPrediction(a, pos, vel, at, later, dt);
  }

  lemma AdvertPrediction(a: Address, pos: Vector, vel: Vector, at: Time, later: Time, dt: u16)
    requires ClockFits(at) && Seconds(later) == Seconds(at) + dt
    ensures PredictEntry(Advertised(a, pos, vel, at), later) ==
            IntVector(Told(pos.x, vel.x, dt, MAX_X), Told(pos.y, vel.y, dt, MAX_Y), Told(pos.z, vel.z, dt, MAX_Z))
  {
    assert Elapsed(later, ToU16(Seconds(at))) == dt;
    hide Trunc, ClampReal, PredictAxis, ToI16, ToU16, Seconds, Elapsed;
  }

  /** After a check, the motion last advertised explains the projected motion to within the threshold. */
  lemma CheckedWithin(n: NodeState, env: Env, now: Time)
    requires ClockFits(now) && n.lastSendTime <= Seconds(now)
    ensures var c := CheckChange(n, env, now).node;
            && c.lastSendTime <= Seconds(now) <= c.lastSendTime + MAX_INTERVAL
            && Distance2(Add(env.pos, env.vel),
                         Add(c.lastSendPos, Scale(Seconds(now) - c.lastSendTime + 1, c.lastSendVel))) <= CHANGE2
  {
    hide Distance2, Advertised, OwnEntry, UpdateHeader, Add, Scale;
    SentNow(n, env, now);
    CheckLeavesUpdateRecent(n, env, now);
    ExpectedAtOnce(env.pos, env.vel);
  }

  /** Right after an update the sender is expected exactly where it projects itself. */
  lemma ExpectedAtOnce(pos: Vector, vel: Vector)
    ensures Distance2(Add(pos, vel), Add(pos, Scale(1, vel))) <= CHANGE2
  {
    assert Scale(1, vel) == vel;
    assert Distance2(Add(pos, vel), Add(pos, vel)) == 0.0;
  }

  // ---------------------------------------------------------------- what a remote table holds

  lemma {:induction false} SoundRun(s: Net, steps: seq<Step>)
    requires KeepAlive.Sound(s) && Runs(s, steps) && ClockFits(Reached(s, steps).now)
    ensures KeepAlive.Sound(Reached(s, steps))
    decreases |steps|
  {
    hide KeepAlive.Sound, Next;
    if steps != [] {
      ClockMonotone(s, steps);
      KeepAlive.StepSound(s, steps[0]);
      SoundRun(Next(s, steps[0]), steps[1..]);
    }
  }

  /** The last update in a node's log is described by the node's own record of what it last sent. */
  lemma LastAdvert(s: Net, a: Address) returns (at: Time)
    requires KeepAlive.Sound(s) && a in s.nodes && a in s.timers && ClockFits(s.now)
    ensures var n, h := s.nodes[a], History(s.log, a);
            && h != [] && h[|h| - 1] == Advert(Advertised(a, n.lastSendPos, n.lastSendVel, at), at)
            && ClockFits(at) && Seconds(at) == n.lastSendTime <= Seconds(s.now)
  {
    hide Advertised;
    assert OriginOk(s, a);
    var h := History(s.log, a);
    at := h[|h| - 1].at;
    assert at <= s.now;
    SecondsMonotone(at, s.now);
  }

  /** An entry stamped with the second of the origin's last update is that update. */
  lemma LastUpdateHeld(s: Net, a: Address, m: Address)
    requires KeepAlive.Sound(s) && m in s.nodes && a in s.nodes[m].table
    requires var h := History(s.log, a);
             h != [] && s.nodes[m].table[a].ts == h[|h| - 1].entry.ts
    ensures var h := History(s.log, a);
            s.nodes[m].table[a] == h[|h| - 1].entry
  {
    hide Spaced, LastSent, TimerOk, KeysOk;
    assert Provenance.NodeTraced(s.nodes[a], a, s.log) && Provenance.NodeTraced(s.nodes[m], m, s.log);
    assert Provenance.Known(s.log, a, s.nodes[m].table[a]);
    assert OriginOk(s, a);
    OneStamp(History(s.log, a), s.log, a, s.nodes[m].table[a]);
  }

  /** Timestamps being distinct, an advertised entry with the last one's timestamp is the last one. */
  lemma OneStamp(h: seq<Advert>, log: map<Address, seq<Advert>>, a: Address, e: Entry)
    requires h == History(log, a) && h != [] && Spaced(h) && Provenance.Known(log, a, e) && e.ts == h[|h| - 1].entry.ts
    ensures e == h[|h| - 1].entry
  {
    var i :| 0 <= i < |h| && h[i].entry == e;
  }

  /** After a check in the network, the sender's log and record explain its projected motion to within the threshold. */
  lemma CheckedOrigin(s: Net, a: Address, env: Env, jitter: nat, rx: seq<Address>) returns (at: Time)
    requires KeepAlive.Sound(s) && ClockFits(s.now) && Enabled(s, Check(a, env, jitter, rx))
    ensures var s1 := Next(s, Check(a, env, jitter, rx));
            && KeepAlive.Sound(s1) && a in s1.nodes
            && var n1, h := s1.nodes[a], History(s1.log, a);
            && h != [] && h[|h| - 1] == Advert(Advertised(a, n1.lastSendPos, n1.lastSendVel, at), at)
            && ClockFits(at) && Seconds(at) == n1.lastSendTime <= Seconds(s.now) <= Seconds(at) + MAX_INTERVAL
            && Distance2(Add(env.pos, env.vel),
                         Add(n1.lastSendPos, Scale(Seconds(s.now) - Seconds(at) + 1, n1.lastSendVel))) <= CHANGE2
  {
    hide *;
    CheckNode(s, a, env, jitter, rx);
    KeepAlive.StepSound(s, Check(a, env, jitter, rx));
    var earlier := LastAdvert(s, a);
    at := LastAdvert(Next(s, Check(a, env, jitter, rx)), a);
    CheckedWithin(s.nodes[a], env, s.now);
  }

  lemma CheckNode(s: Net, a: Address, env: Env, jitter: nat, rx: seq<Address>)
    requires Enabled(s, Check(a, env, jitter, rx))
    ensures var s1 := Next(s, Check(a, env, jitter, rx));
            && a in s.nodes && a in s.timers && a in s1.timers && s1.now == s.now
            && s1.nodes == s.nodes[a := CheckChange(s.nodes[a], env, s.now).node]
  {
    hide Drifted, Overdue, SendUpdate, CheckChange, Broadcast;
    RecheckRunsCheckChange(s, a, env, rx);
  }

  /** In `s2`, `a` has advertised nothing since `s1`, and `m` holds what `a` had last sent. */
  ghost predicate HoldsLast(s1: Net, s2: Net, a: Address, m: Address) {
    && a in s1.nodes && m in s2.nodes && a in s2.nodes[m].table
    && History(s2.log, a) == History(s1.log, a)
    && s2.nodes[m].table[a].ts == s1.nodes[a].lastSendTime
  }

  lemma HeldPrediction(s1: Net, s2: Net, a: Address, m: Address, env: Env, at: Time, now: Time, later: Time)
    requires HoldsLast(s1, s2, a, m) && KeepAlive.Sound(s2)
    requires var n1, h := s1.nodes[a], History(s1.log, a);
             && h != [] && h[|h| - 1] == Advert(Advertised(a, n1.lastSendPos, n1.lastSendVel, at), at)
             && ClockFits(at) && Seconds(at) == n1.lastSendTime <= Seconds(now) <= Seconds(at) + MAX_INTERVAL
             && Distance2(Add(env.pos, env.vel),
                         Add(n1.lastSendPos, Scale(Seconds(now) - Seconds(at) + 1, n1.lastSendVel))) <= CHANGE2
             && Seconds(later) == Seconds(now) + 1
             && NearBox(n1.lastSendPos, 2.0 + (Seconds(now) - n1.lastSendTime) as real)
    ensures m in s2.nodes
    ensures var bound := 375.0 + (Seconds(now) - s1.nodes[a].lastSendTime) as real + 2.0;
            Within(Predict(s2.nodes[m].table, a, later), Add(env.pos, env.vel), bound) <==> NearBox(Add(env.pos, env.vel), bound)
  {
    hide KeepAlive.Sound, Advertised, Distance2, Add, Scale, Seconds, ToU16, PredictEntry, NearBox, Within, Predict, History;
    var n1, t := s1.nodes[a], s2.nodes[m].table;
    assert t[a] == Advertised(a, n1.lastSendPos, n1.lastSendVel, at) by {
      AdvertisedFields(a, n1.lastSendPos, n1.lastSendVel, at);
      SmallFits(Seconds(at));
      LastUpdateHeld(s2, a, m);
    }
    var dt: u16 := Seconds(now) - Seconds(at) + 1;
    assert Bound(dt) == 375.0 + (Seconds(now) - s1.nodes[a].lastSendTime) as real + 2.0;
    AdvertErrorIff(a, n1.lastSendPos, n1.lastSendVel, at, Add(env.pos, env.vel), later, dt);
    PredictKnown(t, a, later);
  }

  /**
   * Dead reckoning in the network: after any check of `a` at second T, and until its next update, every table
   * that holds its last update (sent at second s, less than T - s + 2 outside the box) predicts for second T + 1 a
   * position that is on each axis strictly within 375 + (T - s) + 2 of the measured position plus velocity, if and only
   * if that projection is itself less than 375 + (T - s) + 2 outside the box. No bound on the speed is needed: one fast
   * enough to wrap the prediction would have drifted out of that region, and a new update would be due.
   */
  lemma RemotePredictionBounded(s0: Net, before: seq<Step>, a: Address, env: Env, jitter: nat, rx: seq<Address>,
                                after: seq<Step>, m: Address, later: Time)
    requires Init(s0) && Runs(s0, before)
    requires var s := Reached(s0, before);
             && ClockFits(s.now) && Enabled(s, Check(a, env, jitter, rx))
             && Runs(Next(s, Check(a, env, jitter, rx)), after)
             && Seconds(later) == Seconds(s.now) + 1
    requires var s1 := Next(Reached(s0, before), Check(a, env, jitter, rx));
             var s2 := Reached(s1, after);
             && ClockFits(s2.now) && HoldsLast(s1, s2, a, m)
             && NearBox(s1.nodes[a].lastSendPos, 2.0 + (Seconds(Reached(s0, before).now) - s1.nodes[a].lastSendTime) as real)
    ensures var s := Reached(s0, before);
            var s1 := Next(s, Check(a, env, jitter, rx));
            var bound := 375.0 + (Seconds(s.now) - s1.nodes[a].lastSendTime) as real + 2.0;
            Within(Predict(Reached(s1, after).nodes[m].table, a, later), Add(env.pos, env.vel), bound) <==>
            NearBox(Add(env.pos, env.vel), bound)
  {
    hide *;
    var s := Reached(s0, before);
    var s1 := Next(s, Check(a, env, jitter, rx));
    var s2 := Reached(s1, after);
    KeepAlive.InitSound(s0);
    SoundRun(s0, before);
    var at := CheckedOrigin(s, a, env, jitter, rx);
    SoundRun(s1, after);
    HeldPrediction(s1, s2, a, m, env, at, s.now, later);
  }

  lemma PredictKnown(t: Table, a: Address, now: Time)
    requires a in t
    ensures Predict(t, a, now) == PredictEntry(t[a], now)
  {
    hide PredictEntry;
  }

  // ---------------------------------------------------------------- how near the last-sent position must be

  /** Whatever the speed, an unreported drift to a projected position near the box leaves the bound intact. */
  ghost predicate SafeFrom(a: Address, pos: Vector, at: Time, later: Time, dt: u16) {
    forall vel, target ::
      NearBox(target, Bound(dt)) && Distance2(target, Add(pos, Scale(dt, vel))) <= CHANGE2 ==>
        Within(PredictEntry(Advertised(a, pos, vel, at), later), target, Bound(dt))
  }

  /** The smallest multiple of `dt` above `y`. */
  lemma NextMultiple(y: real, dt: nat) returns (k: nat)
    requires y >= 0.0 && dt >= 1
    ensures k >= 1 && k <= dt * k && y < (dt * k) as real <= y + dt as real
  {
    var m := y.Floor;
    QuotientOf(m, dt);
    k := m / dt + 1;
    assert dt * k == dt * (m / dt) + dt;
    MulMono(k, 1, dt);
  }

  lemma QuotientOf(m: nat, dt: nat)
    requires dt >= 1
    ensures dt * (m / dt) <= m < dt * (m / dt) + dt
  {
  }

  /** From further below the axis some speed, with a drift of just 375 m, breaks the bound. */
  lemma BelowFails(pos: real, dt: u16, max: u16) returns (k: nat, target: real)
    requires 1 <= dt <= 21 && 300 <= max <= 1000 && -32768.0 <= pos <= -(1.0 + dt as real)
    ensures target == pos + (dt * k) as real - 375.0 && Near(target, Bound(dt), max)
    ensures !AxisWithin(pos, k as real, dt, target, max)
  {
    hide Trunc, ToI16, ToU16, ClampReal, PredictAxis;
    k := NextMultiple(-pos - 1.0 - dt as real, dt);
    target := pos + (dt * k) as real - 375.0;
    TellsClamped(pos, max);
    WholeSpeed(k);
    SmallFits(0);
    NoWrap(k);
    AxisExact(0, k, dt, max);
  }

  /** The same from further above it. */
  lemma AboveFails(pos: real, dt: u16, max: u16) returns (k: nat, target: real)
    requires 1 <= dt <= 21 && 300 <= max <= 1000 && max as real + 1.0 + dt as real <= pos <= max as real + 32768.0
    ensures target == pos - (dt * k) as real + 375.0 && Near(target, Bound(dt), max)
    ensures !AxisWithin(pos, -(k as real), dt, target, max)
  {
    hide Trunc, ToI16, ToU16, ClampReal, PredictAxis;
    k := NextMultiple(pos - max as real - 1.0 - dt as real, dt);
    target := pos - (dt * k) as real + 375.0;
    TellsClamped(pos, max);
    WholeSpeed(k);
    SmallFits(max);
    NoWrap(0 - k);
    assert dt * (0 - k) == 0 - dt * k;
    AxisExact(max, 0 - k, dt, max);
  }

  lemma WholeSpeed(k: nat)
    ensures Trunc(k as real) == k && Trunc(-(k as real)) == 0 - k
  {
  }

  /** As far below or above the axis as `int16_t` reaches. */
  predicate InReach(x: real, max: u16) {
    -32768.0 <= x <= max as real + 32768.0
  }

  /** The square of how far `target` is from where the advertised speed leads. */
  function Drift2(pos: real, v: real, dt: u16, target: real): real {
    Square(target - (pos + dt as real * v))
  }

  lemma DriftSum(pos: Vector, vel: Vector, dt: u16, target: Vector)
    ensures Distance2(target, Add(pos, Scale(dt, vel)))
         == Drift2(pos.x, vel.x, dt, target.x) + Drift2(pos.y, vel.y, dt, target.y) + Drift2(pos.z, vel.z, dt, target.z)
  {
  }

  lemma AxisFails(pos: real, dt: u16, max: u16) returns (v: real, target: real)
    requires 1 <= dt <= 21 && 300 <= max <= 1000 && InReach(pos, max) && !Near(pos, 1.0 + dt as real, max)
    ensures Near(target, Bound(dt), max) && !AxisWithin(pos, v, dt, target, max)
    ensures Drift2(pos, v, dt, target) <= CHANGE2
  {
    hide AxisWithin, Bound;
    var k: nat;
    if pos <= 0.0 {
      k, target := BelowFails(pos, dt, max);
      v := k as real;
    } else {
      k, target := AboveFails(pos, dt, max);
      v := -(k as real);
    }
    WholeTravel(dt, k);
    DriftOf375(target - (pos + dt as real * v));
  }

  lemma {:induction false} WholeTravel(dt: nat, k: nat)
    ensures (dt * k) as real == dt as real * k as real && dt as real * -(k as real) == -(dt as real * k as real)
  {
    if dt > 0 {
      WholeTravel(dt - 1, k);
      assert dt * k == (dt - 1) * k + k;
      assert dt as real * k as real == (dt - 1) as real * k as real + k as real;
    }
  }

  lemma DriftOf375(x: real)
    requires x == 375.0 || x == -375.0
    ensures Square(x) <= CHANGE2
  {
  }

  /** The speed that brings the coordinate to 0 in `dt` seconds. */
  lemma ToZero(pos: real, dt: u16) returns (v: real)
    requires dt >= 1
    ensures Drift2(pos, v, dt, 0.0) == 0.0
  {
    v := -pos / dt as real;
    assert dt as real * v == -pos;
  }

  /** A drift on one axis only is no larger in space. */
  lemma UnsafeFrom(a: Address, pos: Vector, at: Time, later: Time, dt: u16, vel: Vector, target: Vector)
    requires ClockFits(at) && Seconds(later) == Seconds(at) + dt && NearBox(target, Bound(dt))
    requires Drift2(pos.x, vel.x, dt, target.x) + Drift2(pos.y, vel.y, dt, target.y)
           + Drift2(pos.z, vel.z, dt, target.z) <= CHANGE2
    requires !AxisWithin(pos.x, vel.x, dt, target.x, MAX_X) || !AxisWithin(pos.y, vel.y, dt, target.y, MAX_Y)
          || !AxisWithin(pos.z, vel.z, dt, target.z, MAX_Z)
    ensures !SafeFrom(a, pos, at, later, dt)
  {
    hide Told, Drift2, Distance2, Add, Scale, PredictEntry, Advertised, Bound, Seconds, NearBox;
    AdvertPrediction(a, pos, vel, at, later, dt);
    DriftSum(pos, vel, dt, target);
    assert !Within(PredictEntry(Advertised(a, pos, vel, at), later), target, Bound(dt));
  }

  /**
   * How near the last-sent position must be, `dt` seconds on: every such update is safe to reckon from if and only if it
   * was sent from less than 1 + dt outside the box. (Beyond the reach of `int16_t` wrap-around can be right by accident.)
   */
  lemma LastSentSafeIff(a: Address, pos: Vector, at: Time, later: Time, dt: u16)
    requires ClockFits(at) && Seconds(later) == Seconds(at) + dt && 1 <= dt <= 21
    requires InReach(pos.x, MAX_X) && InReach(pos.y, MAX_Y) && InReach(pos.z, MAX_Z)
    ensures SafeFrom(a, pos, at, later, dt) <==> NearBox(pos, 1.0 + dt as real)
  {
    hide PredictEntry, Advertised, Distance2, Drift2, AxisWithin, Within, Seconds, Add, Scale;
    if NearBox(pos, 1.0 + dt as real) {
      forall vel, target | NearBox(target, Bound(dt)) && Distance2(target, Add(pos, Scale(dt, vel))) <= CHANGE2
        ensures Within(PredictEntry(Advertised(a, pos, vel, at), later), target, Bound(dt))
      {
        AdvertErrorIff(a, pos, vel, at, target, later, dt);
      }
    } else {
      var x := ToZero(pos.x, dt);
      var y := ToZero(pos.y, dt);
      var z := ToZero(pos.z, dt);
      if !Near(pos.x, 1.0 + dt as real, MAX_X) {
        var v, t := AxisFails(pos.x, dt, MAX_X);
        UnsafeFrom(a, pos, at, later, dt, Vector(v, y, z), Vector(t, 0.0, 0.0));
      } else if !Near(pos.y, 1.0 + dt as real, MAX_Y) {
        var v, t := AxisFails(pos.y, dt, MAX_Y);
        UnsafeFrom(a, pos, at, later, dt, Vector(x, v, z), Vector(0.0, t, 0.0));
      } else {
        var v, t := AxisFails(pos.z, dt, MAX_Z);
        UnsafeFrom(a, pos, at, later, dt, Vector(x, y, v), Vector(0.0, 0.0, t));
      }
    }
  }

  /** Such an accident: 21 s on, every coordinate told from 65536 m below the axis is within the bound. */
  lemma AliasedIsSafe(v: real, target: real, max: u16)
    requires max <= 1000 && Near(target, Bound(21), max) && -375.0 <= target - (-65536.0 + 21.0 * v) <= 375.0
    ensures AxisWithin(-65536.0, v, 21, target, max)
  {
    hide Trunc, ToI16, ToU16, ClampReal, PredictAxis;
    TravelWithin(v, 21);
    TruncWithin(v);
    TellsClamped(-65536.0, max);
    SmallFits(0);
    NoWrap(Trunc(v));
    AliasedAxis(Trunc(v), max);
  }

  lemma AliasedAxis(w: i16, max: u16)
    requires 0x8000 <= 21 * w < 0x1_8000
    ensures PredictAxis(0, w, 21, max) == Clamp(21 * w - 0x1_0000, max)
  {
  }
}
