/** Queue releases in static networks: when exactly they go closer to the destination, and a run in which one does not. */
module StaleReleases {
  import opened Machine
  import opened Geometry
  import opened Sequences
  import opened Wire
  import opened IdCaches
  import RequestQueues
  import opened RoutingTables
  import opened Handlers
  import opened Networks
  import opened Updates
  import opened LoopFreedom
  import opened QuietRuns
  import Protocol

  /** A node at rest in the box advertised this. */
  predicate Resting(e: Entry) {
    && e.x <= MAX_X && e.y <= MAX_Y && e.z <= MAX_Z && e.vx == 0 && e.vy == 0 && e.vz == 0
    && !Special(e.addr) && e.addr != ZERO
  }

  /** Greedy release `j` that update `h` triggers at a standing node whose table is exact. */
  ghost predicate GreedyRelease(places: Places, n: NodeState, h: ControlHeader, env: Env, now: Time, j: nat) {
    && (forall a :: a in places ==> InBox(places[a]))
    && h.addr in places && Exact(EntryOf(h), places[h.addr]) && TableExact(n.table, places)
    && n.addr in places && StandsStill(env, places, n.addr)
    && j < |RecvMyprotocol(n, h, env, now).released|
    && RecvMyprotocol(n, h, env, now).released[j].packet.data.inRec == 0
  }

  /** Release `j` goes to a node strictly closer to the destination. */
  ghost predicate GoesCloser(places: Places, n: NodeState, h: ControlHeader, env: Env, now: Time, j: nat) {
    && j < |RecvMyprotocol(n, h, env, now).released|
    && Away(places, RecvMyprotocol(n, h, env, now).released[j].gateway, h.addr) < Away(places, n.addr, h.addr)
  }

  /** Every greedy release that update `h` can trigger goes closer. */
  ghost predicate ReleasesCloser(h: ControlHeader, now: Time) {
    forall places, n, env, j :: GreedyRelease(places, n, h, env, now, j) ==> GoesCloser(places, n, h, env, now, j)
  }

  // ---------------------------------------------------------------- fresh updates

  lemma FreshGoesCloser(places: Places, n: NodeState, h: ControlHeader, env: Env, now: Time, j: nat)
    requires GreedyRelease(places, n, h, env, now, j) && !Stale(EntryOf(h), now) && !Special(h.addr)
    ensures GoesCloser(places, n, h, env, now, j)
  {
    hide RecvMyprotocol, EntryOf, Stale, Away, GreedySend, EnteringSend, SameDst, Exact;
    ReceptionShape(n, h, env, now);
    ReleaseShape(n, h, env, now, j);
    var r := RecvMyprotocol(n, h, env, now);
    assert r.released != [];
    GreedyNotEntering(r.released[j], env.pos);
    GreedyIsCloser(places, r.node.table, n.addr, r.released[j], now);
  }

  // ---------------------------------------------------------------- stale updates

  /** A releaser with one neighbour, one packet waiting, and a stale update: the packet goes to the neighbour. */
  lemma ReleasesToOnlyNeighbor(n: NodeState, h: ControlHeader, env: Env, now: Time, b: Address)
    requires b in n.table && n.table.Keys == {b} && !Stale(n.table[b], now) && b != h.addr && b != ZERO
    requires Stale(EntryOf(h), now) && !Holds(Live(n.ids, now), Key(h.addr, h.ts)) && n.useQueue
    requires |n.queue.queue| == 1 && n.queue.queue[0].packet.dst == h.addr && n.queue.queue[0].expire >= now
    requires Neighbors(n.table, env.pos, now).Keys == {b}
    requires Best({b}, n.table, IntVector(-1, -1, -1), env.pos, now) == b
    ensures RecvMyprotocol(n, h, env, now).released == Rewrapped(n.queue.queue, b, ReleaseHeader(h, env.error))
  {
    hide Best, Distance2, PredictEntry, Neighbors, EntryOf, Filter, Live, Holds, Registered;
    EntryOfFields(h);
    assert Purged(n.table[h.addr := EntryOf(h)], now) == n.table;
    OnlyWaiting(n.queue, h.addr, now);
  }

  lemma OnlyWaiting(q: QueueState, dst: Address, now: Time)
    requires |q.queue| == 1 && q.queue[0].packet.dst == dst && q.queue[0].expire >= now
    ensures Waiting(q, dst, now) == q.queue && RequestQueues.FirstFor(q.queue, dst) == 0
  {
    FilterAll(RequestQueues.NotExpired(now), q.queue);
    FilterAll(RequestQueues.For(dst), q.queue);
  }

  /** `n'` is `n` with one live packet, for `dst`, in its queue. */
  ghost predicate Holding(n: NodeState, n': NodeState, dst: Address, now: Time) {
    && n' == n.(queue := n'.queue) && |n'.queue.queue| == 1
    && n'.queue.queue[0].packet.dst == dst && n'.queue.queue[0].expire >= now
  }

  /** A node with an empty queue that originates a packet for an unknown destination. */
  lemma Defers(n: NodeState, p: Packet, env: Env, now: Time)
    requires n.useQueue && n.queue == RequestQueues.QueueState([], []) && p.dst !in n.table
    requires forall b :: b in n.table ==> !Stale(n.table[b], now)
    ensures Holding(n, RouteOutput(n, p, env, now).node, p.dst, now)
  {
    hide RouteOutput, RequestQueues.Enqueued;
    assert Purged(n.table, now) == n.table;
    EnqueuedAlone(p.(data := BLANK.(uid := p.uid, hop := 1)), now);
    UnknownIsQueued(n, p, env, now);
  }

  lemma UnknownIsQueued(n: NodeState, p: Packet, env: Env, now: Time)
    requires n.useQueue && p.dst !in Purged(n.table, now)
    ensures var q := p.(data := BLANK.(uid := p.uid, hop := 1));
            RouteOutput(n, p, env, now).node == n.(table := Purged(n.table, now),
                                                   queue := RequestQueues.Enqueued(n.queue, q, now, MAX_QUEUE_LEN, QUEUE_TIMEOUT))
  {
    hide Best, NthKey, Neighbors, Predict, WithDst, InRecovery, RequestQueues.Enqueued, Purged;
  }

  lemma EnqueuedAlone(p: Packet, now: Time)
    ensures RequestQueues.Enqueued(RequestQueues.QueueState([], []), p, now, MAX_QUEUE_LEN, QUEUE_TIMEOUT).queue
         == [RequestQueues.QueueEntry(p, QUEUE_TIMEOUT + now)]
  {
  }

  /** Somewhere to stand, and a neighbouring place nearer the origin but no nearer the destination. */
  ghost predicate Misleading(here: Point, near: Point, dst: Point) {
    && InBox(here) && InBox(near)
    && Distance2(At(near), At(here)) <= RANGE2
    && Distance2(At(near), IntVector(-1, -1, -1)) < Distance2(IntVector(-1, -1, -1), At(here))
    && Distance2(At(near), At(dst)) >= Distance2(At(here), At(dst))
  }

  /** Facts about one coordinate: itself, its image from (-1,-1,-1), and one step toward the origin. */
  lemma OneStep(x: real)
    ensures Square(x - x) == 0.0 && Square(x - -1.0) == Square(-1.0 - x)
    ensures Square(x - 1.0 - x) == 1.0
    ensures x >= 1.0 ==> Square(x - 1.0 - -1.0) < Square(-1.0 - x)
  {
    assert Square(-1.0 - x) == x * x + 2.0 * x + 1.0;
    assert Square(x - 1.0 - -1.0) == x * x;
    NegatedSquare(-1.0 - x);
  }

  /** Standing at the destination, one metre toward the origin; from the corner itself, one step around it. */
  lemma MisleadingPlaces(dst: Point) returns (here: Point, near: Point)
    requires InBox(dst)
    ensures Misleading(here, near, dst)
  {
    hide Square;
    OneStep(dst.x as real);
    OneStep(dst.y as real);
    OneStep(dst.z as real);
    here := dst;
    if dst.x > 0 {
      near := Point(dst.x - 1, dst.y, dst.z);
    } else if dst.y > 0 {
      near := Point(dst.x, dst.y - 1, dst.z);
    } else if dst.z > 0 {
      near := Point(dst.x, dst.y, dst.z - 1);
    } else {
      here, near := Point(2, 2, 0), Point(3, 0, 0);
      AroundTheCorner();
    }
  }

  lemma AroundTheCorner()
    ensures Misleading(Point(2, 2, 0), Point(3, 0, 0), Point(0, 0, 0))
  {
  }

  /** With one neighbour, which lies nearer to (-1,-1,-1), a packet bound there goes to that neighbour. */
  lemma OnlyNeighborIsBest(t: Table, b: Address, places: Places, here: Vector, now: Time)
    requires t.Keys == {b} && !Special(b) && TableExact(t, places) && InBox(places[b])
    requires Distance2(PlaceOf(places, b), here) <= RANGE2
    requires Distance2(PlaceOf(places, b), IntVector(-1, -1, -1)) < Distance2(IntVector(-1, -1, -1), here)
    ensures Neighbors(t, here, now).Keys == {b}
    ensures Best({b}, t, IntVector(-1, -1, -1), here, now) == b
  {
    hide Distance2, Predict, Exact;
    PredictedExactly(t, b, places, now);
    assert InRange(t, b, here, now);
  }

  /**
   * For every stale update from a node at rest there is a standing node, knowing its one neighbour's exact place and
   * having just queued a packet, that the update makes send the packet to that neighbour, and no closer.
   */
  lemma StaleGoesAway(e: Entry, uid: u64, now: Time)
      returns (places: Places, n0: NodeState, p: Packet, env: Env)
    requires Resting(e) && ClockFits(now) && Stale(e, now)
    ensures n0.queue == RequestQueues.QueueState([], [])
    ensures var n, h := RouteOutput(n0, p, env, now).node, UpdateHeader(e, uid);
            GreedyRelease(places, n, h, env, now, 0) && !GoesCloser(places, n, h, env, now, 0)
  {
    hide Distance2, RouteOutput, RecvMyprotocol, UpdateHeader, EntryOf, Best, Neighbors, Trunc;
    var h, dst := UpdateHeader(e, uid), Point(e.x, e.y, e.z);
    EntryOfUpdateHeader(e, uid);
    EntryOfFields(h);
    var here, near := MisleadingPlaces(dst);
    var a: Address := if e.addr == 1 then 2 else 1;
    var b: Address := if e.addr == 3 then 4 else 3;
    places := map[e.addr := dst, a := here, b := near];
    var t: Table := map[b := Entry(near.x, near.y, near.z, 0, 0, 0, Seconds(now), b)];
    var rest := IntVector(0, 0, 0);
    n0 := NodeState(a, false, true, t, [], RequestQueues.QueueState([], []), 0, rest, rest);
    p := RequestQueues.Packet(1, a, e.addr, RequestQueues.Udp([]), BLANK, []);
    env := Env(At(here), rest, 0, 0, 0);
    assert Live([], now) == [];
    Defers(n0, p, env, now);
    var n := RouteOutput(n0, p, env, now).node;
    OnlyNeighborIsBest(t, b, places, env.pos, now);
    ReleasesToOnlyNeighbor(n, h, env, now, b);
    assert RecvMyprotocol(n, h, env, now).released == Rewrapped(n.queue.queue, b, ReleaseHeader(h, 0));
  }

  /** Every greedy release triggered by an update from a node at rest goes closer if and only if the update is not stale. */
  lemma ReleasesCloserIffFresh(e: Entry, uid: u64, now: Time)
    requires Resting(e) && ClockFits(now)
    ensures ReleasesCloser(UpdateHeader(e, uid), now) <==> !Stale(e, now)
  {
    hide *;
    var h := UpdateHeader(e, uid);
    EntryOfUpdateHeader(e, uid);
    RestingOrdinary(e, uid);
    if Stale(e, now) {
      var places, n0, p, env := StaleGoesAway(e, uid, now);
      Refutes(places, RouteOutput(n0, p, env, now).node, h, env, now);
    } else {
      FreshReleasesCloser(h, now);
    }
  }

  lemma RestingOrdinary(e: Entry, uid: u64)
    requires Resting(e)
    ensures !Special(UpdateHeader(e, uid).addr)
  {
  }

  lemma FreshReleasesCloser(h: ControlHeader, now: Time)
    requires !Stale(EntryOf(h), now) && !Special(h.addr)
    ensures ReleasesCloser(h, now)
  {
    hide GreedyRelease, GoesCloser, EntryOf, Stale;
    forall places, n, env, j | GreedyRelease(places, n, h, env, now, j) ensures GoesCloser(places, n, h, env, now, j) {
      FreshGoesCloser(places, n, h, env, now, j);
    }
  }

  lemma Refutes(places: Places, n: NodeState, h: ControlHeader, env: Env, now: Time)
    requires GreedyRelease(places, n, h, env, now, 0) && !GoesCloser(places, n, h, env, now, 0)
    ensures !ReleasesCloser(h, now)
  {
    hide GreedyRelease, GoesCloser;
  }

  // ---------------------------------------------------------------- a run that ends with a misled packet

  const C: Address := 3
  const FAR: Point := Point(1000, 1000, 0)
  const MIDDLE: Point := Point(100, 100, 0)
  const CLOSE: Point := Point(50, 50, 0)
  const TRIO: Places := map[A := FAR, B := MIDDLE, C := CLOSE]

  /** The oldest copy in flight makes a packet go, greedily, to a node that is further from its destination. */
  ghost predicate Misled(s: Net) {
    && s.control != [] && s.control[0].to in s.nodes && ClockFits(s.now)
    && var c := s.control[0];
    && var n, env := s.nodes[c.to], StandingAt(PlaceOf(TRIO, c.to));
    && Enabled(s, DeliverControl(0, env, []))
    && GreedyRelease(TRIO, n, c.header, env, s.now, 0)
    && Away(TRIO, RecvMyprotocol(n, c.header, env, s.now).released[0].gateway, c.header.addr)
       > Away(TRIO, n.addr, c.header.addr)
  }

  /** From `s`, `steps` lead the standing network to such a state. */
  ghost predicate Leads(s: Net, steps: seq<Step>) {
    Runs(s, steps) && StaticRun(s, steps, TRIO) && Misled(Reached(s, steps))
  }

  lemma Prepend(s: Net, step: Step, rest: seq<Step>)
    requires Enabled(s, step) && StaticStep(s, step, TRIO) && Leads(Next(s, step), rest)
    ensures Leads(s, [step] + rest)
  {
    hide Enabled, Next, Misled, StaticStep;
    assert ([step] + rest)[0] == step && ([step] + rest)[1..] == rest;
  }

  lemma {:induction false} QuietLeads(s: Net, timer: Time, last: nat, m: nat, until: Time, rest: seq<Step>)
      returns (steps: seq<Step>)
    requires Idle(s, timer, At(FAR), last) && m > 0
    requires until == timer + (m - 1) * CHECK_INTERVAL && Seconds(until) - last <= MAX_INTERVAL
    requires Leads(s.(now := until, timers := map[A := until + CHECK_INTERVAL]), rest)
    ensures Leads(s, steps)
    decreases m
  {
    hide Leads, Next, Enabled, Idle, Seconds;
    var s' := s.(now := timer, timers := map[A := timer + CHECK_INTERVAL]);
    var more := rest;
    SecondsMonotone(timer, until);
    if m > 1 {
      IdleOn(s, timer, At(FAR), last, CHECK_INTERVAL);
      more := QuietLeads(s', timer + CHECK_INTERVAL, last, m - 1, until, rest);
    }
    var check := Check(A, StandingAt(At(FAR)), 0, [B]);
    QuietSteps(s, timer, At(FAR), last, 0);
    StandingStatic(s.(now := timer), check, s, Tick(timer));
    Prepend(s.(now := timer), check, more);
    Prepend(s, Tick(timer), [check] + more);
    steps := [Tick(timer)] + ([check] + more);
  }

  lemma StandingStatic(s: Net, check: Step, s': Net, tick: Step)
    requires Enabled(s, check) && check == Check(A, StandingAt(At(FAR)), 0, [B]) && Enabled(s', tick) && tick.Tick?
    ensures StaticStep(s, check, TRIO) && StaticStep(s', tick, TRIO)
  {
  }

  ghost function Trio(now: Time): Net {
    Net(map[A := Protocol.Initial(A, false, false), B := Protocol.Initial(B, false, true), C := Protocol.Initial(C, false, false)],
        map[], [], [], now, map[], multiset{})
  }

  /** The releaser `B` as the stale update finds it: it knows `C`, and one packet waits for `A`. */
  ghost predicate AboutToRelease(n: NodeState) {
    && n.addr == B && n.useQueue && n.table.Keys == {C} && Exact(n.table[C], CLOSE) && n.table[C].ts == 30
    && (forall k :: Holds(n.ids, k) ==> k.origin == C)
    && |n.queue.queue| == 1 && n.queue.queue[0].packet.dst == A && n.queue.queue[0].expire >= 30_000_000
  }

  lemma FirstUpdate() returns (h: ControlHeader)
    ensures h == UpdateHeader(Advertised(A, At(FAR), REST, 999_999), 0) && h.addr == A && h.ts == 0
    ensures EntryOf(h) == Advertised(A, At(FAR), REST, 999_999) && Exact(EntryOf(h), FAR) && Stale(EntryOf(h), 30_000_000)
    ensures IntVector(h.x, h.y, h.z) == At(FAR)
  {
    hide EntryOf;
    var e := Advertised(A, At(FAR), REST, 999_999);
    h := UpdateHeader(e, 0);
    AdvertisedExactly(A, StandingAt(At(FAR)), 999_999, TRIO);
    EntryOfUpdateHeader(e, 0);
  }

  lemma Distances()
    ensures Distance2(At(CLOSE), At(MIDDLE)) <= RANGE2
    ensures Distance2(At(CLOSE), IntVector(-1, -1, -1)) < Distance2(IntVector(-1, -1, -1), At(MIDDLE))
    ensures Distance2(At(CLOSE), At(FAR)) > Distance2(At(MIDDLE), At(FAR))
  {
  }

  lemma MisledIs(s: Net, h: ControlHeader)
    requires s.now == 30_000_000 && s.control != [] && s.control[0] == ControlCopy(B, h)
    requires h == UpdateHeader(Advertised(A, At(FAR), REST, 999_999), 0)
    requires B in s.nodes && AboutToRelease(s.nodes[B])
    ensures Misled(s)
  {
    hide Distance2, RecvMyprotocol, UpdateHeader, EntryOf, Best, Neighbors, Advertised, Live, Holds, Stale, Exact;
    var n, env, now := s.nodes[B], StandingAt(At(MIDDLE)), s.now;
    var g := FirstUpdate();
    if Holds(Live(n.ids, now), Key(A, 0)) {
      LiveHolds(n.ids, now, Key(A, 0));
    }
    Distances();
    YoungEnough(n.table[C]);
    OnlyNeighborIsBest(n.table, C, TRIO, At(MIDDLE), now);
    ReleasesToOnlyNeighbor(n, h, env, now, C);
    assert RecvMyprotocol(n, h, env, now).released == Rewrapped(n.queue.queue, C, ReleaseHeader(h, 0));
    assert PlaceOf(TRIO, B) == At(MIDDLE) && PlaceOf(TRIO, A) == At(FAR) && PlaceOf(TRIO, C) == At(CLOSE);
    assert GreedyRelease(TRIO, n, h, env, now, 0);
  }

  lemma YoungEnough(e: Entry)
    requires e.ts == 30
    ensures !Stale(e, 30_000_000)
  {
  }

  // ---------------------------------------------------------------- the last three steps

  /** `C` starts in second 30 and `B` is to hear it. */
  lemma LateStart(s: Net, h0: ControlHeader, h1: ControlHeader) returns (h: ControlHeader)
    requires s.now == 30_000_000 && B in s.nodes && C in s.nodes && C !in s.timers && s.nodes[C].addr == C
    requires s.control == [ControlCopy(B, h0), ControlCopy(B, h1)]
    ensures var start := Start(C, StandingAt(At(CLOSE)), 1000, [B]);
            && Enabled(s, start)
            && var s' := Next(s, start);
            && s'.control == [ControlCopy(B, h0), ControlCopy(B, h1), ControlCopy(B, h)]
            && s'.now == s.now && B in s'.nodes && s'.nodes[B] == s.nodes[B]
    ensures h.addr == C && h.ts == 30 && EntryOf(h).ts == 30 && Exact(EntryOf(h), CLOSE)
  {
    hide Advertised, OwnEntry, Registered, UpdateHeader, EntryOf, Exact, History;
    var env := StandingAt(At(CLOSE));
    var e := Advertised(C, env.pos, env.vel, s.now);
    AdvertisedFields(C, env.pos, env.vel, s.now);
    AdvertisedExactly(C, env, s.now, TRIO);
    EntryOfUpdateHeader(e, 0);
    h := SendUpdate(s.nodes[C], env, s.now).header;
    EntryOfFields(h);
    SecondThirty();
    assert Broadcast(h, [B]) == [ControlCopy(B, h)];
  }

  lemma SecondThirty()
    ensures Seconds(30_000_000) == 30 && ToU16(30) == 30
  {
  }

  /** `B`, with an empty queue and nothing heard, takes `C`'s update in. */
  lemma HearsLate(n: NodeState, h: ControlHeader, env: Env, now: Time)
    requires n == Protocol.Initial(B, false, true) && h.addr == C
    ensures var r := RecvMyprotocol(n, h, env, now);
            && r.node == n.(ids := r.node.ids, table := n.table[C := EntryOf(h)]) && r.released == []
            && r.rebroadcast == Some(h)
            && forall k :: Holds(r.node.ids, k) ==> k.origin == C
  {
    hide EntryOf, Registered, Holds, Live;
    NothingLive(now, Key(h.addr, h.ts));
    forall k | Holds(Registered(n.ids, ID_LIFETIME, Key(h.addr, h.ts), now), k) ensures k.origin == C {
      RegisteredHolds(n.ids, ID_LIFETIME, Key(h.addr, h.ts), now, k);
      NothingHeld(k);
    }
  }

  lemma NothingHeld(k: Key)
    ensures !Holds([], k)
  {
  }

  lemma NothingLive(now: Time, k: Key)
    ensures !Holds(Live([], now), k)
  {
  }

  const PARCEL: Packet := RequestQueues.Packet(1, B, A, RequestQueues.Udp([]), BLANK, [])

  /** `B` then originates a packet for `A`, whose first update it has not heard: the packet waits. */
  lemma ThenWaits(n: NodeState, e: Entry, env: Env)
    requires n == Protocol.Initial(B, false, true).(ids := n.ids, table := Protocol.Initial(B, false, true).table[C := e])
    requires Exact(e, CLOSE) && e.ts == 30 && forall k :: Holds(n.ids, k) ==> k.origin == C
    ensures AboutToRelease(RouteOutput(n, PARCEL, env, 30_000_000).node)
  {
    hide RouteOutput, Exact, Holds, RequestQueues.Enqueued;
    var now: Time := 30_000_000;
    YoungEnough(e);
    SecondThirty();
    assert Purged(n.table, now) == map[C := e];
    UnknownIsQueued(n, PARCEL, env, now);
    EnqueuedAlone(PARCEL.(data := BLANK.(uid := 1, hop := 1)), now);
  }

  lemma LastSteps(s: Net, h0: ControlHeader, h1: ControlHeader) returns (steps: seq<Step>)
    requires s.now == 30_000_000 && B in s.nodes && C in s.nodes && C !in s.timers
    requires s.nodes[B] == Protocol.Initial(B, false, true) && s.nodes[C].addr == C
    requires s.control == [ControlCopy(B, h0), ControlCopy(B, h1)]
    requires h0 == UpdateHeader(Advertised(A, At(FAR), REST, 999_999), 0)
    ensures Leads(s, steps)
  {
    hide UpdateHeader, Advertised, EntryOf, Exact, Holds, RecvMyprotocol, RouteOutput, Misled, Protocol.Initial, AboutToRelease;
    var h := LateStart(s, h0, h1);
    var start := Start(C, StandingAt(At(CLOSE)), 1000, [B]);
    var env := StandingAt(At(MIDDLE));
    var s1 := Next(s, start);
    var deliver, originate := DeliverControl(2, env, []), Originate(B, PARCEL, env);
    HearsLate(s1.nodes[B], h, env, s.now);
    var s2 := Next(s1, deliver);
    assert s2.control == [ControlCopy(B, h0), ControlCopy(B, h1)];
    ThenWaits(s2.nodes[B], EntryOf(h), env);
    var s3 := Next(s2, originate);
    MisledIs(s3, h0);
    assert Leads(s3, []);
    Prepend(s2, originate, []);
    Prepend(s1, deliver, [originate] + []);
    Prepend(s, start, [deliver] + ([originate] + []));
    steps := [start] + ([deliver] + ([originate] + []));
  }

  // ---------------------------------------------------------------- the whole run

  lemma TrioFacts(now: Time)
    ensures var s := Trio(now);
            && s.now == now && s.nodes.Keys == {A, B, C} && s.nodes[A].addr == A && s.nodes[C].addr == C
            && s.nodes[B] == Protocol.Initial(B, false, true)
            && s.timers == map[] && s.control == [] && History(s.log, A) == []
  {
  }

  lemma TrioInit()
    ensures Init(Trio(0)) && PlacesOk(TRIO, Trio(0))
  {
  }

  lemma TrioTick(to: Time)
    ensures Enabled(Trio(0), Tick(to)) && Next(Trio(0), Tick(to)) == Trio(to)
  {
  }

  /** Second 30, with `A`'s first update, and a later one, still on their way to `B`. */
  ghost predicate Delayed(s: Net, h0: ControlHeader) {
    && B in s.nodes && C in s.nodes && s.nodes[B] == Protocol.Initial(B, false, true) && s.nodes[C].addr == C
    && s.control == [ControlCopy(B, h0)]
  }

  /** From the state after `A`'s first update: quiet checks, the overdue update, quiet checks, second 30. */
  lemma WhileDelayed(s: Net, h0: ControlHeader) returns (steps: seq<Step>)
    requires Idle(s, 1_999_999, At(FAR), 0) && Delayed(s, h0)
    requires h0 == UpdateHeader(Advertised(A, At(FAR), REST, 999_999), 0)
    ensures Leads(s, steps)
  {
    hide Leads, Next, Enabled, StaticStep, Advertised, UpdateHeader, Protocol.Initial, Drifted, History;
    var s1 := s.(now := 20_999_999, timers := map[A := 21_999_999]);
    var s2 := s1.(now := 21_999_999);
    var check := Check(A, StandingAt(At(FAR)), 0, [B]);
    assert Overdue(s2.nodes[A], s2.now);
    var h1 := CheckAnnounces(s2, At(FAR), 0, At(FAR), 0);
    var s3 := Next(s2, check);
    var s4 := s3.(now := 29_999_999, timers := map[A := 30_999_999]);
    var s5 := s4.(now := 30_000_000);
    steps := LastSteps(s5, h0, h1);
    TickEnabled(s4, 30_000_000);
    StandingStatic(s2, check, s4, Tick(30_000_000));
    Prepend(s4, Tick(30_000_000), steps);
    steps := [Tick(30_000_000)] + steps;
    steps := QuietLeads(s3, 22_999_999, 21, 8, 29_999_999, steps);
    Prepend(s2, check, steps);
    steps := [check] + steps;
    TickEnabled(s1, 21_999_999);
    StandingStatic(s2, check, s1, Tick(21_999_999));
    Prepend(s1, Tick(21_999_999), steps);
    steps := [Tick(21_999_999)] + steps;
    steps := QuietLeads(s, 1_999_999, 0, 20, 20_999_999, steps);
  }

  lemma TickEnabled(s: Net, to: Time)
    requires s.now <= to && forall a :: a in s.timers ==> to <= s.timers[a]
    ensures Enabled(s, Tick(to)) && Next(s, Tick(to)) == s.(now := to)
  {
  }

  lemma StartStatic(s: Net)
    requires Enabled(s, Start(A, StandingAt(At(FAR)), 1000, [B]))
    ensures StaticStep(s, Start(A, StandingAt(At(FAR)), 1000, [B]), TRIO)
  {
  }

  /**
   * It does happen: from the initial state a network whose nodes never move comes, step by step, to a greedy queue
   * release that takes the packet further from its destination than its source is.
   */
  lemma StaleReleaseGoesAway() returns (steps: seq<Step>)
    ensures Init(Trio(0)) && PlacesOk(TRIO, Trio(0)) && Leads(Trio(0), steps)
  {
    hide Leads, Next, Enabled, StaticStep, Advertised, UpdateHeader, Protocol.Initial, Trio, Init, PlacesOk;
    TrioInit();
    TrioFacts(999_999);
    var s := Trio(999_999);
    var start := Start(A, StandingAt(At(FAR)), 1000, [B]);
    StartStep(s, At(FAR), 1000);
    var h := AdvertiseAnnounces(s, At(FAR), 1_999_999);
    SecondsBounds(999_999);
    steps := WhileDelayed(Next(s, start), h);
    StartStatic(s);
    Prepend(s, start, steps);
    steps := [start] + steps;
    TrioTick(999_999);
    StandingStaticTick(999_999);
    Prepend(Trio(0), Tick(999_999), steps);
    steps := [Tick(999_999)] + steps;
  }

  lemma StandingStaticTick(to: Time)
    requires Enabled(Trio(0), Tick(to))
    ensures StaticStep(Trio(0), Tick(to), TRIO)
  {
  }
}
