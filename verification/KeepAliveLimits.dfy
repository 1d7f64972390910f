/** The keep-alive deadlines are exact: a microsecond more and there is a run in which a live node's entry is purged. */
module KeepAliveLimits {
  import opened Machine
  import opened Geometry
  import opened Sequences
  import opened Wire
  import opened IdCaches
  import opened RoutingTables
  import opened Handlers
  import opened Networks
  import opened Updates
  import opened KeepAlive
  import opened QuietRuns
  import Protocol

  /** With deadline `d`, a position once learned is never purged, in any run before 65536 s; if `ordered`, in-order runs only. */
  ghost predicate Kept(d: Time, ordered: bool) {
    forall s, steps, n, a ::
      && Init(s) && Runs(s, steps) && ClockFits(Reached(s, steps).now)
      && n in s.nodes && a in s.nodes && n != a
      && TimelyRun(s, steps, n, a, d) && (ordered ==> OrderedRun(s, steps, n, a, 0))
      && HasHeard(Reached(s, steps), n, a) ==>
        NotPurged(Reached(s, steps), n, a)
  }

  ghost predicate HasHeard(s: Net, n: Address, a: Address) {
    exists ts: u16 :: Heard(s, n, a, ts)
  }

  ghost predicate NotPurged(s: Net, n: Address, a: Address) {
    n in s.nodes && a in s.nodes[n].table && a in Purged(s.nodes[n].table, s.now)
  }

  // ---------------------------------------------------------------- longer deadlines are weaker

  lemma TimelyLonger(s: Net, n: Address, a: Address, d: Time, e: Time)
    requires Timely(s, n, a, d) && d <= e
    ensures Timely(s, n, a, e)
  {
    var h := History(s.log, a);
    forall c, i | c in s.control && c.to == n && c.header.addr == a && 0 <= i < |h| && h[i].entry.ts == c.header.ts
      ensures s.now <= h[i].at + e
    {
      assert s.now <= h[i].at + d;
    }
  }

  lemma {:induction false} TimelyRunLonger(s: Net, steps: seq<Step>, n: Address, a: Address, d: Time, e: Time)
    requires Runs(s, steps) && TimelyRun(s, steps, n, a, d) && d <= e
    ensures TimelyRun(s, steps, n, a, e)
    decreases |steps|
  {
    hide Timely, Next;
    TimelyLonger(s, n, a, d, e);
    if steps != [] {
      TimelyRunLonger(Next(s, steps[0]), steps[1..], n, a, d, e);
    }
  }

  lemma TimelyEarlier(s: Net, n: Address, a: Address, d: Time, later: Time)
    requires Timely(s.(now := later), n, a, d) && s.now <= later
    ensures Timely(s, n, a, d)
  {
    var h := History(s.log, a);
    forall c, i | c in s.control && c.to == n && c.header.addr == a && 0 <= i < |h| && h[i].entry.ts == c.header.ts
      ensures s.now <= h[i].at + d
    {
      assert later <= h[i].at + d;
    }
  }

  // ---------------------------------------------------------------- a run that ends with a purge

  ghost predicate Starved(s: Net) {
    ClockFits(s.now) && Heard(s, B, A, 0) && B in s.nodes && A !in Purged(s.nodes[B].table, s.now)
  }

  /** From `s`, `steps` meet the deadline `d` and still leave `B` without the entry of `A` it had. */
  ghost predicate Starves(s: Net, steps: seq<Step>, d: Time, ordered: bool) {
    && Runs(s, steps) && TimelyRun(s, steps, B, A, d) && (ordered ==> OrderedRun(s, steps, B, A, 0))
    && Starved(Reached(s, steps))
  }

  lemma Prepend(s: Net, step: Step, rest: seq<Step>, d: Time, ordered: bool)
    requires Enabled(s, step) && Timely(s, B, A, d) && (ordered ==> InOrder(s, step, B, A, 0))
    requires Starves(Next(s, step), rest, d, ordered)
    ensures Starves(s, [step] + rest, d, ordered)
  {
    hide Enabled, Next, Timely, InOrder, Starved;
    assert ([step] + rest)[0] == step && ([step] + rest)[1..] == rest;
  }

  lemma QuietRound(s: Net, timer: Time, pos: Vector, last: nat, j: nat, d: Time, ordered: bool, rest: seq<Step>)
      returns (steps: seq<Step>)
    requires Idle(s, timer, pos, last) && j <= 1000 && Seconds(timer) - last <= MAX_INTERVAL
    requires Timely(s.(now := timer), B, A, d)
    requires Starves(s.(now := timer, timers := map[A := timer + CHECK_INTERVAL + 25 * j]), rest, d, ordered)
    ensures Starves(s, steps, d, ordered)
  {
    hide Starves, Timely, Seconds, Next, Enabled;
    var tick, check := Tick(timer), Check(A, StandingAt(pos), j, [B]);
    var s1 := s.(now := timer);
    QuietSteps(s, timer, pos, last, j);
    Prepend(s1, check, rest, d, ordered);
    TimelyEarlier(s, B, A, d, timer);
    Prepend(s, tick, [check] + rest, d, ordered);
    steps := [tick] + ([check] + rest);
  }

  /** `m` checks in a row at a fixed spacing, none of which has anything to send. */
  lemma {:induction false} QuietRounds(s: Net, timer: Time, pos: Vector, last: nat, j: nat, m: nat, until: Time,
                                       d: Time, ordered: bool, rest: seq<Step>) returns (steps: seq<Step>)
    requires Idle(s, timer, pos, last) && j <= 1000 && m > 0
    requires until == timer + (m - 1) * (CHECK_INTERVAL + 25 * j) && Seconds(until) - last <= MAX_INTERVAL
    requires Timely(s.(now := until), B, A, d)
    requires Starves(s.(now := until, timers := map[A := until + CHECK_INTERVAL + 25 * j]), rest, d, ordered)
    ensures Starves(s, steps, d, ordered)
    decreases m
  {
    hide Starves, Timely, Seconds, Idle;
    var gap := CHECK_INTERVAL + 25 * j;
    OneGap(m, gap);
    TimelyEarlier(s.(now := timer), B, A, d, until);
    SecondsMonotone(timer, until);
    if m == 1 {
      steps := QuietRound(s, timer, pos, last, j, d, ordered, rest);
    } else {
      IdleOn(s, timer, pos, last, gap);
      TimelyAnyTimers(s.(now := until), map[A := timer + gap], d);
      var s' := s.(now := timer, timers := map[A := timer + gap]);
      var more := QuietRounds(s', timer + gap, pos, last, j, m - 1, until, d, ordered, rest);
      steps := QuietRound(s, timer, pos, last, j, d, ordered, more);
    }
  }

  lemma TimelyAnyTimers(s: Net, timers: map<Address, Time>, d: Time)
    requires Timely(s, B, A, d)
    ensures Timely(s.(timers := timers), B, A, d)
  {
  }

  // ---------------------------------------------------------------- single events of the run

  /** `B` accepts copy `i`, of `A`'s update stamped `ts`; its broadcast reaches nobody. */
  lemma CopyAccepted(s: Net, i: nat, timer: Time, pos: Vector, last: nat, ts: u16)
    requires Idle(s, timer, pos, last) && i < |s.control| && s.control[i].to == B
    requires s.control[i].header.addr == A && s.control[i].header.ts == ts && !Holds(s.nodes[B].ids, Key(A, ts))
    requires !s.nodes[B].useQueue
    ensures var step := DeliverControl(i, StandingAt(pos), []);
            var s' := Next(s, step);
            && Enabled(s, step) && Idle(s', timer, pos, last)
            && s'.control == Without(s.control, i) && s'.now == s.now && s'.log == s.log && s'.timers == s.timers
            && s'.sent == s.sent + multiset{(B, Key(A, ts))}
            && A in s'.nodes[B].table && s'.nodes[B].table[A].ts == ts && !s'.nodes[B].useQueue
            && (forall k :: Holds(s'.nodes[B].ids, k) ==> k == Key(A, ts) || Holds(s.nodes[B].ids, k))
  {
    hide GetRightVelocity, Registered, Holds, Live, Without, Launches;
    var c := s.control[i];
    EntryOfFields(c.header);
    hide EntryOf;
    if Holds(Live(s.nodes[B].ids, s.now), Key(A, ts)) {
      LiveHolds(s.nodes[B].ids, s.now, Key(A, ts));
    }
    forall k | Holds(Registered(s.nodes[B].ids, ID_LIFETIME, Key(A, ts), s.now), k)
      ensures k == Key(A, ts) || Holds(s.nodes[B].ids, k)
    {
      RegisteredHolds(s.nodes[B].ids, ID_LIFETIME, Key(A, ts), s.now, k);
    }
    assert Broadcast(c.header, []) == [];
    assert Launches(B, []) == [] by { NothingLaunched(); }
  }

  lemma NothingLaunched()
    ensures Launches(B, []) == []
  {
  }

  // ---------------------------------------------------------------- the end of the run

  /** `B` holds the update `A` stamped 0, has heard all of `A`'s updates, and nothing is in flight. */
  ghost predicate Settled(s: Net) {
    && s.control == [] && B in s.nodes && A in s.nodes[B].table && s.nodes[B].table[A].ts == 0
    && Heard(s, B, A, 0)
    && forall i :: 0 <= i < |History(s.log, A)| ==> Heard(s, B, A, History(s.log, A)[i].entry.ts)
  }

  lemma SettledTimely(s: Net, d: Time)
    requires Settled(s)
    ensures Timely(s, B, A, d)
  {
  }

  /** The next update is sent, and is still on its way when the second 30 begins. */
  lemma LastUpdateLate(s: Net, s': Net, h: ControlHeader, timer: Time, d: Time)
    requires Settled(s) && Announced(s, s', h, timer) && s.now + d == 30_000_000 && ClockFits(s.now)
    requires forall i :: 0 <= i < |History(s.log, A)| ==> History(s.log, A)[i].entry.ts < Seconds(s.now)
    ensures Timely(s'.(now := 30_000_000), B, A, d)
    ensures Starved(s'.(now := 30_000_000))
  {
    hide Seconds;
    var e := s'.(now := 30_000_000);
    assert Seconds(30_000_000) == 30 by { SecondsBounds(30_000_000); }
    var g, g' := History(s.log, A), History(s'.log, A);
    assert forall i :: 0 <= i < |g| ==> g'[i] == g[i];
    assert Stale(e.nodes[B].table[A], 30_000_000);
    assert Heard(s, B, A, 0);
  }

  lemma EndingStarves(s: Net, timers: map<Address, Time>, d: Time, ordered: bool)
    requires Starved(s) && Timely(s, B, A, d)
    ensures Starves(s.(timers := timers), [], d, ordered)
  {
    TimelyAnyTimers(s, timers, d);
  }

  lemma TickStep(s: Net, to: Time)
    requires s.now <= to && forall a :: a in s.timers ==> to <= s.timers[a]
    ensures Enabled(s, Tick(to)) && Next(s, Tick(to)) == s.(now := to)
    ensures InOrder(s, Tick(to), B, A, 0)
  {
  }

  lemma CheckInOrder(s: Net, env: Env, j: nat)
    requires Enabled(s, Check(A, env, j, [B]))
    ensures InOrder(s, Check(A, env, j, [B]), B, A, 0)
  {
  }

  /** From a settled state whose next check is overdue: one update that arrives too late, checks, second 30. */
  lemma Ending(s: Net, timer: Time, pos: Vector, last: nat, m: nat, d: Time, ordered: bool) returns (steps: seq<Step>)
    requires Idle(s, timer, pos, last) && Settled(s)
    requires Seconds(timer) - last > MAX_INTERVAL && timer + d == 30_000_000
    requires 0 < m <= 10 && timer + m * CHECK_INTERVAL < 30_000_000 <= timer + m * CHECK_INTERVAL + CHECK_INTERVAL
    requires forall i :: 0 <= i < |History(s.log, A)| ==> History(s.log, A)[i].entry.ts < Seconds(timer)
    ensures Starves(s, steps, d, ordered)
  {
    hide Starves, Timely, Starved, Announced, Next, Enabled, InOrder, History;
    SettledTimely(s, d);
    SecondsBounds(timer);
    assert ClockFits(timer);
    assert Overdue(s.nodes[A], timer);
    var s1, check, until := s.(now := timer), Check(A, StandingAt(pos), 0, [B]), timer + m * CHECK_INTERVAL;
    SettledTimely(s1, d);
    TickStep(s, timer);
    var h := CheckAnnounces(s1, pos, last, pos, 0);
    var s2 := Next(s1, check);
    LastUpdateLate(s1, s2, h, timer + CHECK_INTERVAL, d);
    TimelyEarlier(s2.(now := until), B, A, d, 30_000_000);
    var s3 := s2.(now := until, timers := map[A := until + CHECK_INTERVAL]);
    TimelyAnyTimers(s2.(now := until), s3.timers, d);
    EndingStarves(s2.(now := 30_000_000), s3.timers, d, ordered);
    TickStep(s3, 30_000_000);
    assert s2.(now := 30_000_000).(timers := s3.timers) == s3.(now := 30_000_000);
    Prepend(s3, Tick(30_000_000), [], d, ordered);
    SecondsBounds(until);
    var quiet := QuietRounds(s2, timer + CHECK_INTERVAL, pos, Seconds(timer), 0, m, until, d, ordered, [Tick(30_000_000)] + []);
    CheckInOrder(s1, StandingAt(pos), 0);
    Prepend(s1, check, quiet, d, ordered);
    Prepend(s, Tick(timer), [check] + quiet, d, ordered);
    steps := [Tick(timer)] + ([check] + quiet);
  }

  // ---------------------------------------------------------------- the two runs

  ghost function Fresh(now: Time): Net {
    Net(map[A := Protocol.Initial(A, false, false), B := Protocol.Initial(B, false, false)],
        map[], [], [], now, map[], multiset{})
  }

  lemma FreshInit()
    ensures Init(Fresh(0))
  {
  }

  lemma RecentTimely(s: Net, d: Time)
    requires forall i :: 0 <= i < |History(s.log, A)| ==> s.now <= History(s.log, A)[i].at + d
    ensures Timely(s, B, A, d)
  {
  }

  /** `A` starts just before second 1; its next check is `jitter` milliseconds later. */
  lemma Started(jitter: nat) returns (h: ControlHeader)
    requires 1000 <= jitter <= 2000
    ensures var start := Start(A, StandingAt(REST), jitter, [B]);
            var s, timer := Fresh(999_999), 999_999 + MILLISECOND * jitter;
            && Enabled(s, start) && InOrder(s, start, B, A, 0)
            && Announced(s, Next(s, start), h, timer) && Idle(Next(s, start), timer, REST, 0)
            && h.ts == 0 && History(s.log, A) == [] && Next(s, start).nodes[B].ids == []
            && !Next(s, start).nodes[B].useQueue
  {
    hide *;
    var s := Fresh(999_999);
    FreshFacts(999_999);
    SecondZero();
    StartStep(s, REST, jitter);
    StartInOrder(s, jitter);
    h := AdvertiseAnnounces(s, REST, 999_999 + MILLISECOND * jitter);
    AnnouncedFields(s, Next(s, Start(A, StandingAt(REST), jitter, [B])), h, 999_999 + MILLISECOND * jitter);
  }

  lemma AnnouncedFields(s: Net, s': Net, h: ControlHeader, timer: Time)
    requires Announced(s, s', h, timer)
    ensures h.ts == ToU16(Seconds(s.now)) && B in s.nodes && B in s'.nodes && s'.nodes[B] == s.nodes[B]
  {
  }

  lemma SecondZero()
    ensures Seconds(999_999) == 0 && ToU16(0) == 0 && ClockFits(999_999)
  {
  }

  lemma FreshFacts(now: Time)
    ensures var s := Fresh(now);
            && s.now == now && A in s.nodes && B in s.nodes && s.nodes[A].addr == A && !s.nodes[B].useQueue
            && s.nodes[B].ids == [] && s.timers == map[] && s.control == [] && s.log == map[] && s.sent == multiset{}
            && History(s.log, A) == []
  {
  }

  lemma StartInOrder(s: Net, jitter: nat)
    requires Enabled(s, Start(A, StandingAt(REST), jitter, [B]))
    ensures InOrder(s, Start(A, StandingAt(REST), jitter, [B]), B, A, 0)
  {
  }

  lemma NothingHeardInOrder(s: Net, i: nat)
    requires Enabled(s, DeliverControl(i, StandingAt(REST), [])) && forall k :: (B, k) !in s.sent
    ensures InOrder(s, DeliverControl(i, StandingAt(REST), []), B, A, 0)
  {
    hide Holds, Live;
  }

  /** One update, delivered at once; then checks as late as the jitter allows. */
  lemma InOrderRun() returns (steps: seq<Step>)
    ensures Starves(Fresh(0), steps, 7_975_001, true)
  {
    hide Starves, Starved, Next, Enabled, InOrder, Protocol.Initial, Seconds, Timely, Fresh;
    var d: Time := 7_975_001;
    var s1 := Fresh(999_999);
    FreshFacts(0);
    FreshFacts(999_999);
    var start := Start(A, StandingAt(REST), 1000, [B]);
    var h := Started(1000);
    var s2 := Next(s1, start);
    RecentTimely(s2, d);
    var deliver := DeliverControl(0, StandingAt(REST), []);
    CopyAccepted(s2, 0, 1_999_999, REST, 0, 0);
    NothingHeardInOrder(s2, 0);
    var s3 := Next(s2, deliver);
    SettledTimely(s3, d);
    var rest := FromSettled(s3);
    Prepend(s2, deliver, rest, d, true);
    RecentTimely(s1, d);
    Prepend(s1, start, [deliver] + rest, d, true);
    FreshTick(0, 999_999);
    RecentTimely(Fresh(0), d);
    Prepend(Fresh(0), Tick(999_999), [start] + ([deliver] + rest), d, true);
    steps := [Tick(999_999)] + ([start] + ([deliver] + rest));
  }

  lemma FreshTick(now: Time, to: Time)
    requires now <= to
    ensures Enabled(Fresh(now), Tick(to)) && Next(Fresh(now), Tick(to)) == Fresh(to) && InOrder(Fresh(now), Tick(to), B, A, 0)
  {
  }

  lemma FromSettled(s: Net) returns (steps: seq<Step>)
    requires Idle(s, 1_999_999, REST, 0) && Settled(s)
    requires forall i :: 0 <= i < |History(s.log, A)| ==> History(s.log, A)[i].entry.ts == 0
    ensures Starves(s, steps, 7_975_001, true)
  {
    hide Starves, Starved, Next, Enabled, InOrder, Timely;
    var d: Time := 7_975_001;
    var s1 := s.(now := 19_999_999, timers := map[A := 20_999_999]);
    var s2 := s1.(now := 20_999_999, timers := map[A := 22_024_999]);
    steps := Ending(s2, 22_024_999, REST, 0, 7, d, true);
    SettledTimely(s1.(now := 20_999_999), d);
    steps := QuietRound(s1, 20_999_999, REST, 0, 1000, d, true, steps);
    SettledTimely(s.(now := 19_999_999), d);
    steps := QuietRounds(s, 1_999_999, REST, 0, 0, 19, 19_999_999, d, true, steps);
  }

  const MOVED: Vector := Vector(500.0, 0.0, 0.0)

  /** Two updates, the second of which overtakes the first; then checks as late as the jitter allows. */
  lemma OvertakingRun() returns (steps: seq<Step>)
    ensures Starves(Fresh(0), steps, 3_975_001, false)
  {
    hide Starves, Starved, Next, Enabled, InOrder, Protocol.Initial, Seconds, Timely, Fresh;
    var d: Time := 3_975_001;
    var s1 := Fresh(999_999);
    FreshFacts(0);
    FreshFacts(999_999);
    var start := Start(A, StandingAt(REST), 1500, [B]);
    var h := Started(1500);
    var s2 := Next(s1, start);
    var rest := Overtaking(s2, h);
    RecentTimely(s1, d);
    Prepend(s1, start, rest, d, false);
    FreshTick(0, 999_999);
    RecentTimely(Fresh(0), d);
    Prepend(Fresh(0), Tick(999_999), [start] + rest, d, false);
    steps := [Tick(999_999)] + ([start] + rest);
  }

  /** With the first update still on its way, two quiet checks and one that finds `A` moved. */
  lemma Overtaking(s: Net, h: ControlHeader) returns (steps: seq<Step>)
    requires Idle(s, 2_499_999, REST, 0) && s.now == 999_999 && s.control == [ControlCopy(B, h)] && h.addr == A && h.ts == 0
    requires |History(s.log, A)| == 1 && History(s.log, A)[0].at == 999_999 && History(s.log, A)[0].entry.ts == 0
    requires s.nodes[B].ids == [] && !s.nodes[B].useQueue
    ensures Starves(s, steps, 3_975_001, false)
  {
    hide Starves, Starved, Next, Enabled, InOrder, Timely, Drifted, Overdue, History, Seconds;
    var d: Time := 3_975_001;
    var s1 := s.(now := 3_499_999, timers := map[A := 4_499_999]);
    var s2 := s1.(now := 4_499_999);
    SecondsBounds(3_499_999);
    SecondsBounds(4_499_999);
    MovedDrifts(s2.nodes[A], 4_499_999);
    var check := Check(A, StandingAt(MOVED), 1000, [B]);
    var g := CheckAnnounces(s2, REST, 0, MOVED, 1000);
    var s3 := Next(s2, check);
    assert History(s3.log, A)[0] == History(s.log, A)[0];
    steps := Overtaken(s3, h, g);
    RecentTimely(s2, d);
    Prepend(s2, check, steps, d, false);
    steps := [check] + steps;
    TickStep(s1, 4_499_999);
    RecentTimely(s1, d);
    Prepend(s1, Tick(4_499_999), steps, d, false);
    steps := [Tick(4_499_999)] + steps;
    RecentTimely(s.(now := 3_499_999), d);
    steps := QuietRounds(s, 2_499_999, REST, 0, 0, 2, 3_499_999, d, false, steps);
  }

  lemma MovedDrifts(n: NodeState, now: Time)
    requires n.lastSendPos == REST && n.lastSendVel == REST
    ensures Drifted(n, StandingAt(MOVED), now)
  {
    hide ToU16, Seconds, Add, Scale, Distance2;
    var t: int := ToU16(Seconds(now) - n.lastSendTime);
    AtRest(REST, t + 1);
    AtRest(MOVED, 0);
    FarMoved();
  }

  lemma FarMoved()
    ensures Distance2(MOVED, REST) > CHANGE2
  {
  }

  /** The second update arrives first and the first one then overwrites it. */
  lemma Overtaken(s: Net, h: ControlHeader, g: ControlHeader) returns (steps: seq<Step>)
    requires Idle(s, 5_524_999, MOVED, 4) && s.now == 4_499_999
    requires s.control == [ControlCopy(B, h), ControlCopy(B, g)] && h.addr == A && h.ts == 0 && g.addr == A && g.ts == 4
    requires |History(s.log, A)| == 2
    requires History(s.log, A)[0].at == 999_999 && History(s.log, A)[0].entry.ts == 0
    requires History(s.log, A)[1].at == 4_499_999 && History(s.log, A)[1].entry.ts == 4
    requires s.nodes[B].ids == [] && !s.nodes[B].useQueue
    ensures Starves(s, steps, 3_975_001, false)
  {
    hide Starves, Starved, Next, Enabled, InOrder, Timely, History, Seconds;
    var d: Time := 3_975_001;
    var second, first := DeliverControl(1, StandingAt(MOVED), []), DeliverControl(0, StandingAt(MOVED), []);
    CopyAccepted(s, 1, 5_524_999, MOVED, 4, 4);
    var s1 := Next(s, second);
    assert s1.control == [ControlCopy(B, h)];
    CopyAccepted(s1, 0, 5_524_999, MOVED, 4, 0);
    var s2 := Next(s1, first);
    assert s2.control == [];
    steps := FromOvertaken(s2);
    RecentTimely(s1, d);
    Prepend(s1, first, steps, d, false);
    RecentTimely(s, d);
    Prepend(s, second, [first] + steps, d, false);
    steps := [second] + ([first] + steps);
  }

  lemma FromOvertaken(s: Net) returns (steps: seq<Step>)
    requires Idle(s, 5_524_999, MOVED, 4) && Settled(s)
    requires forall i :: 0 <= i < |History(s.log, A)| ==> History(s.log, A)[i].entry.ts <= 4
    ensures Starves(s, steps, 3_975_001, false)
  {
    hide Starves, Starved, Next, Enabled, InOrder, Timely;
    var d: Time := 3_975_001;
    var s1 := s.(now := 24_999_999, timers := map[A := 26_024_999]);
    steps := Ending(s1, 26_024_999, MOVED, 4, 3, d, false);
    SettledTimely(s.(now := 24_999_999), d);
    steps := QuietRounds(s, 5_524_999, MOVED, 4, 1000, 20, 24_999_999, d, false, steps);
  }

  // ---------------------------------------------------------------- the exact deadlines

  lemma ShortEnough(d: Time, ordered: bool)
    requires d <= if ordered then 7_975_000 else 3_975_000
    ensures Kept(d, ordered)
  {
    hide Init, TimelyRun, OrderedRun, Runs, Reached, Purged;
    forall s, steps, n, a |
      && Init(s) && Runs(s, steps) && ClockFits(Reached(s, steps).now)
      && n in s.nodes && a in s.nodes && n != a
      && TimelyRun(s, steps, n, a, d) && (ordered ==> OrderedRun(s, steps, n, a, 0))
      && HasHeard(Reached(s, steps), n, a)
      ensures NotPurged(Reached(s, steps), n, a)
    {
      if ordered {
        TimelyRunLonger(s, steps, n, a, d, 7_975_000);
        NeverPurgedInOrder(s, steps, n, a);
      } else {
        TimelyRunLonger(s, steps, n, a, d, 3_975_000);
        NeverPurgedAnyOrder(s, steps, n, a);
      }
    }
  }

  lemma StarvingRefutes(steps: seq<Step>, d: Time, e: Time, ordered: bool)
    requires Starves(Fresh(0), steps, d, ordered) && d <= e
    ensures !Kept(e, ordered)
  {
    hide Init, TimelyRun, OrderedRun, Runs, Reached, Purged;
    FreshInit();
    FreshFacts(0);
    TimelyRunLonger(Fresh(0), steps, B, A, d, e);
    hide Fresh, Heard;
    assert HasHeard(Reached(Fresh(0), steps), B, A);
    assert !NotPurged(Reached(Fresh(0), steps), B, A);
  }

  /**
   * A position once learned is never purged if every update arrives within `d`: for arrivals in order that is so
   * exactly for d <= 7.975 s, and for arrivals in any order exactly for d <= 3.975 s.
   */
  lemma DeadlinesAreExact(d: Time)
    ensures Kept(d, true) <==> d <= 7_975_000
    ensures Kept(d, false) <==> d <= 3_975_000
  {
    hide Kept, Starves, Fresh;
    if d <= 7_975_000 {
      ShortEnough(d, true);
    } else {
      var steps := InOrderRun();
      StarvingRefutes(steps, 7_975_001, d, true);
    }
    if d <= 3_975_000 {
      ShortEnough(d, false);
    } else {
      var steps := OvertakingRun();
      StarvingRefutes(steps, 3_975_001, d, false);
    }
  }
}
