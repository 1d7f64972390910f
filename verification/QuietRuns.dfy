/** Building blocks of concrete runs: a node `A` that checks and mostly has nothing to say, and a node `B` that hears it. */
module QuietRuns {
  import opened Machine
  import opened Geometry
  import opened Wire
  import opened IdCaches
  import opened Handlers
  import opened Networks
  import opened Updates

  const A: Address := 1
  const B: Address := 2
  const REST: Vector := Vector(0.0, 0.0, 0.0)

  /** `A` has advertised last at `pos`, at rest, in second `last`, and checks next at `timer`; only `A` has a timer. */
  ghost predicate Idle(s: Net, timer: Time, pos: Vector, last: nat) {
    && A in s.nodes && B in s.nodes && s.nodes[A].addr == A
    && s.timers == map[A := timer] && s.now <= timer
    && s.nodes[A].lastSendPos == pos && s.nodes[A].lastSendVel == REST && s.nodes[A].lastSendTime == last
  }

  function StandingAt(pos: Vector): Env {
    Env(pos, REST, 0, 0, 0)
  }

  lemma AtRest(pos: Vector, k: int)
    ensures Add(pos, Scale(k, REST)) == pos && Add(pos, REST) == pos && Distance2(pos, pos) == 0.0
  {
  }

  /** A node that stands where it last advertised has not drifted. */
  lemma NoDrift(n: NodeState, pos: Vector, now: Time)
    requires n.lastSendPos == pos && n.lastSendVel == REST
    ensures !Drifted(n, StandingAt(pos), now)
  {
    var t: int := ToU16(Seconds(now) - n.lastSendTime);
    AtRest(pos, t + 1);
    hide Distance2, Add, Scale, ToU16, Seconds;
  }

  /** A check that has nothing to send only moves the clock and the timer. */
  lemma QuietSteps(s: Net, timer: Time, pos: Vector, last: nat, j: nat)
    requires Idle(s, timer, pos, last) && j <= 1000 && Seconds(timer) - last <= MAX_INTERVAL
    ensures var tick, check, s1 := Tick(timer), Check(A, StandingAt(pos), j, [B]), s.(now := timer);
            && Enabled(s, tick) && Next(s, tick) == s1 && Enabled(s1, check)
            && Next(s1, check) == s.(now := timer, timers := map[A := timer + CHECK_INTERVAL + 25 * j])
  {
    hide Drifted, Seconds;
    var s1 := s.(now := timer);
    NoDrift(s.nodes[A], pos, timer);
    assert Recheck(s1, A, StandingAt(pos), [B]) == s1;
    assert s1.timers[A := timer + CHECK_INTERVAL + 25 * j] == map[A := timer + CHECK_INTERVAL + 25 * j];
  }

  lemma OneGap(m: nat, gap: nat)
    requires m > 0
    ensures 0 <= (m - 1) * gap && (m > 1 ==> (m - 1) * gap == gap + (m - 2) * gap && 0 <= (m - 2) * gap)
  {
  }

  lemma IdleOn(s: Net, timer: Time, pos: Vector, last: nat, gap: nat)
    requires Idle(s, timer, pos, last)
    ensures Idle(s.(now := timer, timers := map[A := timer + gap]), timer + gap, pos, last)
  {
  }

  /** What a check of `A` that does advertise, from `pos`, makes of the network. */
  ghost predicate Announced(s: Net, s': Net, h: ControlHeader, timer: Time) {
    && h.addr == A && h.ts == ToU16(Seconds(s.now))
    && s'.control == s.control + [ControlCopy(B, h)] && s'.now == s.now
    && |History(s'.log, A)| == |History(s.log, A)| + 1
    && History(s'.log, A)[..|History(s.log, A)|] == History(s.log, A)
    && History(s'.log, A)[|History(s.log, A)|].at == s.now && History(s'.log, A)[|History(s.log, A)|].entry.ts == h.ts
    && s'.sent == s.sent + multiset{(A, KeyOf(h))} && B in s.nodes
    && (forall n :: n in s.nodes && n != A ==> n in s'.nodes && s'.nodes[n] == s.nodes[n])
    && s'.timers == map[A := timer]
  }

  lemma AdvertiseAnnounces(s: Net, pos: Vector, timer: Time) returns (h: ControlHeader)
    requires A in s.nodes && B in s.nodes && s.nodes[A].addr == A && ClockFits(s.now) && s.now <= timer
    ensures var env := StandingAt(pos);
            var s' := Advertise(s, A, SendUpdate(s.nodes[A], env, s.now), env, [B]).(timers := map[A := timer]);
            && Announced(s, s', h, timer) && Idle(s', timer, pos, Seconds(s.now))
            && h == UpdateHeader(Advertised(A, pos, REST, s.now), 0)
  {
    hide Advertised, OwnEntry, Registered, Seconds;
    AdvertisedFields(A, pos, REST, s.now);
    h := SendUpdate(s.nodes[A], StandingAt(pos), s.now).header;
    assert Broadcast(h, [B]) == [ControlCopy(B, h)];
    assert ToU16(Seconds(s.now)) == Seconds(s.now);
  }

  lemma CheckAnnounces(s: Net, before: Vector, last: nat, pos: Vector, j: nat) returns (h: ControlHeader)
    requires Idle(s, s.now, before, last) && ClockFits(s.now) && j <= 1000
    requires Drifted(s.nodes[A], StandingAt(pos), s.now) || Overdue(s.nodes[A], s.now)
    ensures var check := Check(A, StandingAt(pos), j, [B]);
            var timer := s.now + CHECK_INTERVAL + 25 * j;
            && Enabled(s, check)
            && Announced(s, Next(s, check), h, timer) && Idle(Next(s, check), timer, pos, Seconds(s.now))
  {
    hide Drifted, Overdue, Announced, SendUpdate, Advertise, Recheck, ClockFits;
    var env, timer := StandingAt(pos), s.now + CHECK_INTERVAL + 25 * j;
    RecheckOnce(s, A, env, [B]);
    h := AdvertiseAnnounces(s, pos, timer);
    KeepsTimers(s, A, env, [B]);
    assert s.timers[A := timer] == map[A := timer];
    assert Next(s, Check(A, env, j, [B]))
        == Advertise(s, A, SendUpdate(s.nodes[A], env, s.now), env, [B]).(timers := map[A := timer]);
  }

  lemma KeepsTimers(s: Net, a: Address, env: Env, rx: seq<Address>)
    requires a in s.nodes
    ensures Recheck(s, a, env, rx).timers == s.timers
  {
    hide SendUpdate, Drifted, Overdue;
  }

  lemma StartStep(s: Net, pos: Vector, jitter: nat)
    requires A in s.nodes && s.timers == map[] && 1000 <= jitter <= 2000
    ensures var start, env := Start(A, StandingAt(pos), jitter, [B]), StandingAt(pos);
            && Enabled(s, start)
            && Next(s, start) == Advertise(s, A, SendUpdate(s.nodes[A], env, s.now), env, [B])
                                   .(timers := map[A := s.now + MILLISECOND * jitter])
  {
    hide Advertise, SendUpdate;
  }
}
