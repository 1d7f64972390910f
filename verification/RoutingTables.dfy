/** The position table: dead reckoning, neighbour filter and next-hop search. */
module RoutingTables {
  import opened Machine
  import opened Geometry
  import opened Sequences

  /** A node's advertised position and velocity, and the second they were advertised in. */
  datatype Entry = Entry(x: u16, y: u16, z: u16, vx: i16, vy: i16, vz: i16, ts: u16, addr: Address)

  /** The `std::map` from addresses to entries; loops visit its keys in ascending order. */
  type Table = map<Address, Entry>

  const ENTRY_LIFETIME: nat := 30
  const MAX_X: u16 := 1000
  const MAX_Y: u16 := 1000
  const MAX_Z: u16 := 300
  const RANGE2: real := 62500.0 // the square of 250

  // ---------------------------------------------------------------- dead reckoning

  /** `uint16_t deltaTime`: elapsed whole seconds, wrapped to 16 bits. */
  function Elapsed(now: Time, ts: u16): u16 {
    ToU16(Seconds(now) - ts)
  }

  /** One coordinate of `PredictPosition`: the sum is cut to `int16_t`, lifted to 0 and capped. */
  function PredictAxis(x: u16, v: i16, dt: u16, max: u16): (r: u16)
    ensures r <= max
  {
    var temp: int := ToI16(x + dt * v);
    var lifted := if temp > 0 then temp else 0;
    if lifted > max then max else lifted
  }

  function PredictEntry(e: Entry, now: Time): Vector {
    var dt := Elapsed(now, e.ts);
    IntVector(PredictAxis(e.x, e.vx, dt, MAX_X), PredictAxis(e.y, e.vy, dt, MAX_Y), PredictAxis(e.z, e.vz, dt, MAX_Z))
  }

  /** Where `id` is taken to be now; (-1,-1,-1) when the table does not know it. */
  function Predict(t: Table, id: Address, now: Time): Vector {
    if id in t then PredictEntry(t[id], now) else IntVector(-1, -1, -1)
  }

  /** Clamping of an exact integer coordinate into the box. */
  function Clamp(x: int, max: u16): (r: u16)
    ensures r <= max
  {
    if x < 0 then 0 else if x > max then max else x
  }

  /** No point of the axis is nearer to `x` than its clamped image. */
  lemma ClampIsNearest(x: int, max: u16, y: u16)
    requires y <= max
    ensures Clamp(x, max) <= max && Abs(Clamp(x, max) - x) <= Abs(y - x)
  {
  }

  /** The elapsed time is right up to multiples of 65536 s. */
  lemma ElapsedWraps(now: Time, ts: u16)
    ensures (Seconds(now) - ts - Elapsed(now, ts)) % 0x1_0000 == 0
  {
  }

  lemma MulMono(a: int, b: int, c: int)
    requires 0 <= a && b <= c
    ensures a * b <= a * c
  {
    assert a * c - a * b == a * (c - b);
  }

  /** A product of a bounded elapsed time and a bounded speed. */
  lemma ProductBound(dt: nat, v: int, n: nat, down: nat, up: nat)
    requires dt <= n && -(down as int) <= v <= up
    ensures -(n * down) <= dt * v <= n * up
  {
    MulMono(dt, v, up);
    MulMono(up, dt, n);
    MulMono(dt, -v, down);
    MulMono(down, dt, n);
  }

  lemma QuotientBelow(a: nat, b: nat, n: nat)
    requires 0 < b && a < b * n
    ensures a / b < n && b * (a / b) <= a < b * (a / b) + b
  {
    if n <= a / b {
      MulMono(b, n, a / b);
      assert false;
    }
  }

  /** The 32-bit intermediate of the prediction never overflows, for any entry and any elapsed time. */
  lemma PredictionFitsInt32(x: u16, v: i16, dt: u16)
    ensures -0x8000_0000 <= dt * v && dt * v < 0x8000_0000
    ensures -0x8000_0000 <= x + dt * v < 0x8000_0000
  {
    ProductBound(dt, v, 0xFFFF, 0x8000, 0x7FFF);
  }

  /** Every prediction lies in the box, whatever the entry and the time. */
  lemma PredictionInBox(e: Entry, now: Time)
    ensures var p := PredictEntry(e, now);
            0.0 <= p.x <= 1000.0 && 0.0 <= p.y <= 1000.0 && 0.0 <= p.z <= 300.0
  {
  }

  lemma NoWrap(x: int)
    requires -0x8000 <= x < 0x8000
    ensures ToI16(x) == x
  {
  }

  lemma AxisExact(x: u16, v: i16, dt: u16, max: u16)
    requires -0x8000 <= x + dt * v < 0x8000
    ensures PredictAxis(x, v, dt, max) == Clamp(x + dt * v, max)
  {
    NoWrap(x + dt * v);
  }

  /** Over the 29 seconds an entry can live, every in-box start is predicted exactly. */
  ghost predicate ExactWhileAlive(v: i16, max: u16) {
    forall x: u16, dt: u16 :: x <= max && dt < ENTRY_LIFETIME ==>
      PredictAxis(x, v, dt, max) == Clamp(x + dt * v, max)
  }

  /** The speeds for which prediction is exact, on the 1000 m axes: no more, no less. */
  lemma ExactSpeedsWide(v: i16)
    ensures ExactWhileAlive(v, 1000) <==> -1129 <= v <= 1095
  {
    if -1129 <= v <= 1095 {
      SlowIsExact(v, 1000, 1129, 1095);
    } else if v > 1095 {
      FastUpWraps(v, 1000, 31767);
    } else {
      FastDownWraps(v, 1000);
    }
  }

  /** The same on the 300 m axis. */
  lemma ExactSpeedsHigh(v: i16)
    ensures ExactWhileAlive(v, 300) <==> -1129 <= v <= 1119
  {
    if -1129 <= v <= 1119 {
      SlowIsExact(v, 300, 1129, 1119);
    } else if v > 1119 {
      FastUpWraps(v, 300, 32467);
    } else {
      FastDownWraps(v, 300);
    }
  }

  lemma SlowIsExact(v: i16, max: u16, down: nat, up: nat)
    requires 0 - down <= v <= up
    requires 29 * down <= 0x8000 && max + 29 * up < 0x8000
    ensures ExactWhileAlive(v, max)
  {
    forall x: u16, dt: u16 | x <= max && dt < ENTRY_LIFETIME
      ensures PredictAxis(x, v, dt, max) == Clamp(x + dt * v, max)
    {
      ProductBound(dt, v, 29, down, up);
      AxisExact(x, v, dt, max);
    }
  }

  /** A fast ascent from the top of the box wraps to below zero within 29 seconds. */
  lemma FastUpWraps(v: i16, max: u16, room: nat)
    requires 0 < max <= 1000 && room == 0x7FFF - max && 29 * v > room
    ensures !ExactWhileAlive(v, max)
  {
    var q := room / v;
    QuotientBelow(room, v, 29);
    var dt := q + 1;
    assert dt * v == v * q + v;
    var sum := max + dt * v;
    assert 0x7FFF < sum < 0x1_0000;
    assert ToI16(sum) == sum - 0x1_0000;
    assert PredictAxis(max, v, dt, max) == 0 && Clamp(sum, max) == max;
  }

  /** A fast descent from just above the floor wraps to above zero within 29 seconds. */
  lemma FastDownWraps(v: i16, max: u16)
    requires 0 < max && v < -1129
    ensures !ExactWhileAlive(v, max)
  {
    var s := 0 - v;
    var q := 32769 / s;
    QuotientBelow(32769, s, 29);
    var dt := q + 1;
    assert dt * v == -(s * q + s);
    var sum := 1 + dt * v;
    assert s == 32768 ==> q == 1;
    assert -0x1_0000 < sum < -0x8000;
    assert ToI16(sum) == sum + 0x1_0000;
    assert PredictAxis(1, v, dt, max) > 0 && Clamp(sum, max) == 0;
  }

  /** An entry with every speed within its bound, position in the box, is predicted exactly while it is alive. */
  lemma SurvivorPredictedExactly(e: Entry, now: Time)
    requires e.x <= 1000 && e.y <= 1000 && e.z <= 300
    requires -1129 <= e.vx <= 1095 && -1129 <= e.vy <= 1095 && -1129 <= e.vz <= 1119
    requires e.ts <= Seconds(now) < 0x1_0000 && Seconds(now) < e.ts + 30
    ensures var dt := Seconds(now) - e.ts;
            PredictEntry(e, now) ==
            IntVector(Clamp(e.x + dt * e.vx, 1000), Clamp(e.y + dt * e.vy, 1000), Clamp(e.z + dt * e.vz, 300))
  {
    ExactSpeedsWide(e.vx);
    ExactSpeedsWide(e.vy);
    ExactSpeedsHigh(e.vz);
    assert Elapsed(now, e.ts) == Seconds(now) - e.ts < ENTRY_LIFETIME;
  }

  // ---------------------------------------------------------------- the table and its loops

  /** Entries are erased in the 30th second after they were advertised. */
  predicate Stale(e: Entry, now: Time) {
    ENTRY_LIFETIME + e.ts <= Seconds(now)
  }

  function Purged(t: Table, now: Time): Table {
    map a | a in t && !Stale(t[a], now) :: t[a]
  }

  predicate InRange(t: Table, a: Address, myPos: Vector, now: Time) {
    Distance2(Predict(t, a, now), myPos) <= RANGE2
  }

  /** The ordinary entries predicted within range of `myPos`. */
  function Neighbors(t: Table, myPos: Vector, now: Time): Table {
    map a | a in t && !Special(a) && InRange(t, a, myPos, now) :: t[a]
  }

  function DistanceTo(t: Table, a: Address, dst: Vector, now: Time): real {
    Distance2(Predict(t, a, now), dst)
  }

  /** `b` is nearest to `dst` among `keys`; among equally near ones it has the lowest address. */
  ghost predicate IsClosest(b: Address, keys: set<Address>, t: Table, dst: Vector, now: Time) {
    && b in keys
    && forall k :: k in keys ==>
         || DistanceTo(t, b, dst, now) < DistanceTo(t, k, dst, now)
         || (DistanceTo(t, b, dst, now) == DistanceTo(t, k, dst, now) && b <= k)
  }

  lemma {:induction false} ClosestExists(keys: set<Address>, t: Table, dst: Vector, now: Time)
    requires keys != {}
    ensures exists b :: IsClosest(b, keys, t, dst, now)
    decreases |keys|
  {
    hide Distance2, DistanceTo, Predict;
    var k :| k in keys;
    var rest := keys - {k};
    if rest == {} {
      assert keys == {k};
      assert IsClosest(k, keys, t, dst, now);
    } else {
      ClosestExists(rest, t, dst, now);
      var j :| IsClosest(j, rest, t, dst, now);
      var dj, dk := DistanceTo(t, j, dst, now), DistanceTo(t, k, dst, now);
      var b := if dj < dk || (dj == dk && j <= k) then j else k;
      assert forall i :: i in keys ==> i == k || i in rest;
      assert IsClosest(b, keys, t, dst, now);
    }
  }

  ghost function Closest(keys: set<Address>, t: Table, dst: Vector, now: Time): (b: Address)
    requires keys != {}
    ensures IsClosest(b, keys, t, dst, now)
  {
    ClosestExists(keys, t, dst, now);
    var b :| IsClosest(b, keys, t, dst, now);
    b
  }

  lemma ClosestUnique(b: Address, c: Address, keys: set<Address>, t: Table, dst: Vector, now: Time)
    requires IsClosest(b, keys, t, dst, now) && IsClosest(c, keys, t, dst, now)
    ensures b == c
  {
  }

  lemma ClosestAlone(b: Address, t: Table, dst: Vector, now: Time)
    ensures IsClosest(b, {b}, t, dst, now)
  {
  }

  /** One turn of the search loop: a later, hence higher, address replaces the best only if strictly nearer. */
  lemma ClosestExtends(best: Address, seen: set<Address>, i: Address, t: Table, dst: Vector, now: Time)
    requires IsClosest(best, seen, t, dst, now) && forall s :: s in seen ==> s <= i
    ensures var next := if DistanceTo(t, best, dst, now) > DistanceTo(t, i, dst, now) then i else best;
            IsClosest(next, seen + {i}, t, dst, now)
  {
    hide DistanceTo;
  }

  /** The nearest of `keys` if it is strictly nearer to `dst` than `myPos` is, else the zero address. */
  ghost function Best(keys: set<Address>, t: Table, dst: Vector, myPos: Vector, now: Time): Address {
    if keys == {} then ZERO
    else
      var b := Closest(keys, t, dst, now);
      if Distance2(dst, myPos) > DistanceTo(t, b, dst, now) then b else ZERO
  }

  /** An ascending walk over `all`: none of the keys still to come is below a key already seen. */
  ghost predicate Ascending(seen: set<Address>, todo: set<Address>, all: set<Address>) {
    seen + todo == all && forall s, k :: s in seen && k in todo ==> s <= k
  }

  lemma AscendingStart(first: Address, all: set<Address>)
    requires IsMin(first, all)
    ensures Ascending({first}, all, all)
  {
  }

  lemma AscendingStep(seen: set<Address>, todo: set<Address>, all: set<Address>, i: Address)
    requires Ascending(seen, todo, all) && IsMin(i, todo)
    ensures forall s :: s in seen ==> s <= i
    ensures Ascending(seen + {i}, todo - {i}, all)
  {
  }

  lemma AscendingEnd(seen: set<Address>, all: set<Address>)
    requires Ascending(seen, {}, all)
    ensures seen == all
  {
  }

  lemma BestOfNone(t: Table, dst: Vector, myPos: Vector, now: Time)
    ensures Best({}, t, dst, myPos, now) == ZERO
  {
  }

  lemma BestIsClosest(b: Address, keys: set<Address>, t: Table, dst: Vector, myPos: Vector, now: Time)
    requires IsClosest(b, keys, t, dst, now)
    ensures Best(keys, t, dst, myPos, now) == if Distance2(dst, myPos) > DistanceTo(t, b, dst, now) then b else ZERO
  {
    hide Distance2, DistanceTo;
    ClosestUnique(b, Closest(keys, t, dst, now), keys, t, dst, now);
  }

  class RoutingTable {
    var positions: Table

    constructor ()
      ensures positions == map[]
    {
      positions := map[];
    }

    method LookupRoute(id: Address) returns (rt: Option<Entry>)
      ensures rt == if id in positions then Some(positions[id]) else None
    {
      if id in positions {
        rt := Some(positions[id]);
      } else {
        rt := None;
      }
    }

    /** Inserts only if the address is new. */
    method AddRoute(rt: Entry) returns (added: bool)
      modifies this
      ensures added <==> rt.addr !in old(positions)
      ensures positions == if added then old(positions)[rt.addr := rt] else old(positions)
    {
      added := rt.addr !in positions;
      if added {
        positions := positions[rt.addr := rt];
      }
    }

    /** Overwrites whatever is there, without looking at timestamps. */
    method Update(rt: Entry)
      modifies this
      ensures positions == old(positions)[rt.addr := rt]
    {
      if rt.addr !in positions {
        var _ := AddRoute(rt);
      } else {
        positions := positions[rt.addr := rt];
      }
    }

    method PredictPosition(id: Address, now: Time) returns (p: Vector)
      ensures p == Predict(positions, id, now)
    {
      var found := LookupRoute(id);
      if found.None? {
        return IntVector(-1, -1, -1);
      }
      var rt := found.value;
      var deltaTime: u16 := ToU16(Seconds(now) - rt.ts);
      var tempX: int := ToI16(rt.x + deltaTime * rt.vx);
      var tempY: int := ToI16(rt.y + deltaTime * rt.vy);
      var tempZ: int := ToI16(rt.z + deltaTime * rt.vz);
      var newX := if tempX > 0 then tempX else 0;
      var newY := if tempY > 0 then tempY else 0;
      var newZ := if tempZ > 0 then tempZ else 0;
      newX := if newX > MAX_X then MAX_X else newX;
      newY := if newY > MAX_Y then MAX_Y else newY;
      newZ := if newZ > MAX_Z then MAX_Z else newZ;
      p := IntVector(newX, newY, newZ);
    }

    method LookupNeighbor(myPos: Vector, now: Time) returns (neighbors: Table)
      ensures neighbors == Neighbors(positions, myPos, now)
    {
      hide Distance2, Predict;
      neighbors := map[];
      var todo := positions.Keys;
      while todo != {}
        invariant todo <= positions.Keys
        invariant neighbors == map a | a in positions && a !in todo && a in Neighbors(positions, myPos, now) :: positions[a]
        decreases |todo|
      {
        MinExists(todo);
        var i :| i in todo && IsMin(i, todo);
        todo := todo - {i};
        if Special(i) {
          continue;
        }
        var predictPos := PredictPosition(i, now);
        if Distance2(predictPos, myPos) <= RANGE2 {
          neighbors := neighbors[i := positions[i]];
        }
      }
    }

    method BestNeighbor(neighbors: Table, dstPos: Vector, myPos: Vector, now: Time) returns (hop: Address)
      ensures hop == Best(neighbors.Keys, positions, dstPos, myPos, now)
    {
      BestOfNone(positions, dstPos, myPos, now);
      hide Distance2, Predict, IsClosest, Best, Closest, Ascending;
      var initialDistance := Distance2(dstPos, myPos);
      if neighbors == map[] {
        return ZERO;
      }
      MinExists(neighbors.Keys);
      var best :| best in neighbors.Keys && IsMin(best, neighbors.Keys);
      var p := PredictPosition(best, now);
      var bestDistance := Distance2(p, dstPos);
      ghost var seen := {best};
      ClosestAlone(best, positions, dstPos, now);
      var todo := neighbors.Keys;
      AscendingStart(best, todo);
      while todo != {}
        invariant Ascending(seen, todo, neighbors.Keys)
        invariant bestDistance == DistanceTo(positions, best, dstPos, now)
        invariant IsClosest(best, seen, positions, dstPos, now)
        decreases |todo|
      {
        MinExists(todo);
        var i :| i in todo && IsMin(i, todo);
        var q := PredictPosition(i, now);
        var distance := Distance2(q, dstPos);
        AscendingStep(seen, todo, neighbors.Keys, i);
        ClosestExtends(best, seen, i, positions, dstPos, now);
        if bestDistance > distance {
          best := i;
          bestDistance := distance;
        }
        todo := todo - {i};
        seen := seen + {i};
      }
      AscendingEnd(seen, neighbors.Keys);
      BestIsClosest(best, neighbors.Keys, positions, dstPos, myPos, now);
      if initialDistance > bestDistance {
        hop := best;
      } else {
        hop := ZERO;
      }
    }

    method Purge(now: Time)
      modifies this
      ensures positions == Purged(old(positions), now)
    {
      var todo := positions.Keys;
      while todo != {}
        invariant todo <= positions.Keys <= old(positions).Keys
        invariant positions == map a | a in old(positions) && (a in todo || !Stale(old(positions)[a], now)) :: old(positions)[a]
        decreases |todo|
      {
        MinExists(todo);
        var i :| i in todo && IsMin(i, todo);
        todo := todo - {i};
        if ENTRY_LIFETIME + positions[i].ts <= Seconds(now) {
          positions := positions - {i};
        }
      }
    }
  }

  // ---------------------------------------------------------------- next-hop selection

  /** Purging keeps exactly what is less than 30 whole seconds old, unchanged. */
  lemma PurgedIff(t: Table, now: Time, a: Address)
    ensures a in Purged(t, now) <==> a in t && Seconds(now) < t[a].ts + 30
    ensures a in Purged(t, now) ==> Purged(t, now)[a] == t[a]
  {
  }

  /** The neighbours are exactly the ordinary entries predicted within 250 m, unchanged. */
  lemma NeighborsIff(t: Table, myPos: Vector, now: Time, a: Address)
    ensures a in Neighbors(t, myPos, now) <==>
            && a in t && a != 0x7F00_0001 && a != 0x0A01_01FF && a != 0xFFFF_FFFF
            && Distance2(Predict(t, a, now), myPos) <= 250.0 * 250.0
    ensures a in Neighbors(t, myPos, now) ==> Neighbors(t, myPos, now)[a] == t[a]
  {
    hide Distance2, Predict;
  }

  /** Less than 30 s old; not 127.0.0.1, 10.1.1.255 or 255.255.255.255; predicted within 250 m of `myPos`. */
  ghost predicate Candidate(t: Table, a: Address, myPos: Vector, now: Time) {
    && a in t && Seconds(now) < t[a].ts + 30
    && a != 0x7F00_0001 && a != 0x0A01_01FF && a != 0xFFFF_FFFF
    && Distance2(Predict(t, a, now), myPos) <= 250.0 * 250.0
  }

  /** The next hop `Purge`, `LookupNeighbor` and `BestNeighbor` arrive at together. */
  ghost function NextHop(t: Table, dst: Vector, myPos: Vector, now: Time): Address {
    var live := Purged(t, now);
    Best(Neighbors(live, myPos, now).Keys, live, dst, myPos, now)
  }

  /**
   * Next-hop selection: the candidate least by (predicted distance to the destination, address), provided it is
   * strictly closer than this node; the zero address exactly when no candidate is strictly closer.
   */
  lemma NextHopIsLeastStrictlyCloser(t: Table, dst: Vector, myPos: Vector, now: Time)
    requires ZERO !in t
    ensures var hop := NextHop(t, dst, myPos, now);
            hop != ZERO ==>
              && Candidate(t, hop, myPos, now)
              && Distance2(Predict(t, hop, now), dst) < Distance2(myPos, dst)
              && forall a :: Candidate(t, a, myPos, now) ==>
                   || Distance2(Predict(t, hop, now), dst) < Distance2(Predict(t, a, now), dst)
                   || (Distance2(Predict(t, hop, now), dst) == Distance2(Predict(t, a, now), dst) && hop <= a)
    ensures NextHop(t, dst, myPos, now) == ZERO <==>
            forall a :: Candidate(t, a, myPos, now) ==> Distance2(Predict(t, a, now), dst) >= Distance2(myPos, dst)
  {
    var live := Purged(t, now);
    var keys := Neighbors(live, myPos, now).Keys;
    assert Distance2(myPos, dst) == Distance2(dst, myPos);
    assert forall a :: a in live ==> Predict(live, a, now) == Predict(t, a, now);
    forall a: Address ensures a in keys <==> Candidate(t, a, myPos, now) {
      PurgedIff(t, now, a);
      NeighborsIff(live, myPos, now, a);
    }
    hide Distance2, PredictEntry;
    if keys != {} {
      var b := Closest(keys, live, dst, now);
      assert Candidate(t, b, myPos, now);
    }
  }
}
