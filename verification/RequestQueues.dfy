/** The bounded, timed queue of packets whose destination has no known position yet. */
module RequestQueues {
  import opened Machine
  import opened Sequences
  import opened Wire

  /** The transport header in front of the data header; its contents are never looked at. */
  datatype Outer = Udp(bits: seq<byte>) | Icmp(bits: seq<byte>)

  /** A data packet with the addresses of its IP header. */
  datatype Packet = Packet(uid: u64, src: Address, dst: Address, outer: Outer, data: DataHeader, payload: seq<byte>)

  datatype QueueEntry = QueueEntry(packet: Packet, expire: Time)

  function NotExpired(now: Time): QueueEntry -> bool {
    (e: QueueEntry) => e.expire >= now
  }

  function Expired(now: Time): QueueEntry -> bool {
    (e: QueueEntry) => e.expire < now
  }

  function For(dst: Address): QueueEntry -> bool {
    (e: QueueEntry) => e.packet.dst == dst
  }

  function NotFor(dst: Address): QueueEntry -> bool {
    (e: QueueEntry) => e.packet.dst != dst
  }

  /** The queue, and the entries whose error callback has been invoked so far, in order of invocation. */
  datatype QueueState = QueueState(queue: seq<QueueEntry>, failed: seq<QueueEntry>)

  function Purged(q: QueueState, now: Time): QueueState {
    QueueState(Filter(NotExpired(now), q.queue), q.failed + Filter(Expired(now), q.queue))
  }

  predicate SamePacket(p: Packet, r: Packet) {
    p.uid == r.uid && p.dst == r.dst
  }

  predicate Queued(queue: seq<QueueEntry>, p: Packet) {
    exists i :: 0 <= i < |queue| && SamePacket(queue[i].packet, p)
  }

  /** Whether `Enqueue` takes the packet. */
  predicate Accepts(q: QueueState, p: Packet, now: Time) {
    !Queued(Purged(q, now).queue, p)
  }

  function Enqueued(q: QueueState, p: Packet, now: Time, maxLen: nat, timeout: Time): QueueState
    requires maxLen > 0
  {
    var q1 := Purged(q, now);
    if Queued(q1.queue, p) then q1
    else
      var q2 := if |q1.queue| == maxLen then QueueState(q1.queue[1..], q1.failed + [q1.queue[0]]) else q1;
      q2.(queue := q2.queue + [QueueEntry(p, timeout + now)])
  }

  function DroppedFor(q: QueueState, dst: Address, now: Time): QueueState {
    var q1 := Purged(q, now);
    QueueState(Filter(NotFor(dst), q1.queue), q1.failed + Filter(For(dst), q1.queue))
  }

  /** The index of the first entry for `dst`, or the length if there is none. */
  function FirstFor(queue: seq<QueueEntry>, dst: Address): (i: nat)
    ensures i <= |queue|
    ensures forall j :: 0 <= j < i ==> queue[j].packet.dst != dst
    ensures i < |queue| ==> queue[i].packet.dst == dst
  {
    if queue == [] || queue[0].packet.dst == dst then 0 else 1 + FirstFor(queue[1..], dst)
  }

  /** What `Dequeue` hands out, and what it leaves. */
  function Dequeued(q: QueueState, dst: Address, now: Time): (Option<QueueEntry>, QueueState) {
    var q1 := Purged(q, now);
    var i := FirstFor(q1.queue, dst);
    if i < |q1.queue| then (Some(q1.queue[i]), q1.(queue := Without(q1.queue, i))) else (None, q1)
  }

  class RequestQueue {
    var queue: seq<QueueEntry>
    var failed: seq<QueueEntry>
    const maxLen: nat
    const timeout: Time

    constructor (maxLen: nat, timeout: Time)
      ensures this.maxLen == maxLen && this.timeout == timeout
      ensures State() == QueueState([], [])
    {
      this.maxLen := maxLen;
      this.timeout := timeout;
      queue, failed := [], [];
    }

    function State(): QueueState
      reads this
    {
      QueueState(queue, failed)
    }

    method GetSize(now: Time) returns (size: nat)
      modifies this
      ensures State() == Purged(old(State()), now) && size == |queue|
    {
      Purge(now);
      size := |queue|;
    }

    method Enqueue(p: Packet, now: Time) returns (ok: bool)
      requires maxLen > 0
      modifies this
      ensures ok <==> Accepts(old(State()), p, now)
      ensures State() == Enqueued(old(State()), p, now, maxLen, timeout)
    {
      Purge(now);
      var i := 0;
      while i < |queue|
        invariant 0 <= i <= |queue|
        invariant forall j :: 0 <= j < i ==> !SamePacket(queue[j].packet, p)
      {
        if SamePacket(queue[i].packet, p) {
          return false;
        }
        i := i + 1;
      }
      if |queue| == maxLen {
        Drop(queue[0]);
        queue := queue[1..];
      }
      queue := queue + [QueueEntry(p, timeout + now)];
      ok := true;
    }

    method DropPacketWithDst(dst: Address, now: Time)
      modifies this
      ensures State() == DroppedFor(old(State()), dst, now)
    {
      Purge(now);
      ghost var purged := State();
      var kept: seq<QueueEntry> := [];
      var i := 0;
      while i < |queue|
        invariant 0 <= i <= |queue| && queue == purged.queue
        invariant kept == Filter(NotFor(dst), queue[..i])
        invariant failed == purged.failed + Filter(For(dst), queue[..i])
      {
        assert queue[..i + 1][..i] == queue[..i];
        if queue[i].packet.dst == dst {
          Drop(queue[i]);
        } else {
          kept := kept + [queue[i]];
        }
        i := i + 1;
      }
      assert queue[..i] == queue;
      queue := kept;
    }

    method Dequeue(dst: Address, now: Time) returns (entry: Option<QueueEntry>)
      modifies this
      ensures (entry, State()) == Dequeued(old(State()), dst, now)
    {
      Purge(now);
      var i := 0;
      while i < |queue|
        invariant 0 <= i <= |queue|
        invariant forall j :: 0 <= j < i ==> queue[j].packet.dst != dst
      {
        if queue[i].packet.dst == dst {
          entry := Some(queue[i]);
          queue := Without(queue, i);
          return;
        }
        i := i + 1;
      }
      entry := None;
    }

    /** Looks at every entry, expired ones included. */
    method Find(dst: Address) returns (found: bool)
      ensures found <==> FirstFor(queue, dst) < |queue|
    {
      var i := 0;
      while i < |queue|
        invariant 0 <= i <= |queue|
        invariant forall j :: 0 <= j < i ==> queue[j].packet.dst != dst
      {
        if queue[i].packet.dst == dst {
          return true;
        }
        i := i + 1;
      }
      found := false;
    }

    method Purge(now: Time)
      modifies this
      ensures State() == Purged(old(State()), now)
    {
      var kept: seq<QueueEntry> := [];
      var i := 0;
      while i < |queue|
        invariant 0 <= i <= |queue| && queue == old(queue)
        invariant kept == Filter(NotExpired(now), queue[..i])
        invariant failed == old(failed) + Filter(Expired(now), queue[..i])
      {
        assert queue[..i + 1][..i] == queue[..i];
        if queue[i].expire < now {
          Drop(queue[i]);
        } else {
          kept := kept + [queue[i]];
        }
        i := i + 1;
      }
      assert queue[..i] == queue;
      queue := kept;
    }

    /** Invokes the entry's error callback. */
    method Drop(e: QueueEntry)
      modifies this`failed
      ensures failed == old(failed) + [e]
    {
      failed := failed + [e];
    }
  }

  // ---------------------------------------------------------------- what each operation keeps, by position

  /** Purging keeps exactly the entries that have not expired and reports exactly those that have, each in queue order. */
  lemma PurgeSeparates(q: QueueState, now: Time) returns (kept: seq<nat>, gone: seq<nat>)
    ensures var after := Purged(q, now);
            && q.failed <= after.failed
            && Picks(q.queue, kept, after.queue) && Picks(q.queue, gone, after.failed[|q.failed|..])
    ensures forall k: nat :: k in kept <==> k < |q.queue| && q.queue[k].expire >= now
    ensures forall k: nat :: k in gone <==> k < |q.queue| && q.queue[k].expire < now
  {
    kept := FilterPicks(NotExpired(now), q.queue);
    gone := FilterPicks(Expired(now), q.queue);
  }

  /** Some entry that has not expired is for the same destination and carries the same uid. */
  ghost predicate Waits(q: QueueState, p: Packet, now: Time) {
    exists e :: e in q.queue && e.expire >= now && e.packet.uid == p.uid && e.packet.dst == p.dst
  }

  lemma AcceptsIff(q: QueueState, p: Packet, now: Time)
    ensures Accepts(q, p, now) <==> !Waits(q, p, now)
  {
    var live := Purged(q, now).queue;
    if Queued(live, p) {
      var i :| 0 <= i < |live| && SamePacket(live[i].packet, p);
      FilterMember(NotExpired(now), q.queue, live[i]);
    }
    if e :| e in q.queue && e.expire >= now && e.packet.uid == p.uid && e.packet.dst == p.dst {
      FilterMember(NotExpired(now), q.queue, e);
      var i :| 0 <= i < |live| && live[i] == e;
      assert SamePacket(live[i].packet, p);
    }
  }

  /**
   * Enqueueing first lets go of what has expired. A packet that already waits changes nothing more; any other goes to
   * the back with a fresh expiry, and only if the limit is reached does the entry at the front make room.
   */
  lemma EnqueuePlaces(q: QueueState, p: Packet, now: Time, maxLen: nat, timeout: Time)
      returns (kept: seq<nat>, gone: seq<nat>, live: seq<QueueEntry>, expired: seq<QueueEntry>)
    requires maxLen > 0
    ensures Picks(q.queue, kept, live) && forall k: nat :: k in kept <==> k < |q.queue| && q.queue[k].expire >= now
    ensures Picks(q.queue, gone, expired) && forall k: nat :: k in gone <==> k < |q.queue| && q.queue[k].expire < now
    ensures var after := Enqueued(q, p, now, maxLen, timeout);
            && (Waits(q, p, now) ==> after == QueueState(live, q.failed + expired))
            && (!Waits(q, p, now) && |live| < maxLen ==>
                  after == QueueState(live + [QueueEntry(p, timeout + now)], q.failed + expired))
            && (!Waits(q, p, now) && |live| == maxLen ==>
                  after == QueueState(live[1..] + [QueueEntry(p, timeout + now)], q.failed + expired + [live[0]]))
  {
    kept, gone := PurgeSeparates(q, now);
    AcceptsIff(q, p, now);
    live := Purged(q, now).queue;
    expired := Purged(q, now).failed[|q.failed|..];
    assert q.failed + expired == Purged(q, now).failed;
  }

  /** What a filter by destination picks of what purging keeps. */
  lemma LivePicks(q: QueueState, p: QueueEntry -> bool, now: Time) returns (at: seq<nat>)
    ensures Picks(q.queue, at, Filter(p, Purged(q, now).queue))
    ensures forall k: nat :: k in at <==> k < |q.queue| && q.queue[k].expire >= now && p(q.queue[k])
  {
    var live := Purged(q, now).queue;
    var kept, gone := PurgeSeparates(q, now);
    var bt := FilterPicks(p, live);
    at := PicksCompose(q.queue, kept, live, bt, Filter(p, live));
    hide Filter, Purged;
    forall k: nat ensures k in at <==> k < |q.queue| && q.queue[k].expire >= now && p(q.queue[k]) {
      if k < |q.queue| && q.queue[k].expire >= now && p(q.queue[k]) {
        assert k in kept;
        var i :| 0 <= i < |kept| && kept[i] == k;
        assert live[i] == q.queue[k];
      }
    }
  }

  /**
   * Dropping a destination keeps exactly the live entries for others, and reports first what has expired, then exactly
   * the live entries for it; all in queue order.
   */
  lemma DropSeparates(q: QueueState, dst: Address, now: Time)
      returns (kept: seq<nat>, gone: seq<nat>, dropped: seq<nat>, expired: seq<QueueEntry>, refused: seq<QueueEntry>)
    ensures Picks(q.queue, kept, DroppedFor(q, dst, now).queue)
    ensures Picks(q.queue, gone, expired) && Picks(q.queue, dropped, refused)
    ensures DroppedFor(q, dst, now).failed == q.failed + expired + refused
    ensures forall k: nat :: k in kept <==> k < |q.queue| && q.queue[k].expire >= now && q.queue[k].packet.dst != dst
    ensures forall k: nat :: k in dropped <==> k < |q.queue| && q.queue[k].expire >= now && q.queue[k].packet.dst == dst
    ensures forall k: nat :: k in gone <==> k < |q.queue| && q.queue[k].expire < now
  {
    kept := LivePicks(q, NotFor(dst), now);
    dropped := LivePicks(q, For(dst), now);
    var live;
    live, gone := PurgeSeparates(q, now);
    expired := Purged(q, now).failed[|q.failed|..];
    refused := Filter(For(dst), Purged(q, now).queue);
  }

  // ---------------------------------------------------------------- where queued packets come from

  lemma PurgedMember(q: QueueState, now: Time, e: QueueEntry)
    requires e in Purged(q, now).queue
    ensures e in q.queue
  {
    FilterMember(NotExpired(now), q.queue, e);
  }

  lemma EnqueuedMember(q: QueueState, p: Packet, now: Time, maxLen: nat, timeout: Time, e: QueueEntry)
    requires maxLen > 0 && e in Enqueued(q, p, now, maxLen, timeout).queue
    ensures e in q.queue || e.packet == p
  {
    if e.packet != p {
      PurgedMember(q, now, e);
    }
  }

  // ---------------------------------------------------------------- draining one destination

  lemma PurgedTwice(q: QueueState, now: Time)
    ensures Purged(Purged(q, now), now) == Purged(q, now)
  {
    var live := Filter(NotExpired(now), q.queue);
    forall e | e in live ensures e.expire >= now {
      FilterMember(NotExpired(now), q.queue, e);
    }
    FilterAll(NotExpired(now), live);
    FilterNone(Expired(now), live);
  }

  /** One successful `Dequeue` takes the head of the destination's entries and leaves all others alone. */
  lemma TakeFirst(queue: seq<QueueEntry>, dst: Address, i: nat)
    requires i == FirstFor(queue, dst) < |queue|
    ensures Filter(For(dst), queue) == [queue[i]] + Filter(For(dst), Without(queue, i))
    ensures Filter(NotFor(dst), queue) == Filter(NotFor(dst), Without(queue, i))
  {
    FilterWithoutFirst(For(dst), queue, i);
    FilterWithout(NotFor(dst), queue, i);
  }

  lemma TakeNone(queue: seq<QueueEntry>, dst: Address)
    requires FirstFor(queue, dst) == |queue|
    ensures Filter(For(dst), queue) == []
    ensures Filter(NotFor(dst), queue) == queue
  {
    FilterNone(For(dst), queue);
    FilterAll(NotFor(dst), queue);
  }

  lemma UnexpiredAfterTake(queue: seq<QueueEntry>, i: nat, now: Time)
    requires i < |queue| && Filter(NotExpired(now), queue) == queue
    ensures Filter(NotExpired(now), Without(queue, i)) == Without(queue, i)
    ensures Filter(Expired(now), Without(queue, i)) == []
  {
    forall e | e in Without(queue, i) ensures e.expire >= now {
      assert e in queue;
      FilterMember(NotExpired(now), queue, e);
    }
    FilterAll(NotExpired(now), Without(queue, i));
    FilterNone(Expired(now), Without(queue, i));
  }

  ghost predicate Unexpired(q: QueueState, now: Time) {
    Filter(NotExpired(now), q.queue) == q.queue
  }

  ghost function Head(e: Option<QueueEntry>): seq<QueueEntry> {
    if e.Some? then [e.value] else []
  }

  lemma UnexpiredIsPurged(q: QueueState, now: Time)
    requires Unexpired(q, now)
    ensures Purged(q, now) == q
  {
    forall e | e in q.queue ensures e.expire >= now {
      FilterMember(NotExpired(now), q.queue, e);
    }
    FilterNone(Expired(now), q.queue);
  }

  /** A further `Dequeue` in the same event: nothing expires, and the entries for `dst` lose their head. */
  lemma DequeueNext(q: QueueState, dst: Address, now: Time)
    requires Unexpired(q, now)
    ensures var (e, after) := Dequeued(q, dst, now);
            && Unexpired(after, now) && after.failed == q.failed
            && Head(e) + Filter(For(dst), after.queue) == Filter(For(dst), q.queue)
            && Filter(NotFor(dst), after.queue) == Filter(NotFor(dst), q.queue)
            && (if e.None? then FirstFor(after.queue, dst) == |after.queue| else |after.queue| == |q.queue| - 1)
  {
    UnexpiredIsPurged(q, now);
    var i := FirstFor(q.queue, dst);
    if i < |q.queue| {
      TakeFirst(q.queue, dst, i);
      UnexpiredAfterTake(q.queue, i, now);
    }
  }

  /** The first `Dequeue` of an event works on the purged queue. */
  lemma DequeueFirst(q: QueueState, dst: Address, now: Time)
    ensures var live := Purged(q, now);
            var (e, after) := Dequeued(q, dst, now);
            && Unexpired(after, now) && after.failed == live.failed
            && Head(e) + Filter(For(dst), after.queue) == Filter(For(dst), live.queue)
            && Filter(NotFor(dst), after.queue) == Filter(NotFor(dst), live.queue)
            && (e.None? ==> FirstFor(after.queue, dst) == |after.queue|)
  {
    PurgedTwice(q, now);
    DequeueNext(Purged(q, now), dst, now);
  }

  // ---------------------------------------------------------------- whole runs

  datatype Call =
    | Put(packet: Packet, at: Time)
    | Take(dst: Address, at: Time)
    | Discard(dst: Address, at: Time)
    | Measure(at: Time)

  /** The queue together with everything it ever accepted and everything it ever handed out. */
  datatype Ledger = Ledger(state: QueueState, accepted: seq<QueueEntry>, handed: seq<QueueEntry>)

  const NEW: Ledger := Ledger(QueueState([], []), [], [])

  /** What a call accepts, and what it hands out. */
  ghost function Taken(l: Ledger, c: Call, timeout: Time): seq<QueueEntry> {
    if c.Put? && Accepts(l.state, c.packet, c.at) then [QueueEntry(c.packet, timeout + c.at)] else []
  }

  ghost function Given(l: Ledger, c: Call): seq<QueueEntry> {
    if c.Take? && Dequeued(l.state, c.dst, c.at).0.Some? then [Dequeued(l.state, c.dst, c.at).0.value] else []
  }

  ghost function StateAfter(q: QueueState, c: Call, maxLen: nat, timeout: Time): QueueState
    requires maxLen > 0
  {
    match c
    case Put(p, at) => Enqueued(q, p, at, maxLen, timeout)
    case Take(dst, at) => Dequeued(q, dst, at).1
    case Discard(dst, at) => DroppedFor(q, dst, at)
    case Measure(at) => Purged(q, at)
  }

  ghost function After(l: Ledger, c: Call, maxLen: nat, timeout: Time): Ledger
    requires maxLen > 0
  {
    Ledger(StateAfter(l.state, c, maxLen, timeout), l.accepted + Taken(l, c, timeout), l.handed + Given(l, c))
  }

  ghost function Run(calls: seq<Call>, maxLen: nat, timeout: Time): Ledger
    requires maxLen > 0
  {
    if calls == [] then NEW
    else After(Run(calls[..|calls| - 1], maxLen, timeout), calls[|calls| - 1], maxLen, timeout)
  }

  /** The entries the queue is still answerable for or has reported. */
  ghost function Total(q: QueueState): multiset<QueueEntry> {
    multiset(q.queue) + multiset(q.failed)
  }

  /** Every accepted entry is queued, handed out or failed, exactly as often as it was accepted. */
  ghost predicate Balanced(l: Ledger) {
    multiset(l.accepted) == Total(l.state) + multiset(l.handed)
  }

  lemma CountAppend(s: seq<QueueEntry>, t: seq<QueueEntry>)
    ensures multiset(s + t) == multiset(s) + multiset(t)
  {
  }

  lemma Regroup<T>(all: multiset<T>, total: multiset<T>, handed: multiset<T>, taken: multiset<T>,
                   total': multiset<T>, given: multiset<T>)
    requires all == total + handed && total + taken == total' + given
    ensures all + taken == total' + (handed + given)
  {
    assert all + taken == (total + taken) + handed;
    assert (total' + given) + handed == total' + (handed + given);
  }

  lemma TotalPurged(q: QueueState, now: Time)
    ensures Total(Purged(q, now)) == Total(q)
  {
    FilterSplits(NotExpired(now), Expired(now), q.queue);
    CountAppend(q.failed, Filter(Expired(now), q.queue));
  }

  lemma TotalEnqueued(q: QueueState, p: Packet, at: Time, maxLen: nat, timeout: Time)
    requires maxLen > 0
    ensures Total(Enqueued(q, p, at, maxLen, timeout))
         == Total(q) + multiset(if Accepts(q, p, at) then [QueueEntry(p, timeout + at)] else [])
  {
    TotalPurged(q, at);
    var live := Purged(q, at).queue;
    if |live| == maxLen {
      WithoutCount(live, 0);
      assert Without(live, 0) == live[1..];
    }
  }

  lemma TotalDequeued(q: QueueState, dst: Address, at: Time)
    ensures var out := Dequeued(q, dst, at);
            Total(q) == Total(out.1) + multiset(if out.0.Some? then [out.0.value] else [])
  {
    TotalPurged(q, at);
    var live := Purged(q, at).queue;
    var i := FirstFor(live, dst);
    if i < |live| {
      WithoutCount(live, i);
    }
  }

  lemma TotalDroppedFor(q: QueueState, dst: Address, at: Time)
    ensures Total(DroppedFor(q, dst, at)) == Total(q)
  {
    TotalPurged(q, at);
    var q1 := Purged(q, at);
    FilterSplits(NotFor(dst), For(dst), q1.queue);
    CountAppend(q1.failed, Filter(For(dst), q1.queue));
  }

  lemma TotalAfter(l: Ledger, c: Call, maxLen: nat, timeout: Time)
    requires maxLen > 0
    ensures Total(l.state) + multiset(Taken(l, c, timeout))
         == Total(StateAfter(l.state, c, maxLen, timeout)) + multiset(Given(l, c))
  {
    hide Total, Purged, Enqueued, Dequeued, DroppedFor, Accepts;
    match c {
      case Put(p, at) => TotalEnqueued(l.state, p, at, maxLen, timeout);
      case Take(dst, at) => TotalDequeued(l.state, dst, at);
      case Discard(dst, at) => TotalDroppedFor(l.state, dst, at);
      case Measure(at) => TotalPurged(l.state, at);
    }
  }

  lemma AfterBalances(l: Ledger, c: Call, maxLen: nat, timeout: Time)
    requires maxLen > 0 && Balanced(l)
    ensures Balanced(After(l, c, maxLen, timeout))
  {
    var taken, given := Taken(l, c, timeout), Given(l, c);
    TotalAfter(l, c, maxLen, timeout);
    CountAppend(l.accepted, taken);
    CountAppend(l.handed, given);
    Regroup(multiset(l.accepted), Total(l.state), multiset(l.handed), multiset(taken),
            Total(StateAfter(l.state, c, maxLen, timeout)), multiset(given));
  }

  /** Conservation: through overflow, expiry, destination drops and drains no packet is lost or reported twice. */
  lemma {:induction false} Conservation(calls: seq<Call>, maxLen: nat, timeout: Time)
    requires maxLen > 0
    ensures Balanced(Run(calls, maxLen, timeout))
  {
    if calls != [] {
      var prefix := calls[..|calls| - 1];
      Conservation(prefix, maxLen, timeout);
      AfterBalances(Run(prefix, maxLen, timeout), calls[|calls| - 1], maxLen, timeout);
    }
  }

  /** Bounded, no packet twice for one destination, nearest expiry first. */
  ghost predicate WellFormed(queue: seq<QueueEntry>, maxLen: nat, latest: Time) {
    && |queue| <= maxLen
    && (forall i, j :: 0 <= i < j < |queue| ==> !SamePacket(queue[i].packet, queue[j].packet))
    && (forall i, j :: 0 <= i < j < |queue| ==> queue[i].expire <= queue[j].expire)
    && (forall i :: 0 <= i < |queue| ==> queue[i].expire <= latest)
  }

  /** On a well-formed queue `Purge` drops exactly a prefix, in order, and keeps the rest. */
  lemma PurgeDropsPrefix(q: QueueState, now: Time, maxLen: nat, latest: Time)
    requires WellFormed(q.queue, maxLen, latest)
    ensures var n := |q.queue| - |Purged(q, now).queue|;
            Purged(q, now) == QueueState(q.queue[n..], q.failed + q.queue[..n])
    ensures WellFormed(Purged(q, now).queue, maxLen, latest)
  {
    FilterDropsPrefix(NotExpired(now), q.queue);
    FilterUpToCut(Expired(now), q.queue, |q.queue| - |Filter(NotExpired(now), q.queue)|);
  }

  lemma FilterKeepsWellFormed(p: QueueEntry -> bool, queue: seq<QueueEntry>, maxLen: nat, latest: Time)
    requires WellFormed(queue, maxLen, latest)
    ensures WellFormed(Filter(p, queue), maxLen, latest)
  {
    var at := FilterPicks(p, queue);
  }

  lemma TakeWellFormed(queue: seq<QueueEntry>, i: nat, maxLen: nat, latest: Time)
    requires i < |queue| && WellFormed(queue, maxLen, latest)
    ensures WellFormed(Without(queue, i), maxLen, latest)
  {
    assert forall j :: 0 <= j < |queue| - 1 ==> Without(queue, i)[j] == queue[if j < i then j else j + 1];
  }

  lemma TailWellFormed(queue: seq<QueueEntry>, p: Packet, maxLen: nat, latest: Time)
    requires queue != [] && WellFormed(queue, maxLen, latest) && !Queued(queue, p)
    ensures WellFormed(queue[1..], maxLen, latest) && !Queued(queue[1..], p)
  {
  }

  lemma PutWellFormed(q: QueueState, p: Packet, at: Time, maxLen: nat, timeout: Time)
    requires maxLen > 0 && WellFormed(q.queue, maxLen, at + timeout)
    ensures WellFormed(Enqueued(q, p, at, maxLen, timeout).queue, maxLen, at + timeout)
  {
    hide WellFormed, Queued, Filter, Expired, NotExpired;
    FilterKeepsWellFormed(NotExpired(at), q.queue, maxLen, at + timeout);
    AppendedWellFormed(Purged(q, at).queue, p, maxLen, at + timeout);
  }

  lemma AppendedWellFormed(live: seq<QueueEntry>, p: Packet, maxLen: nat, latest: Time)
    requires maxLen > 0 && WellFormed(live, maxLen, latest)
    ensures !Queued(live, p) ==>
              WellFormed((if |live| == maxLen then live[1..] else live) + [QueueEntry(p, latest)], maxLen, latest)
  {
    if !Queued(live, p) {
      if |live| == maxLen {
        TailWellFormed(live, p, maxLen, latest);
        AppendWellFormed(live[1..], QueueEntry(p, latest), maxLen, latest);
      } else {
        AppendWellFormed(live, QueueEntry(p, latest), maxLen, latest);
      }
    }
  }

  lemma AppendWellFormed(queue: seq<QueueEntry>, e: QueueEntry, maxLen: nat, latest: Time)
    requires WellFormed(queue, maxLen, latest) && |queue| < maxLen && e.expire == latest
    requires !Queued(queue, e.packet)
    ensures WellFormed(queue + [e], maxLen, latest)
  {
    var after := queue + [e];
    forall i, j | 0 <= i < j < |after|
      ensures !SamePacket(after[i].packet, after[j].packet) && after[i].expire <= after[j].expire
    {
      assert after[i] == queue[i];
    }
  }

  lemma AfterWellFormed(l: Ledger, c: Call, maxLen: nat, timeout: Time)
    requires maxLen > 0 && WellFormed(l.state.queue, maxLen, c.at + timeout)
    ensures WellFormed(After(l, c, maxLen, timeout).state.queue, maxLen, c.at + timeout)
  {
    hide WellFormed, Enqueued, Queued, Filter, Expired, NotExpired, For, NotFor;
    var q, latest := l.state, c.at + timeout;
    if c.Put? {
      PutWellFormed(q, c.packet, c.at, maxLen, timeout);
    } else {
      PurgeDropsPrefix(q, c.at, maxLen, latest);
      var live := Purged(q, c.at).queue;
      if c.Discard? {
        FilterKeepsWellFormed(NotFor(c.dst), live, maxLen, latest);
      } else if c.Take? && FirstFor(live, c.dst) < |live| {
        TakeWellFormed(live, FirstFor(live, c.dst), maxLen, latest);
      }
    }
  }

  ghost predicate Ordered(calls: seq<Call>) {
    forall i, j :: 0 <= i < j < |calls| ==> calls[i].at <= calls[j].at
  }

  lemma EmptyWellFormed(maxLen: nat)
    ensures WellFormed([], maxLen, 0)
  {
  }

  lemma WellFormedLater(queue: seq<QueueEntry>, maxLen: nat, latest: Time, later: Time)
    requires WellFormed(queue, maxLen, latest) && latest <= later
    ensures WellFormed(queue, maxLen, later)
  {
  }

  /** The representation invariant holds after every sequence of calls on a monotone clock. */
  lemma {:induction false} RunWellFormed(calls: seq<Call>, maxLen: nat, timeout: Time)
    requires maxLen > 0 && Ordered(calls)
    ensures WellFormed(Run(calls, maxLen, timeout).state.queue, maxLen,
                       if calls == [] then 0 else calls[|calls| - 1].at + timeout)
  {
    hide WellFormed, After;
    if calls == [] {
      EmptyWellFormed(maxLen);
    } else {
      var prefix := calls[..|calls| - 1];
      RunWellFormed(prefix, maxLen, timeout);
      var earlier := if prefix == [] then 0 else prefix[|prefix| - 1].at + timeout;
      WellFormedLater(Run(prefix, maxLen, timeout).state.queue, maxLen, earlier, calls[|calls| - 1].at + timeout);
      AfterWellFormed(Run(prefix, maxLen, timeout), calls[|calls| - 1], maxLen, timeout);
    }
  }

  /**
   * Overflow: when a full queue accepts a packet, the one entry evicted is nearest expiry among the live ones,
   * its error callback runs exactly once, and every other live entry stays.
   */
  lemma OverflowEvictsNearestExpiry(calls: seq<Call>, p: Packet, now: Time, maxLen: nat, timeout: Time)
    requires maxLen > 0 && Ordered(calls) && (calls != [] ==> calls[|calls| - 1].at <= now)
    requires Accepts(Run(calls, maxLen, timeout).state, p, now)
    requires |Purged(Run(calls, maxLen, timeout).state, now).queue| == maxLen
    ensures var live := Purged(Run(calls, maxLen, timeout).state, now);
            var after := Enqueued(Run(calls, maxLen, timeout).state, p, now, maxLen, timeout);
            && after.failed == live.failed + [live.queue[0]]
            && after.queue == live.queue[1..] + [QueueEntry(p, timeout + now)]
            && (forall e :: e in live.queue ==> live.queue[0].expire <= e.expire)
            && |after.queue| == maxLen
  {
    RunWellFormed(calls, maxLen, timeout);
    var q := Run(calls, maxLen, timeout).state;
    PurgeDropsPrefix(q, now, maxLen, if calls == [] then 0 else calls[|calls| - 1].at + timeout);
  }
}
