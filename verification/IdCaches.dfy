/** The timed duplicate filter for flooded updates. */
module IdCaches {
  import opened Machine
  import opened Sequences

  /** An update is identified by its origin and its timestamp. */
  datatype Key = Key(origin: Address, ts: u16)

  datatype UniqueId = UniqueId(key: Key, expire: Time)

  function NotExpired(now: Time): UniqueId -> bool {
    (u: UniqueId) => u.expire >= now
  }

  /** The cache after `Purge`: an entry is still good at the very instant of its expiry. */
  function Live(ids: seq<UniqueId>, now: Time): seq<UniqueId> {
    Filter(NotExpired(now), ids)
  }

  predicate Holds(ids: seq<UniqueId>, k: Key) {
    exists i :: 0 <= i < |ids| && ids[i].key == k
  }

  /** The cache after `IsDuplicate`. */
  function Registered(ids: seq<UniqueId>, lifetime: Time, k: Key, now: Time): seq<UniqueId> {
    var live := Live(ids, now);
    if Holds(live, k) then live else live + [UniqueId(k, lifetime + now)]
  }

  lemma LiveHolds(ids: seq<UniqueId>, now: Time, k: Key)
    requires Holds(Live(ids, now), k)
    ensures Holds(ids, k)
  {
    var i :| 0 <= i < |Live(ids, now)| && Live(ids, now)[i].key == k;
    FilterMember(NotExpired(now), ids, Live(ids, now)[i]);
    var m :| 0 <= m < |ids| && ids[m] == Live(ids, now)[i];
  }

  /** Registering a key makes the cache hold it and no other new key; what was live stays. */
  lemma RegisteredHolds(ids: seq<UniqueId>, lifetime: Time, k: Key, now: Time, j: Key)
    ensures Holds(Registered(ids, lifetime, k, now), k)
    ensures Holds(Registered(ids, lifetime, k, now), j) ==> j == k || Holds(ids, j)
  {
    var live := Live(ids, now);
    var after := Registered(ids, lifetime, k, now);
    if !Holds(live, k) {
      assert after[|live|].key == k;
    }
    if Holds(after, j) && j != k {
      var i :| 0 <= i < |after| && after[i].key == j;
      assert after[i] in live;
      FilterMember(NotExpired(now), ids, after[i]);
      var m :| 0 <= m < |ids| && ids[m] == after[i];
    }
  }

  class IdCache {
    var ids: seq<UniqueId>
    var lifetime: Time

    constructor (lifetime: Time)
      ensures ids == [] && this.lifetime == lifetime
    {
      ids := [];
      this.lifetime := lifetime;
    }

    method IsDuplicate(k: Key, now: Time) returns (duplicate: bool)
      modifies this`ids
      ensures duplicate <==> Holds(Live(old(ids), now), k)
      ensures ids == Registered(old(ids), lifetime, k, now)
    {
      Purge(now);
      var i := 0;
      while i < |ids|
        invariant 0 <= i <= |ids|
        invariant forall j :: 0 <= j < i ==> ids[j].key != k
      {
        if ids[i].key == k {
          return true;
        }
        i := i + 1;
      }
      ids := ids + [UniqueId(k, lifetime + now)];
      duplicate := false;
    }

    method Purge(now: Time)
      modifies this`ids
      ensures ids == Live(old(ids), now)
    {
      var kept: seq<UniqueId> := [];
      var i := 0;
      while i < |ids|
        invariant 0 <= i <= |ids|
        invariant kept == Live(ids[..i], now)
      {
        assert ids[..i + 1][..i] == ids[..i];
        if !(ids[i].expire < now) {
          kept := kept + [ids[i]];
        }
        i := i + 1;
      }
      assert ids[..i] == ids;
      ids := kept;
    }

    method GetSize(now: Time) returns (size: nat)
      modifies this`ids
      ensures ids == Live(old(ids), now) && size == |ids|
    {
      Purge(now);
      size := |ids|;
    }
  }

  // ---------------------------------------------------------------- a history reference

  /** A call on the cache: a query for a key, or a sweep (`Purge`, `GetSize`). */
  datatype Call = Query(key: Key, at: Time) | Sweep(at: Time)

  ghost predicate Ordered(calls: seq<Call>) {
    forall i, j :: 0 <= i < j < |calls| ==> calls[i].at <= calls[j].at
  }

  /** The cache after a sequence of calls on an empty cache. */
  ghost function Run(calls: seq<Call>, lifetime: Time): seq<UniqueId> {
    if calls == [] then [] else After(Run(calls[..|calls| - 1], lifetime), lifetime, calls[|calls| - 1])
  }

  ghost function After(ids: seq<UniqueId>, lifetime: Time, c: Call): seq<UniqueId> {
    match c
    case Query(k, at) => Registered(ids, lifetime, k, at)
    case Sweep(at) => Live(ids, at)
  }

  /** Whether call `i` is a query the cache accepts as new. */
  ghost predicate Accepted(calls: seq<Call>, lifetime: Time, i: nat)
    requires i < |calls|
  {
    calls[i].Query? && !Holds(Live(Run(calls[..i], lifetime), calls[i].at), calls[i].key)
  }

  /** Call `i` is the last query for `k` accepted before call `n`. */
  ghost predicate LastAcceptance(calls: seq<Call>, lifetime: Time, k: Key, i: nat, n: nat)
    requires n <= |calls|
  {
    && i < n
    && Accepted(calls, lifetime, i) && calls[i].key == k
    && forall j :: i < j < n ==> !(Accepted(calls, lifetime, j) && calls[j].key == k)
  }

  /** Distinct keys, and expiry times in the order of insertion. */
  ghost predicate WellFormed(ids: seq<UniqueId>) {
    && (forall i, j :: 0 <= i < j < |ids| ==> ids[i].key != ids[j].key)
    && (forall i, j :: 0 <= i < j < |ids| ==> ids[i].expire <= ids[j].expire)
  }

  ghost predicate ExpiresBy(ids: seq<UniqueId>, latest: Time) {
    forall i :: 0 <= i < |ids| ==> ids[i].expire <= latest
  }

  /** On a sorted cache, `Purge` removes exactly a prefix. */
  lemma PurgeDropsPrefix(ids: seq<UniqueId>, now: Time)
    requires WellFormed(ids)
    ensures Live(ids, now) == ids[|ids| - |Live(ids, now)|..]
    ensures forall i :: 0 <= i < |ids| ==> (ids[i].expire < now <==> i < |ids| - |Live(ids, now)|)
    ensures WellFormed(Live(ids, now))
  {
    FilterDropsPrefix(NotExpired(now), ids);
  }

  /** What a live entry says about the calls so far. */
  ghost predicate Backed(ids: seq<UniqueId>, calls: seq<Call>, lifetime: Time) {
    forall e :: e in ids ==>
      exists i: nat :: LastAcceptance(calls, lifetime, e.key, i, |calls|) && e.expire == calls[i].at + lifetime
  }

  /** What the calls so far say about live entries, at any later time. */
  ghost predicate Complete(ids: seq<UniqueId>, calls: seq<Call>, lifetime: Time, now: Time) {
    forall k, i: nat :: LastAcceptance(calls, lifetime, k, i, |calls|) && now <= calls[i].at + lifetime ==>
      UniqueId(k, calls[i].at + lifetime) in ids
  }

  lemma PrefixOrdered(calls: seq<Call>, n: nat)
    requires Ordered(calls) && n <= |calls|
    ensures Ordered(calls[..n])
  {
  }

  lemma PrefixAcceptance(calls: seq<Call>, lifetime: Time, n: nat, k: Key, i: nat)
    requires n <= |calls|
    ensures LastAcceptance(calls[..n], lifetime, k, i, n) <==> LastAcceptance(calls, lifetime, k, i, n)
  {
    forall j | 0 <= j < n
      ensures Accepted(calls[..n], lifetime, j) == Accepted(calls, lifetime, j)
    {
      assert calls[..n][..j] == calls[..j];
    }
  }

  lemma LastAcceptanceStep(calls: seq<Call>, lifetime: Time, k: Key, i: nat, n: nat)
    requires n < |calls|
    ensures LastAcceptance(calls, lifetime, k, i, n + 1) <==>
            if Accepted(calls, lifetime, n) && calls[n].key == k then i == n else LastAcceptance(calls, lifetime, k, i, n)
  {
  }

  lemma LiveMember(ids: seq<UniqueId>, now: Time, e: UniqueId)
    ensures e in Live(ids, now) <==> e in ids && e.expire >= now
  {
    FilterMember(NotExpired(now), ids, e);
  }

  lemma KeepsWellFormed(ids: seq<UniqueId>, lifetime: Time, c: Call)
    requires WellFormed(ids) && ExpiresBy(ids, c.at + lifetime)
    ensures WellFormed(After(ids, lifetime, c)) && ExpiresBy(After(ids, lifetime, c), c.at + lifetime)
  {
    PurgeDropsPrefix(ids, c.at);
    var live := Live(ids, c.at);
    assert ExpiresBy(live, c.at + lifetime);
    if c.Query? && !Holds(live, c.key) {
      var after := live + [UniqueId(c.key, lifetime + c.at)];
      forall i, j | 0 <= i < j < |after|
        ensures after[i].key != after[j].key && after[i].expire <= after[j].expire
      {
        assert after[i] == live[i];
      }
    }
  }

  lemma KeepsBacked(calls: seq<Call>, lifetime: Time, n: nat)
    requires |calls| == n + 1
    requires Backed(Run(calls[..n], lifetime), calls[..n], lifetime)
    ensures Backed(Run(calls, lifetime), calls, lifetime)
  {
    var before, c := Run(calls[..n], lifetime), calls[n];
    var live := Live(before, c.at);
    forall e | e in Run(calls, lifetime)
      ensures exists i: nat :: LastAcceptance(calls, lifetime, e.key, i, |calls|) && e.expire == calls[i].at + lifetime
    {
      LiveMember(before, c.at, e);
      if e in live {
        var i: nat :| LastAcceptance(calls[..n], lifetime, e.key, i, n) && e.expire == calls[..n][i].at + lifetime;
        PrefixAcceptance(calls, lifetime, n, e.key, i);
        LastAcceptanceStep(calls, lifetime, e.key, i, n);
      } else {
        LastAcceptanceStep(calls, lifetime, e.key, n, n);
      }
    }
  }

  lemma KeepsComplete(calls: seq<Call>, lifetime: Time, n: nat)
    requires |calls| == n + 1 && Ordered(calls)
    requires n > 0 ==> Complete(Run(calls[..n], lifetime), calls[..n], lifetime, calls[n - 1].at)
    ensures Complete(Run(calls, lifetime), calls, lifetime, calls[n].at)
  {
    forall k, i: nat | LastAcceptance(calls, lifetime, k, i, |calls|) && calls[n].at <= calls[i].at + lifetime
      ensures UniqueId(k, calls[i].at + lifetime) in Run(calls, lifetime)
    {
      KeepsAcceptance(calls, lifetime, n, k, i);
    }
  }

  lemma KeepsAcceptance(calls: seq<Call>, lifetime: Time, n: nat, k: Key, i: nat)
    requires |calls| == n + 1 && Ordered(calls)
    requires n > 0 ==> Complete(Run(calls[..n], lifetime), calls[..n], lifetime, calls[n - 1].at)
    requires LastAcceptance(calls, lifetime, k, i, n + 1) && calls[n].at <= calls[i].at + lifetime
    ensures UniqueId(k, calls[i].at + lifetime) in Run(calls, lifetime)
  {
    var e := UniqueId(k, calls[i].at + lifetime);
    LastAcceptanceStep(calls, lifetime, k, i, n);
    if i < n {
      PrefixAcceptance(calls, lifetime, n, k, i);
      assert LastAcceptance(calls[..n], lifetime, k, i, |calls[..n]|);
      assert e in Run(calls[..n], lifetime);
      LiveMember(Run(calls[..n], lifetime), calls[n].at, e);
    }
  }

  /** The invariant of every run: well-formed, and exactly the unexpired last acceptances. */
  lemma {:induction false} RunInvariant(calls: seq<Call>, lifetime: Time)
    requires Ordered(calls)
    ensures WellFormed(Run(calls, lifetime)) && Backed(Run(calls, lifetime), calls, lifetime)
    ensures calls != [] ==> ExpiresBy(Run(calls, lifetime), calls[|calls| - 1].at + lifetime)
    ensures calls != [] ==> Complete(Run(calls, lifetime), calls, lifetime, calls[|calls| - 1].at)
  {
    if calls != [] {
      var n := |calls| - 1;
      PrefixOrdered(calls, n);
      RunInvariant(calls[..n], lifetime);
      KeepsWellFormed(Run(calls[..n], lifetime), lifetime, calls[n]);
      KeepsBacked(calls, lifetime, n);
      KeepsComplete(calls, lifetime, n);
    }
  }

  /**
   * The filter against its history: at any time not before the last call, a key counts as a duplicate
   * exactly when its most recent acceptance is at most one lifetime ago.
   */
  lemma DuplicateIffRecentlyAccepted(calls: seq<Call>, lifetime: Time, k: Key, now: Time)
    requires Ordered(calls)
    requires calls != [] ==> calls[|calls| - 1].at <= now
    ensures Holds(Live(Run(calls, lifetime), now), k) <==>
            exists i: nat :: LastAcceptance(calls, lifetime, k, i, |calls|) && now <= calls[i].at + lifetime
  {
    RunInvariant(calls, lifetime);
    var ids := Run(calls, lifetime);
    var live := Live(ids, now);
    if Holds(live, k) {
      var j :| 0 <= j < |live| && live[j].key == k;
      LiveMember(ids, now, live[j]);
      var i: nat :| LastAcceptance(calls, lifetime, k, i, |calls|) && live[j].expire == calls[i].at + lifetime;
    }
    if i: nat :| LastAcceptance(calls, lifetime, k, i, |calls|) && now <= calls[i].at + lifetime {
      var e := UniqueId(k, calls[i].at + lifetime);
      assert e in ids;
      LiveMember(ids, now, e);
      assert e in live;
      var j :| 0 <= j < |live| && live[j] == e;
    }
  }

  /** Two acceptances of one key are always more than a lifetime apart. */
  lemma AcceptancesFarApart(calls: seq<Call>, lifetime: Time, i: nat, j: nat)
    requires Ordered(calls) && i < j < |calls|
    requires Accepted(calls, lifetime, i) && Accepted(calls, lifetime, j) && calls[i].key == calls[j].key
    ensures calls[i].at + lifetime < calls[j].at
  {
    var k, prefix := calls[j].key, calls[..j];
    PrefixOrdered(calls, j);
    var last := LastBefore(calls, lifetime, k, i, j);
    PrefixAcceptance(calls, lifetime, j, k, last);
    DuplicateIffRecentlyAccepted(prefix, lifetime, k, calls[j].at);
    assert calls[i].at <= calls[last].at;
  }

  lemma LastBefore(calls: seq<Call>, lifetime: Time, k: Key, i: nat, n: nat) returns (last: nat)
    requires i < n <= |calls| && Accepted(calls, lifetime, i) && calls[i].key == k
    ensures i <= last && LastAcceptance(calls, lifetime, k, last, n)
  {
    last := n - 1;
    while !(Accepted(calls, lifetime, last) && calls[last].key == k)
      invariant i <= last < n
      decreases last
      invariant forall j :: last < j < n ==> !(Accepted(calls, lifetime, j) && calls[j].key == k)
    {
      last := last - 1;
    }
  }
}
