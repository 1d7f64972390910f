/** Filtering sequences and walking a set of addresses in ascending order. */
module Sequences {
  import opened Machine

  /** The elements of `s` that satisfy `p`, in order (what `std::remove_if` with the negation of `p` leaves). */
  function Filter<T(!new)>(p: T -> bool, s: seq<T>): (r: seq<T>)
    ensures |r| <= |s|
  {
    if s == [] then []
    else
      var last := s[|s| - 1];
      Filter(p, s[..|s| - 1]) + if p(last) then [last] else []
  }

  lemma {:induction false} FilterMember<T(!new)>(p: T -> bool, s: seq<T>, x: T)
    ensures x in Filter(p, s) <==> x in s && p(x)
  {
    if s != [] {
      FilterMember(p, s[..|s| - 1], x);
      assert s == s[..|s| - 1] + [s[|s| - 1]];
    }
  }

  lemma {:induction false} FilterConcat<T(!new)>(p: T -> bool, s: seq<T>, t: seq<T>)
    ensures Filter(p, s + t) == Filter(p, s) + Filter(p, t)
  {
    if t == [] {
      assert s + t == s;
    } else {
      var init, last := t[..|t| - 1], t[|t| - 1];
      var tail := if p(last) then [last] else [];
      FilterConcat(p, s, init);
      assert (s + t)[..|s + t| - 1] == s + init;
      assert Filter(p, s + t) == Filter(p, s + init) + tail;
      assert Filter(p, s) + (Filter(p, init) + tail) == (Filter(p, s) + Filter(p, init)) + tail;
    }
  }

  lemma {:induction false} FilterAll<T(!new)>(p: T -> bool, s: seq<T>)
    requires forall x :: x in s ==> p(x)
    ensures Filter(p, s) == s
  {
    if s != [] {
      FilterAll(p, s[..|s| - 1]);
      assert s[|s| - 1] in s;
      assert s == s[..|s| - 1] + [s[|s| - 1]];
    }
  }

  lemma {:induction false} FilterNone<T(!new)>(p: T -> bool, s: seq<T>)
    requires forall x :: x in s ==> !p(x)
    ensures Filter(p, s) == []
  {
    if s != [] {
      FilterNone(p, s[..|s| - 1]);
    }
  }

  /** A filter and its complement share the elements out without losing or copying any. */
  lemma {:induction false} FilterSplits<T(!new)>(p: T -> bool, q: T -> bool, s: seq<T>)
    requires forall x :: x in s ==> p(x) == !q(x)
    ensures multiset(s) == multiset(Filter(p, s)) + multiset(Filter(q, s))
  {
    if s != [] {
      var init, last := s[..|s| - 1], s[|s| - 1];
      assert s == init + [last];
      assert last in s;
      FilterSplits(p, q, init);
    }
  }

  /** `r` are the elements of `s` at the positions `at`, which ascend. */
  ghost predicate Picks<T(!new)>(s: seq<T>, at: seq<nat>, r: seq<T>) {
    && |at| == |r|
    && (forall i :: 0 <= i < |at| ==> at[i] < |s| && r[i] == s[at[i]])
    && (forall i, j :: 0 <= i < j < |at| ==> at[i] < at[j])
  }

  lemma PicksSnoc<T(!new)>(s: seq<T>, x: T, at: seq<nat>, r: seq<T>)
    requires Picks(s, at, r)
    ensures Picks(s + [x], at, r) && Picks(s + [x], at + [|s|], r + [x])
  {
  }

  /** `at` are exactly the positions of `s` whose elements satisfy `p`. */
  ghost predicate Covers<T(!new)>(p: T -> bool, s: seq<T>, at: seq<nat>) {
    forall k: nat :: k in at <==> k < |s| && p(s[k])
  }

  lemma CoversSnoc<T(!new)>(p: T -> bool, s: seq<T>, x: T, at: seq<nat>)
    requires Covers(p, s, at)
    ensures Covers(p, s + [x], if p(x) then at + [|s|] else at)
  {
    forall k: nat ensures k < |s + [x]| && p((s + [x])[k]) <==> (k < |s| && p(s[k])) || (k == |s| && p(x)) {
    }
  }

  /** A filter picks exactly the positions whose elements satisfy `p`, in order. */
  lemma {:induction false} FilterPicks<T(!new)>(p: T -> bool, s: seq<T>) returns (at: seq<nat>)
    ensures Picks(s, at, Filter(p, s)) && Covers(p, s, at)
  {
    hide Picks, Covers;
    if s == [] {
      at := [];
      NothingPicked(p);
    } else {
      var init, last := s[..|s| - 1], s[|s| - 1];
      var most := FilterPicks(p, init);
      assert s == init + [last];
      PicksSnoc(init, last, most, Filter(p, init));
      CoversSnoc(p, init, last, most);
      at := if p(last) then most + [|init|] else most;
      assert Filter(p, s) == if p(last) then Filter(p, init) + [last] else Filter(p, init);
    }
  }

  lemma NothingPicked<T(!new)>(p: T -> bool)
    ensures Picks([], [], Filter(p, [])) && Covers(p, [], [])
  {
  }

  /** Picking twice is picking once. */
  lemma PicksCompose<T(!new)>(s: seq<T>, at: seq<nat>, r: seq<T>, bt: seq<nat>, q: seq<T>) returns (ct: seq<nat>)
    requires Picks(s, at, r) && Picks(r, bt, q)
    ensures Picks(s, ct, q)
    ensures forall k: nat :: k in ct <==> exists i :: 0 <= i < |at| && at[i] == k && i in bt
  {
    ct := seq(|bt|, i requires 0 <= i < |bt| => at[bt[i]]);
    forall k: nat ensures k in ct <==> exists i :: 0 <= i < |at| && at[i] == k && i in bt {
      if k in ct {
        var j :| 0 <= j < |ct| && ct[j] == k;
        assert at[bt[j]] == k && bt[j] in bt;
      }
      if i :| 0 <= i < |at| && at[i] == k && i in bt {
        var j :| 0 <= j < |bt| && bt[j] == i;
        assert ct[j] == k;
      }
    }
  }

  /** Filtering a sequence whose elements fail `p` up to `n` and satisfy it from `n` on. */
  lemma FilterAtCut<T(!new)>(p: T -> bool, s: seq<T>, n: nat)
    requires n <= |s|
    requires forall i :: 0 <= i < |s| ==> (p(s[i]) <==> i >= n)
    ensures Filter(p, s) == s[n..]
  {
    assert s == s[..n] + s[n..];
    FilterConcat(p, s[..n], s[n..]);
    FilterNone(p, s[..n]);
    FilterAll(p, s[n..]);
  }

  lemma FilterUpToCut<T(!new)>(q: T -> bool, s: seq<T>, n: nat)
    requires n <= |s|
    requires forall i :: 0 <= i < |s| ==> (q(s[i]) <==> i < n)
    ensures Filter(q, s) == s[..n]
  {
    assert s == s[..n] + s[n..];
    FilterConcat(q, s[..n], s[n..]);
    FilterAll(q, s[..n]);
    FilterNone(q, s[n..]);
  }

  /** If `p`, once true along `s`, stays true, then filtering drops a prefix. */
  lemma FilterDropsPrefix<T(!new)>(p: T -> bool, s: seq<T>)
    requires forall i, j :: 0 <= i < j < |s| ==> p(s[i]) ==> p(s[j])
    ensures var n := |s| - |Filter(p, s)|;
            Filter(p, s) == s[n..] && forall i :: 0 <= i < |s| ==> (p(s[i]) <==> i >= n)
  {
    var n := 0;
    while n < |s| && !p(s[n])
      invariant 0 <= n <= |s|
      invariant forall i :: 0 <= i < n ==> !p(s[i])
    {
      n := n + 1;
    }
    FilterAtCut(p, s, n);
  }

  function Without<T>(s: seq<T>, i: nat): seq<T>
    requires i < |s|
  {
    s[..i] + s[i + 1..]
  }

  lemma WithoutMember<T>(s: seq<T>, i: nat, x: T)
    requires i < |s| && x in Without(s, i)
    ensures x in s
  {
  }

  lemma WithoutOther<T>(s: seq<T>, i: nat, x: T)
    requires i < |s| && x in s && x != s[i]
    ensures x in Without(s, i)
  {
    var j :| 0 <= j < |s| && s[j] == x;
    if j < i {
      assert Without(s, i)[j] == x;
    } else {
      assert Without(s, i)[j - 1] == x;
    }
  }

  lemma WithoutCount<T>(s: seq<T>, i: nat)
    requires i < |s|
    ensures multiset(s) == multiset(Without(s, i)) + multiset{s[i]}
  {
    assert s == s[..i] + [s[i]] + s[i + 1..];
  }

  lemma WithoutSnoc<T>(s: seq<T>, i: nat)
    requires i < |s| - 1
    ensures Without(s, i) == Without(s[..|s| - 1], i) + [s[|s| - 1]]
    ensures Without(s, i)[..|s| - 2] == Without(s[..|s| - 1], i)
  {
  }

  lemma {:induction false} FilterWithout<T(!new)>(p: T -> bool, s: seq<T>, i: nat)
    requires i < |s| && !p(s[i])
    ensures Filter(p, Without(s, i)) == Filter(p, s)
  {
    if i == |s| - 1 {
      assert Without(s, i) == s[..i];
    } else {
      WithoutSnoc(s, i);
      FilterWithout(p, s[..|s| - 1], i);
    }
  }

  lemma {:induction false} FilterWithoutOne<T(!new)>(p: T -> bool, s: seq<T>, i: nat)
    requires i < |s| && p(s[i])
    ensures |Filter(p, Without(s, i))| + 1 == |Filter(p, s)|
  {
    if i == |s| - 1 {
      assert Without(s, i) == s[..i];
    } else {
      WithoutSnoc(s, i);
      FilterWithoutOne(p, s[..|s| - 1], i);
    }
  }

  lemma {:induction false} FilterWithoutFirst<T(!new)>(p: T -> bool, s: seq<T>, i: nat)
    requires i < |s| && p(s[i]) && forall j :: 0 <= j < i ==> !p(s[j])
    ensures Filter(p, s) == [s[i]] + Filter(p, Without(s, i))
  {
    if i == |s| - 1 {
      assert Without(s, i) == s[..i];
      FilterNone(p, s[..i]);
    } else {
      WithoutSnoc(s, i);
      FilterWithoutFirst(p, s[..|s| - 1], i);
    }
  }

  predicate IsMin(k: Address, keys: set<Address>) {
    k in keys && forall j :: j in keys ==> k <= j
  }

  lemma {:induction false} MinExists(keys: set<Address>)
    requires keys != {}
    ensures exists k :: IsMin(k, keys)
    decreases |keys|
  {
    var k :| k in keys;
    var rest := keys - {k};
    if rest == {} {
      assert keys == {k};
      assert IsMin(k, keys);
    } else {
      MinExists(rest);
      var j :| IsMin(j, rest);
      var m := if j < k then j else k;
      assert forall i :: i in keys ==> i == k || i in rest;
      assert IsMin(m, keys);
    }
  }

  /** The first key of a `std::map`. */
  ghost function MinKey(keys: set<Address>): (k: Address)
    requires keys != {}
    ensures IsMin(k, keys)
  {
    MinExists(keys);
    var k :| IsMin(k, keys);
    k
  }

  /** How many of `keys` lie below `k`: the position of `k` in an ascending walk. */
  ghost function Rank(k: Address, keys: set<Address>): nat {
    |set j | j in keys && j < k|
  }

  /** The key an iterator that starts at the first key reaches after `i` increments; ZERO once it has run off the end. */
  ghost function NthKey(keys: set<Address>, i: nat): (k: Address)
    ensures i < |keys| ==> k in keys && Rank(k, keys) == i
    ensures i >= |keys| ==> k == ZERO
    decreases i
  {
    if keys == {} then ZERO
    else
      var m := MinKey(keys);
      if i == 0 then
        assert (set j | j in keys && j < m) == {};
        m
      else
        var k := NthKey(keys - {m}, i - 1);
        assert i < |keys| ==> (set j | j in keys && j < k) == (set j | j in keys - {m} && j < k) + {m};
        k
  }
}
