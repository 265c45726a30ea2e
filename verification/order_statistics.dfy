/** Sorted sequences, histograms as populations of samples, and ranks. */
module OrderStatistics {

  predicate Ascending(s: seq<int>) { forall i, j :: 0 <= i < j < |s| ==> s[i] <= s[j] }

  function Insert(x: int, s: seq<int>): seq<int> {
    if s == [] || x <= s[0] then [x] + s else [s[0]] + Insert(x, s[1..])
  }

  /** `sorted(...)`. */
  function Sort(s: seq<int>): seq<int> { if s == [] then [] else Insert(s[0], Sort(s[1..])) }

  lemma {:induction false} InsertHolds(x: int, s: seq<int>)
    ensures multiset(Insert(x, s)) == multiset(s) + multiset{x}
    ensures forall y :: y in Insert(x, s) <==> y == x || y in s
  {
    if s != [] {
      assert s == [s[0]] + s[1..];
      if x > s[0] {
        InsertHolds(x, s[1..]);
      }
    }
  }

  lemma PrependAscends(x: int, s: seq<int>)
    requires Ascending(s) && forall y :: y in s ==> x <= y
    ensures Ascending([x] + s)
  {
    var t := [x] + s;
    forall i, j | 0 <= i < j < |t| ensures t[i] <= t[j] {
      assert t[j] == s[j - 1] && s[j - 1] in s;
      if i > 0 {
        assert t[i] == s[i - 1];
      }
    }
  }

  lemma {:induction false} InsertSorts(x: int, s: seq<int>)
    requires Ascending(s)
    ensures Ascending(Insert(x, s))
  {
    if s == [] || x <= s[0] {
      PrependAscends(x, s);
    } else {
      InsertSorts(x, s[1..]);
      InsertHolds(x, s[1..]);
      PrependAscends(s[0], Insert(x, s[1..]));
    }
  }

  lemma {:induction false} SortSorts(s: seq<int>)
    ensures Ascending(Sort(s)) && multiset(Sort(s)) == multiset(s)
  {
    if s != [] {
      SortSorts(s[1..]);
      InsertSorts(s[0], Sort(s[1..]));
      InsertHolds(s[0], Sort(s[1..]));
      assert s == [s[0]] + s[1..];
    }
  }

  lemma LeastFirst(a: seq<int>, b: seq<int>)
    requires Ascending(a) && a != [] && b != [] && multiset(a) == multiset(b)
    ensures a[0] <= b[0]
  {
    assert b[0] in multiset(a);
    var i :| 0 <= i < |a| && a[i] == b[0];
  }

  /** A population has one sorted listing. */
  lemma {:induction false} SortedOnce(a: seq<int>, b: seq<int>)
    requires Ascending(a) && Ascending(b) && multiset(a) == multiset(b)
    ensures a == b
  {
    assert |a| == |multiset(a)| == |multiset(b)| == |b|;
    if a != [] {
      LeastFirst(a, b);
      LeastFirst(b, a);
      assert a == [a[0]] + a[1..] && b == [b[0]] + b[1..];
      assert multiset(a[1..]) == multiset(a) - multiset{a[0]};
      assert multiset(b[1..]) == multiset(b) - multiset{b[0]};
      SortedOnce(a[1..], b[1..]);
    }
  }

  // ---------- histograms ----------

  predicate Least(x: int, keys: set<int>) { x in keys && forall k :: k in keys ==> x <= k }

  lemma {:induction false} HasLeast(keys: set<int>)
    requires |keys| > 0
    ensures exists x :: Least(x, keys)
    decreases |keys|
  {
    assert (forall k :: k !in keys) ==> keys == {};
    var k :| k in keys;
    var rest := keys - {k};
    if |rest| == 0 {
      assert forall y :: y in keys ==> y == k by {
        forall y | y in keys ensures y == k {
          assert y !in rest;
        }
      }
      assert Least(k, keys);
    } else {
      HasLeast(rest);
      var x :| Least(x, rest);
      assert forall y :: y in keys ==> y == k || y in rest;
      if k <= x {
        assert Least(k, keys);
      } else {
        assert Least(x, keys);
      }
    }
  }

  function Repeat(x: int, n: nat): (s: seq<int>)
    ensures |s| == n && forall i :: 0 <= i < n ==> s[i] == x
  {
    seq(n, _ => x)
  }

  /** The samples a histogram stands for: each bucket's ceiling, in nanoseconds, as often as it was counted. */
  ghost function Expanded(h: map<int, nat>, keys: set<int>): seq<int>
    requires keys <= h.Keys
    decreases |keys|
  {
    if |keys| == 0 then []
    else
      var x := LeastOf(keys);
      Repeat(x * 1000, h[x]) + Expanded(h, keys - {x})
  }

  function CountOf(h: map<int, nat>, keys: set<int>, value: int): nat
    requires keys <= h.Keys
  {
    if value % 1000 == 0 && value / 1000 in keys then h[value / 1000] else 0
  }

  lemma {:induction false} RepeatCount(x: int, n: nat, value: int)
    ensures multiset(Repeat(x, n))[value] == if value == x then n else 0
    decreases n
  {
    if n > 0 {
      RepeatCount(x, n - 1, value);
      assert Repeat(x, n) == Repeat(x, n - 1) + [x];
    } else {
      assert Repeat(x, n) == [];
    }
  }

  ghost function LeastOf(keys: set<int>): (x: int)
    requires |keys| > 0
    ensures Least(x, keys)
  {
    HasLeast(keys);
    var x :| Least(x, keys);
    x
  }

  lemma {:induction false} ExpandedCounts(h: map<int, nat>, keys: set<int>, value: int)
    requires keys <= h.Keys
    ensures multiset(Expanded(h, keys))[value] == CountOf(h, keys, value)
    decreases |keys|
  {
    if |keys| > 0 {
      var x := LeastOf(keys);
      var here, rest := Repeat(x * 1000, h[x]), Expanded(h, keys - {x});
      ExpandedCounts(h, keys - {x}, value);
      RepeatCount(x * 1000, h[x], value);
      assert multiset(here + rest) == multiset(here) + multiset(rest);
      assert value == x * 1000 <==> value % 1000 == 0 && value / 1000 == x;
    }
  }

  lemma AppendAscends(a: seq<int>, b: seq<int>, middle: int)
    requires Ascending(a) && Ascending(b)
    requires (forall i :: 0 <= i < |a| ==> a[i] <= middle) && (forall i :: 0 <= i < |b| ==> middle <= b[i])
    ensures Ascending(a + b)
  {
  }

  /** The expansion is sorted and lies between its keys' ceilings. */
  lemma {:induction false} ExpandedSorted(h: map<int, nat>, keys: set<int>, low: int, high: int)
    requires keys <= h.Keys && forall k :: k in keys ==> low <= k <= high
    ensures Ascending(Expanded(h, keys))
    ensures forall i :: 0 <= i < |Expanded(h, keys)| ==> low * 1000 <= Expanded(h, keys)[i] <= high * 1000
    decreases |keys|
  {
    if |keys| > 0 {
      var x := LeastOf(keys);
      var here, rest := Repeat(x * 1000, h[x]), Expanded(h, keys - {x});
      ExpandedSorted(h, keys - {x}, x, high);
      AppendAscends(here, rest, x * 1000);
    }
  }

  ghost function Bag(h: map<int, nat>): multiset<int> { multiset(Expanded(h, h.Keys)) }

  /** `histogram[upper] = histogram.get(upper, 0) + n`. */
  function Plus(h: map<int, nat>, upper: int, n: nat): map<int, nat> {
    h[upper := (if upper in h then h[upper] else 0) + n]
  }

  /** Counting `n` more in one bucket adds exactly `n` samples at its ceiling. */
  lemma BagGrows(h: map<int, nat>, upper: int, n: nat)
    ensures Bag(Plus(h, upper, n)) == Bag(h) + multiset(Repeat(upper * 1000, n))
  {
    var g := Plus(h, upper, n);
    BagCounts(h);
    BagCounts(g);
    forall value ensures Bag(g)[value] == (Bag(h) + multiset(Repeat(upper * 1000, n)))[value] {
      RepeatCount(upper * 1000, n, value);
      assert value == upper * 1000 <==> value % 1000 == 0 && value / 1000 == upper;
    }
  }

  lemma BagCounts(h: map<int, nat>)
    ensures forall value :: Bag(h)[value] == CountOf(h, h.Keys, value)
  {
    forall value ensures Bag(h)[value] == CountOf(h, h.Keys, value) {
      ExpandedCounts(h, h.Keys, value);
    }
  }

  /**
   The search of both percentile functions: buckets in ascending order, counting up
   until the rank is covered. It finds the rank-th sample of the histogram.
   */
  method BucketOfRank(h: map<int, nat>, rank: nat) returns (found: bool, upper: int, total: nat)
    requires rank >= 1
    ensures found <==> rank <= |Expanded(h, h.Keys)|
    ensures found ==> Expanded(h, h.Keys)[rank - 1] == upper * 1000
    ensures !found ==> total == |Expanded(h, h.Keys)|
  {
    var keys := h.Keys;
    upper, total := 0, 0;
    ghost var done: seq<int>, all := [], Expanded(h, h.Keys);
    while |keys| > 0
      invariant keys <= h.Keys && total == |done| < rank
      invariant all == done + Expanded(h, keys)
      decreases |keys|
    {
      ghost var least := LeastOf(keys);
      assert least in keys && forall k :: k in keys ==> least <= k;
      upper :| upper in keys && forall k :: k in keys ==> upper <= k;
      assert upper == least;
      ghost var here, rest := Repeat(upper * 1000, h[upper]), Expanded(h, keys - {upper});
      assert Expanded(h, keys) == here + rest;
      assert all == (done + here) + rest;
      total := total + h[upper];
      if rank <= total {
        assert all[rank - 1] == here[rank - 1 - |done|];
        return true, upper, total;
      }
      done := done + here;
      keys := keys - {upper};
    }
    found := false;
  }

  /** `sum(histogram.values())`: the number of samples in the histogram. */
  method SumOf(h: map<int, nat>) returns (total: nat)
    ensures total == |Expanded(h, h.Keys)|
  {
    var keys := h.Keys;
    total := 0;
    while |keys| > 0
      invariant keys <= h.Keys && total + |Expanded(h, keys)| == |Expanded(h, h.Keys)|
      decreases |keys|
    {
      ghost var least := LeastOf(keys);
      assert least in keys && forall k :: k in keys ==> least <= k;
      var upper :| upper in keys && forall k :: k in keys ==> upper <= k;
      assert upper == least;
      total := total + h[upper];
      keys := keys - {upper};
    }
  }
}
