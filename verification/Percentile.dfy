/** The packet-weighted percentile, over the reals. */
module Percentile {
  import opened Prelude

  /** A value and its weight. */
  type Sample = (real, nat)

  function Repeat(x: real, n: nat): (r: seq<real>)
    ensures |r| == n
  {
    seq(n, _ => x)
  }

  /** Each value as often as its weight. */
  function Expand(samples: seq<Sample>): seq<real> {
    if samples == [] then [] else Repeat(samples[0].0, samples[0].1) + Expand(samples[1..])
  }

  predicate Ordered(xs: seq<real>) {
    forall i, j :: 0 <= i <= j < |xs| ==> xs[i] <= xs[j]
  }

  function Insert(x: real, xs: seq<real>): seq<real> {
    if xs == [] || x <= xs[0] then [x] + xs else [xs[0]] + Insert(x, xs[1..])
  }

  function Sort(xs: seq<real>): seq<real> {
    if xs == [] then [] else Insert(xs[0], Sort(xs[1..]))
  }

  lemma {:induction false} InsertHolds(x: real, xs: seq<real>)
    ensures multiset(Insert(x, xs)) == multiset(xs) + multiset{x}
  {
    if xs != [] && x > xs[0] {
      InsertHolds(x, xs[1..]);
      assert xs == [xs[0]] + xs[1..];
    }
  }

  lemma {:induction false} InsertOrders(x: real, xs: seq<real>)
    requires Ordered(xs)
    ensures Ordered(Insert(x, xs))
    ensures Insert(x, xs)[0] == if xs == [] || x <= xs[0] then x else xs[0]
  {
    if xs != [] && x > xs[0] {
      InsertOrders(x, xs[1..]);
    }
  }

  lemma {:induction false} SortSorts(xs: seq<real>)
    ensures Ordered(Sort(xs)) && multiset(Sort(xs)) == multiset(xs) && |Sort(xs)| == |xs|
  {
    if xs != [] {
      SortSorts(xs[1..]);
      InsertOrders(xs[0], Sort(xs[1..]));
      InsertHolds(xs[0], Sort(xs[1..]));
      assert xs == [xs[0]] + xs[1..];
    }
    SameSize(Sort(xs), xs);
  }

  lemma SameSize(a: seq<real>, b: seq<real>)
    requires multiset(a) == multiset(b)
    ensures |a| == |b|
  {
    assert |multiset(a)| == |a| && |multiset(b)| == |b|;
  }

  lemma SameLeast(a: seq<real>, b: seq<real>)
    requires Ordered(a) && Ordered(b) && multiset(a) == multiset(b) && a != [] && b != []
    ensures a[0] == b[0]
  {
    assert a[0] in multiset(b) && b[0] in multiset(a);
  }

  lemma SameRest(a: seq<real>, b: seq<real>)
    requires multiset(a) == multiset(b) && a != [] && b != [] && a[0] == b[0]
    ensures multiset(a[1..]) == multiset(b[1..])
  {
    assert a == [a[0]] + a[1..] && b == [b[0]] + b[1..];
    var s, t := multiset(a[1..]), multiset(b[1..]);
    forall x ensures s[x] == t[x] {
      assert multiset(a)[x] == multiset([a[0]])[x] + s[x];
      assert multiset(b)[x] == multiset([b[0]])[x] + t[x];
    }
  }

  /** An ordered list is determined by what it holds. */
  lemma {:induction false} OrderedUnique(a: seq<real>, b: seq<real>)
    requires Ordered(a) && Ordered(b) && multiset(a) == multiset(b)
    ensures a == b
  {
    SameSize(a, b);
    if a != [] {
      SameLeast(a, b);
      SameRest(a, b);
      OrderedUnique(a[1..], b[1..]);
      assert a == [a[0]] + a[1..] && b == [b[0]] + b[1..];
    }
  }

  function Clamp(p: real): (c: real)
    ensures 0.0 <= c <= 1.0
  {
    if p < 0.0 then 0.0 else if p > 1.0 then 1.0 else p
  }

  function Scale(t: real, c: real): (r: real)
    requires t >= 0.0 && 0.0 <= c <= 1.0
    ensures 0.0 <= r <= t
  {
    t * c
  }

  lemma ScaleLe(t: real, a: real, b: real)
    requires t >= 0.0 && 0.0 <= a <= b <= 1.0
    ensures Scale(t, a) <= Scale(t, b)
  {
  }

  /** Where in a list of `total` elements the percentile falls, in fractions of a step. */
  function Target(total: nat, p: real): (t: real)
    requires total > 0
    ensures 0.0 <= t <= total as real - 1.0
  {
    Scale(total as real - 1.0, Clamp(p))
  }

  /** Position in the expanded list. */
  function Rank(total: nat, p: real): (k: nat)
    requires total > 0
    ensures k < total
  {
    Target(total, p).Floor
  }

  lemma RankMonotone(total: nat, p: real, q: real)
    requires total > 0 && p <= q
    ensures Rank(total, p) <= Rank(total, q)
  {
    TargetMonotone(total, p, q);
    FloorLe(Target(total, p), Target(total, q));
  }

  lemma TargetMonotone(total: nat, p: real, q: real)
    requires total > 0 && p <= q
    ensures Target(total, p) <= Target(total, q)
  {
    ScaleLe(total as real - 1.0, Clamp(p), Clamp(q));
  }

  lemma FloorLe(a: real, b: real)
    requires a <= b
    ensures a.Floor <= b.Floor
  {
  }

  /** The percentile by definition: an element of the sorted expanded list. */
  function Percentile(samples: seq<Sample>, p: real): Option<real> {
    var xs := Expand(samples);
    SortSorts(xs);
    if xs == [] then None else Some(Sort(xs)[Rank(|xs|, p)])
  }

  // ----- what the definition gives -----

  /** The result is one of the samples, of positive weight. */
  lemma PercentileIsSample(samples: seq<Sample>, p: real)
    ensures Percentile(samples, p).Some? <==> exists i :: 0 <= i < |samples| && samples[i].1 > 0
    ensures Percentile(samples, p).Some? ==>
      exists i :: 0 <= i < |samples| && samples[i].1 > 0 && samples[i].0 == Percentile(samples, p).value
  {
    var xs := Expand(samples);
    SortSorts(xs);
    if xs != [] {
      var x := Sort(xs)[Rank(|xs|, p)];
      assert x in multiset(Sort(xs));
      ExpandedFrom(samples, x);
    }
    if i :| 0 <= i < |samples| && samples[i].1 > 0 {
      ExpandsTo(samples, i);
    }
  }

  lemma {:induction false} ExpandedFrom(samples: seq<Sample>, x: real)
    requires x in Expand(samples)
    ensures exists i :: 0 <= i < |samples| && samples[i].1 > 0 && samples[i].0 == x
  {
    if x in Repeat(samples[0].0, samples[0].1) {
      assert samples[0].1 > 0 && samples[0].0 == x;
    } else {
      ExpandedFrom(samples[1..], x);
      var i :| 0 <= i < |samples[1..]| && samples[1..][i].1 > 0 && samples[1..][i].0 == x;
      assert samples[i + 1].1 > 0 && samples[i + 1].0 == x;
    }
  }

  lemma {:induction false} ExpandsTo(samples: seq<Sample>, i: nat)
    requires i < |samples| && samples[i].1 > 0
    ensures Expand(samples) != []
  {
    if i > 0 {
      ExpandsTo(samples[1..], i - 1);
    } else {
      assert |Expand(samples)| >= samples[0].1;
    }
  }

  lemma PercentileMonotone(samples: seq<Sample>, p: real, q: real)
    requires p <= q && Percentile(samples, p).Some?
    ensures Percentile(samples, q).Some? && Percentile(samples, p).value <= Percentile(samples, q).value
  {
    var xs := Expand(samples);
    SortSorts(xs);
    RankMonotone(|xs|, p, q);
  }

  /** Total weight of the samples below `x`, or below and at it. */
  function WeightBelow(samples: seq<Sample>, x: real, at: bool): nat {
    if samples == [] then 0
    else (if samples[0].0 < x || (at && samples[0].0 == x) then samples[0].1 else 0) + WeightBelow(samples[1..], x, at)
  }

  function CountBelow(xs: seq<real>, x: real, at: bool): nat {
    if xs == [] then 0
    else (if xs[0] < x || (at && xs[0] == x) then 1 else 0) + CountBelow(xs[1..], x, at)
  }

  lemma {:induction false} CountConcat(a: seq<real>, b: seq<real>, x: real, at: bool)
    ensures CountBelow(a + b, x, at) == CountBelow(a, x, at) + CountBelow(b, x, at)
  {
    if a == [] {
      assert a + b == b;
    } else {
      assert (a + b)[1..] == a[1..] + b;
      CountConcat(a[1..], b, x, at);
    }
  }

  lemma {:induction false} CountRepeat(v: real, n: nat, x: real, at: bool)
    ensures CountBelow(Repeat(v, n), x, at) == if v < x || (at && v == x) then n else 0
  {
    if n > 0 {
      assert Repeat(v, n)[1..] == Repeat(v, n - 1);
      CountRepeat(v, n - 1, x, at);
    }
  }

  lemma {:induction false} WeightsCounted(samples: seq<Sample>, x: real, at: bool)
    ensures CountBelow(Expand(samples), x, at) == WeightBelow(samples, x, at)
  {
    if samples != [] {
      WeightsCounted(samples[1..], x, at);
      CountRepeat(samples[0].0, samples[0].1, x, at);
      CountConcat(Repeat(samples[0].0, samples[0].1), Expand(samples[1..]), x, at);
    }
  }

  lemma {:induction false} CountInsert(y: real, xs: seq<real>, x: real, at: bool)
    ensures CountBelow(Insert(y, xs), x, at) == CountBelow([y], x, at) + CountBelow(xs, x, at)
  {
    if xs == [] || y <= xs[0] {
      CountConcat([y], xs, x, at);
    } else {
      CountInsert(y, xs[1..], x, at);
      CountConcat([xs[0]], Insert(y, xs[1..]), x, at);
      assert xs == [xs[0]] + xs[1..];
      CountConcat([xs[0]], xs[1..], x, at);
    }
  }

  lemma {:induction false} CountSorted(xs: seq<real>, x: real, at: bool)
    ensures CountBelow(Sort(xs), x, at) == CountBelow(xs, x, at)
  {
    if xs != [] {
      CountSorted(xs[1..], x, at);
      CountInsert(xs[0], Sort(xs[1..]), x, at);
      CountConcat([xs[0]], xs[1..], x, at);
      assert xs == [xs[0]] + xs[1..];
    }
  }

  /** In an ordered list, at most `k` elements are below the one at `k`, and more than `k` at or below it. */
  lemma {:induction false} CountAround(xs: seq<real>, k: nat)
    requires Ordered(xs) && k < |xs|
    ensures CountBelow(xs, xs[k], false) <= k < CountBelow(xs, xs[k], true)
  {
    if k == 0 {
      NoneBelow(xs, xs[0]);
    } else {
      CountAround(xs[1..], k - 1);
    }
  }

  lemma {:induction false} NoneBelow(xs: seq<real>, x: real)
    requires forall i :: 0 <= i < |xs| ==> x <= xs[i]
    ensures CountBelow(xs, x, false) == 0
  {
    if xs != [] {
      NoneBelow(xs[1..], x);
    }
  }

  /**
    The percentile without any list: the weight below it is at most the rank, the
    weight at or below it more.
   */
  lemma PercentileSplitsWeight(samples: seq<Sample>, p: real)
    requires Percentile(samples, p).Some?
    ensures var x, k := Percentile(samples, p).value, Rank(|Expand(samples)|, p);
      WeightBelow(samples, x, false) <= k < WeightBelow(samples, x, true)
  {
    var xs := Expand(samples);
    var x := Percentile(samples, p).value;
    SortSorts(xs);
    CountAround(Sort(xs), Rank(|xs|, p));
    CountSorted(xs, x, false);
    CountSorted(xs, x, true);
    WeightsCounted(samples, x, false);
    WeightsCounted(samples, x, true);
  }

  // ----- the algorithm -----

  lemma {:induction false} ExpandConcat(a: seq<Sample>, b: seq<Sample>)
    ensures Expand(a + b) == Expand(a) + Expand(b)
  {
    if a == [] {
      assert a + b == b;
    } else {
      assert (a + b)[1..] == a[1..] + b;
      ExpandConcat(a[1..], b);
    }
  }

  lemma ExpandOne(s: Sample)
    ensures Expand([s]) == Repeat(s.0, s.1)
  {
    assert [s][1..] == [];
  }

  lemma ExpandTake(v: seq<Sample>, i: nat)
    requires i < |v|
    ensures Expand(v[..i + 1]) == Expand(v[..i]) + Repeat(v[i].0, v[i].1)
  {
    assert v[..i + 1] == v[..i] + [v[i]];
    ExpandConcat(v[..i], [v[i]]);
    ExpandOne(v[i]);
  }

  predicate ByValue(v: seq<Sample>) {
    forall i, j :: 0 <= i <= j < |v| ==> v[i].0 <= v[j].0
  }

  lemma {:induction false} ExpandOrders(v: seq<Sample>)
    requires ByValue(v)
    ensures Ordered(Expand(v))
  {
    if v != [] {
      ExpandOrders(v[1..]);
      var first, rest := Repeat(v[0].0, v[0].1), Expand(v[1..]);
      forall j | 0 <= j < |rest| ensures v[0].0 <= rest[j] {
        ExpandedFrom(v[1..], rest[j]);
        var i :| 0 <= i < |v[1..]| && v[1..][i].1 > 0 && v[1..][i].0 == rest[j];
        assert v[0].0 <= v[i + 1].0;
      }
      assert forall j :: 0 <= j < |first| ==> first[j] == v[0].0;
    }
  }

  /** Keeps the samples of positive weight. */
  method Filter(samples: seq<Sample>) returns (v: seq<Sample>)
    ensures Expand(v) == Expand(samples)
    ensures forall i :: 0 <= i < |v| ==> v[i].1 > 0
  {
    v := [];
    var i := 0;
    while i < |samples|
      invariant 0 <= i <= |samples| && Expand(v) == Expand(samples[..i])
      invariant forall j :: 0 <= j < |v| ==> v[j].1 > 0
    {
      ExpandTake(samples, i);
      if samples[i].1 > 0 {
        ExpandConcat(v, [samples[i]]);
        ExpandOne(samples[i]);
        v := v + [samples[i]];
      } else {
        assert Repeat(samples[i].0, 0) == [];
      }
      i := i + 1;
    }
    assert samples[..i] == samples;
  }

  lemma InsertKeeps(r: seq<Sample>, k: nat, s: Sample)
    requires k <= |r|
    ensures multiset(Expand(r[..k] + [s] + r[k..])) == multiset(Expand(r)) + multiset(Repeat(s.0, s.1))
  {
    assert r == r[..k] + r[k..];
    ExpandConcat(r[..k], r[k..]);
    ExpandConcat(r[..k] + [s], r[k..]);
    ExpandConcat(r[..k], [s]);
    ExpandOne(s);
  }

  /** Two lists that expand to the same values. */
  ghost predicate SameBag(a: seq<Sample>, b: seq<Sample>) {
    multiset(Expand(a)) == multiset(Expand(b))
  }

  lemma InsertStep(r: seq<Sample>, k: nat, v: seq<Sample>, i: nat)
    requires k <= |r| && i < |v| && SameBag(r, v[..i])
    ensures SameBag(r[..k] + [v[i]] + r[k..], v[..i + 1])
  {
    InsertKeeps(r, k, v[i]);
    ExpandTake(v, i);
  }

  lemma InsertOrdered(r: seq<Sample>, k: nat, s: Sample)
    requires ByValue(r) && k <= |r|
    requires k > 0 ==> r[k - 1].0 <= s.0
    requires k < |r| ==> s.0 <= r[k].0
    ensures ByValue(r[..k] + [s] + r[k..])
  {
    var n := r[..k] + [s] + r[k..];
    forall i, j | 0 <= i <= j < |n| ensures n[i].0 <= n[j].0 {
      assert n[i] == if i < k then r[i] else if i == k then s else r[i - 1];
      assert n[j] == if j < k then r[j] else if j == k then s else r[j - 1];
    }
  }

  /** Where a sample goes: behind all that are not above it. */
  method Position(r: seq<Sample>, s: Sample) returns (k: nat)
    ensures k <= |r|
    ensures k > 0 ==> r[k - 1].0 <= s.0
    ensures k < |r| ==> s.0 <= r[k].0
  {
    k := |r|;
    while k > 0 && r[k - 1].0 > s.0
      invariant 0 <= k <= |r|
      invariant k < |r| ==> s.0 <= r[k].0
    {
      k := k - 1;
    }
  }

  /** A stable sort by value. */
  method SortByValue(v: seq<Sample>) returns (r: seq<Sample>)
    ensures ByValue(r) && SameBag(r, v) && |r| == |v|
  {
    r := [];
    var i := 0;
    while i < |v|
      invariant 0 <= i <= |v| && |r| == i && ByValue(r)
      invariant SameBag(r, v[..i])
    {
      hide SameBag, ByValue;
      var k := Position(r, v[i]);
      InsertStep(r, k, v, i);
      InsertOrdered(r, k, v[i]);
      r := r[..k] + [v[i]] + r[k..];
      i := i + 1;
    }
    assert v[..i] == v;
  }

  method TotalWeight(v: seq<Sample>) returns (total: nat)
    ensures total == |Expand(v)|
  {
    total := 0;
    var i := 0;
    while i < |v|
      invariant 0 <= i <= |v| && total == |Expand(v[..i])|
    {
      ExpandTake(v, i);
      total := total + v[i].1;
      i := i + 1;
    }
    assert v[..i] == v;
  }

  /** The `k`-th element of the expansion, once the running weight passes it. */
  lemma ElementAt(v: seq<Sample>, i: nat, k: nat)
    requires i < |v| && |Expand(v[..i])| <= k < |Expand(v[..i + 1])|
    ensures k < |Expand(v)| && Expand(v)[k] == v[i].0
  {
    ExpandTake(v, i);
    assert v == v[..i + 1] + v[i + 1..];
    ExpandConcat(v[..i + 1], v[i + 1..]);
  }

  /** Walks until the running weight passes the target. */
  method Walk(v: seq<Sample>, total: nat, p: real) returns (r: Option<real>)
    requires total == |Expand(v)| > 0
    ensures r == Some(Expand(v)[Rank(total, p)])
  {
    var target := Target(total, p);
    ghost var k := Rank(total, p);
    assert k as real <= target < k as real + 1.0;
    var acc := 0.0;
    var i := 0;
    r := None;
    while i < |v| && r == None
      invariant 0 <= i <= |v|
      invariant r == None ==> acc == |Expand(v[..i])| as real && |Expand(v[..i])| <= k
      invariant r != None ==> r == Some(Expand(v)[k])
    {
      ExpandTake(v, i);
      acc := acc + v[i].1 as real;
      if acc > target {
        ElementAt(v, i, k);
        r := Some(v[i].0);
      }
      i := i + 1;
    }
    assert v[..|v|] == v;
  }

  lemma SortedIs(xs: seq<real>, ys: seq<real>)
    requires Ordered(ys) && multiset(ys) == multiset(xs)
    ensures Sort(xs) == ys
  {
    SortSorts(xs);
    OrderedUnique(Sort(xs), ys);
  }

  /** Filter, sort and walk: the percentile by definition. */
  method WeightedPercentile(samples: seq<Sample>, p: real) returns (r: Option<real>)
    ensures r == Percentile(samples, p)
  {
    var kept := Filter(samples);
    if kept == [] {
      return None;
    }
    ExpandsTo(kept, 0);
    var v := SortByValue(kept);
    ExpandOrders(v);
    SortedIs(Expand(samples), Expand(v));
    SameSize(Expand(v), Expand(samples));
    var total := TotalWeight(v);
    r := Walk(v, total, p);
  }
}
