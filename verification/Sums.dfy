/** Totals over the values of a map. */
module Sums {

  ghost function SumMap<K, V>(m: map<K, V>, f: V -> nat): nat
    decreases |m|
  {
    if m == map[] then 0
    else
      var k :| k in m;
      f(m[k]) + SumMap(m - {k}, f)
  }

  /** Any key may be taken out first. */
  lemma {:induction false} SumTake<K, V>(m: map<K, V>, f: V -> nat, k: K)
    requires k in m
    ensures SumMap(m, f) == f(m[k]) + SumMap(m - {k}, f)
    decreases |m|
  {
    var j :| j in m && SumMap(m, f) == f(m[j]) + SumMap(m - {j}, f);
    if j != k {
      SumTake(m - {j}, f, k);
      SumTake(m - {k}, f, j);
      assert m - {j} - {k} == m - {k} - {j};
    }
  }

  /** Setting one key changes the total by the difference at that key. */
  lemma SumSet<K, V>(m: map<K, V>, f: V -> nat, k: K, v: V)
    ensures SumMap(m[k := v], f) + (if k in m then f(m[k]) else 0) == SumMap(m, f) + f(v)
  {
    SumTake(m[k := v], f, k);
    if k in m {
      SumTake(m, f, k);
    }
    assert m[k := v] - {k} == m - {k};
    if k !in m {
      assert m - {k} == m;
    }
  }

  lemma {:induction false} SumZero<K, V>(m: map<K, V>, f: V -> nat)
    requires forall k :: k in m ==> f(m[k]) == 0
    ensures SumMap(m, f) == 0
    decreases |m|
  {
    if m != map[] {
      var k :| k in m;
      SumTake(m, f, k);
      SumZero(m - {k}, f);
    }
  }

  /** One total below another, value by value. */
  lemma {:induction false} SumAtMost<K, V>(m: map<K, V>, f: V -> nat, g: V -> nat)
    requires forall k :: k in m ==> f(m[k]) <= g(m[k])
    ensures SumMap(m, f) <= SumMap(m, g)
    decreases |m|
  {
    if m != map[] {
      var k :| k in m;
      SumTake(m, f, k);
      SumTake(m, g, k);
      SumAtMost(m - {k}, f, g);
    }
  }

  /** A total splits over the keys kept and the keys dropped. */
  lemma {:induction false} SumSplit<K, V>(m: map<K, V>, f: V -> nat, kept: map<K, V>, dropped: map<K, V>)
    requires kept.Keys !! dropped.Keys && m == kept + dropped
    ensures SumMap(m, f) == SumMap(kept, f) + SumMap(dropped, f)
    decreases |dropped|
  {
    hide SumMap;
    if dropped == map[] {
      assert m == kept;
      SumZero(dropped, f);
    } else {
      var k :| k in dropped;
      SumTake(m, f, k);
      SumTake(dropped, f, k);
      WithoutKey(m, kept, dropped, k);
      SumSplit(m - {k}, f, kept, dropped - {k});
    }
  }

  lemma WithoutKey<K, V>(m: map<K, V>, kept: map<K, V>, dropped: map<K, V>, k: K)
    requires kept.Keys !! dropped.Keys && m == kept + dropped && k in dropped
    ensures m - {k} == kept + (dropped - {k}) && m[k] == dropped[k]
    ensures kept.Keys !! (dropped - {k}).Keys
  {
  }
}
