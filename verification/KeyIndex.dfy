/** Reverse indexes: for each owner the list of keys it owns. */
module KeyIndex {
  import opened Prelude

  predicate NoDup<T(==)>(s: seq<T>) {
    forall i, j :: 0 <= i < j < |s| ==> s[i] != s[j]
  }

  function SetOf<T(==)>(s: seq<T>): set<T> {
    set x | x in s
  }

  lemma InsertedHolds<T>(s: seq<T>, k: nat, x: T)
    requires k <= |s|
    ensures SetOf(s[..k] + [x] + s[k..]) == SetOf(s) + {x}
  {
    var n := s[..k] + [x] + s[k..];
    assert s == s[..k] + s[k..];
    assert forall y :: y in n <==> y in s || y == x;
  }

  lemma InsertedNoDup<T>(s: seq<T>, k: nat, x: T)
    requires k <= |s| && NoDup(s) && x !in s
    ensures NoDup(s[..k] + [x] + s[k..])
  {
    var n := s[..k] + [x] + s[k..];
    forall i, j | 0 <= i < j < |n| ensures n[i] != n[j] {
      assert n[i] == if i < k then s[i] else if i == k then x else s[i - 1];
      assert n[j] == if j < k then s[j] else if j == k then x else s[j - 1];
    }
  }

  /** A list cut short: what is outside the front part sits behind it. */
  lemma BehindFront<T>(s: seq<T>, n: nat, j: nat)
    requires n <= |s| && j < |s| && s[j] !in s[..n]
    ensures n <= j
  {
    assert forall t :: 0 <= t < n ==> s[..n][t] == s[t];
  }

  /** `retain(|x| x != k)` */
  function Without<T(==)>(s: seq<T>, k: T): (r: seq<T>) {
    if s == [] then [] else (if s[0] == k then [] else [s[0]]) + Without(s[1..], k)
  }

  /** `retain` of everything outside a set. */
  function Keep<T(==)>(s: seq<T>, drop: set<T>): seq<T> {
    if s == [] then [] else (if s[0] in drop then [] else [s[0]]) + Keep(s[1..], drop)
  }

  lemma {:induction false} KeepHolds<T>(s: seq<T>, drop: set<T>)
    ensures forall x :: x in Keep(s, drop) <==> x in s && x !in drop
    ensures NoDup(s) ==> NoDup(Keep(s, drop))
  {
    if s != [] {
      KeepHolds(s[1..], drop);
      assert s == [s[0]] + s[1..];
      if NoDup(s) {
        assert NoDup(s[1..]);
        assert s[0] !in s[1..];
      }
    }
  }

  lemma {:induction false} WithoutHolds<T>(s: seq<T>, k: T)
    ensures forall x :: x in Without(s, k) <==> x in s && x != k
    ensures NoDup(s) ==> NoDup(Without(s, k))
  {
    if s != [] {
      WithoutHolds(s[1..], k);
      assert s == [s[0]] + s[1..];
      if NoDup(s) {
        assert NoDup(s[1..]);
        assert s[0] !in s[1..];
      }
    }
  }

  // ----- the index operations -----

  function ListOf<C, K>(index: map<C, seq<K>>, c: C): seq<K> {
    if c in index then index[c] else []
  }

  /** `entry(c).or_default().push(k)` */
  function AddTo<C, K>(index: map<C, seq<K>>, c: C, k: K): map<C, seq<K>> {
    index[c := ListOf(index, c) + [k]]
  }

  /** Takes a key off its owner's list, and the owner off the index with its last key. */
  function Unindex<C, K(==)>(index: map<C, seq<K>>, c: C, k: K): map<C, seq<K>> {
    if c !in index then index
    else
      var v := Without(index[c], k);
      if v == [] then index - {c} else index[c := v]
  }

  /**
    The index lists exactly the owned keys: each key once, under its owner, and no
    owner without keys.
   */
  ghost predicate Agrees<C, K>(index: map<C, seq<K>>, owner: map<K, C>) {
    && (forall c :: c in index ==> index[c] != [] && NoDup(index[c]))
    && (forall c, k :: c in index && k in index[c] ==> k in owner && owner[k] == c)
    && (forall k :: k in owner ==> owner[k] in index && k in index[owner[k]])
  }

  lemma AddAgrees<C, K>(index: map<C, seq<K>>, owner: map<K, C>, c: C, k: K)
    requires Agrees(index, owner) && k !in owner
    ensures Agrees(AddTo(index, c, k), owner[k := c])
  {
    var v := if c in index then index[c] else [];
    assert k !in v && NoDup(v);
    assert NoDup(v + [k]);
  }

  lemma DropAgrees<C, K>(index: map<C, seq<K>>, owner: map<K, C>, k: K)
    requires Agrees(index, owner) && k in owner
    ensures Agrees(Unindex(index, owner[k], k), owner - {k})
  {
    var c := owner[k];
    var next, rest := Unindex(index, c, k), owner - {k};
    WithoutHolds(index[c], k);
    forall d, j | d in next && j in next[d]
      ensures j in rest && rest[j] == d
    {
      StillListed(index, c, k, d, j);
      assert d in index && j in index[d];
    }
    forall j | j in rest
      ensures rest[j] in next && j in next[rest[j]]
    {
      StillListed(index, c, k, rest[j], j);
    }
  }

  lemma StillListed<C, K>(index: map<C, seq<K>>, c: C, k: K, d: C, j: K)
    requires c in index
    ensures var next := Unindex(index, c, k);
      d in next && j in next[d] <==> d in index && j in index[d] && !(d == c && j == k)
  {
    WithoutHolds(index[c], k);
  }

  /** Taking an owner off whole leaves the index of everybody else. */
  lemma DropOwnerAgrees<C, K>(index: map<C, seq<K>>, owner: map<K, C>, c: C, rest: map<K, C>)
    requires Agrees(index, owner)
    requires rest == map k | k in owner && owner[k] != c :: owner[k]
    ensures Agrees(index - {c}, rest)
  {
  }

  /** An exact index read both ways. */
  lemma AgreesMeans<C, K>(index: map<C, seq<K>>, owner: map<K, C>)
    requires Agrees(index, owner)
    ensures forall c, k :: (c in index && k in index[c]) <==> (k in owner && owner[k] == c)
    ensures forall c :: c in index ==> index[c] != [] && NoDup(index[c])
  {
  }

  /** What an owner's list holds. */
  lemma ListIs<C, K>(index: map<C, seq<K>>, owner: map<K, C>, c: C)
    requires Agrees(index, owner)
    ensures NoDup(ListOf(index, c))
    ensures forall k :: k in ListOf(index, c) <==> k in owner && owner[k] == c
  {
  }
}
