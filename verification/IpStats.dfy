/** Per-IP totals and gap-filled rings of time buckets. */
module IpStats {
  import opened Prelude

  const SEC1_RETAIN: nat := 600
  const SEC60_RETAIN: nat := 60

  datatype Dir = Tx | Rx

  /** The counters of a bucket, by name. */
  datatype Field = Pkts(dir: Dir) | Lost(dir: Dir) | Bytes(dir: Dir)

  datatype Bucket = Bucket(pktsTx: nat, pktsRx: nat, lostTx: nat, lostRx: nat, bytesTx: nat, bytesRx: nat) {
    function Plus(b: Bucket): (r: Bucket)
      ensures forall f :: r.Get(f) == Get(f) + b.Get(f)
    {
      Bucket(pktsTx + b.pktsTx, pktsRx + b.pktsRx, lostTx + b.lostTx, lostRx + b.lostRx,
             bytesTx + b.bytesTx, bytesRx + b.bytesRx)
    }

    function Get(f: Field): nat {
      match f
      case Pkts(Tx) => pktsTx
      case Pkts(Rx) => pktsRx
      case Lost(Tx) => lostTx
      case Lost(Rx) => lostRx
      case Bytes(Tx) => bytesTx
      case Bytes(Rx) => bytesRx
    }
  }

  const EMPTY: Bucket := Bucket(0, 0, 0, 0, 0, 0)

  function PacketsOf(count: nat, bytes: nat, dir: Dir): (b: Bucket)
    ensures b.Get(Pkts(dir)) == count && b.Get(Bytes(dir)) == bytes
    ensures forall f :: f != Pkts(dir) && f != Bytes(dir) ==> b.Get(f) == 0
  {
    match dir
    case Tx => EMPTY.(pktsTx := count, bytesTx := bytes)
    case Rx => EMPTY.(pktsRx := count, bytesRx := bytes)
  }

  function LostOf(lost: nat, dir: Dir): (b: Bucket)
    ensures b.Get(Lost(dir)) == lost
    ensures forall f :: f != Lost(dir) ==> b.Get(f) == 0
  {
    match dir
    case Tx => EMPTY.(lostTx := lost)
    case Rx => EMPTY.(lostRx := lost)
  }

  /** The summary of one address: all-time totals, last packet, concurrent calls. */
  datatype IpEntry = IpEntry(totals: Bucket, lastSeen: Option<u64>, active: nat) {
    /** Packets move the last-seen time, unless there is nothing to count. */
    function WithPackets(ts: u64, count: nat, bytes: nat, dir: Dir): IpEntry {
      if count == 0 && bytes == 0 then this
      else this.(totals := totals.Plus(PacketsOf(count, bytes, dir)), lastSeen := Some(ts))
    }

    /** Losses set the last-seen time only when there is none. */
    function WithLost(ts: u64, lost: nat, dir: Dir): IpEntry {
      if lost == 0 then this
      else this.(totals := totals.Plus(LostOf(lost, dir)), lastSeen := Some(lastSeen.GetOr(ts)))
    }

    /** One call more or less, saturating at both ends of 32 bits. */
    function WithCall(up: bool): IpEntry {
      this.(active := if up then Min(active + 1, 0xffff_ffff) else SatSub(active, 1))
    }
  }

  const NEW_IP := IpEntry(EMPTY, None, 0)

  // ----- the reference model: a log of observations -----

  /**
    One observation: its own bucket key, the slot it was booked in (its own, or
    the oldest retained one when it came too late), and its amounts.
   */
  datatype Obs = Obs(key: nat, slot: nat, amount: Bucket)

  /** Sum of everything booked in slots above `after`. */
  function BookedAfter(log: seq<Obs>, after: int, f: Field): nat {
    if log == [] then 0
    else BookedAfter(log[1..], after, f) + if log[0].slot > after then log[0].amount.Get(f) else 0
  }

  /** Sum of everything observed with a key above `after`. */
  function ObservedAfter(log: seq<Obs>, after: int, f: Field): nat {
    if log == [] then 0
    else ObservedAfter(log[1..], after, f) + if log[0].key > after then log[0].amount.Get(f) else 0
  }

  /** Observations no newer than `after` that were folded into a slot past it. */
  function FoldedIn(log: seq<Obs>, after: int, f: Field): nat {
    if log == [] then 0
    else FoldedIn(log[1..], after, f) + if log[0].slot > after >= log[0].key then log[0].amount.Get(f) else 0
  }

  /** Nothing that counts was folded in. */
  ghost predicate NoneFolded(log: seq<Obs>, after: int, f: Field) {
    forall i :: 0 <= i < |log| ==> log[i].slot > after >= log[i].key ==> log[i].amount.Get(f) == 0
  }

  lemma {:induction false} FoldedZeroIff(log: seq<Obs>, after: int, f: Field)
    ensures FoldedIn(log, after, f) == 0 <==> NoneFolded(log, after, f)
  {
    if log != [] {
      FoldedZeroIff(log[1..], after, f);
      assert forall i :: 0 < i < |log| ==> log[i] == log[1..][i - 1];
      if NoneFolded(log[1..], after, f) && FoldedIn(log, after, f) == 0 {
        assert forall i :: 0 <= i < |log| ==> log[i] == if i == 0 then log[0] else log[1..][i - 1];
      }
    }
  }

  // ----- the slot of an observation, from the keys up to it -----

  function NewestKey(keys: seq<nat>): nat
    requires keys != []
  {
    var last := keys[|keys| - 1];
    if |keys| == 1 then last else Max(NewestKey(keys[..|keys| - 1]), last)
  }

  /** The oldest slot retained: that of the first key, until the newest outruns the retention. */
  function OldestSlot(keys: seq<nat>, retain: nat): nat
    requires keys != []
  {
    Max(keys[0], NewestKey(keys) + 1 - retain)
  }

  function SlotAt(keys: seq<nat>, i: nat, retain: nat): nat
    requires i < |keys|
  {
    Max(keys[i], OldestSlot(keys[..i + 1], retain))
  }

  function Keys(log: seq<Obs>): (keys: seq<nat>)
    ensures |keys| == |log| && forall i :: 0 <= i < |log| ==> keys[i] == log[i].key
  {
    seq(|log|, i requires 0 <= i < |log| => log[i].key)
  }

  /** Every slot is the one its key and the keys before it give. */
  ghost predicate Slotted(log: seq<Obs>, retain: nat) {
    forall i :: 0 <= i < |log| ==> log[i].slot == SlotAt(Keys(log), i, retain)
  }

  /** Keys never went back. */
  ghost predicate InOrder(keys: seq<nat>) {
    forall i, j :: 0 <= i < j < |keys| ==> keys[i] <= keys[j]
  }

  lemma {:induction false} NewestInOrder(keys: seq<nat>)
    requires keys != [] && InOrder(keys)
    ensures NewestKey(keys) == keys[|keys| - 1]
    decreases |keys|
  {
    if |keys| > 1 {
      NewestInOrder(keys[..|keys| - 1]);
    }
  }

  lemma SlottedInOrder(log: seq<Obs>, retain: nat)
    requires Slotted(log, retain) && InOrder(Keys(log)) && retain > 0
    ensures BookedAtKeys(log)
  {
    forall i | 0 <= i < |log|
      ensures log[i].key == log[i].slot
    {
      NewestInOrder(Keys(log)[..i + 1]);
    }
  }

  ghost predicate NotBookedEarly(log: seq<Obs>) {
    forall i :: 0 <= i < |log| ==> log[i].key <= log[i].slot
  }

  ghost predicate BookedAtKeys(log: seq<Obs>) {
    forall i :: 0 <= i < |log| ==> log[i].key == log[i].slot
  }

  ghost predicate SlotsUpTo(log: seq<Obs>, newest: int) {
    forall i :: 0 <= i < |log| ==> log[i].slot <= newest
  }

  /** Booked sums exceed observed ones by exactly what was folded in. */
  lemma {:induction false} BookedVsObserved(log: seq<Obs>, after: int, f: Field)
    requires NotBookedEarly(log)
    ensures BookedAfter(log, after, f) == ObservedAfter(log, after, f) + FoldedIn(log, after, f)
  {
    if log != [] {
      BookedVsObserved(log[1..], after, f);
    }
  }

  lemma {:induction false} NothingFolded(log: seq<Obs>, after: int, f: Field)
    requires BookedAtKeys(log)
    ensures FoldedIn(log, after, f) == 0
  {
    if log != [] {
      NothingFolded(log[1..], after, f);
    }
  }

  lemma {:induction false} BookedNone(log: seq<Obs>, after: int, f: Field)
    requires SlotsUpTo(log, after)
    ensures BookedAfter(log, after, f) == 0
  {
    if log != [] {
      BookedNone(log[1..], after, f);
    }
  }

  lemma {:induction false} BookedSnoc(log: seq<Obs>, o: Obs, after: int, f: Field)
    ensures BookedAfter(log + [o], after, f)
         == BookedAfter(log, after, f) + if o.slot > after then o.amount.Get(f) else 0
  {
    if log == [] {
      assert [o][1..] == [];
    } else {
      assert (log + [o])[1..] == log[1..] + [o];
      BookedSnoc(log[1..], o, after, f);
    }
  }

  // ----- ring contents -----

  type Ring = seq<(nat, Bucket)>

  ghost predicate Consecutive(items: Ring) {
    forall i :: 0 <= i < |items| ==> items[i].0 == items[0].0 + i
  }

  function Newest(items: Ring): nat
    requires items != []
  {
    items[|items| - 1].0
  }

  /** Sum of all the buckets. */
  function SumAll(items: Ring, f: Field): nat {
    if items == [] then 0 else items[0].1.Get(f) + SumAll(items[1..], f)
  }

  /** The last `n` buckets, or all of them. */
  function Last(items: Ring, n: nat): Ring {
    if n >= |items| then items else items[|items| - n..]
  }

  /** Adding `b` to bucket `i`. */
  function Bump(items: Ring, i: nat, b: Bucket): Ring
    requires i < |items|
  {
    items[i := (items[i].0, items[i].1.Plus(b))]
  }

  lemma {:induction false} SumAllBump(items: Ring, i: nat, b: Bucket, f: Field)
    requires i < |items|
    ensures SumAll(Bump(items, i, b), f) == SumAll(items, f) + b.Get(f)
  {
    if i == 0 {
      assert Bump(items, i, b)[1..] == items[1..];
    } else {
      assert Bump(items, i, b)[1..] == Bump(items[1..], i - 1, b);
      SumAllBump(items[1..], i - 1, b, f);
    }
  }

  lemma {:induction false} SumAllConcat(a: Ring, b: Ring, f: Field)
    ensures SumAll(a + b, f) == SumAll(a, f) + SumAll(b, f)
  {
    if a == [] {
      assert a + b == b;
    } else {
      assert (a + b)[1..] == a[1..] + b;
      SumAllConcat(a[1..], b, f);
    }
  }

  /** Window sums of the ring and of the log agree. */
  ghost predicate WindowAgrees(items: Ring, log: seq<Obs>, n: nat, f: Field)
    requires items != []
  {
    SumAll(Last(items, n), f) == BookedAfter(log, Newest(items) - n, f)
  }

  /** The ring stands for the log: every window up to `retain` sums alike. */
  ghost predicate Stands(items: Ring, log: seq<Obs>, retain: nat) {
    && items != [] && Consecutive(items) && |items| <= retain
    && NotBookedEarly(log) && SlotsUpTo(log, Newest(items))
    && forall n: nat, f: Field :: n <= retain ==> WindowAgrees(items, log, n, f)
  }

  /** Where an observation with this key goes. */
  function SlotFor(items: Ring, key: nat): nat
    requires items != []
  {
    if key >= items[0].0 then key else items[0].0
  }

  lemma LastPushed(items: Ring, x: (nat, Bucket), n: nat)
    requires n > 0
    ensures Last(items + [x], n) == Last(items, n - 1) + [x]
  {
  }

  /** An empty newest bucket: every window of `n` is a window of `n - 1` before. */
  lemma WindowPushed(items: Ring, log: seq<Obs>, kept: Ring, n: nat, f: Field)
    requires items != [] && SlotsUpTo(log, Newest(items))
    requires n > 0 ==> WindowAgrees(items, log, n - 1, f) && Last(kept, n - 1) == Last(items, n - 1)
    ensures WindowAgrees(kept + [(Newest(items) + 1, EMPTY)], log, n, f)
  {
    var x := (Newest(items) + 1, EMPTY);
    if n == 0 {
      BookedNone(log, Newest(items) + 1, f);
    } else {
      LastPushed(kept, x, n);
      SumAllConcat(Last(kept, n - 1), [x], f);
      assert [x][1..] == [];
    }
  }

  /** `kept` with an empty bucket for the next key. */
  function Pushed(kept: Ring): Ring
    requires kept != []
  {
    kept + [(Newest(kept) + 1, EMPTY)]
  }

  /** One empty bucket pushed at the back of a ring with room. */
  lemma PushKeeps(items: Ring, log: seq<Obs>, retain: nat)
    requires Stands(items, log, retain) && |items| < retain
    ensures Stands(Pushed(items), log, retain) && Newest(Pushed(items)) == Newest(items) + 1
  {
    var next := Pushed(items);
    forall n: nat, f: Field | n <= retain
      ensures WindowAgrees(next, log, n, f)
    {
      hide SumAll, BookedAfter, WindowAgrees, Consecutive;
      if n > 0 {
        assert WindowAgrees(items, log, n - 1, f);
      }
      WindowPushed(items, log, items, n, f);
    }
  }

  /** Without its oldest bucket a ring still has all its shorter windows. */
  lemma ShiftedWindow(items: Ring, log: seq<Obs>, retain: nat, n: nat, f: Field)
    requires Stands(items, log, retain) && 1 < |items| == retain && n <= retain
    ensures WindowAgrees(Pushed(items[1..]), log, n, f)
  {
    hide SumAll, BookedAfter, WindowAgrees, Consecutive, SlotsUpTo;
    if n > 0 {
      assert WindowAgrees(items, log, n - 1, f);
      assert Last(items[1..], n - 1) == Last(items, n - 1);
    }
    WindowPushed(items, log, items[1..], n, f);
  }

  lemma ShiftConsecutive(items: Ring)
    requires Consecutive(items) && |items| > 1
    ensures Consecutive(Pushed(items[1..])) && Newest(Pushed(items[1..])) == Newest(items) + 1
  {
    assert items[1].0 == items[0].0 + 1;
  }

  /** The oldest bucket dropped and an empty one pushed, when the ring is full. */
  lemma ShiftKeeps(items: Ring, log: seq<Obs>, retain: nat)
    requires Stands(items, log, retain) && 1 < |items| == retain
    ensures Stands(Pushed(items[1..]), log, retain) && Newest(Pushed(items[1..])) == Newest(items) + 1
  {
    hide WindowAgrees, Consecutive;
    ShiftConsecutive(items);
    forall n: nat, f: Field | n <= retain
      ensures WindowAgrees(Pushed(items[1..]), log, n, f)
    {
      ShiftedWindow(items, log, retain, n, f);
    }
  }

  /** Booking an amount in the bucket its key belongs to. */
  lemma BumpKeeps(items: Ring, log: seq<Obs>, retain: nat, i: nat, key: nat, b: Bucket)
    requires Stands(items, log, retain) && i < |items| && key <= Newest(items)
    requires items[i].0 == SlotFor(items, key)
    ensures Stands(Bump(items, i, b), log + [Obs(key, SlotFor(items, key), b)], retain)
  {
    var o := Obs(key, SlotFor(items, key), b);
    var next := Bump(items, i, b);
    forall n: nat, f: Field | n <= retain
      ensures WindowAgrees(next, log + [o], n, f)
    {
      assert WindowAgrees(items, log, n, f);
      BookedSnoc(log, o, Newest(items) - n, f);
      if n >= |items| {
        SumAllBump(items, i, b, f);
      } else if i >= |items| - n {
        assert Last(next, n) == Bump(Last(items, n), i - (|items| - n), b);
        SumAllBump(Last(items, n), i - (|items| - n), b, f);
      } else {
        assert Last(next, n) == Last(items, n);
      }
    }
  }

  lemma FirstBucketStands(key: nat, retain: nat)
    requires retain > 0
    ensures Stands([(key, EMPTY)], [], retain)
  {
    forall n: nat, f: Field | n <= retain
      ensures WindowAgrees([(key, EMPTY)], [], n, f)
    {
      assert [(key, EMPTY)][1..] == [];
    }
  }

  /** Both ends of the ring, and every slot of its log, follow from the keys booked. */
  ghost predicate Tracks(items: Ring, log: seq<Obs>, retain: nat)
    requires items != []
  {
    && log != [] && Slotted(log, retain)
    && Newest(items) == NewestKey(Keys(log)) && items[0].0 == OldestSlot(Keys(log), retain)
  }

  lemma SlottedMore(log: seq<Obs>, o: Obs, retain: nat)
    requires Slotted(log, retain) && o.slot == Max(o.key, OldestSlot(Keys(log) + [o.key], retain))
    ensures Keys(log + [o]) == Keys(log) + [o.key] && Slotted(log + [o], retain)
  {
    var all := log + [o];
    assert Keys(all) == Keys(log) + [o.key];
    forall i | 0 <= i < |all|
      ensures all[i].slot == SlotAt(Keys(all), i, retain)
    {
      if i < |log| {
        assert Keys(all)[..i + 1] == Keys(log)[..i + 1];
      } else {
        assert Keys(all)[..i + 1] == Keys(all);
      }
    }
  }

  /** One more key, with the ends of the ring moved as it asks. */
  lemma TracksMore(log: seq<Obs>, before: Ring, items: Ring, o: Obs, retain: nat)
    requires items != [] && retain > 0 && o.slot == SlotFor(items, o.key)
    requires log == [] ==> items[0].0 == Newest(items) == o.key
    requires log != [] ==> before != [] && Tracks(before, log, retain)
    requires log != [] ==> Newest(items) == Max(Newest(before), o.key)
                           && items[0].0 == Max(before[0].0, Newest(items) + 1 - retain)
    ensures Keys(log + [o]) == Keys(log) + [o.key] && Slotted(log + [o], retain)
    ensures Newest(items) == NewestKey(Keys(log + [o])) && items[0].0 == OldestSlot(Keys(log + [o]), retain)
  {
    var keys := Keys(log) + [o.key];
    assert keys[..|keys| - 1] == Keys(log);
    assert keys[0] == if log == [] then o.key else log[0].key;
    assert NewestKey(keys) == if log == [] then o.key else Max(NewestKey(Keys(log)), o.key);
    SlottedMore(log, o, retain);
  }

  /** The last `n` buckets hold what was observed in their slots and what was folded into them. */
  lemma LastSplits(items: Ring, log: seq<Obs>, retain: nat, n: nat, f: Field)
    requires Stands(items, log, retain) && n <= retain
    ensures SumAll(Last(items, n), f)
         == ObservedAfter(log, Newest(items) - n, f) + FoldedIn(log, Newest(items) - n, f)
  {
    hide Last, SumAll, BookedAfter, ObservedAfter, FoldedIn, NotBookedEarly;
    assert WindowAgrees(items, log, n, f);
    BookedVsObserved(log, Newest(items) - n, f);
  }

  class BucketRing {
    var items: Ring
    const widthUs: nat
    const retain: nat
    /** Everything ever booked, with the slot it went to. */
    ghost var log: seq<Obs>

    ghost predicate Aligned()
      reads this
    {
      widthUs > 0 && retain >= 2 && Stands(items, log, retain)
    }

    ghost predicate Valid()
      reads this
    {
      && widthUs > 0 && retain >= 2
      && (items == [] ==> log == [])
      && (items != [] ==>
            Aligned() && Tracks(items, log, retain))
    }

    constructor (widthUs: nat, retain: nat)
      requires widthUs > 0 && retain >= 2
      ensures Valid() && items == [] && log == []
      ensures this.widthUs == widthUs && this.retain == retain
    {
      this.widthUs, this.retain := widthUs, retain;
      items, log := [], [];
    }

    /**
      Index of the bucket for `tsUs`, after aligning the tail. A time behind the
      ring maps to its oldest bucket.
     */
    method BucketIndex(tsUs: u64) returns (i: nat)
      requires Valid()
      modifies this`items
      ensures Aligned() && i < |items|
      ensures items[i].0 == SlotFor(items, tsUs / widthUs)
      ensures Newest(items) == if old(items) == [] then tsUs / widthUs
                               else Max(Newest(old(items)), tsUs / widthUs)
      ensures items[0].0 == if old(items) == [] then tsUs / widthUs
                            else Max(old(items)[0].0, Newest(items) + 1 - retain)
    {
      var key := tsUs / widthUs;
      if items == [] {
        FirstBucketStands(key, retain);
        items := [(key, EMPTY)];
        return 0;
      }
      AlignTail(key);
      if Newest(items) == key {
        return |items| - 1;
      }
      assert key >= items[0].0 ==> items[key - items[0].0].0 == key;
      i := 0;
      while i < |items|
        invariant i <= |items|
        invariant forall j :: 0 <= j < i ==> items[j].0 != key
      {
        if items[i].0 == key {
          return;
        }
        i := i + 1;
      }
      return 0;
    }

    /** Moves the newest bucket up to `key`: fills gaps, then shifts a full ring. */
    method AlignTail(key: nat)
      requires Aligned()
      modifies this`items
      ensures Aligned()
      ensures Newest(items) == Max(Newest(old(items)), key)
      ensures items[0].0 == Max(old(items)[0].0, Newest(items) + 1 - retain)
    {
      while Newest(items) < key && |items| < retain
        invariant Aligned()
        invariant Newest(old(items)) <= Newest(items) <= Max(Newest(old(items)), key)
        invariant items[0].0 == Max(old(items)[0].0, Newest(items) + 1 - retain)
        decreases key - Newest(items)
      {
        PushKeeps(items, log, retain);
        items := Pushed(items);
      }
      while Newest(items) < key
        invariant Aligned()
        invariant Newest(items) < key ==> |items| == retain
        invariant Newest(old(items)) <= Newest(items) <= Max(Newest(old(items)), key)
        invariant items[0].0 == Max(old(items)[0].0, Newest(items) + 1 - retain)
        decreases key - Newest(items)
      {
        ShiftKeeps(items, log, retain);
        items := items[1..];
        items := Pushed(items);
      }
    }

    /** Books an amount at a time. */
    method Add(tsUs: u64, b: Bucket)
      requires Valid()
      modifies this
      ensures Valid() && items != []
      ensures var key := tsUs / widthUs;
        log == old(log) + [Obs(key, Max(key, OldestSlot(Keys(old(log)) + [key], retain)), b)]
    {
      ghost var before := items;
      hide Consecutive, NotBookedEarly, SlotsUpTo, WindowAgrees, NewestKey;
      var i := BucketIndex(tsUs);
      var key := tsUs / widthUs;
      ghost var o := Obs(key, SlotFor(items, key), b);
      BumpKeeps(items, log, retain, i, key, b);
      TracksMore(log, before, items, o, retain);
      items := Bump(items, i, b);
      log := log + [o];
    }

    /**
      For any arrival order, the last `n` buckets sum to the observations of the
      last `n` slots plus what came late and was folded in.
     */
    method SumRing(n: nat, dir: Dir) returns (pkts: nat, lost: nat)
      requires Valid()
      ensures n <= retain && items != [] ==>
        var after := Newest(items) - n;
        && pkts == ObservedAfter(log, after, Pkts(dir)) + FoldedIn(log, after, Pkts(dir))
        && lost == ObservedAfter(log, after, Lost(dir)) + FoldedIn(log, after, Lost(dir))
      ensures items == [] ==> pkts == lost == 0
    {
      hide Consecutive, Tracks, Slotted, Keys, NotBookedEarly, SlotsUpTo, WindowAgrees, ObservedAfter, FoldedIn;
      pkts, lost := 0, 0;
      var i := |items|;
      while i > 0 && |items| - i < n
        invariant 0 <= i <= |items| && |items| - i <= n
        invariant pkts == SumAll(items[i..], Pkts(dir)) && lost == SumAll(items[i..], Lost(dir))
      {
        i := i - 1;
        assert items[i..][1..] == items[i + 1..];
        pkts := pkts + items[i].1.Get(Pkts(dir));
        lost := lost + items[i].1.Get(Lost(dir));
      }
      if n <= retain && items != [] {
        assert items[0..] == items;
        assert items[i..] == Last(items, n);
        LastSplits(items, log, retain, n, Pkts(dir));
        LastSplits(items, log, retain, n, Lost(dir));
      }
    }
  }

  // ----- one IP -----

  /** What was observed, in order: capture time and amounts. */
  type Seen = seq<(u64, Bucket)>

  /** Total of everything observed. */
  function SeenTotal(seen: Seen, f: Field): nat {
    if seen == [] then 0 else SeenTotal(seen[1..], f) + seen[0].1.Get(f)
  }

  /** Total of what was observed in slots of `width` after slot `after`. */
  function SeenAfter(seen: Seen, width: nat, after: int, f: Field): nat
    requires width > 0
  {
    if seen == [] then 0
    else SeenAfter(seen[1..], width, after, f) + if seen[0].0 / width > after then seen[0].1.Get(f) else 0
  }

  ghost predicate Times(seen: Seen) {
    forall i, j :: 0 <= i < j < |seen| ==> seen[i].0 <= seen[j].0
  }

  /** A ring's log is the list of what was seen, keyed by slot. */
  ghost predicate LogOf(log: seq<Obs>, seen: Seen, width: nat)
    requires width > 0
  {
    |log| == |seen| &&
    forall i :: 0 <= i < |log| ==> log[i].key == seen[i].0 / width && log[i].amount == seen[i].1
  }

  lemma LogOfMore(log: seq<Obs>, seen: Seen, width: nat, o: Obs, x: (u64, Bucket))
    requires width > 0 && LogOf(log, seen, width) && o.key == x.0 / width && o.amount == x.1
    ensures LogOf(log + [o], seen + [x], width)
  {
  }

  lemma {:induction false} ObservedIsSeen(log: seq<Obs>, seen: Seen, width: nat, after: int, f: Field)
    requires width > 0 && LogOf(log, seen, width)
    ensures ObservedAfter(log, after, f) == SeenAfter(seen, width, after, f)
  {
    if log != [] {
      ObservedIsSeen(log[1..], seen[1..], width, after, f);
    }
  }

  function SeenKeys(seen: Seen, width: nat): (keys: seq<nat>)
    requires width > 0
    ensures |keys| == |seen| && forall i :: 0 <= i < |seen| ==> keys[i] == seen[i].0 / width
  {
    seq(|seen|, i requires 0 <= i < |seen| => seen[i].0 / width)
  }

  /** How a ring of `width` and `retain` books what was seen: from the capture times alone. */
  function Booking(seen: Seen, width: nat, retain: nat): (log: seq<Obs>)
    requires width > 0
    ensures |log| == |seen|
  {
    var keys := SeenKeys(seen, width);
    seq(|seen|, i requires 0 <= i < |seen| => Obs(keys[i], SlotAt(keys, i, retain), seen[i].1))
  }

  lemma LogIsBooking(log: seq<Obs>, seen: Seen, width: nat, retain: nat)
    requires width > 0 && LogOf(log, seen, width) && Slotted(log, retain)
    ensures Keys(log) == SeenKeys(seen, width) && log == Booking(seen, width, retain)
  {
    assert Keys(log) == SeenKeys(seen, width);
  }

  lemma TimesInOrder(seen: Seen, width: nat)
    requires width > 0 && Times(seen)
    ensures InOrder(SeenKeys(seen, width))
  {
    var keys := SeenKeys(seen, width);
    forall i, j | 0 <= i < j < |keys|
      ensures keys[i] <= keys[j]
    {
      DivMonotone(seen[i].0, seen[j].0, width);
    }
  }

  /** Times that never go back fold nothing. */
  lemma {:induction false} TimesFoldNothing(log: seq<Obs>, seen: Seen, width: nat, retain: nat, after: int, f: Field)
    requires width > 0 && LogOf(log, seen, width) && Slotted(log, retain) && retain > 0 && Times(seen)
    ensures FoldedIn(log, after, f) == 0
  {
    LogIsBooking(log, seen, width, retain);
    TimesInOrder(seen, width);
    SlottedInOrder(log, retain);
    NothingFolded(log, after, f);
  }

  lemma DivMonotone(a: nat, b: nat, w: nat)
    requires a <= b && w > 0
    ensures a / w <= b / w
  {
    var d := a / w - b / w;
    assert a == (a / w) * w + a % w && b == (b / w) * w + b % w;
    assert d * w == (a / w) * w - (b / w) * w < w;
    ProductTooSmall(d, w);
  }

  lemma ProductTooSmall(d: int, w: nat)
    requires d * w < w
    ensures d <= 0
  {
  }

  lemma {:induction false} SeenTotalSnoc(seen: Seen, x: (u64, Bucket), f: Field)
    ensures SeenTotal(seen + [x], f) == SeenTotal(seen, f) + x.1.Get(f)
  {
    if seen == [] {
      assert [x][1..] == [];
    } else {
      assert (seen + [x])[1..] == seen[1..] + [x];
      SeenTotalSnoc(seen[1..], x, f);
    }
  }

  /** What a ring holds of a window, against what was seen. */
  lemma WindowParts(items: Ring, log: seq<Obs>, seen: Seen, width: nat, retain: nat, after: int, f: Field)
    requires width > 0 && retain > 0 && LogOf(log, seen, width) && items != [] && Tracks(items, log, retain)
    ensures Newest(items) == NewestKey(SeenKeys(seen, width)) && log == Booking(seen, width, retain)
    ensures ObservedAfter(log, after, f) == SeenAfter(seen, width, after, f)
    ensures FoldedIn(log, after, f) == 0 <==> NoneFolded(log, after, f)
    ensures Times(seen) ==> FoldedIn(log, after, f) == 0
  {
    LogIsBooking(log, seen, width, retain);
    ObservedIsSeen(log, seen, width, after, f);
    FoldedZeroIff(log, after, f);
    if Times(seen) {
      TimesFoldNothing(log, seen, width, retain, after, f);
    }
  }

  class IpStats {
    /** All-time totals of both directions. */
    var totals: Bucket
    var firstSeenUs: Option<u64>
    var lastSeenUs: Option<u64>
    var activeCalls: nat
    const sec1: BucketRing
    const sec60: BucketRing
    ghost var seen: Seen

    function Entry(): IpEntry
      reads this
    {
      IpEntry(totals, lastSeenUs, activeCalls)
    }

    ghost predicate Valid()
      reads this, sec1, sec60
    {
      && sec1 != sec60 && sec1.Valid() && sec60.Valid()
      && sec1.widthUs == 1_000_000 && sec1.retain == SEC1_RETAIN
      && sec60.widthUs == 60_000_000 && sec60.retain == SEC60_RETAIN
      && LogOf(sec1.log, seen, sec1.widthUs) && LogOf(sec60.log, seen, sec60.widthUs)
      && (seen == [] <==> sec1.items == []) && (seen == [] <==> sec60.items == [])
      && forall f :: totals.Get(f) == SeenTotal(seen, f)
    }

    constructor ()
      ensures Valid() && seen == [] && Entry() == NEW_IP && firstSeenUs.None? && fresh(sec1) && fresh(sec60)
    {
      totals, activeCalls := EMPTY, 0;
      firstSeenUs, lastSeenUs := None, None;
      sec1 := new BucketRing(1_000_000, SEC1_RETAIN);
      sec60 := new BucketRing(60_000_000, SEC60_RETAIN);
      seen := [];
    }

    method AddPackets(tsUs: u64, count: nat, bytes: nat, dir: Dir)
      requires Valid()
      modifies this, sec1, sec60
      ensures Valid()
      ensures seen == old(seen) + if count == 0 && bytes == 0 then [] else [(tsUs, PacketsOf(count, bytes, dir))]
      ensures Entry() == old(Entry()).WithPackets(tsUs, count, bytes, dir)
      ensures firstSeenUs == if count > 0 || bytes > 0 then Some(old(firstSeenUs).GetOr(tsUs)) else old(firstSeenUs)
    {
      hide BucketRing.Valid, LogOf, SeenTotal;
      if count == 0 && bytes == 0 {
        return;
      }
      if firstSeenUs.None? {
        firstSeenUs := Some(tsUs);
      }
      lastSeenUs := Some(tsUs);
      Book(tsUs, PacketsOf(count, bytes, dir));
    }

    method AddLost(tsUs: u64, lost: nat, dir: Dir)
      requires Valid()
      modifies this, sec1, sec60
      ensures Valid()
      ensures seen == old(seen) + if lost == 0 then [] else [(tsUs, LostOf(lost, dir))]
      ensures Entry() == old(Entry()).WithLost(tsUs, lost, dir) && firstSeenUs == old(firstSeenUs)
    {
      hide BucketRing.Valid, LogOf, SeenTotal;
      if lost == 0 {
        return;
      }
      if lastSeenUs.None? {
        lastSeenUs := Some(tsUs);
      }
      Book(tsUs, LostOf(lost, dir));
    }

    /** A call of this address begins or ends. */
    method ActiveAdd(up: bool)
      requires Valid()
      modifies this`activeCalls
      ensures Valid() && Entry() == old(Entry()).WithCall(up)
    {
      if up {
        activeCalls := Min(activeCalls + 1, 0xffff_ffff);
      } else {
        activeCalls := SatSub(activeCalls, 1);
      }
    }

    /** One amount into the totals and both rings. */
    method Book(tsUs: u64, b: Bucket)
      requires Valid()
      modifies this`totals, this`seen, sec1, sec60
      ensures Valid() && seen == old(seen) + [(tsUs, b)]
      ensures totals == old(totals).Plus(b)
    {
      hide LogOf, OldestSlot, Tracks, Stands, SeenTotal, Keys;
      ghost var log1, log60 := sec1.log, sec60.log;
      totals := totals.Plus(b);
      sec1.Add(tsUs, b);
      sec60.Add(tsUs, b);
      LogOfMore(log1, seen, sec1.widthUs, sec1.log[|log1|], (tsUs, b));
      LogOfMore(log60, seen, sec60.widthUs, sec60.log[|log60|], (tsUs, b));
      forall f: Field
        ensures totals.Get(f) == SeenTotal(seen + [(tsUs, b)], f)
      {
        SeenTotalSnoc(seen, (tsUs, b), f);
      }
      seen := seen + [(tsUs, b)];
    }

    /**
      (packets, lost) of a window: all-time exactly; a span of seconds as the true
      total of its slots plus what came too late for its own slot and was booked in
      the oldest one then retained. That part follows from the capture times alone
      and is nothing when they never go back; a span is exact if and only if nothing
      that counts came so late.
     */
    method Window(windowSecs: nat, dir: Dir) returns (pkts: nat, lost: nat)
      requires Valid()
      ensures windowSecs == 0 ==>
        pkts == SeenTotal(seen, Pkts(dir)) && lost == SeenTotal(seen, Lost(dir))
      ensures 0 < windowSecs <= 3600 && seen != [] ==>
        var (width, retain) := if windowSecs <= SEC1_RETAIN then (1_000_000, SEC1_RETAIN) else (60_000_000, SEC60_RETAIN);
        var after := NewestKey(SeenKeys(seen, width)) - if windowSecs <= SEC1_RETAIN then windowSecs else (windowSecs + 59) / 60;
        var log := Booking(seen, width, retain);
        && pkts == SeenAfter(seen, width, after, Pkts(dir)) + FoldedIn(log, after, Pkts(dir))
        && lost == SeenAfter(seen, width, after, Lost(dir)) + FoldedIn(log, after, Lost(dir))
        && (pkts == SeenAfter(seen, width, after, Pkts(dir)) <==> NoneFolded(log, after, Pkts(dir)))
        && (lost == SeenAfter(seen, width, after, Lost(dir)) <==> NoneFolded(log, after, Lost(dir)))
        && (Times(seen) ==> pkts == SeenAfter(seen, width, after, Pkts(dir))
                            && lost == SeenAfter(seen, width, after, Lost(dir)))
      ensures 0 < windowSecs && seen == [] ==> pkts == lost == 0
    {
      hide LogOf, Tracks, Stands, Booking, NewestKey, NoneFolded, Times, SeenAfter, SeenTotal, FoldedIn, ObservedAfter;
      hide Newest;
      if windowSecs == 0 {
        return totals.Get(Pkts(dir)), totals.Get(Lost(dir));
      }
      var ring := if windowSecs <= SEC1_RETAIN then sec1 else sec60;
      var n := if windowSecs <= SEC1_RETAIN then windowSecs else (windowSecs + 59) / 60;
      pkts, lost := ring.SumRing(n, dir);
      if windowSecs <= 3600 && seen != [] {
        var after := Newest(ring.items) - n;
        WindowParts(ring.items, ring.log, seen, ring.widthUs, ring.retain, after, Pkts(dir));
        WindowParts(ring.items, ring.log, seen, ring.widthUs, ring.retain, after, Lost(dir));
      }
    }
  }
}
