/** Which calls and streams leave when a cap or a time limit is exceeded. */
module Eviction {
  import opened Prelude
  import opened Utf8
  import opened KeyIndex
  import opened Registry
  import opened RegistryKeeps
  import C = Call

  // ----- the order of eviction -----

  /** Byte-wise order of call ids. */
  predicate BytesLess(a: seq<byte>, b: seq<byte>) {
    b != [] && (a == [] || a[0] < b[0] || (a[0] == b[0] && BytesLess(a[1..], b[1..])))
  }

  lemma {:induction false} BytesTotal(a: seq<byte>, b: seq<byte>)
    ensures a != b ==> BytesLess(a, b) || BytesLess(b, a)
    ensures !(BytesLess(a, b) && BytesLess(b, a))
    ensures !BytesLess(a, a)
  {
    if a != [] && b != [] {
      BytesTotal(a[1..], b[1..]);
      assert a == [a[0]] + a[1..] && b == [b[0]] + b[1..];
    }
    if a != [] {
      BytesTotal(a[1..], a[1..]);
    }
  }

  lemma {:induction false} BytesTransitive(a: seq<byte>, b: seq<byte>, c: seq<byte>)
    requires BytesLess(a, b) && BytesLess(b, c)
    ensures BytesLess(a, c)
  {
    if a != [] && a[0] == b[0] && b[0] == c[0] {
      BytesTransitive(a[1..], b[1..], c[1..]);
    }
  }

  /** 0 for an active call, 1 for a terminated one: active calls rank first. */
  function Class(c: C.Call): nat {
    if C.Terminal(c.state) then 1 else 0
  }

  /** Ascending by class, then first INVITE (none last), then id. */
  predicate Before(calls: map<Str, C.Call>, a: Str, b: Str)
    requires a in calls && b in calls
  {
    var ca, cb := Class(calls[a]), Class(calls[b]);
    var ia, ib := calls[a].inviteTs.GetOr(MAX_U64), calls[b].inviteTs.GetOr(MAX_U64);
    ca < cb || (ca == cb && (ia < ib || (ia == ib && BytesLess(a, b))))
  }

  lemma BeforeTotal(calls: map<Str, C.Call>, a: Str, b: Str)
    requires a in calls && b in calls
    ensures a != b ==> Before(calls, a, b) || Before(calls, b, a)
    ensures !(Before(calls, a, b) && Before(calls, b, a))
    ensures !Before(calls, a, a)
  {
    BytesTotal(a, b);
  }

  lemma BeforeTransitive(calls: map<Str, C.Call>, a: Str, b: Str, c: Str)
    requires a in calls && b in calls && c in calls
    requires Before(calls, a, b) && Before(calls, b, c)
    ensures Before(calls, a, c)
  {
    if BytesLess(a, b) && BytesLess(b, c) {
      BytesTransitive(a, b, c);
    }
  }

  /** Two ids agree before position `n`, and the first has the smaller byte there. */
  predicate SmallerAt(a: seq<byte>, b: seq<byte>, n: nat) {
    n < |a| && n < |b| && a[..n] == b[..n] && a[n] < b[n]
  }

  /** Dictionary order: a proper prefix first, else by the first byte that differs. */
  ghost predicate Precedes(a: seq<byte>, b: seq<byte>) {
    a < b || exists n: nat :: SmallerAt(a, b, n)
  }

  lemma SmallerTail(a: seq<byte>, b: seq<byte>, n: nat)
    requires a != [] && b != [] && a[0] == b[0]
    ensures SmallerAt(a, b, n + 1) <==> SmallerAt(a[1..], b[1..], n)
  {
    if n < |a| - 1 && n < |b| - 1 {
      assert a[..n + 1] == [a[0]] + a[1..][..n] && b[..n + 1] == [b[0]] + b[1..][..n];
      assert a[1..][..n] == a[..n + 1][1..] && b[1..][..n] == b[..n + 1][1..];
    }
  }

  lemma PrecedesTail(a: seq<byte>, b: seq<byte>)
    requires a != [] && b != [] && a[0] == b[0]
    ensures Precedes(a, b) <==> Precedes(a[1..], b[1..])
  {
    assert a == [a[0]] + a[1..] && b == [b[0]] + b[1..];
    assert !SmallerAt(a, b, 0);
    assert a < b <==> a[1..] < b[1..];
    hide SmallerAt;
    if n: nat :| SmallerAt(a, b, n) {
      SmallerTail(a, b, n - 1);
    }
    if n: nat :| SmallerAt(a[1..], b[1..], n) {
      SmallerTail(a, b, n);
    }
  }

  lemma {:induction false} BytesLessIff(a: seq<byte>, b: seq<byte>)
    ensures BytesLess(a, b) <==> Precedes(a, b)
  {
    if a != [] && b != [] {
      if a[0] == b[0] {
        BytesLessIff(a[1..], b[1..]);
        PrecedesTail(a, b);
      } else if a[0] < b[0] {
        assert SmallerAt(a, b, 0);
      } else {
        assert forall n: nat :: SmallerAt(a, b, n) ==> n == 0 || a[..n][0] == b[..n][0];
      }
    }
  }

  /** A call that was completed, failed or canceled. */
  predicate IsOver(c: C.Call) {
    c.state == C.Completed || c.state == C.Failed || c.state == C.Canceled
  }

  /**
    What the order means: a call that is over never goes before one that is not;
    among the rest the earlier first INVITE goes, none counting as the latest time
    there is, and on a tie the smaller id.
   */
  ghost predicate GoesFirst(a: C.Call, idA: Str, b: C.Call, idB: Str) {
    && (IsOver(a) ==> IsOver(b))
    && (IsOver(a) == IsOver(b) ==>
          var ta, tb := a.inviteTs.GetOr(MAX_U64), b.inviteTs.GetOr(MAX_U64);
          ta <= tb && (ta == tb ==> Precedes(idA, idB)))
  }

  lemma BeforeMeans(calls: map<Str, C.Call>, a: Str, b: Str)
    requires a in calls && b in calls && Before(calls, a, b)
    ensures GoesFirst(calls[a], a, calls[b], b)
  {
    BytesLessIff(a, b);
  }

  /** Strictly ascending. */
  ghost predicate Ranked(calls: map<Str, C.Call>, ids: seq<Str>) {
    && (forall i :: 0 <= i < |ids| ==> ids[i] in calls)
    && (forall i, j :: 0 <= i < j < |ids| ==> Before(calls, ids[i], ids[j]))
  }

  // ----- calls over the cap -----

  function Unpinned(calls: map<Str, C.Call>, pins: set<Str>): set<Str> {
    calls.Keys - pins
  }

  /** The lowest-ranked unpinned calls, as many as the cap is exceeded by or as there are. */
  ghost predicate IsVictims(calls: map<Str, C.Call>, cap: nat, pins: set<Str>, ids: seq<Str>) {
    if |calls| <= cap then ids == []
    else
      && Ranked(calls, ids)
      && |ids| == Min(|calls| - cap, |Unpinned(calls, pins)|)
      && (forall v :: v in ids ==> v in Unpinned(calls, pins))
      && (forall v, u :: v in ids && u in Unpinned(calls, pins) && u !in ids ==> Before(calls, v, u))
  }

  lemma RankedNoDup(calls: map<Str, C.Call>, ids: seq<Str>)
    requires Ranked(calls, ids)
    ensures NoDup(ids)
  {
    forall i, j | 0 <= i < j < |ids| ensures ids[i] != ids[j] {
      BeforeTotal(calls, ids[i], ids[j]);
    }
  }

  lemma {:induction false} SetSize<T>(s: seq<T>)
    requires NoDup(s)
    ensures |SetOf(s)| == |s|
  {
    if s != [] {
      SetSize(s[1..]);
      assert s[0] !in s[1..];
      assert SetOf(s) == {s[0]} + SetOf(s[1..]);
    }
  }

  /** If one choice takes a call the other does not, it takes all the other takes. */
  lemma NoSwap(calls: map<Str, C.Call>, cap: nat, pins: set<Str>, a: seq<Str>, b: seq<Str>, x: Str, y: Str)
    requires |calls| > cap && IsVictims(calls, cap, pins, a) && IsVictims(calls, cap, pins, b)
    requires x in a && x !in b && y in b
    ensures y in a
  {
    BeforeTotal(calls, x, y);
  }

  lemma SameSizeSubset<T>(a: set<T>, b: set<T>)
    ensures |a| == |b| && a <= b ==> a == b
  {
    assert a <= b ==> |b - a| == |b| - |a|;
    assert a <= b ==> b == a + (b - a);
  }

  /** Sorting and hashing leave no choice: the victims are determined. */
  lemma VictimsUnique(calls: map<Str, C.Call>, cap: nat, pins: set<Str>, a: seq<Str>, b: seq<Str>)
    requires IsVictims(calls, cap, pins, a) && IsVictims(calls, cap, pins, b)
    ensures a == b
  {
    if |calls| > cap {
      RankedNoDup(calls, a);
      RankedNoDup(calls, b);
      SetSize(a);
      SetSize(b);
      SameSizeSubset(SetOf(b), SetOf(a));
      SameSizeSubset(SetOf(a), SetOf(b));
      forall x, y | x in a && x !in b && y in b
        ensures y in a
      {
        NoSwap(calls, cap, pins, a, b, x, y);
      }
      RankedUnique(calls, a, b);
    }
  }

  lemma {:induction false} RankedUnique(calls: map<Str, C.Call>, a: seq<Str>, b: seq<Str>)
    requires Ranked(calls, a) && Ranked(calls, b) && SetOf(a) == SetOf(b)
    ensures a == b
  {
    RankedNoDup(calls, a);
    RankedNoDup(calls, b);
    SetSize(a);
    SetSize(b);
    if a != [] {
      SameFirst(calls, a, b);
      assert SetOf(a[1..]) == SetOf(a) - {a[0]};
      assert SetOf(b[1..]) == SetOf(b) - {b[0]};
      RankedUnique(calls, a[1..], b[1..]);
      assert a == [a[0]] + a[1..] && b == [b[0]] + b[1..];
    }
  }

  lemma SameFirst(calls: map<Str, C.Call>, a: seq<Str>, b: seq<Str>)
    requires Ranked(calls, a) && Ranked(calls, b) && SetOf(a) == SetOf(b) && a != [] && b != []
    ensures a[0] == b[0]
  {
    assert a[0] in SetOf(b) && b[0] in SetOf(a);
    var i :| 0 <= i < |b| && b[i] == a[0];
    var j :| 0 <= j < |a| && a[j] == b[0];
    BeforeTotal(calls, a[0], b[0]);
  }

  /** How many calls the victims leave: what the cap allows, or all the pinned ones. */
  lemma SurvivorCount(calls: map<Str, C.Call>, cap: nat, pins: set<Str>, ids: seq<Str>)
    requires IsVictims(calls, cap, pins, ids)
    ensures |calls - SetOf(ids)| == if |calls| <= cap then |calls| else Max(cap, |calls.Keys * pins|)
  {
    var keys := calls.Keys;
    assert (calls - SetOf(ids)).Keys == keys - SetOf(ids);
    if |calls| > cap {
      RankedNoDup(calls, ids);
      SetSize(ids);
      hide Ranked, Before;
      assert keys == (keys - pins) + keys * pins;
      assert |keys| == |keys - pins| + |keys * pins|;
      assert SetOf(ids) <= keys;
      assert |keys - SetOf(ids)| == |keys| - |SetOf(ids)|;
    } else {
      assert keys - SetOf(ids) == keys;
    }
  }

  /**
    Over the cap, exactly the lowest-ranked unpinned calls go: none of the pinned
    ones, and as many stay as the cap allows or as are pinned.
   */
  lemma EvictionExact(r: Reg, cap: nat, pins: set<Str>, ids: seq<Str>)
    requires Sane(r) && IsVictims(r.calls, cap, pins, ids)
    ensures var v := RemoveCalls(r, ids);
      && Sane(v) && v.removed == r.removed + ids && v.ledger.taken == r.ledger.taken
      && v.calls == r.calls - SetOf(ids)
      && (forall id :: id in r.calls && id in pins ==> id in v.calls)
      && (forall out, stay :: out in ids && stay in v.calls && stay !in pins ==>
            GoesFirst(r.calls[out], out, r.calls[stay], stay))
      && |v.calls| == if |r.calls| <= cap then |r.calls| else Max(cap, |r.calls.Keys * pins|)
  {
    AgreementOf(r);
    RemoveCallsSane(r, ids);
    SurvivorCount(r.calls, cap, pins, ids);
    RemoveCallsKeeps(r, ids);
    hide RemoveCalls, Sane, Lossless, Agreement, Before, Ranked, GoesFirst;
    forall out, stay | out in ids && stay in r.calls - SetOf(ids) && stay !in pins
      ensures GoesFirst(r.calls[out], out, r.calls[stay], stay)
    {
      EvictedFirst(r.calls, cap, pins, ids, out, stay);
    }
  }

  lemma EvictedFirst(calls: map<Str, C.Call>, cap: nat, pins: set<Str>, ids: seq<Str>, out: Str, stay: Str)
    requires IsVictims(calls, cap, pins, ids) && out in ids && stay in calls && stay !in pins && stay !in ids
    ensures out in calls && GoesFirst(calls[out], out, calls[stay], stay)
  {
    hide Before, GoesFirst;
    assert out in calls && Before(calls, out, stay);
    BeforeMeans(calls, out, stay);
  }

  /** The code's order: a terminated call goes only after every unpinned active call. */
  lemma ActiveCallsGoFirst(r: Reg, cap: nat, pins: set<Str>, ids: seq<Str>, out: Str, active: Str)
    requires IsVictims(r.calls, cap, pins, ids)
    requires out in ids && IsOver(r.calls[out])
    requires active in r.calls && active !in pins && !IsOver(r.calls[active])
    ensures active in ids
  {
    if active !in ids {
      EvictedFirst(r.calls, cap, pins, ids, out, active);
    }
  }

  /** A call without an INVITE goes only after every unpinned call of its class that has one. */
  lemma UninvitedGoLast(r: Reg, cap: nat, pins: set<Str>, ids: seq<Str>, out: Str, invited: Str)
    requires IsVictims(r.calls, cap, pins, ids)
    requires out in ids && r.calls[out].inviteTs.None?
    requires invited in r.calls && invited !in pins && IsOver(r.calls[out]) == IsOver(r.calls[invited])
    requires r.calls[invited].inviteTs.Some? && r.calls[invited].inviteTs.value < MAX_U64
    ensures invited in ids
  {
    if invited !in ids {
      EvictedFirst(r.calls, cap, pins, ids, out, invited);
    }
  }

  // ----- streams over the cap -----

  function FirstSeen(s: Stream): u64 {
    s.firstTs.GetOr(MAX_U64)
  }

  /** Streams over the cap: those first seen earliest. */
  ghost predicate IsCut(streams: map<StreamKey, Stream>, cap: nat, keys: seq<StreamKey>) {
    if |streams| <= cap then keys == []
    else
      && NoDup(keys) && |keys| == |streams| - cap && (forall k :: k in keys ==> k in streams)
      && (forall k, j :: k in keys && j in streams && j !in keys ==> FirstSeen(streams[k]) <= FirstSeen(streams[j]))
  }

  lemma CutCount(streams: map<StreamKey, Stream>, cap: nat, keys: seq<StreamKey>)
    requires IsCut(streams, cap, keys)
    ensures |streams - SetOf(keys)| == Min(|streams|, cap)
  {
    assert (streams - SetOf(keys)).Keys == streams.Keys - SetOf(keys);
    if |streams| > cap {
      SetSize(keys);
      hide NoDup;
      assert SetOf(keys) <= streams.Keys;
      assert |streams.Keys - SetOf(keys)| == |streams.Keys| - |SetOf(keys)|;
    } else {
      assert streams.Keys - SetOf(keys) == streams.Keys;
    }
  }

  lemma CutExact(r: Reg, cap: nat, keys: seq<StreamKey>)
    requires Sane(r) && IsCut(r.streams, cap, keys)
    ensures var v := CutStreams(r, keys);
      && Sane(v) && v.calls == r.calls && v.removed == r.removed && v.streams == r.streams - SetOf(keys)
      && |v.streams| == Min(|r.streams|, cap) && v.ledger.taken == r.ledger.taken
      && (forall out, stay :: out in r.streams && out !in v.streams && stay in v.streams ==>
            r.streams[out].firstTs.GetOr(MAX_U64) <= r.streams[stay].firstTs.GetOr(MAX_U64))
  {
    forall out, stay | out in keys && stay in r.streams && stay !in keys
      ensures r.streams[out].firstTs.GetOr(MAX_U64) <= r.streams[stay].firstTs.GetOr(MAX_U64)
    {
      assert FirstSeen(r.streams[out]) <= FirstSeen(r.streams[stay]);
    }
    hide CutStreams, Sane, NoDup;
    CutCount(r.streams, cap, keys);
    CutAllSane(r, keys);
  }

  /** What the order of hash maps and ties leaves open in one eviction. */
  datatype Choice = Choice(victims: seq<Str>, cut: seq<StreamKey>)

  datatype Caps = Caps(calls: nat, streams: nat)

  function EvictIfNeeded(r: Reg, ch: Choice): Reg {
    CutStreams(RemoveCalls(r, ch.victims), ch.cut)
  }

  ghost predicate CanEvict(r: Reg, caps: Caps, pins: set<Str>, ch: Choice) {
    && IsVictims(r.calls, caps.calls, pins, ch.victims)
    && IsCut(RemoveCalls(r, ch.victims).streams, caps.streams, ch.cut)
  }

  /** One eviction: within both caps save for pinned calls, every map still agreeing. */
  lemma EvictIfNeededExact(r: Reg, caps: Caps, pins: set<Str>, ch: Choice)
    requires Sane(r) && CanEvict(r, caps, pins, ch)
    ensures var v := EvictIfNeeded(r, ch);
      && Sane(v) && v.removed == r.removed + ch.victims && v.calls == r.calls - SetOf(ch.victims)
      && (forall id :: id in r.calls && id in pins ==> id in v.calls)
      && |v.calls| == (if |r.calls| <= caps.calls then |r.calls| else Max(caps.calls, |r.calls.Keys * pins|))
      && |v.streams| <= caps.streams && v.ledger.taken == r.ledger.taken
  {
    EvictionExact(r, caps.calls, pins, ch.victims);
    hide RemoveCalls, Sane, IsVictims, GoesFirst;
    CutExact(RemoveCalls(r, ch.victims), caps.streams, ch.cut);
  }

  ghost predicate CallsInOrder(before: map<Str, C.Call>, after: map<Str, C.Call>, pins: set<Str>) {
    forall out, stay :: out in before && out !in after && stay in before && stay in after && stay !in pins ==>
      GoesFirst(before[out], out, before[stay], stay)
  }

  ghost predicate StreamsInOrder(before: map<StreamKey, Stream>, after: map<StreamKey, Stream>) {
    forall out, stay :: out in before && out !in after && stay in before && stay in after ==>
      before[out].firstTs.GetOr(MAX_U64) <= before[stay].firstTs.GetOr(MAX_U64)
  }

  lemma EvictParts(r: Reg, ch: Choice)
    ensures EvictIfNeeded(r, ch) == CutStreams(RemoveCalls(r, ch.victims), ch.cut)
  {
  }

  /** And the order of it: calls as `GoesFirst` says, then of the streams left those first seen earliest. */
  lemma EvictionOrder(r: Reg, caps: Caps, pins: set<Str>, ch: Choice)
    requires Sane(r) && CanEvict(r, caps, pins, ch)
    ensures CallsInOrder(r.calls, EvictIfNeeded(r, ch).calls, pins)
    ensures StreamsInOrder(RemoveCalls(r, ch.victims).streams, EvictIfNeeded(r, ch).streams)
  {
    EvictIfNeededExact(r, caps, pins, ch);
    EvictionExact(r, caps.calls, pins, ch.victims);
    EvictParts(r, ch);
    hide RemoveCalls, Sane, IsVictims, GoesFirst, EvictIfNeeded, CutStreams;
    CutExact(RemoveCalls(r, ch.victims), caps.streams, ch.cut);
  }

  // ----- calls gone stale -----

  /** When a call was last of interest. */
  function StaleTime(c: C.Call): u64 {
    if C.Terminal(c.state) then
      if c.endTs.Some? then c.endTs.value else c.byeTs.GetOr(c.lastTs)
    else c.lastTs
  }

  predicate IsStale(c: C.Call, cutoff: u64) {
    StaleTime(c) != 0 && StaleTime(c) < cutoff
  }

  /**
    Whether a call has been of no interest for longer than the limit: since its end,
    or failing that its BYE, if it is over; since its last message or packet otherwise.
   */
  predicate Outlived(c: C.Call, ttlSecs: nat, now: u64) {
    var last := if !IsOver(c) then c.lastTs
                else if c.endTs != None then c.endTs.value
                else if c.byeTs != None then c.byeTs.value
                else c.lastTs;
    last > 0 && last + ttlSecs * 1_000_000 < now
  }

  lemma StaleMeans(c: C.Call, ttlSecs: nat, now: u64)
    ensures IsStale(c, Cutoff(ttlSecs, now)) <==> Outlived(c, ttlSecs, now)
  {
  }

  function StaleOf(r: Reg, pins: set<Str>, cutoff: u64, order: seq<Str>): seq<Str> {
    if order == [] then []
    else
      var id := order[0];
      (if id in r.calls && id !in pins && IsStale(r.calls[id], cutoff) then [id] else [])
      + StaleOf(r, pins, cutoff, order[1..])
  }

  function Cutoff(ttlSecs: nat, now: u64): u64 {
    SatSub(now, Min(ttlSecs * 1_000_000, MAX_U64))
  }

  /** Time-based eviction; a zero limit or clock turns it off. `order` is the order the map gives its ids in. */
  function EvictStale(r: Reg, pins: set<Str>, ttlSecs: nat, now: u64, order: seq<Str>): Reg {
    if ttlSecs == 0 || now == 0 then r
    else RemoveCalls(r, StaleOf(r, pins, Cutoff(ttlSecs, now), order))
  }

  lemma {:induction false} StaleOfIs(r: Reg, pins: set<Str>, cutoff: u64, order: seq<Str>)
    ensures forall id :: id in StaleOf(r, pins, cutoff, order) <==>
      id in order && id in r.calls && id !in pins && IsStale(r.calls[id], cutoff)
  {
    if order != [] {
      StaleOfIs(r, pins, cutoff, order[1..]);
      assert order == [order[0]] + order[1..];
    }
  }

  /** Exactly the unpinned stale calls go. */
  lemma EvictStaleExact(r: Reg, pins: set<Str>, ttlSecs: nat, now: u64, order: seq<Str>)
    requires Sane(r) && SetOf(order) == r.calls.Keys
    ensures var v := EvictStale(r, pins, ttlSecs, now, order);
      && Sane(v) && v.calls.Keys <= r.calls.Keys
      && (forall id :: id in v.calls ==> v.calls[id] == r.calls[id])
      && (forall id :: id in r.calls ==>
            (id !in v.calls <==> ttlSecs > 0 && now > 0 && id !in pins && Outlived(r.calls[id], ttlSecs, now)))
      && SetOf(v.removed) == SetOf(r.removed) + (r.calls.Keys - v.calls.Keys)
      && v.ledger.taken == r.ledger.taken
  {
    hide Sane, RemoveCalls;
    forall id | id in r.calls
      ensures IsStale(r.calls[id], Cutoff(ttlSecs, now)) <==> Outlived(r.calls[id], ttlSecs, now)
    {
      StaleMeans(r.calls[id], ttlSecs, now);
    }
    hide IsStale, Outlived, Cutoff;
    if ttlSecs > 0 && now > 0 {
      var ids := StaleOf(r, pins, Cutoff(ttlSecs, now), order);
      StaleOfIs(r, pins, Cutoff(ttlSecs, now), order);
      assert forall id :: id in order <==> id in SetOf(order);
      RemoveCallsSane(r, ids);
      AgreementOf(r);
      RemoveCallsKeeps(r, ids);
    }
  }

  lemma AgreementOf(r: Reg)
    requires Sane(r)
    ensures Agreement(r)
  {
  }
}
