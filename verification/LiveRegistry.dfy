/** The registry as it is updated in place, proved against the functions of `Registry`. */
module LiveRegistry {
  import opened Prelude
  import opened Net
  import opened Utf8
  import opened KeyIndex
  import opened IpStats
  import opened Eviction
  import R = Registry
  import Machine = Correlator
  import C = Call

  /** `v.retain(|k| k != key)` */
  method Retain<T(==)>(v: seq<T>, key: T) returns (r: seq<T>)
    ensures r == Without(v, key)
  {
    r := [];
    var i := |v|;
    while i > 0
      invariant 0 <= i <= |v| && r == Without(v[i..], key)
    {
      i := i - 1;
      assert v[i..][1..] == v[i + 1..];
      if v[i] != key {
        r := [v[i]] + r;
      }
    }
    assert v[0..] == v;
  }

  method RetainOutside<T(==)>(v: seq<T>, drop: set<T>) returns (r: seq<T>)
    ensures r == Keep(v, drop)
  {
    r := [];
    var i := |v|;
    while i > 0
      invariant 0 <= i <= |v| && r == Keep(v[i..], drop)
    {
      i := i - 1;
      assert v[i..][1..] == v[i + 1..];
      if v[i] !in drop {
        r := [v[i]] + r;
      }
    }
    assert v[0..] == v;
  }

  /** The keys of a hash map in the order it happens to give them. */
  method Enumerate<K(==)>(keys: set<K>) returns (order: seq<K>)
    ensures SetOf(order) == keys && NoDup(order)
  {
    order := [];
    var rest := keys;
    while rest != {}
      invariant rest <= keys && SetOf(order) == keys - rest && NoDup(order)
      decreases |rest|
    {
      var k :| k in rest;
      assert k !in SetOf(order);
      InsertedHolds(order, |order|, k);
      InsertedNoDup(order, |order|, k);
      assert order[..|order|] + [k] + order[|order|..] == order + [k];
      rest := rest - {k};
      order := order + [k];
    }
  }

  class Registry {
    var calls: map<Str, C.Call>
    var order: seq<Str>
    var streams: map<R.StreamKey, R.Stream>
    var streamIndex: map<Str, seq<R.StreamKey>>
    var ssrcIndex: map<u32, seq<R.StreamKey>>
    var endpointCall: map<SocketAddr, Str>
    var removed: seq<Str>
    var ips: R.Ips
    ghost var ledger: R.Ledger

    ghost function View(): R.Reg
      reads this
    {
      R.Reg(calls, order, streams, streamIndex, ssrcIndex, endpointCall, removed, ips, ledger)
    }

    constructor ()
      ensures View() == R.EMPTY_REG
    {
      calls, order, streams := map[], [], map[];
      streamIndex, ssrcIndex, endpointCall := map[], map[], map[];
      removed, ips, ledger := [], map[], R.NO_HISTORY;
    }

    method GetOrCreateCall(id: Str)
      modifies this`calls, this`order
      ensures View() == R.GetOrCreateCall(old(View()), id)
      ensures id in calls
    {
      if id !in calls {
        calls := calls[id := C.NEW_CALL];
        order := order + [id];
      }
    }

    method NoteStream(id: Str, key: R.StreamKey)
      modifies this`streamIndex, this`ssrcIndex
      ensures View() == R.NoteStream(old(View()), id, key)
    {
      streamIndex := streamIndex[id := (if id in streamIndex then streamIndex[id] else []) + [key]];
      ssrcIndex := ssrcIndex[key.ssrc := (if key.ssrc in ssrcIndex then ssrcIndex[key.ssrc] else []) + [key]];
    }

    method ForgetStream(key: R.StreamKey)
      modifies this`streamIndex, this`ssrcIndex
      ensures View() == R.ForgetStream(old(View()), key)
    {
      if key in streams {
        var id := streams[key].callId;
        if id in streamIndex {
          var v := Retain(streamIndex[id], key);
          streamIndex := if v == [] then streamIndex - {id} else streamIndex[id := v];
        }
      }
      if key.ssrc in ssrcIndex {
        var v := Retain(ssrcIndex[key.ssrc], key);
        ssrcIndex := if v == [] then ssrcIndex - {key.ssrc} else ssrcIndex[key.ssrc := v];
      }
    }

    method ObservePackets(ip: IpAddr, ts: u64, count: nat, bytes: nat, dir: Dir)
      modifies this`ips
      ensures ips == R.AddPackets(old(ips), ip, ts, count, bytes, dir)
    {
      var e := if ip in ips then ips[ip] else NEW_IP;
      if count > 0 || bytes > 0 {
        e := e.(totals := e.totals.Plus(PacketsOf(count, bytes, dir)), lastSeen := Some(ts));
      }
      ips := ips[ip := e];
    }

    method ObserveLost(ip: IpAddr, ts: u64, lost: nat, dir: Dir)
      modifies this`ips
      ensures ips == R.AddLost(old(ips), ip, ts, lost, dir)
    {
      var e := if ip in ips then ips[ip] else NEW_IP;
      if lost > 0 {
        e := e.(totals := e.totals.Plus(LostOf(lost, dir)), lastSeen := Some(e.lastSeen.GetOr(ts)));
      }
      ips := ips[ip := e];
    }

    /** Deltas charged to both ends of a flow. */
    method ChargeFlow(flow: Flow5Tuple, ts: u64, pkts: nat, bytes: nat, lost: nat)
      modifies this`ips
      ensures ips == R.ChargeLost(R.ChargePackets(old(ips), flow, ts, pkts, bytes), flow, ts, lost)
    {
      if pkts > 0 || bytes > 0 {
        ObservePackets(flow.src.ip, ts, pkts, bytes, Tx);
        ObservePackets(flow.dst.ip, ts, pkts, bytes, Rx);
      }
      if lost > 0 {
        ObserveLost(flow.src.ip, ts, lost, Tx);
        ObserveLost(flow.dst.ip, ts, lost, Rx);
      }
    }

    /** Folds a stream's unseen packets, bytes and loss into the per-IP totals. */
    method FlushStreamIpattr(key: R.StreamKey)
      modifies this`streams, this`ips
      ensures View() == R.FlushIpattr(old(View()), key)
    {
      if key !in streams {
        return;
      }
      var s := streams[key];
      var lost := R.LossOf(s);
      var pktsD, bytesD, lostD := SatSub(s.packets, s.ipPkts), SatSub(s.bytes, s.ipBytes), SatSub(lost, s.ipLost);
      streams := streams[key := s.(ipPkts := s.packets, ipBytes := s.bytes, ipLost := lost)];
      ChargeFlow(s.flow, s.lastTs.GetOr(0), pktsD, bytesD, lostD);
    }

    /** One stream of a removed call. */
    method RemoveStream(key: R.StreamKey)
      modifies this`streams, this`ips, this`streamIndex, this`ssrcIndex, this`ledger
      ensures View() == R.RemoveStream(old(View()), key)
    {
      FlushStreamIpattr(key);
      ghost var gone := R.GoneWith(View(), key);
      ForgetStream(key);
      streams := streams - {key};
      ledger := ledger.(gone := gone);
    }

    method RemoveOne(id: Str)
      modifies this
      ensures View() == R.RemoveOne(old(View()), id)
    {
      var keys := if id in streamIndex then streamIndex[id] else [];
      calls := calls - {id};
      removed := removed + [id];
      streamIndex := streamIndex - {id};
      assert View() == R.Detached(old(View()), id);
      var i := 0;
      assert keys[0..] == keys;
      while i < |keys|
        invariant 0 <= i <= |keys|
        invariant R.RemoveStreams(View(), keys[i..]) == R.RemoveOne(old(View()), id)
      {
        hide R.RemoveStream, R.RemoveOne;
        assert keys[i..][0] == keys[i] && keys[i..][1..] == keys[i + 1..];
        RemoveStream(keys[i]);
        i := i + 1;
      }
    }

    /** The call created if it is new, and moved on by a message. */
    method ApplySip(m: C.SipMsg)
      modifies this`calls, this`order
      ensures View() == Machine.ApplyToCall(old(View()), m)
    {
      hide C.Apply;
      GetOrCreateCall(m.callId);
      calls := calls[m.callId := C.Apply(calls[m.callId], m)];
    }

    method LearnEndpoints(eps: seq<SocketAddr>, id: Str)
      modifies this`endpointCall
      ensures View() == R.Learn(old(View()), eps, id)
    {
      var i := 0;
      assert eps[0..] == eps;
      while i < |eps|
        invariant 0 <= i <= |eps|
        invariant R.Learn(View(), eps[i..], id) == R.Learn(old(View()), eps, id)
      {
        assert eps[i..][0] == eps[i] && eps[i..][1..] == eps[i + 1..];
        endpointCall := endpointCall[eps[i] := id];
        i := i + 1;
      }
      assert eps[i..] == [];
    }

    /** `active_add`: one call more or less at an address. */
    method CountCall(ip: IpAddr, up: bool)
      modifies this`ips
      ensures ips == R.AddActive(old(ips), ip, up)
    {
      var e := if ip in ips then ips[ip] else NEW_IP;
      ips := ips[ip := e.(active := if up then Min(e.active + 1, 0xffff_ffff) else SatSub(e.active, 1))];
    }

    /** The concurrent-call counter of each address, one up or one down. */
    method AddActive(addrs: seq<IpAddr>, up: bool)
      modifies this`ips
      ensures View() == R.CountActive(old(View()), addrs, up)
    {
      var i := 0;
      assert addrs[0..] == addrs;
      while i < |addrs|
        invariant 0 <= i <= |addrs|
        invariant R.CountActive(View(), addrs[i..], up) == R.CountActive(old(View()), addrs, up)
      {
        hide R.AddActive;
        assert addrs[i..][0] == addrs[i] && addrs[i..][1..] == addrs[i + 1..];
        CountCall(addrs[i], up);
        i := i + 1;
      }
      assert addrs[i..] == [];
    }

    /** A call's last activity. */
    method Touch(id: Str, ts: u64)
      modifies this`calls
      ensures View() == Machine.Touched(old(View()), id, ts)
    {
      if id in calls {
        calls := calls[id := calls[id].(lastTs := ts)];
      }
    }

    method ObserveKnown(key: R.StreamKey, ts: u64, seq16: u16, len: nat)
      requires key in streams
      modifies this`streams, this`ledger
      ensures View() == R.ObservePacket(old(View()), key, ts, seq16, len)
    {
      ghost var next := R.ObservePacket(View(), key, ts, seq16, len).ledger;
      streams := streams[key := R.Observed(streams[key], ts, seq16, len)];
      ledger := next;
    }

    /** The first packet of a stream: created, observed, indexed. */
    method OpenStream(key: R.StreamKey, id: Str, ts: u64, seq16: u16, len: nat)
      modifies this`streams, this`ledger, this`streamIndex, this`ssrcIndex
      ensures View() == R.OpenStream(old(View()), key, id, ts, seq16, len)
    {
      hide R.Observed, AddTo;
      streams := streams[key := R.NewStream(id, key.flow)];
      ObserveKnown(key, ts, seq16, len);
      NoteStream(id, key);
    }

    /** Both addresses of a flow among its call's. */
    method AddIps(id: Str, flow: Flow5Tuple)
      modifies this`calls
      ensures View() == Machine.WithIps(old(View()), id, flow)
    {
      if id in calls {
        var o := calls[id].origin;
        if flow.src.ip !in o.ips {
          o := o.(ips := o.ips + [flow.src.ip]);
        }
        if flow.dst.ip !in o.ips {
          o := o.(ips := o.ips + [flow.dst.ip]);
        }
        calls := calls[id := calls[id].(origin := o)];
      }
    }

    method DrainRemoved() returns (gone: seq<Str>)
      modifies this`removed
      ensures gone == old(removed) && View() == old(View()).(removed := [])
    {
      gone := removed;
      removed := [];
    }

    method PruneIdle(cutoff: u64)
      modifies this`ips, this`ledger
      ensures View() == R.PruneIdle(old(View()), cutoff)
    {
      ghost var next := R.PruneIdle(View(), cutoff).ledger;
      hide R.SumOf;
      ips := map ip | ip in ips && R.InUse(ips[ip], cutoff) :: ips[ip];
      ledger := next;
    }

    /** Everything dropped but `removed`. */
    method Clear()
      modifies this
      ensures View() == R.EMPTY_REG.(removed := old(removed))
    {
      calls, order, streams := map[], [], map[];
      endpointCall, streamIndex, ssrcIndex := map[], map[], map[];
      ips, ledger := map[], R.NO_HISTORY;
    }

    /** Calls out of every map, their streams' tails charged first. */
    method RemoveCalls(ids: seq<Str>)
      modifies this
      ensures View() == R.RemoveCalls(old(View()), ids)
    {
      if ids == [] {
        return;
      }
      var drop := set id | id in ids;
      var i := 0;
      assert ids[0..] == ids;
      while i < |ids|
        invariant 0 <= i <= |ids|
        invariant R.RemoveEach(View(), ids[i..]) == R.RemoveEach(old(View()), ids)
      {
        hide R.RemoveOne;
        assert ids[i..][0] == ids[i] && ids[i..][1..] == ids[i + 1..];
        RemoveOne(ids[i]);
        i := i + 1;
      }
      hide R.RemoveEach;
      assert View() == R.RemoveEach(old(View()), ids) by {
        assert ids[i..] == [];
        Nothing(View());
      }
      order := RetainOutside(order, drop);
      endpointCall := map a | a in endpointCall && endpointCall[a] !in drop :: endpointCall[a];
    }

    /** Every stream flushed: the one-second attribution. */
    method FlushAll() returns (ghost keys: seq<R.StreamKey>)
      modifies this`streams, this`ips
      ensures SetOf(keys) == old(streams).Keys && View() == R.FlushAll(old(View()), keys)
    {
      var todo := Enumerate(streams.Keys);
      keys := todo;
      var i := 0;
      assert todo[0..] == todo;
      while i < |todo|
        invariant 0 <= i <= |todo|
        invariant R.FlushAll(View(), todo[i..]) == R.FlushAll(old(View()), todo)
      {
        hide R.FlushIpattr;
        assert todo[i..][0] == todo[i] && todo[i..][1..] == todo[i + 1..];
        FlushStreamIpattr(todo[i]);
        i := i + 1;
      }
      assert todo[i..] == [];
    }

    /** Time-based eviction. */
    method EvictStale(pins: set<Str>, ttlSecs: nat, now: u64) returns (ghost ids: seq<Str>)
      modifies this
      ensures SetOf(ids) == old(calls).Keys
      ensures View() == Eviction.EvictStale(old(View()), pins, ttlSecs, now, ids)
    {
      var todo := Enumerate(calls.Keys);
      ids := todo;
      if ttlSecs == 0 || now == 0 {
        return;
      }
      var cutoff := Cutoff(ttlSecs, now);
      var stale := [];
      var i := |todo|;
      while i > 0
        invariant 0 <= i <= |todo| && stale == StaleOf(View(), pins, cutoff, todo[i..])
        invariant View() == old(View())
      {
        hide IsStale;
        i := i - 1;
        assert todo[i..][1..] == todo[i + 1..];
        if todo[i] in calls && todo[i] !in pins && IsStale(calls[todo[i]], cutoff) {
          stale := [todo[i]] + stale;
        }
      }
      assert todo[0..] == todo;
      RemoveCalls(stale);
    }

    /** One stream over the cap: forgotten with its tail. */
    method CutStream(key: R.StreamKey)
      modifies this`streams, this`streamIndex, this`ssrcIndex, this`ledger
      ensures View() == R.CutStream(old(View()), key)
    {
      ghost var next := R.CutStream(View(), key).ledger;
      ForgetStream(key);
      streams := streams - {key};
      ledger := next;
    }

    method CutStreams(keys: seq<R.StreamKey>)
      modifies this`streams, this`streamIndex, this`ssrcIndex, this`ledger
      ensures View() == R.CutStreams(old(View()), keys)
    {
      var i := 0;
      assert keys[0..] == keys;
      while i < |keys|
        invariant 0 <= i <= |keys|
        invariant R.CutStreams(View(), keys[i..]) == R.CutStreams(old(View()), keys)
      {
        hide R.CutStream;
        assert keys[i..][0] == keys[i] && keys[i..][1..] == keys[i + 1..];
        CutStream(keys[i]);
        i := i + 1;
      }
      assert keys[i..] == [];
    }

    /** Both caps enforced; the choice made is one that is allowed. */
    method EvictIfNeeded(caps: Caps, pins: set<Str>) returns (ghost ch: Choice)
      modifies this
      ensures CanEvict(old(View()), caps, pins, ch)
      ensures View() == Eviction.EvictIfNeeded(old(View()), ch)
      ensures R.Sane(old(View())) ==> CallsInOrder(old(calls), calls, pins)
    {
      hide R.RemoveCalls, R.CutStreams, R.Sane, CallsInOrder, StreamsInOrder;
      ghost var before := View();
      var victims := ChooseVictims(calls, caps.calls, pins);
      RemoveCalls(victims);
      var cut := ChooseCut(streams, caps.streams);
      CutStreams(cut);
      ch := Choice(victims, cut);
      if R.Sane(before) {
        EvictionOrder(before, caps, pins, ch);
      }
    }
  }

  lemma Nothing(r: R.Reg)
    ensures R.RemoveEach(r, []) == r
  {
  }

  // ----- choosing -----

  /** Where a call goes in a ranked list. */
  method RankPosition(calls: map<Str, C.Call>, ids: seq<Str>, id: Str) returns (k: nat)
    requires Ranked(calls, ids) && id in calls && id !in ids
    ensures k <= |ids|
    ensures k > 0 ==> Before(calls, ids[k - 1], id)
    ensures k < |ids| ==> Before(calls, id, ids[k])
  {
    k := |ids|;
    while k > 0 && !Before(calls, ids[k - 1], id)
      invariant 0 <= k <= |ids|
      invariant k < |ids| ==> Before(calls, id, ids[k])
    {
      BeforeTotal(calls, ids[k - 1], id);
      k := k - 1;
    }
  }

  lemma RankedAround(calls: map<Str, C.Call>, ids: seq<Str>, k: nat, id: Str, i: nat)
    requires Ranked(calls, ids) && id in calls && k <= |ids| && i < |ids|
    requires k > 0 ==> Before(calls, ids[k - 1], id)
    requires k < |ids| ==> Before(calls, id, ids[k])
    ensures i < k ==> Before(calls, ids[i], id)
    ensures i >= k ==> Before(calls, id, ids[i])
  {
    hide Before;
    if i < k - 1 {
      BeforeTransitive(calls, ids[i], ids[k - 1], id);
    } else if i > k {
      BeforeTransitive(calls, id, ids[k], ids[i]);
    }
  }

  lemma InsertRanked(calls: map<Str, C.Call>, ids: seq<Str>, k: nat, id: Str)
    requires Ranked(calls, ids) && id in calls && k <= |ids|
    requires k > 0 ==> Before(calls, ids[k - 1], id)
    requires k < |ids| ==> Before(calls, id, ids[k])
    ensures Ranked(calls, ids[..k] + [id] + ids[k..])
  {
    var n := ids[..k] + [id] + ids[k..];
    hide Before;
    forall i | 0 <= i < |n| ensures n[i] in calls {
      assert n[i] == if i < k then ids[i] else if i == k then id else ids[i - 1];
    }
    forall i, j | 0 <= i < j < |n| ensures Before(calls, n[i], n[j]) {
      assert n[i] == if i < k then ids[i] else if i == k then id else ids[i - 1];
      assert n[j] == if j < k then ids[j] else if j == k then id else ids[j - 1];
      if i == k {
        RankedAround(calls, ids, k, id, j - 1);
      } else if j == k {
        RankedAround(calls, ids, k, id, i);
      }
    }
  }

  /** One more call in its place. */
  lemma RankedMore(calls: map<Str, C.Call>, ids: seq<Str>, k: nat, id: Str)
    requires Ranked(calls, ids) && id in calls && k <= |ids|
    requires k > 0 ==> Before(calls, ids[k - 1], id)
    requires k < |ids| ==> Before(calls, id, ids[k])
    ensures var n := ids[..k] + [id] + ids[k..];
      Ranked(calls, n) && SetOf(n) == SetOf(ids) + {id}
  {
    InsertedHolds(ids, k, id);
    hide Ranked, Before;
    InsertRanked(calls, ids, k, id);
  }

  lemma NotAmong<T>(s: seq<T>, x: T)
    ensures x in s <==> x in SetOf(s)
  {
  }

  method SortByRank(calls: map<Str, C.Call>, todo: set<Str>) returns (ids: seq<Str>)
    requires todo <= calls.Keys
    ensures Ranked(calls, ids) && SetOf(ids) == todo
  {
    ids := [];
    var rest := todo;
    while rest != {}
      invariant rest <= todo && Ranked(calls, ids) && SetOf(ids) == todo - rest
      decreases |rest|
    {
      hide Ranked, Before, SetOf;
      var id :| id in rest;
      rest := rest - {id};
      NotAmong(ids, id);
      var k := RankPosition(calls, ids, id);
      RankedMore(calls, ids, k, id);
      ids := ids[..k] + [id] + ids[k..];
    }
  }

  lemma TakeIsVictims(calls: map<Str, C.Call>, cap: nat, pins: set<Str>, all: seq<Str>, n: nat)
    requires |calls| > cap && Ranked(calls, all) && SetOf(all) == Unpinned(calls, pins)
    requires n == Min(|calls| - cap, |all|)
    ensures IsVictims(calls, cap, pins, all[..n])
  {
    var ids := all[..n];
    RankedNoDup(calls, all);
    SetSize(all);
    hide Before;
    assert Ranked(calls, ids);
    assert forall v :: v in ids ==> v in all;
    assert forall v :: v in ids ==> v in SetOf(all);
    forall v, u | v in ids && u in Unpinned(calls, pins) && u !in ids
      ensures Before(calls, v, u)
    {
      var i :| 0 <= i < n && ids[i] == v;
      assert u in SetOf(all);
      var j :| 0 <= j < |all| && all[j] == u;
      BehindFront(all, n, j);
      assert Before(calls, all[i], all[j]);
    }
  }

  method ChooseVictims(calls: map<Str, C.Call>, cap: nat, pins: set<Str>) returns (ids: seq<Str>)
    ensures IsVictims(calls, cap, pins, ids)
    ensures forall out, stay :: out in ids && stay in calls && stay !in pins && stay !in ids ==>
      out in calls && GoesFirst(calls[out], out, calls[stay], stay)
  {
    if |calls| <= cap {
      return [];
    }
    var all := SortByRank(calls, Unpinned(calls, pins));
    var n := Min(|calls| - cap, |all|);
    TakeIsVictims(calls, cap, pins, all, n);
    ids := all[..n];
    hide IsVictims, GoesFirst, Ranked;
    forall out, stay | out in ids && stay in calls && stay !in pins && stay !in ids
      ensures out in calls && GoesFirst(calls[out], out, calls[stay], stay)
    {
      EvictedFirst(calls, cap, pins, ids, out, stay);
    }
  }

  /** Ascending by first packet. */
  ghost predicate ByFirst(streams: map<R.StreamKey, R.Stream>, keys: seq<R.StreamKey>) {
    && (forall i :: 0 <= i < |keys| ==> keys[i] in streams)
    && (forall i, j :: 0 <= i <= j < |keys| ==> FirstSeen(streams[keys[i]]) <= FirstSeen(streams[keys[j]]))
  }

  method FirstPosition(streams: map<R.StreamKey, R.Stream>, keys: seq<R.StreamKey>, key: R.StreamKey) returns (k: nat)
    requires ByFirst(streams, keys) && key in streams
    ensures k <= |keys|
    ensures k > 0 ==> FirstSeen(streams[keys[k - 1]]) <= FirstSeen(streams[key])
    ensures k < |keys| ==> FirstSeen(streams[key]) <= FirstSeen(streams[keys[k]])
  {
    k := |keys|;
    while k > 0 && FirstSeen(streams[keys[k - 1]]) > FirstSeen(streams[key])
      invariant 0 <= k <= |keys|
      invariant k < |keys| ==> FirstSeen(streams[key]) <= FirstSeen(streams[keys[k]])
    {
      k := k - 1;
    }
  }

  lemma InsertByFirst(streams: map<R.StreamKey, R.Stream>, keys: seq<R.StreamKey>, k: nat, key: R.StreamKey)
    requires ByFirst(streams, keys) && key in streams && k <= |keys|
    requires k > 0 ==> FirstSeen(streams[keys[k - 1]]) <= FirstSeen(streams[key])
    requires k < |keys| ==> FirstSeen(streams[key]) <= FirstSeen(streams[keys[k]])
    ensures ByFirst(streams, keys[..k] + [key] + keys[k..])
  {
    var n := keys[..k] + [key] + keys[k..];
    hide FirstSeen;
    forall i | 0 <= i < |n| ensures n[i] in streams {
      assert n[i] == if i < k then keys[i] else if i == k then key else keys[i - 1];
    }
    forall i, j | 0 <= i <= j < |n|
      ensures FirstSeen(streams[n[i]]) <= FirstSeen(streams[n[j]])
    {
      assert n[i] == if i < k then keys[i] else if i == k then key else keys[i - 1];
      assert n[j] == if j < k then keys[j] else if j == k then key else keys[j - 1];
    }
  }

  /** One more key in its place. */
  lemma SortedMore(streams: map<R.StreamKey, R.Stream>, keys: seq<R.StreamKey>, k: nat, key: R.StreamKey)
    requires ByFirst(streams, keys) && NoDup(keys) && key in streams && key !in SetOf(keys) && k <= |keys|
    requires k > 0 ==> FirstSeen(streams[keys[k - 1]]) <= FirstSeen(streams[key])
    requires k < |keys| ==> FirstSeen(streams[key]) <= FirstSeen(streams[keys[k]])
    ensures var n := keys[..k] + [key] + keys[k..];
      ByFirst(streams, n) && NoDup(n) && SetOf(n) == SetOf(keys) + {key}
  {
    InsertedHolds(keys, k, key);
    hide ByFirst, NoDup, FirstSeen;
    InsertByFirst(streams, keys, k, key);
    InsertedNoDup(keys, k, key);
  }

  method SortByFirst(streams: map<R.StreamKey, R.Stream>) returns (keys: seq<R.StreamKey>)
    ensures ByFirst(streams, keys) && NoDup(keys) && SetOf(keys) == streams.Keys
  {
    keys := [];
    var rest := streams.Keys;
    while rest != {}
      invariant rest <= streams.Keys && ByFirst(streams, keys) && NoDup(keys) && SetOf(keys) == streams.Keys - rest
      decreases |rest|
    {
      hide ByFirst, NoDup, FirstSeen, SetOf;
      var key :| key in rest;
      rest := rest - {key};
      var k := FirstPosition(streams, keys, key);
      SortedMore(streams, keys, k, key);
      keys := keys[..k] + [key] + keys[k..];
    }
  }

  lemma FrontIsEarlier(streams: map<R.StreamKey, R.Stream>, all: seq<R.StreamKey>, n: nat, k: R.StreamKey, j: R.StreamKey)
    requires ByFirst(streams, all) && SetOf(all) == streams.Keys && n <= |all|
    requires k in all[..n] && j in streams && j !in all[..n]
    ensures k in streams && FirstSeen(streams[k]) <= FirstSeen(streams[j])
  {
    hide FirstSeen;
    var a :| 0 <= a < n && all[..n][a] == k;
    assert j in SetOf(all);
    var b :| 0 <= b < |all| && all[b] == j;
    BehindFront(all, n, b);
    assert FirstSeen(streams[all[a]]) <= FirstSeen(streams[all[b]]);
  }

  lemma TakeIsCut(streams: map<R.StreamKey, R.Stream>, cap: nat, all: seq<R.StreamKey>)
    requires |streams| > cap && ByFirst(streams, all) && NoDup(all) && SetOf(all) == streams.Keys
    ensures |all| == |streams| && IsCut(streams, cap, all[..|streams| - cap])
  {
    SetSize(all);
    var n := |streams| - cap;
    var keys := all[..n];
    assert NoDup(keys);
    hide FirstSeen, ByFirst, NoDup;
    forall k | k in keys ensures k in streams {
      assert k in SetOf(all);
    }
    forall k, j | k in keys && j in streams && j !in keys
      ensures FirstSeen(streams[k]) <= FirstSeen(streams[j])
    {
      FrontIsEarlier(streams, all, n, k, j);
    }
  }

  method ChooseCut(streams: map<R.StreamKey, R.Stream>, cap: nat) returns (keys: seq<R.StreamKey>)
    ensures IsCut(streams, cap, keys)
  {
    if |streams| <= cap {
      return [];
    }
    var all := SortByFirst(streams);
    TakeIsCut(streams, cap, all);
    keys := all[..SatSub(|all|, cap)];
  }
}
