/** What the operations of the registry keep. */
module RegistryKeeps {
  import opened Prelude
  import opened Net
  import opened Utf8
  import opened Sums
  import opened KeyIndex
  import opened IpStats
  import opened Registry
  import C = Call

  /** `v` comes from `r` without anything being taken in or dropped. */
  ghost predicate Lossless(r: Reg, v: Reg) {
    && v.ledger.taken == r.ledger.taken && v.ledger.capped == r.ledger.capped && v.ledger.idle == r.ledger.idle
    && (forall at: Scope, f: Field :: Balance(v, at, f) == Balance(r, at, f))
    && (forall at: Scope, dir: Dir :: LossSlack(v, at, dir) >= LossSlack(r, at, dir))
  }

  lemma LosslessConserves(r: Reg, v: Reg)
    requires Conserved(r) && Lossless(r, v)
    ensures Conserved(v)
  {
  }

  lemma LosslessChain(r: Reg, v: Reg, u: Reg)
    requires Lossless(r, v) && Lossless(v, u)
    ensures Lossless(r, u)
  {
  }

  /** The parts of the registry that streams coming and going do not touch. */
  predicate SameCalls(r: Reg, v: Reg) {
    v.calls == r.calls && v.order == r.order && v.endpointCall == r.endpointCall && v.removed == r.removed
  }

  lemma OwnersSet(streams: map<StreamKey, Stream>, key: StreamKey, s: Stream)
    ensures Owners(streams[key := s]) == Owners(streams)[key := s.callId]
    ensures Ssrcs(streams[key := s]) == Ssrcs(streams)[key := key.ssrc]
  {
  }

  lemma OwnersTake(streams: map<StreamKey, Stream>, key: StreamKey)
    ensures Owners(streams - {key}) == Owners(streams) - {key}
    ensures Ssrcs(streams - {key}) == Ssrcs(streams) - {key}
  {
  }

  lemma OwnersSame(streams: map<StreamKey, Stream>, key: StreamKey, s: Stream)
    requires key in streams && s.callId == streams[key].callId
    ensures Owners(streams[key := s]) == Owners(streams) && Ssrcs(streams[key := s]) == Ssrcs(streams)
  {
  }

  lemma MarksSet(streams: map<StreamKey, Stream>, key: StreamKey, s: Stream)
    requires Sound(streams) && Marked(s) && s.flow == key.flow
    ensures Sound(streams[key := s])
  {
  }

  // ----- flushing -----

  lemma SettledTail(s: Stream, at: Scope, f: Field)
    ensures TailAt(Settled(s), at, f) == 0
  {
  }

  lemma FlushBalance(r: Reg, key: StreamKey, at: Scope, f: Field)
    ensures Balance(FlushIpattr(r, key), at, f) == Balance(r, at, f)
  {
    hide Charge, TailAt, Settled, Booked;
    if key in r.streams {
      ChargeLands(r.ips, r.streams[key], at, f);
      SumSet(r.streams, TailIn(at, f), key, Settled(r.streams[key]));
      SettledTail(r.streams[key], at, f);
    }
  }

  lemma FlushSlack(r: Reg, key: StreamKey, at: Scope, dir: Dir)
    ensures LossSlack(FlushIpattr(r, key), at, dir) >= LossSlack(r, at, dir)
  {
    hide Charge, Booked;
    if key in r.streams {
      ChargeLands(r.ips, r.streams[key], at, Lost(dir));
      SumSet(r.streams, ChargedIn(at, dir), key, Settled(r.streams[key]));
    }
  }

  lemma FlushLossless(r: Reg, key: StreamKey)
    ensures Lossless(r, FlushIpattr(r, key))
  {
    hide Balance, LossSlack, Charge, Settled;
    forall at: Scope, f: Field ensures Balance(FlushIpattr(r, key), at, f) == Balance(r, at, f) {
      FlushBalance(r, key, at, f);
    }
    forall at: Scope, dir: Dir ensures LossSlack(FlushIpattr(r, key), at, dir) >= LossSlack(r, at, dir) {
      FlushSlack(r, key, at, dir);
    }
  }

  /** A flush moves a stream's tail to its two addresses, and that is all it does. */
  lemma FlushKeeps(r: Reg, key: StreamKey)
    ensures var v := FlushIpattr(r, key);
      && Lossless(r, v) && SameCalls(r, v)
      && v.streamIndex == r.streamIndex && v.ssrcIndex == r.ssrcIndex && v.ledger == r.ledger
      && Owners(v.streams) == Owners(r.streams) && Ssrcs(v.streams) == Ssrcs(r.streams)
      && (Sound(r.streams) ==> Sound(v.streams))
      && v.streams == if key in r.streams then r.streams[key := Settled(r.streams[key])] else r.streams
  {
    hide Lossless, Charge, Owners, Ssrcs, Sound, Tail;
    FlushLossless(r, key);
    if key in r.streams {
      OwnersSame(r.streams, key, Settled(r.streams[key]));
      if Sound(r.streams) {
        MarkOf(r.streams, key);
        MarksSet(r.streams, key, Settled(r.streams[key]));
      }
    }
  }

  lemma {:induction false} FlushAllKeeps(r: Reg, keys: seq<StreamKey>)
    ensures var v := FlushAll(r, keys);
      && Lossless(r, v) && SameCalls(r, v)
      && v.streamIndex == r.streamIndex && v.ssrcIndex == r.ssrcIndex && v.ledger == r.ledger
      && Owners(v.streams) == Owners(r.streams) && Ssrcs(v.streams) == Ssrcs(r.streams)
      && (Sound(r.streams) ==> Sound(v.streams))
    decreases |keys|
  {
    hide Lossless, FlushIpattr, Owners, Ssrcs, Sound;
    if keys == [] {
      LosslessSelf(r, r);
    } else {
      var m := FlushIpattr(r, keys[0]);
      FlushKeeps(r, keys[0]);
      FlushAllKeeps(m, keys[1..]);
      LosslessChain(r, m, FlushAll(m, keys[1..]));
    }
  }

  /** After a flush of every stream nothing is left in any tail. */
  lemma {:induction false} FlushAllSettles(r: Reg, keys: seq<StreamKey>, k: StreamKey, f: Field)
    requires k in r.streams && (k in keys || Tail(r.streams[k], f) == 0)
    ensures k in FlushAll(r, keys).streams && Tail(FlushAll(r, keys).streams[k], f) == 0
    decreases |keys|
  {
    hide Charge;
    if keys != [] {
      assert Tail(Settled(r.streams[k]), f) == 0;
      assert keys == [keys[0]] + keys[1..];
      FlushAllSettles(FlushIpattr(r, keys[0]), keys[1..], k, f);
    }
  }

  // ----- removing streams -----

  /** A settled stream leaves nothing behind. */
  lemma DropSettled(r: Reg, key: StreamKey, v: Reg)
    requires key in r.streams && r.streams[key] == Settled(r.streams[key])
    requires v.ips == r.ips && v.streams == r.streams - {key}
    requires v.ledger == r.ledger.(gone := GoneWith(r, key))
    ensures Lossless(r, v)
  {
    hide Balance, LossSlack, Settled, GoneWith;
    forall at: Scope, f: Field ensures Balance(v, at, f) == Balance(r, at, f) {
      SettledBalance(r, key, v, at, f);
    }
    forall at: Scope, dir: Dir ensures LossSlack(v, at, dir) >= LossSlack(r, at, dir) {
      GoneSlack(r, key, v, at, dir);
    }
  }

  lemma SettledBalance(r: Reg, key: StreamKey, v: Reg, at: Scope, f: Field)
    requires key in r.streams && r.streams[key] == Settled(r.streams[key])
    requires v.ips == r.ips && v.streams == r.streams - {key}
    ensures Balance(v, at, f) == Balance(r, at, f)
  {
    hide Booked, Settled, TailAt;
    SettledTail(r.streams[key], at, f);
    SumTake(r.streams, TailIn(at, f), key);
  }

  /** The charged loss of a stream that goes stays accounted for. */
  lemma GoneSlack(r: Reg, key: StreamKey, v: Reg, at: Scope, dir: Dir)
    requires key in r.streams && v.ips == r.ips && v.streams == r.streams - {key}
    requires v.ledger.idle == r.ledger.idle && v.ledger.gone == GoneWith(r, key)
    ensures LossSlack(v, at, dir) == LossSlack(r, at, dir)
  {
    hide Booked;
    SumTake(r.streams, ChargedIn(at, dir), key);
  }

  lemma SettledTwice(s: Stream)
    ensures Settled(Settled(s)) == Settled(s) && Settled(s).callId == s.callId
  {
  }

  lemma RemoveStreamKeeps(r: Reg, key: StreamKey)
    requires key in r.streams
    ensures var v := RemoveStream(r, key);
      && Lossless(r, v) && SameCalls(r, v) && v.streams == r.streams - {key}
      && v.streamIndex == Unindex(r.streamIndex, r.streams[key].callId, key)
      && v.ssrcIndex == Unindex(r.ssrcIndex, key.ssrc, key)
  {
    var m, v := FlushIpattr(r, key), RemoveStream(r, key);
    FlushKeeps(r, key);
    hide FlushIpattr, Lossless, Unindex, Settled, GoneWith, Owners, Ssrcs;
    assert m.streams == r.streams[key := Settled(r.streams[key])];
    SettledTwice(r.streams[key]);
    assert m.streams[key] == Settled(r.streams[key]);
    assert m.streams - {key} == r.streams - {key};
    DropSettled(m, key, v);
    LosslessChain(r, m, v);
  }

  lemma LosslessSelf(r: Reg, v: Reg)
    requires v.ips == r.ips && v.streams == r.streams && v.ledger == r.ledger
    ensures Lossless(r, v)
  {
  }

  /** The streams of a call that is already off the per-call index. */
  lemma {:induction false} RemoveStreamsKeeps(r: Reg, keys: seq<StreamKey>, id: Str)
    requires NoDup(keys) && id !in r.streamIndex && Agrees(r.ssrcIndex, Ssrcs(r.streams))
    requires forall k :: k in keys ==> k in r.streams && r.streams[k].callId == id
    ensures var v := RemoveStreams(r, keys);
      && Lossless(r, v) && SameCalls(r, v) && v.streams == r.streams - SetOf(keys)
      && v.streamIndex == r.streamIndex && Agrees(v.ssrcIndex, Ssrcs(v.streams))
    decreases |keys|
  {
    hide RemoveStream, Lossless, Agrees;
    if keys == [] {
      LosslessSelf(r, r);
    } else {
      var key, rest := keys[0], keys[1..];
      var m := RemoveStream(r, key);
      RemoveStreamKeeps(r, key);
      DropAgrees(r.ssrcIndex, Ssrcs(r.streams), key);
      assert Ssrcs(m.streams) == Ssrcs(r.streams) - {key};
      assert NoDup(rest) && key !in rest;
      RemoveStreamsKeeps(m, rest, id);
      LosslessChain(r, m, RemoveStreams(m, rest));
      assert SetOf(keys) == {key} + SetOf(rest);
      assert r.streams - SetOf(keys) == m.streams - SetOf(rest);
    }
  }

  // ----- removing calls -----

  /** The streams that belong to none of these calls. */
  function StreamsBeside(streams: map<StreamKey, Stream>, ids: set<Str>): map<StreamKey, Stream> {
    map k | k in streams && streams[k].callId !in ids :: streams[k]
  }

  lemma BesideIs(streams: map<StreamKey, Stream>, keys: seq<StreamKey>, id: Str)
    requires forall k :: k in keys <==> k in streams && streams[k].callId == id
    ensures streams - SetOf(keys) == StreamsBeside(streams, {id})
  {
  }

  lemma CallKeys(r: Reg, id: Str)
    requires Indexed(r)
    ensures NoDup(KeysOf(r, id))
    ensures forall k :: k in KeysOf(r, id) <==> k in r.streams && r.streams[k].callId == id
    ensures r.streams - SetOf(KeysOf(r, id)) == StreamsBeside(r.streams, {id})
  {
    var owner, keys := Owners(r.streams), KeysOf(r, id);
    ListIs(r.streamIndex, owner, id);
    hide Agrees, NoDup, SetOf, StreamsBeside;
    forall k ensures k in keys <==> k in r.streams && r.streams[k].callId == id {
      assert k in keys <==> k in owner && owner[k] == id;
    }
    hide Indexed, Owners, KeysOf;
    BesideIs(r.streams, keys, id);
  }

  lemma DetachedAgrees(r: Reg, id: Str)
    requires Indexed(r)
    ensures Agrees(Detached(r, id).streamIndex, Owners(StreamsBeside(r.streams, {id})))
  {
    hide Agrees;
    DropOwnerAgrees(r.streamIndex, Owners(r.streams), id, Owners(StreamsBeside(r.streams, {id})));
  }

  lemma RemoveOneKeeps(r: Reg, id: Str)
    requires Indexed(r)
    ensures var v := RemoveOne(r, id);
      && Lossless(r, v) && Indexed(v) && v.streams == StreamsBeside(r.streams, {id})
      && v.calls == r.calls - {id} && v.removed == r.removed + [id]
      && v.order == r.order && v.endpointCall == r.endpointCall
  {
    var m, keys := Detached(r, id), KeysOf(r, id);
    CallKeys(r, id);
    DetachedAgrees(r, id);
    LosslessSelf(r, m);
    hide RemoveStreams, Lossless, Agrees, KeysOf, StreamsBeside, Owners, Ssrcs, NoDup;
    RemoveStreamsKeeps(m, keys, id);
    LosslessChain(r, m, RemoveStreams(m, keys));
  }

  lemma BesideTwice(streams: map<StreamKey, Stream>, calls: map<Str, C.Call>, ids: seq<Str>)
    requires ids != []
    ensures StreamsBeside(StreamsBeside(streams, {ids[0]}), SetOf(ids[1..])) == StreamsBeside(streams, SetOf(ids))
    ensures calls - {ids[0]} - SetOf(ids[1..]) == calls - SetOf(ids)
  {
    assert SetOf(ids) == {ids[0]} + SetOf(ids[1..]);
  }

  lemma {:induction false} RemoveEachKeeps(r: Reg, ids: seq<Str>)
    requires Indexed(r)
    ensures var v := RemoveEach(r, ids);
      && Lossless(r, v) && Indexed(v) && v.streams == StreamsBeside(r.streams, SetOf(ids))
      && v.calls == r.calls - SetOf(ids) && v.removed == r.removed + ids
      && v.order == r.order && v.endpointCall == r.endpointCall
    decreases |ids|
  {
    hide RemoveOne, Lossless, Indexed;
    if ids == [] {
      LosslessSelf(r, r);
      assert StreamsBeside(r.streams, SetOf(ids)) == r.streams;
    } else {
      var m, rest := RemoveOne(r, ids[0]), ids[1..];
      RemoveOneKeeps(r, ids[0]);
      RemoveEachKeeps(m, rest);
      LosslessChain(r, m, RemoveEach(m, rest));
      BesideTwice(r.streams, r.calls, ids);
      assert m.removed + rest == r.removed + ids;
      hide StreamsBeside, SetOf;
    }
  }

  /**
    Removing calls takes out those calls and exactly their streams, from every map,
    and loses no packet, byte or charged loss on the way.
   */
  lemma RemoveCallsKeeps(r: Reg, ids: seq<Str>)
    requires Agreement(r)
    ensures var v := RemoveCalls(r, ids);
      && Lossless(r, v) && Agreement(v) && v.streams == StreamsBeside(r.streams, SetOf(ids))
      && v.calls == r.calls - SetOf(ids) && v.removed == r.removed + ids
  {
    var v := RemoveCalls(r, ids);
    if ids == [] {
      LosslessSelf(r, v);
      assert StreamsBeside(r.streams, SetOf(ids)) == r.streams;
    } else {
      var m := RemoveEach(r, ids);
      RemoveEachKeeps(r, ids);
      LosslessSelf(m, v);
      LosslessChain(r, m, v);
      KeepHolds(r.order, SetOf(ids));
      hide RemoveEach, Lossless, Agrees, Keep;
    }
  }

  /** Removing calls keeps the registry sane. */
  lemma RemoveCallsSane(r: Reg, ids: seq<Str>)
    requires Sane(r)
    ensures Sane(RemoveCalls(r, ids))
  {
    RemoveCallsKeeps(r, ids);
    hide RemoveCalls, Lossless, Conserved, Agreement;
    LosslessConserves(r, RemoveCalls(r, ids));
  }

  lemma OwnersDecide(r: Reg, v: Reg)
    requires Agreement(r) && SameCalls(r, v) && Owners(v.streams) == Owners(r.streams)
    requires v.streamIndex == r.streamIndex && v.ssrcIndex == r.ssrcIndex && Ssrcs(v.streams) == Ssrcs(r.streams)
    ensures Agreement(v)
  {
    hide Agrees;
    forall k | k in v.streams ensures v.streams[k].callId in v.calls {
      assert Owners(v.streams)[k] == v.streams[k].callId;
      assert k in Owners(r.streams) && Owners(r.streams)[k] == r.streams[k].callId;
    }
  }

  lemma FlushAllSane(r: Reg, keys: seq<StreamKey>)
    requires Sane(r)
    ensures Sane(FlushAll(r, keys))
  {
    FlushAllKeeps(r, keys);
    hide FlushAll, Lossless, Conserved, Agreement, Owners, Ssrcs, Sound;
    LosslessConserves(r, FlushAll(r, keys));
    OwnersDecide(r, FlushAll(r, keys));
  }

  // ----- taking packets -----

  lemma PacketTail(s: Stream, ts: u64, seq16: u16, len: nat, at: Scope, f: Field)
    requires Marked(s) && !f.Lost?
    ensures TailAt(Observed(s, ts, seq16, len), at, f)
         == TailAt(s, at, f) + if Covers(at, s.flow, f) then PacketBothWays(len).Get(f) else 0
  {
    hide LossOf, PacketBothWays;
    OnePacket(len, f);
  }

  lemma OnePacket(len: nat, f: Field)
    ensures PacketBothWays(len).Get(f) == if f.Pkts? then 1 else if f.Bytes? then len else 0
  {
  }

  lemma PacketConserves(r: Reg, key: StreamKey, ts: u64, seq16: u16, len: nat)
    requires key in r.streams && Sound(r.streams) && Conserved(r)
    ensures Conserved(ObservePacket(r, key, ts, seq16, len))
  {
    hide TailAt, Booked, SumMap, PacketBothWays, DroppedIn;
    var s, v := r.streams[key], ObservePacket(r, key, ts, seq16, len);
    MarkOf(r.streams, key);
    ObservedFields(s, ts, seq16, len);
    hide Observed;
    forall at: Scope, f: Field | !f.Lost?
      ensures Balance(v, at, f) + DroppedIn(v.ledger, at, f) == v.ledger.taken.Get(at, f)
    {
      SumSet(r.streams, TailIn(at, f), key, Observed(s, ts, seq16, len));
      PacketTail(s, ts, seq16, len, at, f);
      SameDropped(r.ledger, v.ledger, at, f);
      assert Balance(r, at, f) + DroppedIn(r.ledger, at, f) == r.ledger.taken.Get(at, f);
    }
    forall at: Scope, dir: Dir ensures LossSlack(v, at, dir) >= 0 {
      SumSet(r.streams, ChargedIn(at, dir), key, Observed(s, ts, seq16, len));
      assert LossSlack(r, at, dir) >= 0;
    }
  }

  lemma SameDropped(a: Ledger, b: Ledger, at: Scope, f: Field)
    requires a.capped == b.capped && a.idle == b.idle
    ensures DroppedIn(a, at, f) == DroppedIn(b, at, f)
  {
  }

  lemma MarkOf(streams: map<StreamKey, Stream>, key: StreamKey)
    requires Sound(streams) && key in streams
    ensures Marked(streams[key]) && streams[key].flow == key.flow
  {
  }

  /** A packet of a known stream. */
  lemma PacketSane(r: Reg, key: StreamKey, ts: u64, seq16: u16, len: nat)
    requires key in r.streams && Sane(r)
    ensures Sane(ObservePacket(r, key, ts, seq16, len))
  {
    hide Conserved, Observed, Owners, Ssrcs, Sound, Agreement, PacketsOf;
    var s, v := r.streams[key], ObservePacket(r, key, ts, seq16, len);
    var o := Observed(s, ts, seq16, len);
    PacketConserves(r, key, ts, seq16, len);
    MarkOf(r.streams, key);
    ObservedFields(s, ts, seq16, len);
    OwnersSame(r.streams, key, o);
    MarksSet(r.streams, key, o);
    OwnersDecide(r, v);
  }

  lemma NewStreamConserves(r: Reg, key: StreamKey, id: Str)
    requires key !in r.streams && Conserved(r)
    ensures Conserved(r.(streams := r.streams[key := NewStream(id, key.flow)]))
  {
    hide Booked, SumMap;
    var s := NewStream(id, key.flow);
    var v := r.(streams := r.streams[key := s]);
    forall at: Scope, f: Field | !f.Lost?
      ensures Balance(v, at, f) + DroppedIn(v.ledger, at, f) == v.ledger.taken.Get(at, f)
    {
      SumSet(r.streams, TailIn(at, f), key, s);
      assert Balance(r, at, f) + DroppedIn(r.ledger, at, f) == r.ledger.taken.Get(at, f);
    }
    forall at: Scope, dir: Dir ensures LossSlack(v, at, dir) >= 0 {
      SumSet(r.streams, ChargedIn(at, dir), key, s);
      assert LossSlack(r, at, dir) >= 0;
    }
  }

  lemma IndexBeside(r: Reg, v: Reg)
    requires v.ips == r.ips && v.streams == r.streams && v.ledger == r.ledger && Conserved(r)
    ensures Conserved(v)
  {
    LosslessSelf(r, v);
    LosslessConserves(r, v);
  }

  lemma OpenConserves(r: Reg, key: StreamKey, id: Str, ts: u64, seq16: u16, len: nat)
    requires key !in r.streams && Sound(r.streams) && Conserved(r)
    ensures Conserved(OpenStream(r, key, id, ts, seq16, len))
  {
    hide Conserved;
    var n := r.(streams := r.streams[key := NewStream(id, key.flow)]);
    NewStreamConserves(r, key, id);
    PacketConserves(n, key, ts, seq16, len);
    IndexBeside(ObservePacket(n, key, ts, seq16, len), OpenStream(r, key, id, ts, seq16, len));
  }

  lemma OpenAgrees(r: Reg, key: StreamKey, s: Stream, v: Reg)
    requires Agreement(r) && key !in r.streams && s.callId in r.calls && SameCalls(r, v)
    requires v.streams == r.streams[key := s]
    requires v.streamIndex == AddTo(r.streamIndex, s.callId, key)
    requires v.ssrcIndex == AddTo(r.ssrcIndex, key.ssrc, key)
    ensures Agreement(v)
  {
    hide Agrees, AddTo;
    OwnersSet(r.streams, key, s);
    AddAgrees(r.streamIndex, Owners(r.streams), s.callId, key);
    AddAgrees(r.ssrcIndex, Ssrcs(r.streams), key.ssrc, key);
  }

  lemma ObservedFields(s: Stream, ts: u64, seq16: u16, len: nat)
    ensures var o := Observed(s, ts, seq16, len);
      && o.callId == s.callId && o.flow == s.flow && o.packets == s.packets + 1 && o.bytes == s.bytes + len
      && o.ipPkts == s.ipPkts && o.ipBytes == s.ipBytes && o.ipLost == s.ipLost && o.lastTs == Some(ts)
  {
  }

  lemma OpenShape(r: Reg, key: StreamKey, id: Str, ts: u64, seq16: u16, len: nat)
    ensures var v := OpenStream(r, key, id, ts, seq16, len);
      && SameCalls(r, v) && v.streams == r.streams[key := Observed(NewStream(id, key.flow), ts, seq16, len)]
      && v.streamIndex == AddTo(r.streamIndex, id, key) && v.ssrcIndex == AddTo(r.ssrcIndex, key.ssrc, key)
  {
    hide Observed, AddTo, PacketsOf;
  }

  /** The first packet of a stream of a live call. */
  lemma OpenSane(r: Reg, key: StreamKey, id: Str, ts: u64, seq16: u16, len: nat)
    requires key !in r.streams && id in r.calls && Sane(r)
    ensures Sane(OpenStream(r, key, id, ts, seq16, len))
  {
    hide Conserved, Observed, Agreement, Sound, AddTo, PacketsOf, OpenStream, SameCalls;
    var o := Observed(NewStream(id, key.flow), ts, seq16, len);
    ObservedFields(NewStream(id, key.flow), ts, seq16, len);
    OpenConserves(r, key, id, ts, seq16, len);
    OpenShape(r, key, id, ts, seq16, len);
    OpenAgrees(r, key, o, OpenStream(r, key, id, ts, seq16, len));
    MarksSet(r.streams, key, o);
  }

  lemma CreateAgrees(r: Reg, id: Str)
    requires Agreement(r)
    ensures Agreement(GetOrCreateCall(r, id))
  {
    hide Agrees;
    if id !in r.calls {
      assert id !in r.order;
      AppendNoDup(r.order, id);
    }
  }

  lemma AppendNoDup(s: seq<Str>, x: Str)
    requires NoDup(s) && x !in s
    ensures NoDup(s + [x]) && forall y :: y in s + [x] <==> y in s || y == x
  {
  }

  /** A call looked up or created. */
  lemma CreateSane(r: Reg, id: Str)
    requires Sane(r)
    ensures Sane(GetOrCreateCall(r, id))
  {
    hide Conserved, Agreement, Sound;
    CreateAgrees(r, id);
    IndexBeside(r, GetOrCreateCall(r, id));
  }

  /** A known call moves on; a known endpoint set is learned; active counters move. */
  lemma SetCallSane(r: Reg, id: Str, c: C.Call)
    requires Sane(r) && id in r.calls
    ensures Sane(SetCall(r, id, c))
  {
    hide Conserved, Agrees;
    IndexBeside(r, SetCall(r, id, c));
  }

  lemma {:induction false} LearnSane(r: Reg, eps: seq<SocketAddr>, id: Str)
    requires Sane(r) && id in r.calls
    ensures Sane(Learn(r, eps, id)) && Learn(r, eps, id).calls == r.calls
    ensures Learn(r, eps, id).removed == r.removed && Learn(r, eps, id).ledger == r.ledger
    decreases |eps|
  {
    hide Conserved, Agrees;
    if eps != [] {
      var m := r.(endpointCall := r.endpointCall[eps[0] := id]);
      IndexBeside(r, m);
      LearnSane(m, eps[1..], id);
    }
  }

  lemma ActiveConserves(r: Reg, ip: IpAddr, up: bool)
    requires Conserved(r)
    ensures Conserved(r.(ips := AddActive(r.ips, ip, up)))
  {
    var v := r.(ips := AddActive(r.ips, ip, up));
    hide AddActive, SumMap;
    forall at: Scope, f: Field ensures Booked(v.ips, at, f) == Booked(r.ips, at, f) {
      AddActiveBooked(r.ips, ip, up, at, f);
    }
    LosslessSame(r, v);
    LosslessConserves(r, v);
  }

  lemma LosslessSame(r: Reg, v: Reg)
    requires v.streams == r.streams && v.ledger == r.ledger
    requires forall at: Scope, f: Field :: Booked(v.ips, at, f) == Booked(r.ips, at, f)
    ensures Lossless(r, v)
  {
    hide Booked, SumMap;
  }

  /** Counting active calls touches nothing but addresses. */
  lemma {:induction false} CountsOnly(r: Reg, addrs: seq<IpAddr>, up: bool)
    ensures CountActive(r, addrs, up) == r.(ips := CountActive(r, addrs, up).ips)
    decreases |addrs|
  {
    hide AddActive;
    if addrs != [] {
      CountsOnly(r.(ips := AddActive(r.ips, addrs[0], up)), addrs[1..], up);
    }
  }

  lemma {:induction false} ActiveSane(r: Reg, addrs: seq<IpAddr>, up: bool)
    requires Sane(r)
    ensures Sane(CountActive(r, addrs, up)) && SameCalls(r, CountActive(r, addrs, up))
    ensures CountActive(r, addrs, up).streams == r.streams && CountActive(r, addrs, up).ledger == r.ledger
    decreases |addrs|
  {
    hide Conserved, Agrees, AddActive;
    if addrs != [] {
      ActiveConserves(r, addrs[0], up);
      ActiveSane(r.(ips := AddActive(r.ips, addrs[0], up)), addrs[1..], up);
    }
  }

  // ----- dropping -----

  lemma CutConserves(r: Reg, key: StreamKey)
    requires key in r.streams && Conserved(r)
    ensures Conserved(CutStream(r, key))
  {
    hide Booked, SumMap, TailAt, TailBothWays, Unindex;
    var s, v := r.streams[key], CutStream(r, key);
    forall at: Scope, f: Field | !f.Lost?
      ensures Balance(v, at, f) + DroppedIn(v.ledger, at, f) == v.ledger.taken.Get(at, f)
    {
      SumTake(r.streams, TailIn(at, f), key);
      CutDrops(r, key, at, f);
      assert Balance(r, at, f) + DroppedIn(r.ledger, at, f) == r.ledger.taken.Get(at, f);
    }
    forall at: Scope, dir: Dir ensures LossSlack(v, at, dir) >= 0 {
      GoneSlack(r, key, v, at, dir);
      assert LossSlack(r, at, dir) >= 0;
    }
  }

  lemma TailSplits(s: Stream, f: Field)
    requires !f.Lost?
    ensures TailBothWays(s).Get(f) == Tail(s, f)
  {
  }

  /** A cut drops exactly the stream's tail. */
  lemma CutDrops(r: Reg, key: StreamKey, at: Scope, f: Field)
    requires key in r.streams && !f.Lost?
    ensures DroppedIn(CutStream(r, key).ledger, at, f) == DroppedIn(r.ledger, at, f) + TailAt(r.streams[key], at, f)
  {
    hide TailBothWays, Tail, Unindex;
    TailSplits(r.streams[key], f);
  }

  lemma CutAgrees(r: Reg, key: StreamKey, v: Reg)
    requires Agreement(r) && key in r.streams && SameCalls(r, v) && v.streams == r.streams - {key}
    requires v.streamIndex == Unindex(r.streamIndex, r.streams[key].callId, key)
    requires v.ssrcIndex == Unindex(r.ssrcIndex, key.ssrc, key)
    ensures Agreement(v)
  {
    hide Agrees, Unindex;
    OwnersTake(r.streams, key);
    DropAgrees(r.streamIndex, Owners(r.streams), key);
    DropAgrees(r.ssrcIndex, Ssrcs(r.streams), key);
  }

  lemma CutSane(r: Reg, key: StreamKey)
    requires key in r.streams && Sane(r)
    ensures Sane(CutStream(r, key)) && CutStream(r, key).streams == r.streams - {key}
    ensures CutStream(r, key).calls == r.calls && CutStream(r, key).removed == r.removed
    ensures CutStream(r, key).ledger.taken == r.ledger.taken
  {
    hide Conserved, Agreement, Unindex, TailBothWays, LossBothWays;
    CutConserves(r, key);
    CutAgrees(r, key, CutStream(r, key));
  }

  lemma {:induction false} CutAllSane(r: Reg, keys: seq<StreamKey>)
    requires Sane(r) && NoDup(keys) && forall k :: k in keys ==> k in r.streams
    ensures var v := CutStreams(r, keys);
      && Sane(v) && v.streams == r.streams - SetOf(keys) && v.calls == r.calls && v.removed == r.removed
      && v.ledger.taken == r.ledger.taken
    decreases |keys|
  {
    hide CutStream, Sane;
    if keys != [] {
      CutSane(r, keys[0]);
      assert keys[0] !in keys[1..] && NoDup(keys[1..]);
      CutAllSane(CutStream(r, keys[0]), keys[1..]);
      assert SetOf(keys) == {keys[0]} + SetOf(keys[1..]);
      assert r.streams - SetOf(keys) == (r.streams - {keys[0]}) - SetOf(keys[1..]);
    }
  }

  /** Totals of a scope are those of its busy and of its idle addresses. */
  lemma PruneBooked(ips: Ips, cutoff: u64, at: Scope, f: Field)
    ensures Booked(ips, at, f) == Booked(BusyIps(ips, cutoff), at, f) + Booked(IdleIps(ips, cutoff), at, f)
  {
    var busy, idle := BusyIps(ips, cutoff), IdleIps(ips, cutoff);
    assert busy.Keys !! idle.Keys && ips == busy + idle;
    hide SumMap;
    if at.Everywhere? {
      SumSplit(ips, GetOf(f), busy, idle);
    }
  }

  lemma PruneConserves(r: Reg, cutoff: u64)
    requires Conserved(r)
    ensures Conserved(PruneIdle(r, cutoff))
  {
    var v := PruneIdle(r, cutoff);
    hide SumOf, Booked, SumMap, BusyIps, IdleIps;
    forall at: Scope, f: Field | !f.Lost?
      ensures Balance(v, at, f) + DroppedIn(v.ledger, at, f) == v.ledger.taken.Get(at, f)
    {
      PruneBooked(r.ips, cutoff, at, f);
      assert Balance(r, at, f) + DroppedIn(r.ledger, at, f) == r.ledger.taken.Get(at, f);
    }
    forall at: Scope, dir: Dir ensures LossSlack(v, at, dir) >= 0 {
      PruneBooked(r.ips, cutoff, at, Lost(dir));
      assert LossSlack(r, at, dir) >= 0;
    }
  }

  lemma PruneSane(r: Reg, cutoff: u64)
    requires Sane(r)
    ensures Sane(PruneIdle(r, cutoff))
  {
    PruneConserves(r, cutoff);
    hide Conserved, Agrees;
  }
}
