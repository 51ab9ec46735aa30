/** What the registry remembers of its calls and streams, read off the inputs. */
module History {
  import opened Prelude
  import opened Net
  import opened Utf8
  import opened KeyIndex
  import opened IpStats
  import opened Registry
  import opened RegistryKeeps
  import opened Eviction
  import opened Correlator
  import K = CorrelatorKeeps
  import C = Call
  import W = SeqWindow

  // ----- what removal leaves alone -----

  /** The same stream, its watermarks apart. */
  predicate SamePackets(s: Stream, t: Stream) {
    t == s.(ipPkts := t.ipPkts, ipBytes := t.ipBytes, ipLost := t.ipLost)
  }

  /** `v` has some of the calls and streams of `r` as they were, and the endpoints of those calls. */
  ghost predicate Fewer(r: Reg, v: Reg) {
    && (forall id :: id in v.calls ==> id in r.calls && v.calls[id] == r.calls[id])
    && (forall k :: k in v.streams ==> k in r.streams && SamePackets(r.streams[k], v.streams[k]))
    && (forall a :: a in v.endpointCall <==> a in r.endpointCall && r.endpointCall[a] in v.calls)
    && (forall a :: a in v.endpointCall ==> v.endpointCall[a] == r.endpointCall[a])
  }

  lemma FewerChain(r: Reg, v: Reg, u: Reg)
    requires Fewer(r, v) && Fewer(v, u)
    ensures Fewer(r, u)
  {
    forall k | k in u.streams ensures k in r.streams && SamePackets(r.streams[k], u.streams[k]) {
      assert SamePackets(v.streams[k], u.streams[k]) && SamePackets(r.streams[k], v.streams[k]);
    }
    hide SamePackets;
  }

  /** Nothing changed but what is not remembered here. */
  lemma FewerSame(r: Reg, v: Reg)
    requires Agreement(r) && v.calls == r.calls && v.streams == r.streams && v.endpointCall == r.endpointCall
    ensures Fewer(r, v)
  {
    hide Indexed;
  }

  /** Some calls gone with their endpoints, and some streams. */
  lemma SomeLeft(r: Reg, v: Reg, ids: set<Str>)
    requires forall a :: a in r.endpointCall ==> r.endpointCall[a] in r.calls
    requires v.calls == r.calls - ids && v.streams == StreamsBeside(r.streams, ids)
    requires v.endpointCall == map a | a in r.endpointCall && r.endpointCall[a] !in ids :: r.endpointCall[a]
    ensures Fewer(r, v)
  {
  }

  lemma StreamsLeft(r: Reg, v: Reg, keys: set<StreamKey>)
    requires Agreement(r) && SameCalls(r, v) && v.streams == r.streams - keys
    ensures Fewer(r, v)
  {
    hide Indexed, NoDup;
  }

  lemma {:induction false} RemoveEachEndpoints(r: Reg, ids: seq<Str>)
    requires Indexed(r)
    ensures RemoveEach(r, ids).endpointCall == r.endpointCall
  {
    RemoveEachKeeps(r, ids);
  }

  lemma RemoveFewer(r: Reg, ids: seq<Str>)
    requires Sane(r)
    ensures Fewer(r, RemoveCalls(r, ids))
  {
    AgreementOf(r);
    RemoveCallsKeeps(r, ids);
    RemoveEachEndpoints(r, ids);
    var v := RemoveCalls(r, ids);
    assert v.endpointCall == map a | a in r.endpointCall && r.endpointCall[a] !in SetOf(ids) :: r.endpointCall[a] by {
      hide Agreement, Lossless, RemoveEach, Keep;
    }
    hide Sane, Lossless, RemoveCalls, Indexed, NoDup, Fewer;
    SomeLeft(r, v, SetOf(ids));
  }

  lemma {:induction false} CutKeepsCalls(r: Reg, keys: seq<StreamKey>)
    ensures SameCalls(r, CutStreams(r, keys))
    decreases |keys|
  {
    if keys != [] {
      CutKeepsCalls(CutStream(r, keys[0]), keys[1..]);
      hide CutStreams;
      OneCutKeepsCalls(r, keys[0]);
    }
  }

  lemma OneCutKeepsCalls(r: Reg, key: StreamKey)
    ensures SameCalls(r, CutStream(r, key))
  {
    hide Unindex, TailBothWays, GoneWith;
  }

  lemma CutFewer(r: Reg, cap: nat, keys: seq<StreamKey>)
    requires Sane(r) && IsCut(r.streams, cap, keys)
    ensures Fewer(r, CutStreams(r, keys))
  {
    AgreementOf(r);
    CutExact(r, cap, keys);
    CutKeepsCalls(r, keys);
    hide Sane, CutStreams, IsCut, Indexed, NoDup, Fewer, SetOf;
    StreamsLeft(r, CutStreams(r, keys), SetOf(keys));
  }

  lemma EvictFewer(r: Reg, caps: Caps, pins: set<Str>, ch: Choice)
    requires Sane(r) && CanEvict(r, caps, pins, ch)
    ensures Fewer(r, EvictIfNeeded(r, ch))
  {
    RemoveFewer(r, ch.victims);
    RemoveCallsSane(r, ch.victims);
    EvictParts(r, ch);
    hide Sane, Fewer, RemoveCalls, CutStreams, EvictIfNeeded, IsVictims, IsCut;
    CutFewer(RemoveCalls(r, ch.victims), caps.streams, ch.cut);
    FewerChain(r, RemoveCalls(r, ch.victims), EvictIfNeeded(r, ch));
  }

  lemma {:induction false} FlushSamePackets(r: Reg, keys: seq<StreamKey>)
    ensures FlushAll(r, keys).streams.Keys == r.streams.Keys
    ensures forall k :: k in r.streams ==> SamePackets(r.streams[k], FlushAll(r, keys).streams[k])
    decreases |keys|
  {
    hide FlushIpattr;
    if keys != [] {
      var m := FlushIpattr(r, keys[0]);
      OneFlush(r, keys[0]);
      FlushSamePackets(m, keys[1..]);
      forall k | k in r.streams ensures SamePackets(r.streams[k], FlushAll(m, keys[1..]).streams[k]) {
        assert SamePackets(r.streams[k], m.streams[k]) && SamePackets(m.streams[k], FlushAll(m, keys[1..]).streams[k]);
      }
    }
  }

  lemma OneFlush(r: Reg, key: StreamKey)
    ensures FlushIpattr(r, key).streams.Keys == r.streams.Keys
    ensures forall k :: k in r.streams ==> SamePackets(r.streams[k], FlushIpattr(r, key).streams[k])
  {
    hide Charge, LossOf;
  }

  lemma FlushFewer(r: Reg, keys: seq<StreamKey>)
    requires Sane(r)
    ensures Fewer(r, FlushAll(r, keys))
  {
    AgreementOf(r);
    FlushAllKeeps(r, keys);
    FlushSamePackets(r, keys);
    hide Sane, FlushAll, Lossless, Owners, Ssrcs, Indexed, NoDup, SamePackets;
  }

  // ----- what a step leaves alone -----

  lemma PruneFewer(s: State, r: Reg)
    requires Fewer(r, s.reg)
    ensures Fewer(r, PruneBookkeeping(s).reg)
  {
  }

  lemma RetireFewer(cfg: Config, r: Reg, pins: set<Str>, id: Str, ch: Choice)
    requires Sane(r) && (cfg.keepTerminated ==> CanEvict(r, cfg.caps, pins, ch))
    ensures Fewer(r, Retire(cfg, r, id, ch))
  {
    hide Sane, Fewer, RemoveCalls, EvictIfNeeded, CanEvict;
    if cfg.keepTerminated {
      EvictFewer(r, cfg.caps, pins, ch);
    } else {
      RemoveFewer(r, [id]);
    }
  }

  lemma {:induction false} ActiveFewer(r: Reg, addrs: seq<IpAddr>, up: bool)
    requires Agreement(r)
    ensures Fewer(r, CountActive(r, addrs, up))
    decreases |addrs|
  {
    hide AddActive, Agreement, Fewer;
    if addrs == [] {
      FewerSame(r, r);
    } else {
      var m := r.(ips := AddActive(r.ips, addrs[0], up));
      FewerIps(r, m);
      ActiveFewer(m, addrs[1..], up);
      FewerChain(r, m, CountActive(m, addrs[1..], up));
    }
  }

  lemma FewerIps(r: Reg, v: Reg)
    requires Agreement(r) && v == r.(ips := v.ips)
    ensures Fewer(r, v) && Agreement(v)
  {
    FewerSame(r, v);
  }

  /** Beyond what a message itself does, a SIP step only removes. */
  lemma SipFewer(cfg: Config, s: State, i: Input)
    requires i.Sip? && K.Inv(s) && CanStep(cfg, s, i)
    ensures Fewer(TakeSip(s, i.msg, i.rr, i.learned).reg, Step(cfg, s, i).reg)
  {
    var m, t := i.msg, TakeSip(s, i.msg, i.rr, i.learned);
    K.TakeSipKeeps(s, m, i.rr, i.learned);
    AgreementOf(t.reg);
    hide K.Inv, Sane, Agreement, CanEvict, TakeSip, Fewer, Retire, K.Counted, CountActive, PruneBookkeeping, Pinned;
    if NewlyTerminal(t, m.callId) {
      var d := CountTerminal(MarkTerminal(t, m.callId), m.callId);
      K.CountedSame(t, MarkTerminal(t, m.callId));
      K.CountTerminalKeeps(MarkTerminal(t, m.callId), m.callId);
      ActiveFewer(t.reg, t.reg.calls[m.callId].origin.activeIps, false);
      RetireFewer(cfg, d.reg, Pinned(s.pins), m.callId, i.choice);
      FewerChain(t.reg, d.reg, Retire(cfg, d.reg, m.callId, i.choice));
      PruneFewer(d.(reg := Retire(cfg, d.reg, m.callId, i.choice)), t.reg);
    } else {
      FewerSame(t.reg, t.reg);
    }
  }

  lemma StaleFewer(cfg: Config, s: State, ts: u64, found: seq<Str>, o: Orders)
    requires Sane(s.reg)
    ensures Fewer(s.reg, Stale(cfg, s, ts, found, o).reg)
  {
    AgreementOf(s.reg);
    FewerSame(s.reg, s.reg);
    hide Sane, Fewer, RemoveCalls, StaleOf, Pinned, Refreshed, Agreement;
    if cfg.ttlSecs > 0 && ts > 0 {
      RemoveFewer(s.reg, StaleOf(s.reg, Pinned(Refreshed(s.pins, found)), Cutoff(cfg.ttlSecs, ts), o.stale));
    }
  }

  lemma MaintainFewer(cfg: Config, s: State, ts: u64, found: seq<Str>, o: Orders)
    requires Sane(s.reg) && s.reg.removed == [] && SetOf(o.stale) == s.reg.calls.Keys
    requires var t := Stale(cfg, s, ts, found, o); CanEvict(t.reg, cfg.caps, Pinned(t.pins), o.choice)
    ensures Fewer(s.reg, Maintain(cfg, s, ts, found, o).reg)
  {
    hide Sane, Fewer, CanEvict, EvictStale, EvictIfNeeded, PruneIdle, Pinned, Refreshed;
    var t := Stale(cfg, s, ts, found, o);
    StaleFewer(cfg, s, ts, found, o);
    K.StaleSane(s.reg, Pinned(t.pins), cfg.ttlSecs, ts, o.stale);
    EvictFewer(t.reg, cfg.caps, Pinned(t.pins), o.choice);
    FewerChain(s.reg, t.reg, EvictIfNeeded(t.reg, o.choice));
    var e := t.(reg := EvictIfNeeded(t.reg, o.choice));
    PruneFewer(e, s.reg);
    PruneIdleFewer(s.reg, PruneBookkeeping(e).reg, SatSub(ts, IDLE_US));
  }

  lemma PruneIdleFewer(r: Reg, v: Reg, cutoff: u64)
    requires Fewer(r, v)
    ensures Fewer(r, PruneIdle(v, cutoff))
  {
    hide SumOf, BusyIps, IdleIps;
  }

  /** A tick only removes, and moves watermarks. */
  lemma TickFewer(cfg: Config, s: State, i: Input)
    requires i.Tick? && K.Inv(s) && CanStep(cfg, s, i)
    ensures Fewer(s.reg, Step(cfg, s, i).reg)
  {
    var ts, found, o := i.ts, i.found, i.orders;
    var a := Attribute(s, ts, o);
    K.InvParts(s);
    AgreementOf(s.reg);
    AttributeFewer(s, ts, o);
    K.AttributeKeeps(s, ts, o);
    var t := a.(lastFlush := Rearm(a.lastFlush, ts, 5_000_000));
    K.InvBeside(a, t);
    K.InvParts(t);
    assert a.lastFlush == s.lastFlush;
    if Due(s.lastFlush, ts, 5_000_000) {
      K.SameStale(cfg, a, t, ts, found, o);
      hide K.Inv, Sane, Fewer, Agreement, CanEvict, Maintain, Attribute, Due, Rearm, Stale;
      MaintainFewer(cfg, t, ts, found, o);
      FewerChain(s.reg, t.reg, Maintain(cfg, t, ts, found, o).reg);
    }
  }

  lemma AttributeFewer(s: State, ts: u64, o: Orders)
    requires Sane(s.reg)
    ensures Fewer(s.reg, Attribute(s, ts, o).reg)
  {
    AgreementOf(s.reg);
    FewerSame(s.reg, s.reg);
    hide Sane, Fewer, FlushAll, Agreement;
    FlushFewer(s.reg, o.flush);
  }
}
