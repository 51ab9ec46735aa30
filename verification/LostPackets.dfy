/** Reachable runs in which a packet is taken and then charged to nobody. */
module LostPackets {
  import opened Prelude
  import opened Net
  import opened Utf8
  import opened KeyIndex
  import opened IpStats
  import opened Registry
  import opened RegistryKeeps
  import opened Eviction
  import opened Correlator
  import opened Attribution
  import C = Call

  // ----- one more step of a run -----

  /** What a run takes and drops, from its last step. */
  lemma {:induction false} RunSnoc(cfg: Config, s: State, run: seq<Input>, i: Input, at: Scope, f: Field, n: nat, any: bool)
    ensures var v := Run(cfg, s, run);
      && Run(cfg, s, run + [i]) == Step(cfg, v, i)
      && (CanRun(cfg, s, run + [i]) <==> (CanRun(cfg, s, run) && CanStep(cfg, v, i)))
      && TakenIn(cfg, s, run + [i], at, f, n) == TakenAfter(v, i, at, f, TakenIn(cfg, s, run, at, f, n))
      && (AnyDrop(cfg, s, run + [i], at, f, any) <==>
          (!i.Wipe? && (AnyDrop(cfg, s, run, at, f, any) || Drops(cfg, v, i, at, f))))
    decreases |run|
  {
    hide Step, CanStep, TakenAfter, Drops;
    if run == [] {
      assert run + [i] == [i] && [i][1..] == [];
      OneStep(cfg, s, i, at, f, n, any);
    } else {
      assert (run + [i])[1..] == run[1..] + [i];
      RunSnoc(cfg, Step(cfg, s, run[0]), run[1..], i, at, f, TakenAfter(s, run[0], at, f, n),
              !run[0].Wipe? && (any || Drops(cfg, s, run[0], at, f)));
    }
  }

  lemma OneStep(cfg: Config, s: State, i: Input, at: Scope, f: Field, n: nat, any: bool)
    ensures Run(cfg, s, [i]) == Step(cfg, s, i) && (CanRun(cfg, s, [i]) <==> CanStep(cfg, s, i))
    ensures TakenIn(cfg, s, [i], at, f, n) == TakenAfter(s, i, at, f, n)
    ensures AnyDrop(cfg, s, [i], at, f, any) <==> (!i.Wipe? && (any || Drops(cfg, s, i, at, f)))
  {
    hide Step, CanStep, TakenAfter, Drops;
    assert [i][1..] == [];
  }

  // ----- runs that lose packets -----

  /** A call set up, and one packet of its media. */
  function SetUp(invite: C.SipMsg, ts: u64, key: StreamKey, seq16: u16, len: nat): seq<Input> {
    [Sip(invite, false, Some([key.flow.src]), Choice([], []))] + [Rtp(ts, key.flow, key.ssrc, seq16, len)]
  }

  /** One call, being set up, whose media comes from `src`. */
  ghost predicate OneCall(s: State, id: Str, src: SocketAddr) {
    && s.reg.calls.Keys == {id} && s.reg.calls[id].state.Dialing? && s.terminalDone == {}
    && s.reg.endpointCall == map[src := id]
  }

  /** And one stream, with one packet nobody is charged for yet. */
  ghost predicate OneStream(r: Reg, key: StreamKey, ts: u64) {
    && r.streams.Keys == {key} && r.streams[key].lastTs == Some(ts)
    && r.streams[key].flow == key.flow && r.streams[key].packets == 1 && r.streams[key].ipPkts == 0
  }

  lemma InviteStep(cfg: Config, invite: C.SipMsg, src: SocketAddr, ch: Choice)
    requires C.InitialInvite(invite)
    ensures var i := Sip(invite, false, Some([src]), ch);
      && CanStep(cfg, START, i) && !NewlyTerminal(TakeSip(START, invite, false, Some([src])), invite.callId)
      && OneCall(Step(cfg, START, i), invite.callId, src) && Step(cfg, START, i).reg.streams == map[]
  {
    hide CanEvict;
    var s := NoteInvite(START, invite, false);
    assert s.reg.calls == map[] && s.reg.streams == map[] && s.reg.endpointCall == map[] && s.terminalDone == {} by {
      CountsOnly(START.reg, [invite.src.ip, invite.dst.ip], true);
      hide CountActive;
    }
    hide NoteInvite;
    var r := ApplyToCall(s.reg, invite);
    assert r.calls == map[invite.callId := C.Apply(C.NEW_CALL, invite)];
    assert r.endpointCall == map[] && r.streams == map[];
    hide ApplyToCall;
    LearnOne(r, src, invite.callId);
    hide Learn;
    assert Learn(r, [src], invite.callId).endpointCall == map[src := invite.callId];
  }

  lemma LearnOne(r: Reg, src: SocketAddr, id: Str)
    ensures Learn(r, [src], id) == r.(endpointCall := r.endpointCall[src := id])
  {
    assert [src][1..] == [];
  }

  lemma FirstPacketStep(cfg: Config, s: State, id: Str, ts: u64, flow: Flow5Tuple, ssrc: u32, seq16: u16, len: nat)
    requires OneCall(s, id, flow.src) && s.reg.streams == map[]
    ensures var v := Step(cfg, s, Rtp(ts, flow, ssrc, seq16, len));
      OneCall(v, id, flow.src) && OneStream(v.reg, StreamKey(flow, ssrc), ts) && Taken(s.reg, flow, ssrc)
    ensures CanStep(cfg, s, Rtp(ts, flow, ssrc, seq16, len))
  {
    hide AddTo, PacketBothWays, Account.Credit;
    var key := StreamKey(flow, ssrc);
    OpenShape(s.reg, key, id, ts, seq16, len);
    ObservedFields(NewStream(id, flow), ts, seq16, len);
    hide OpenStream, Observed;
    assert CallOfFlow(s.reg, flow) == Some(id);
  }

  /** Never ticked, and an address never heard of. */
  ghost predicate Fresh(s: State, ip: IpAddr) {
    s.lastIpattr.None? && s.lastFlush.None? && EntryOf(s.reg.ips, ip) == NEW_IP && s.pins.query.None?
  }

  lemma InviteFresh(cfg: Config, invite: C.SipMsg, src: SocketAddr, ch: Choice, ip: IpAddr)
    requires C.InitialInvite(invite) && ip != invite.src.ip && ip != invite.dst.ip
    ensures Fresh(Step(cfg, START, Sip(invite, false, Some([src]), ch)), ip)
  {
    InviteStep(cfg, invite, src, ch);
    hide CanStep, OneCall, NewlyTerminal, OnCallTerminal;
    var s := NoteInvite(START, invite, false);
    assert EntryOf(s.reg.ips, ip) == NEW_IP by {
      CountsElsewhere(START.reg, [invite.src.ip, invite.dst.ip], true, ip);
    }
    hide NoteInvite;
    var r := ApplyToCall(s.reg, invite);
    assert r.ips == s.reg.ips by {
      hide C.Apply;
    }
    hide ApplyToCall;
    LearnOne(r, src, invite.callId);
    hide Learn;
  }

  lemma {:induction false} CountsElsewhere(r: Reg, addrs: seq<IpAddr>, up: bool, ip: IpAddr)
    requires ip !in addrs
    ensures EntryOf(CountActive(r, addrs, up).ips, ip) == EntryOf(r.ips, ip)
    decreases |addrs|
  {
    if addrs != [] {
      CountsElsewhere(r.(ips := AddActive(r.ips, addrs[0], up)), addrs[1..], up, ip);
    }
  }

  lemma FirstPacketFresh(cfg: Config, s: State, id: Str, ts: u64, flow: Flow5Tuple, ssrc: u32, seq16: u16, len: nat,
                         ip: IpAddr)
    requires OneCall(s, id, flow.src) && s.reg.streams == map[] && Fresh(s, ip)
    ensures var v := Step(cfg, s, Rtp(ts, flow, ssrc, seq16, len));
      Fresh(v, ip)
  {
    hide AddTo, PacketBothWays, Account.Credit;
    OpenShape(s.reg, StreamKey(flow, ssrc), id, ts, seq16, len);
  }

  /** After that the packet is taken, and in its stream's tail. */
  lemma SetUpRun(cfg: Config, invite: C.SipMsg, ts: u64, key: StreamKey, seq16: u16, len: nat, at: Scope, f: Field)
    requires C.InitialInvite(invite) && f.Pkts? && Covers(at, key.flow, f)
    ensures var run := SetUp(invite, ts, key, seq16, len);
      var s := Run(cfg, START, run);
      && CanRun(cfg, START, run) && TakenIn(cfg, START, run, at, f, 0) == 1
      && OneCall(s, invite.callId, key.flow.src) && OneStream(s.reg, key, ts)
     
      && (at.At? && at.ip != invite.src.ip && at.ip != invite.dst.ip ==> Fresh(s, at.ip))
  {
    var i0, i1 := Sip(invite, false, Some([key.flow.src]), Choice([], [])), Rtp(ts, key.flow, key.ssrc, seq16, len);
    hide Step, CanStep, Taken, OneCall, OneStream, Fresh, Run, CanRun, TakenIn, AnyDrop;
    InviteStep(cfg, invite, key.flow.src, Choice([], []));
    var s1 := Step(cfg, START, i0);
    OneStep(cfg, START, i0, at, f, 0, false);
    RunSnoc(cfg, START, [i0], i1, at, f, 0, false);
    FirstPacketStep(cfg, s1, invite.callId, ts, key.flow, key.ssrc, seq16, len);
    if at.At? && at.ip != invite.src.ip && at.ip != invite.dst.ip {
      InviteFresh(cfg, invite, key.flow.src, Choice([], []), at.ip);
      FirstPacketFresh(cfg, s1, invite.callId, ts, key.flow, key.ssrc, seq16, len, at.ip);
    }
  }

  lemma CancelTaken(s: State, cancel: C.SipMsg, src: SocketAddr)
    requires OneCall(s, cancel.callId, src) && cancel.isRequest && cancel.method_ == Some(C.Cancel)
    ensures var t := TakeSip(s, cancel, false, None);
      && t.reg.calls.Keys == {cancel.callId} && NewlyTerminal(t, cancel.callId) && t.reg.streams == s.reg.streams
  {
  }

  /** With no stream allowed, a call that ends leaves through the stream cap: its open tail is lost. */
  lemma CancelStep(cfg: Config, s: State, cancel: C.SipMsg, key: StreamKey, ts: u64, at: Scope, f: Field)
    requires cfg.keepTerminated && cfg.caps.calls > 0 && cfg.caps.streams == 0
    requires OneCall(s, cancel.callId, key.flow.src) && OneStream(s.reg, key, ts)
    requires cancel.isRequest && cancel.method_ == Some(C.Cancel) && f.Pkts? && Covers(at, key.flow, f)
    ensures var i := Sip(cancel, false, None, Choice([], [key]));
      CanStep(cfg, s, i) && Drops(cfg, s, i, at, f)
  {
    var t, id := TakeSip(s, cancel, false, None), cancel.callId;
    CancelTaken(s, cancel, key.flow.src);
    hide TakeSip;
    var r := CountTerminal(MarkTerminal(t, id), id).reg;
    CountsOnly(t.reg, t.reg.calls[id].origin.activeIps, false);
    assert r.calls == t.reg.calls && r.streams == t.reg.streams by {
      hide CountActive;
    }
    hide CountTerminal;
    assert |r.calls| == 1 by {
      assert |r.calls.Keys| == |{id}|;
    }
    assert |r.streams| == 1 by {
      assert |r.streams.Keys| == |{key}|;
    }
    assert key in [key] && TailAt(r.streams[key], at, f) > 0;
  }

  /**
    A packet lost to the stream cap: in a mode that keeps terminated calls, with no
    stream allowed, cancelling a call right after its first packet leaves the packet
    charged to nobody, at its source, at its destination and in all.
   */
  lemma CapLosesPacket(cfg: Config, invite: C.SipMsg, cancel: C.SipMsg, ts: u64, key: StreamKey, seq16: u16, len: nat,
                       at: Scope, f: Field)
    requires cfg.keepTerminated && cfg.caps.calls > 0 && cfg.caps.streams == 0
    requires C.InitialInvite(invite) && cancel.callId == invite.callId
    requires cancel.isRequest && cancel.method_ == Some(C.Cancel) && f.Pkts? && Covers(at, key.flow, f)
    ensures var run := SetUp(invite, ts, key, seq16, len) + [Sip(cancel, false, None, Choice([], [key]))];
      && CanRun(cfg, START, run) && TakenIn(cfg, START, run, at, f, 0) == 1
      && Balance(Run(cfg, START, run).reg, at, f) == 0
  {
    hide SetUp, Step, CanStep, OneCall, OneStream, Fresh, Drops, Run, CanRun, TakenIn, AnyDrop, Balance, Dropped;
    var run, i := SetUp(invite, ts, key, seq16, len), Sip(cancel, false, None, Choice([], [key]));
    SetUpRun(cfg, invite, ts, key, seq16, len, at, f);
    CancelStep(cfg, Run(cfg, START, run), cancel, key, ts, at, f);
    RunSnoc(cfg, START, run, i, at, f, 0, false);
    RunBalances(cfg, run + [i], at, f);
  }

  lemma ArmStep(cfg: Config, s: State, t0: u64, o: Orders)
    requires s.lastIpattr.None? && s.lastFlush.None?
    ensures CanStep(cfg, s, Tick(t0, [], o))
    ensures Step(cfg, s, Tick(t0, [], o)) == s.(lastIpattr := Some(t0), lastFlush := Some(t0))
  {
    hide CanEvict, Maintain, Stale, FlushAll;
  }

  /** A charge with packets in it is what either end was last seen by, and is no call. */
  lemma ChargeSeen(ips: Ips, s: Stream, ip: IpAddr)
    requires Tail(s, Pkts(Tx)) > 0 && (ip == s.flow.src.ip || ip == s.flow.dst.ip)
    ensures var v := Charge(ips, s);
      ip in v && v[ip].active == EntryOf(ips, ip).active && v[ip].lastSeen == Some(s.lastTs.GetOr(0))
  {
    hide LossOf, PacketsOf, LostOf, Bucket.Plus;
  }

  lemma FlushOne(r: Reg, key: StreamKey)
    ensures FlushAll(r, [key]) == FlushIpattr(r, key)
  {
    hide FlushIpattr;
    assert [key][1..] == [];
  }

  lemma NothingEvicted(r: Reg, caps: Caps, pins: set<Str>)
    requires |r.calls| <= caps.calls && |r.streams| <= caps.streams
    ensures EvictIfNeeded(r, Choice([], [])) == r && CanEvict(r, caps, pins, Choice([], []))
  {
  }

  lemma OneOfEach(r: Reg, id: Str, key: StreamKey)
    requires r.calls.Keys == {id} && r.streams.Keys == {key}
    ensures |r.calls| == 1 && |r.streams| == 1
  {
    assert |r.calls.Keys| == |{id}| && |r.streams.Keys| == |{key}|;
  }

  /** Flushed an hour late, an address has its packet and is idle. */
  lemma FlushedIdle(r: Reg, key: StreamKey, ts: u64, cutoff: u64, ip: IpAddr, f: Field)
    requires OneStream(r, key, ts) && EntryOf(r.ips, ip) == NEW_IP
    requires ts < cutoff && f.Pkts? && IsEnd(key.flow, f, ip)
    ensures var v := FlushIpattr(r, key);
      v == r.(ips := v.ips, streams := v.streams) && v.streams.Keys == {key}
      && HasCount(IdleIps(v.ips, cutoff), At(ip), f)
  {
    ChargeLands(r.ips, r.streams[key], At(ip), f);
    ChargeSeen(r.ips, r.streams[key], ip);
    hide Charge;
    var pruned := IdleIps(FlushIpattr(r, key).ips, cutoff);
    assert ip in pruned && pruned[ip].totals.Get(f) > 0;
  }

  /** An hour after its last packet an address goes, with the packet just charged to it. */
  lemma IdleStep(cfg: Config, s: State, id: Str, key: StreamKey, ts: u64, t1: u64, ip: IpAddr, f: Field)
    requires cfg.caps.calls > 0 && cfg.caps.streams > 0 && cfg.ttlSecs == 0
    requires OneCall(s, id, key.flow.src) && OneStream(s.reg, key, ts)
    requires EntryOf(s.reg.ips, ip) == NEW_IP && s.lastIpattr.Some? && s.lastIpattr == s.lastFlush
    requires SatSub(t1, s.lastFlush.value) >= 5_000_000 && ts + IDLE_US < t1
    requires f.Pkts? && IsEnd(key.flow, f, ip)
    ensures var i := Tick(t1, [], Orders([key], [id], Choice([], [])));
      CanStep(cfg, s, i) && Drops(cfg, s, i, At(ip), f)
  {
    var o := Orders([key], [id], Choice([], []));
    var a := Attribute(s, t1, o);
    FlushOne(s.reg, key);
    FlushedIdle(s.reg, key, ts, SatSub(t1, IDLE_US), ip, f);
    hide FlushAll, FlushIpattr, IdleIps, HasCount, CanEvict, EvictIfNeeded, CutsOpen, Pinned;
    var r := FlushIpattr(s.reg, key);
    assert a.reg == r;
    assert Stale(cfg, a, t1, [], o).reg == r;
    hide Attribute, Stale, OneStream;
    OneOfEach(r, id, key);
    NothingEvicted(r, cfg.caps, Pinned(Stale(cfg, a, t1, [], o).pins));
  }

  /**
    A packet lost to idleness: with a call still up, an address that is no end of its
    signalling is dropped by a maintenance tick over an hour after its packet, and the
    packet with it.
   */
  lemma IdleLosesPacket(cfg: Config, invite: C.SipMsg, ts: u64, key: StreamKey, seq16: u16, len: nat, t0: u64, t1: u64,
                        ip: IpAddr, f: Field)
    requires cfg.caps.calls > 0 && cfg.caps.streams > 0 && cfg.ttlSecs == 0
    requires C.InitialInvite(invite) && ip != invite.src.ip && ip != invite.dst.ip
    requires f.Pkts? && IsEnd(key.flow, f, ip) && t0 + 5_000_000 <= t1 && ts + IDLE_US < t1
    ensures var run := SetUp(invite, ts, key, seq16, len)
          + [Tick(t0, [], Orders([], [], Choice([], [])))]
          + [Tick(t1, [], Orders([key], [invite.callId], Choice([], [])))];
      && CanRun(cfg, START, run) && TakenIn(cfg, START, run, At(ip), f, 0) == 1
      && Balance(Run(cfg, START, run).reg, At(ip), f) == 0
  {
    hide SetUp, Step, CanStep, OneCall, OneStream, Drops, Run, CanRun, TakenIn, AnyDrop, Balance, Dropped;
    var run, i0 := SetUp(invite, ts, key, seq16, len), Tick(t0, [], Orders([], [], Choice([], [])));
    var i1 := Tick(t1, [], Orders([key], [invite.callId], Choice([], [])));
    SetUpRun(cfg, invite, ts, key, seq16, len, At(ip), f);
    var s := Run(cfg, START, run);
    ArmStep(cfg, s, t0, i0.orders);
    RunSnoc(cfg, START, run, i0, At(ip), f, 0, false);
    var s3 := Run(cfg, START, run + [i0]);
    StillOne(s, s3, invite.callId, key);
    IdleStep(cfg, s3, invite.callId, key, ts, t1, ip, f);
    RunSnoc(cfg, START, run + [i0], i1, At(ip), f, 0, false);
    RunBalances(cfg, run + [i0] + [i1], At(ip), f);
  }

  lemma StillOne(s: State, v: State, id: Str, key: StreamKey)
    requires OneCall(s, id, key.flow.src) && v.reg == s.reg && v.terminalDone == s.terminalDone
    ensures OneCall(v, id, key.flow.src)
  {
  }
}
