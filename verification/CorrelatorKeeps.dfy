/** What every step, and so every run, of the correlator keeps. */
module CorrelatorKeeps {
  import opened Prelude
  import opened Net
  import opened Utf8
  import opened KeyIndex
  import opened IpStats
  import opened Registry
  import opened RegistryKeeps
  import opened Eviction
  import opened Correlator
  import C = Call
  import Sums

  function CountOf(states: seq<C.CallState>, completed: bool): nat {
    if states == [] then 0
    else CountOf(states[..|states| - 1], completed) + if states[|states| - 1].Completed? == completed then 1 else 0
  }

  /** Teardown counters against the events emitted. */
  ghost predicate Counted(s: State) {
    && (forall i :: 0 <= i < |s.teardowns| ==> C.Terminal(s.teardowns[i]))
    && s.completed == CountOf(s.teardowns, true) && s.failed == CountOf(s.teardowns, false)
    && s.completed + s.failed == |s.teardowns|
  }

  /** Per-call bookkeeping speaks of live calls, or of ones about to be forgotten. */
  ghost predicate Booked(s: State, gone: set<Str>) {
    && s.inviteRr.Keys <= s.reg.calls.Keys + gone
    && s.terminalDone <= s.reg.calls.Keys + gone
  }

  /** Every live terminal call, save maybe one, was handled. */
  ghost predicate Handled(s: State, but: set<Str>) {
    forall id :: id in s.reg.calls && C.Terminal(s.reg.calls[id].state) && id !in but ==> id in s.terminalDone
  }

  ghost predicate Inv(s: State) {
    Sane(s.reg) && s.reg.removed == [] && Booked(s, {}) && Handled(s, {}) && Counted(s)
  }

  // ----- the parts of a step -----

  lemma TouchedSane(r: Reg, id: Str, ts: u64)
    requires Sane(r)
    ensures var v := Touched(r, id, ts);
      && Sane(v) && SameButTimes(r, v)
  {
    if id in r.calls {
      SetCallSane(r, id, r.calls[id].(lastTs := ts));
    }
  }

  /** Same calls in the same states, same removals and same history. */
  ghost predicate SameButTimes(r: Reg, v: Reg) {
    && v.calls.Keys == r.calls.Keys && (forall id :: id in r.calls ==> v.calls[id].state == r.calls[id].state)
    && v.removed == r.removed && v.ledger == r.ledger
  }

  lemma WithIpsSane(r: Reg, id: Str, flow: Flow5Tuple)
    requires Sane(r)
    ensures var v := WithIps(r, id, flow);
      && Sane(v) && SameButTimes(r, v)
  {
    if id in r.calls {
      hide Sane;
      SetCallSane(r, id, WithIps(r, id, flow).calls[id]);
    }
  }

  lemma KnownStreamSane(r: Reg, key: StreamKey, ts: u64, seq16: u16, len: nat)
    requires Sane(r) && key in r.streams
    ensures var o := ObservePacket(r, key, ts, seq16, len);
      var v := Touched(o, r.streams[key].callId, ts);
      && Sane(v) && SameButTimes(o, v) && o.calls == r.calls && o.removed == r.removed
      && v.ledger == r.ledger.(taken := r.ledger.taken.Credit(key.flow, PacketBothWays(len)))
  {
    hide Sane, Touched, PacketBothWays;
    PacketSane(r, key, ts, seq16, len);
    TouchedSane(ObservePacket(r, key, ts, seq16, len), r.streams[key].callId, ts);
  }

  lemma NewStreamSane(r: Reg, key: StreamKey, id: Str, ts: u64, seq16: u16, len: nat)
    requires Sane(r) && key !in r.streams && id in r.calls
    ensures var o := OpenStream(r, key, id, ts, seq16, len);
      var v := Touched(WithIps(o, id, key.flow), id, ts);
      && Sane(v) && SameButTimes(o, v) && o.calls == r.calls && o.removed == r.removed
      && v.ledger == r.ledger.(taken := r.ledger.taken.Credit(key.flow, PacketBothWays(len)))
  {
    hide Sane, Touched, WithIps, Observed, AddTo, PacketBothWays;
    var o := OpenStream(r, key, id, ts, seq16, len);
    OpenSane(r, key, id, ts, seq16, len);
    WithIpsSane(o, id, key.flow);
    TouchedSane(WithIps(o, id, key.flow), id, ts);
  }

  lemma RtpSane(r: Reg, ts: u64, flow: Flow5Tuple, ssrc: u32, seq16: u16, len: nat)
    requires Sane(r)
    ensures var v := IngestRtp(r, ts, flow, ssrc, seq16, len);
      && Sane(v) && v.calls.Keys == r.calls.Keys && v.removed == r.removed
      && (forall id :: id in r.calls ==> v.calls[id].state == r.calls[id].state)
      && v.ledger == if Taken(r, flow, ssrc)
                     then r.ledger.(taken := r.ledger.taken.Credit(flow, PacketBothWays(len))) else r.ledger
  {
    FlowCallLives(r, flow);
    hide Sane, Touched, WithIps, CallOfFlow, ObservePacket, OpenStream, PacketBothWays;
    var key := StreamKey(flow, ssrc);
    if key in r.streams {
      KnownStreamSane(r, key, ts, seq16, len);
    } else if CallOfFlow(r, flow).Some? {
      NewStreamSane(r, key, CallOfFlow(r, flow).value, ts, seq16, len);
    }
  }

  lemma FlowCallLives(r: Reg, flow: Flow5Tuple)
    requires Sane(r)
    ensures CallOfFlow(r, flow).Some? ==> CallOfFlow(r, flow).value in r.calls
  {
  }

  lemma RtcpSane(r: Reg, ts: u64, ssrc: u32)
    requires Sane(r)
    ensures var v := IngestRtcp(r, ts, ssrc);
      && Sane(v) && SameButTimes(r, v)
  {
    hide Sane, Touched;
    if ListOf(r.ssrcIndex, ssrc) != [] && ListOf(r.ssrcIndex, ssrc)[0] in r.streams {
      TouchedSane(r, r.streams[ListOf(r.ssrcIndex, ssrc)[0]].callId, ts);
    }
  }

  // ----- bookkeeping -----

  /** Forgetting removed calls brings the bookkeeping back to live calls. */
  lemma PruneKeeps(s: State)
    requires Sane(s.reg) && Booked(s, SetOf(s.reg.removed)) && Handled(s, SetOf(s.reg.removed)) && Counted(s)
    requires forall id :: id in s.reg.removed ==> id !in s.reg.calls
    ensures Inv(PruneBookkeeping(s))
  {
    var v := PruneBookkeeping(s);
    hide Counted, Sane;
    SaneBeside(s.reg, v.reg);
    assert Counted(v) by {
      CountedSame(s, v);
    }
  }

  lemma CountedSame(s: State, v: State)
    requires Counted(s) && v.teardowns == s.teardowns && v.completed == s.completed && v.failed == s.failed
    ensures Counted(v)
  {
  }

  /** Only `removed` differs. */
  lemma SaneBeside(r: Reg, v: Reg)
    requires Sane(r) && v == r.(removed := v.removed)
    ensures Sane(v)
  {
    hide Conserved, Agrees;
    IndexBeside(r, v);
  }

  // ----- SIP -----

  lemma NoteInviteKeeps(s: State, m: C.SipMsg, rr: bool)
    requires Inv(s)
    ensures var v := NoteInvite(s, m, rr);
      && Sane(v.reg) && v.reg.removed == [] && Booked(v, {m.callId}) && Handled(v, {}) && Counted(v)
      && v.reg.ledger == s.reg.ledger && v.pins == s.pins
  {
    hide Sane, Counted;
    if C.InitialInvite(m) {
      ActiveSane(s.reg, [m.src.ip, m.dst.ip], true);
    }
    CountedSame(s, NoteInvite(s, m, rr));
  }

  lemma ApplyToCallSane(r: Reg, m: C.SipMsg)
    requires Sane(r)
    ensures var v := ApplyToCall(r, m);
      && Sane(v) && v.calls.Keys == r.calls.Keys + {m.callId} && v.removed == r.removed && v.ledger == r.ledger
      && (forall id :: id in r.calls && id != m.callId ==> v.calls[id] == r.calls[id])
  {
    hide Sane, GetOrCreateCall, C.Apply;
    var n := GetOrCreateCall(r, m.callId);
    CreateShape(r, m.callId);
    CreateSane(r, m.callId);
    SetCallSane(n, m.callId, C.Apply(n.calls[m.callId], m));
  }

  lemma CreateShape(r: Reg, id: Str)
    ensures var v := GetOrCreateCall(r, id);
      && v.calls.Keys == r.calls.Keys + {id} && (forall x :: x in r.calls ==> v.calls[x] == r.calls[x])
      && v.removed == r.removed && v.ledger == r.ledger
  {
  }

  lemma TakeSipKeeps(s: State, m: C.SipMsg, rr: bool, learned: Option<seq<SocketAddr>>)
    requires Inv(s)
    ensures var v := TakeSip(s, m, rr, learned);
      && Sane(v.reg) && v.reg.removed == [] && Booked(v, {}) && Handled(v, {m.callId}) && Counted(v)
      && m.callId in v.reg.calls && v.reg.ledger == s.reg.ledger && v.pins == s.pins
  {
    hide Sane, Counted, NoteInvite, ApplyToCall;
    var t := NoteInvite(s, m, rr);
    NoteInviteKeeps(s, m, rr);
    ApplyToCallSane(t.reg, m);
    var r := ApplyToCall(t.reg, m);
    if learned.Some? {
      LearnSane(r, learned.value, m.callId);
    }
    CountedSame(t, TakeSip(s, m, rr, learned));
  }

  lemma CountSnoc(states: seq<C.CallState>, c: C.CallState, completed: bool)
    ensures CountOf(states + [c], completed) == CountOf(states, completed) + if c.Completed? == completed then 1 else 0
  {
    assert (states + [c])[..|states|] == states;
  }

  lemma CountTerminalKeeps(s: State, id: Str)
    requires Sane(s.reg) && id in s.reg.calls && C.Terminal(s.reg.calls[id].state) && Counted(s)
    ensures var v := CountTerminal(s, id);
      && Sane(v.reg) && v.reg.calls == s.reg.calls && v.reg.removed == s.reg.removed && Counted(v)
      && v.reg.ledger == s.reg.ledger
  {
    hide Sane;
    var c := s.reg.calls[id];
    ActiveSane(s.reg, c.origin.activeIps, false);
    CountSnoc(s.teardowns, c.state, true);
    CountSnoc(s.teardowns, c.state, false);
  }

  /** Retiring removes calls and says which. */
  lemma RetireKeeps(cfg: Config, r: Reg, pins: set<Str>, id: Str, ch: Choice)
    requires Sane(r) && r.removed == [] && (cfg.keepTerminated ==> CanEvict(r, cfg.caps, pins, ch))
    ensures var v := Retire(cfg, r, id, ch);
      && Sane(v) && v.calls == r.calls - SetOf(v.removed) && v.ledger.taken == r.ledger.taken
  {
    hide Sane, RemoveCalls, EvictIfNeeded, CanEvict;
    if cfg.keepTerminated {
      EvictIfNeededExact(r, cfg.caps, pins, ch);
      assert [] + ch.victims == ch.victims;
    } else {
      AgreementOf(r);
      RemoveCallsKeeps(r, [id]);
      RemoveCallsSane(r, [id]);
      assert [] + [id] == [id];
    }
  }

  /** A state whose registry lost calls, the lost ones named in `removed`. */
  lemma ShrunkKeeps(s: State, v: State)
    requires Booked(s, {}) && Handled(s, {}) && Counted(s) && Sane(v.reg)
    requires v == s.(reg := v.reg, pins := v.pins) && v.reg.calls == s.reg.calls - SetOf(v.reg.removed)
    ensures Inv(PruneBookkeeping(v))
  {
    hide Sane, Counted;
    CountedSame(s, v);
    PruneKeeps(v);
  }

  lemma TerminalKeeps(cfg: Config, s: State, id: Str, ch: Choice)
    requires Sane(s.reg) && s.reg.removed == [] && Booked(s, {}) && Handled(s, {}) && Counted(s)
    requires id in s.reg.calls && C.Terminal(s.reg.calls[id].state)
    requires cfg.keepTerminated ==> CanEvict(CountTerminal(s, id).reg, cfg.caps, Pinned(s.pins), ch)
    ensures Inv(OnCallTerminal(cfg, s, id, ch))
    ensures OnCallTerminal(cfg, s, id, ch).reg.ledger.taken == s.reg.ledger.taken
  {
    hide Sane, Counted, CanEvict, Retire, CountActive;
    var t := CountTerminal(s, id);
    CountTerminalKeeps(s, id);
    RetireKeeps(cfg, t.reg, Pinned(s.pins), id, ch);
    ShrunkKeeps(t, t.(reg := Retire(cfg, t.reg, id, ch)));
  }

  lemma SipKeeps(cfg: Config, s: State, m: C.SipMsg, rr: bool, learned: Option<seq<SocketAddr>>, ch: Choice)
    requires Inv(s) && CanStep(cfg, s, Sip(m, rr, learned, ch))
    ensures Inv(IngestSip(cfg, s, m, rr, learned, ch))
    ensures IngestSip(cfg, s, m, rr, learned, ch).reg.ledger.taken == s.reg.ledger.taken
  {
    hide Sane, Counted, CanEvict, TakeSip, OnCallTerminal, CountTerminal;
    var t := TakeSip(s, m, rr, learned);
    TakeSipKeeps(s, m, rr, learned);
    if NewlyTerminal(t, m.callId) {
      var d := MarkTerminal(t, m.callId);
      CountedSame(t, d);
      TerminalKeeps(cfg, d, m.callId, ch);
    }
  }

  /** The teardown of a call and where it leaves its bookkeeping. */
  lemma TerminalEmits(cfg: Config, s: State, id: Str, ch: Choice)
    requires id in s.reg.calls && id in s.terminalDone && Sane(s.reg) && s.reg.removed == []
    requires cfg.keepTerminated ==> CanEvict(CountTerminal(s, id).reg, cfg.caps, Pinned(s.pins), ch)
    ensures var v := OnCallTerminal(cfg, s, id, ch);
      && v.teardowns == s.teardowns + [s.reg.calls[id].state]
      && (id in v.reg.calls ==> id in v.terminalDone)
  {
    hide Sane, CanEvict, Retire, CountActive;
    var t := CountTerminal(s, id);
    ActiveSane(s.reg, s.reg.calls[id].origin.activeIps, false);
    RetireKeeps(cfg, t.reg, Pinned(s.pins), id, ch);
  }

  /**
    A call that ends emits one teardown event, and none again while it stays: a call
    already handled never emits another, and one just handled is either gone or marked.
   */
  lemma TeardownOnce(cfg: Config, s: State, m: C.SipMsg, rr: bool, learned: Option<seq<SocketAddr>>, ch: Choice)
    requires Inv(s) && CanStep(cfg, s, Sip(m, rr, learned, ch))
    ensures var t, v := TakeSip(s, m, rr, learned), IngestSip(cfg, s, m, rr, learned, ch);
      && v.teardowns == s.teardowns + (if NewlyTerminal(t, m.callId) then [t.reg.calls[m.callId].state] else [])
      && (m.callId in s.terminalDone ==> v.teardowns == s.teardowns)
      && (v.teardowns != s.teardowns && m.callId in v.reg.calls ==> m.callId in v.terminalDone)
  {
    var t := TakeSip(s, m, rr, learned);
    TakeSipKeeps(s, m, rr, learned);
    SameBookkeeping(s, m, rr, learned);
    hide Inv, Sane, Counted, CanEvict, TakeSip, OnCallTerminal, CountTerminal;
    if NewlyTerminal(t, m.callId) {
      TerminalEmits(cfg, MarkTerminal(t, m.callId), m.callId, ch);
    }
  }

  lemma SameBookkeeping(s: State, m: C.SipMsg, rr: bool, learned: Option<seq<SocketAddr>>)
    ensures var t := TakeSip(s, m, rr, learned);
      t.teardowns == s.teardowns && t.terminalDone == s.terminalDone && t.pins == s.pins
  {
    hide ApplyToCall, Learn, CountActive;
  }

  // ----- ticks -----

  lemma AttributeKeeps(s: State, ts: u64, o: Orders)
    requires Inv(s)
    ensures Inv(Attribute(s, ts, o)) && Attribute(s, ts, o).reg.ledger == s.reg.ledger
  {
    hide Sane, Counted, FlushAll, Due, Rearm;
    FlushAllSane(s.reg, o.flush);
    FlushAllKeeps(s.reg, o.flush);
    CountedSame(s, Attribute(s, ts, o));
  }

  lemma StaleSane(r: Reg, pins: set<Str>, ttlSecs: nat, now: u64, order: seq<Str>)
    requires Sane(r) && r.removed == [] && SetOf(order) == r.calls.Keys
    ensures var v := EvictStale(r, pins, ttlSecs, now, order);
      Sane(v) && v.calls == r.calls - SetOf(v.removed) && v.ledger.taken == r.ledger.taken
  {
    hide Sane, Outlived, EvictStale;
    EvictStaleExact(r, pins, ttlSecs, now, order);
    var v := EvictStale(r, pins, ttlSecs, now, order);
    assert SetOf(r.removed) == {};
    assert (r.calls - SetOf(v.removed)).Keys == v.calls.Keys;
  }

  lemma MaintainKeeps(cfg: Config, s: State, ts: u64, found: seq<Str>, o: Orders)
    requires Inv(s) && SetOf(o.stale) == s.reg.calls.Keys
    requires var t := Stale(cfg, s, ts, found, o); CanEvict(t.reg, cfg.caps, Pinned(t.pins), o.choice)
    ensures Inv(Maintain(cfg, s, ts, found, o))
    ensures Maintain(cfg, s, ts, found, o).reg.ledger.taken == s.reg.ledger.taken
  {
    hide Sane, Counted, CanEvict, EvictStale, EvictIfNeeded, Pinned, Refreshed;
    var t := Stale(cfg, s, ts, found, o);
    StaleSane(s.reg, Pinned(t.pins), cfg.ttlSecs, ts, o.stale);
    EvictAfter(s.reg.calls, t.reg, cfg.caps, Pinned(t.pins), o.choice);
    var e := t.(reg := EvictIfNeeded(t.reg, o.choice));
    ShrunkKeeps(s, e);
    IdleKeeps(PruneBookkeeping(e), SatSub(ts, IDLE_US));
  }

  lemma EvictAfter(calls: map<Str, C.Call>, r: Reg, caps: Caps, pins: set<Str>, ch: Choice)
    requires Sane(r) && CanEvict(r, caps, pins, ch) && r.calls == calls - SetOf(r.removed)
    ensures var v := EvictIfNeeded(r, ch);
      Sane(v) && v.calls == calls - SetOf(v.removed) && v.ledger.taken == r.ledger.taken
  {
    hide Sane, CanEvict, EvictIfNeeded;
    EvictIfNeededExact(r, caps, pins, ch);
    RemovedTwice(calls, r.removed, ch.victims);
  }

  lemma RemovedTwice(calls: map<Str, C.Call>, a: seq<Str>, b: seq<Str>)
    ensures (calls - SetOf(a)) - SetOf(b) == calls - SetOf(a + b)
  {
    assert SetOf(a + b) == SetOf(a) + SetOf(b);
  }

  lemma IdleKeeps(s: State, cutoff: u64)
    requires Inv(s)
    ensures Inv(s.(reg := PruneIdle(s.reg, cutoff)))
  {
    hide Sane, Counted;
    PruneSane(s.reg, cutoff);
    CountedSame(s, s.(reg := PruneIdle(s.reg, cutoff)));
  }

  lemma TickKeeps(cfg: Config, s: State, ts: u64, found: seq<Str>, o: Orders)
    requires Inv(s) && CanStep(cfg, s, Tick(ts, found, o))
    ensures Inv(PeriodicFlush(cfg, s, ts, found, o))
    ensures PeriodicFlush(cfg, s, ts, found, o).reg.ledger.taken == s.reg.ledger.taken
  {
    var a := Attribute(s, ts, o);
    AttributeKeeps(s, ts, o);
    var t := a.(lastFlush := Rearm(a.lastFlush, ts, 5_000_000));
    InvBeside(a, t);
    assert a.lastFlush == s.lastFlush;
    if Due(s.lastFlush, ts, 5_000_000) {
      SameStale(cfg, a, t, ts, found, o);
      hide Inv, CanEvict, Maintain, Attribute, Due, Rearm, Stale;
      MaintainKeeps(cfg, t, ts, found, o);
    }
  }

  lemma SameStale(cfg: Config, a: State, t: State, ts: u64, found: seq<Str>, o: Orders)
    requires t == a.(lastFlush := t.lastFlush)
    ensures Stale(cfg, t, ts, found, o).reg == Stale(cfg, a, ts, found, o).reg
    ensures Stale(cfg, t, ts, found, o).pins == Stale(cfg, a, ts, found, o).pins
  {
  }

  lemma InvBeside(s: State, v: State)
    requires Inv(s) && v == s.(lastFlush := v.lastFlush, pins := v.pins)
    ensures Inv(v)
  {
    hide Sane;
  }

  // ----- every step, every run -----

  lemma EmptySane(r: Reg)
    requires r == EMPTY_REG
    ensures Sane(r)
  {
  }

  lemma StartInv(pins: Pins)
    ensures Inv(START.(pins := pins))
  {
    hide Sane;
    EmptySane(START.reg);
  }

  lemma MediaKeeps(s: State, v: State)
    requires Inv(s) && v == s.(reg := v.reg) && Sane(v.reg) && v.reg.removed == s.reg.removed
    requires v.reg.calls.Keys == s.reg.calls.Keys
    requires forall id :: id in s.reg.calls ==> v.reg.calls[id].state == s.reg.calls[id].state
    ensures Inv(v)
  {
    hide Sane, Counted;
    CountedSame(s, v);
  }

  lemma SameTaken(s: State, v: State, i: Input)
    requires v.reg.ledger.taken == s.reg.ledger.taken && !i.Rtp? && !i.Wipe?
    ensures forall at, f :: v.reg.ledger.taken.Get(at, f) == TakenAfter(s, i, at, f, s.reg.ledger.taken.Get(at, f))
  {
  }

  lemma PacketTakes(a: Account, flow: Flow5Tuple, len: nat, at: Scope, f: Field)
    ensures a.Credit(flow, PacketBothWays(len)).Get(at, f)
         == a.Get(at, f) + if !Covers(at, flow, f) then 0 else if f.Pkts? then 1 else if f.Bytes? then len else 0
  {
    OnePacket(len, f);
    hide PacketBothWays, Account.Get, Account.Credit, Covers;
  }

  lemma RtpTakes(cfg: Config, s: State, i: Input)
    requires Sane(s.reg) && i.Rtp?
    ensures forall at, f ::
      Step(cfg, s, i).reg.ledger.taken.Get(at, f) == TakenAfter(s, i, at, f, s.reg.ledger.taken.Get(at, f))
  {
    var v := Step(cfg, s, i);
    assert v.reg.ledger.taken == if Taken(s.reg, i.flow, i.ssrc)
      then s.reg.ledger.taken.Credit(i.flow, PacketBothWays(i.len)) else s.reg.ledger.taken by {
      hide Sane, IngestRtp, Taken, PacketBothWays, Account.Credit;
      RtpSane(s.reg, i.ts, i.flow, i.ssrc, i.seq16, i.len);
    }
    hide Step, Sane, Taken, Covers, PacketBothWays, Account.Get, Account.Credit;
    forall at, f ensures v.reg.ledger.taken.Get(at, f) == TakenAfter(s, i, at, f, s.reg.ledger.taken.Get(at, f)) {
      PacketTakes(s.reg.ledger.taken, i.flow, i.len, at, f);
    }
  }

  lemma WipeTakes(cfg: Config, s: State)
    ensures forall at, f ::
      Step(cfg, s, Wipe).reg.ledger.taken.Get(at, f) == TakenAfter(s, Wipe, at, f, s.reg.ledger.taken.Get(at, f))
  {
  }

  lemma StepTakes(cfg: Config, s: State, i: Input)
    requires Inv(s) && CanStep(cfg, s, i)
    ensures forall at, f ::
      Step(cfg, s, i).reg.ledger.taken.Get(at, f) == TakenAfter(s, i, at, f, s.reg.ledger.taken.Get(at, f))
  {
    InvParts(s);
    hide Inv, Sane, IngestSip, IngestRtp, IngestRtcp, PeriodicFlush, CanStep, TakenAfter, Account.Get;
    match i {
      case Sip(m, rr, learned, ch) => SipKeeps(cfg, s, m, rr, learned, ch);
      case Rtp(_, _, _, _, _) => RtpTakes(cfg, s, i);
      case Rtcp(ts, ssrc) => RtcpSane(s.reg, ts, ssrc);
      case Tick(ts, found, o) => TickKeeps(cfg, s, ts, found, o);
      case Wipe => WipeTakes(cfg, s);
      case _ =>
    }
    if !i.Rtp? && !i.Wipe? {
      SameTaken(s, Step(cfg, s, i), i);
    }
  }

  /** Every step keeps the invariant, and counts as taken exactly the packets that go into a stream. */
  lemma StepKeeps(cfg: Config, s: State, i: Input)
    requires Inv(s) && CanStep(cfg, s, i)
    ensures Inv(Step(cfg, s, i))
    ensures forall at, f ::
      Step(cfg, s, i).reg.ledger.taken.Get(at, f) == TakenAfter(s, i, at, f, s.reg.ledger.taken.Get(at, f))
  {
    hide Inv, IngestSip, IngestRtp, IngestRtcp, PeriodicFlush, CanStep, TakenAfter, Account.Get;
    InvParts(s);
    StepTakes(cfg, s, i);
    match i {
      case Sip(m, rr, learned, ch) => SipKeeps(cfg, s, m, rr, learned, ch);
      case Rtp(ts, flow, ssrc, seq16, len) =>
        RtpSane(s.reg, ts, flow, ssrc, seq16, len);
        MediaKeeps(s, Step(cfg, s, i));
      case Rtcp(ts, ssrc) =>
        RtcpSane(s.reg, ts, ssrc);
        MediaKeeps(s, Step(cfg, s, i));
      case Tick(ts, found, o) => TickKeeps(cfg, s, ts, found, o);
      case FocusOn(f) => InvBeside(s, Step(cfg, s, i));
      case Search(q, found) => InvBeside(s, Step(cfg, s, i));
      case Wipe => StartInv(Pins(s.pins.query, [], None));
    }
  }

  lemma InvParts(s: State)
    requires Inv(s)
    ensures Sane(s.reg) && s.reg.removed == []
  {
  }

  lemma {:induction false} RunKeeps(cfg: Config, s: State, inputs: seq<Input>)
    requires Inv(s) && CanRun(cfg, s, inputs)
    ensures Inv(Run(cfg, s, inputs))
    ensures forall at, f ::
      Run(cfg, s, inputs).reg.ledger.taken.Get(at, f) == TakenIn(cfg, s, inputs, at, f, s.reg.ledger.taken.Get(at, f))
    decreases |inputs|
  {
    hide Inv, Step, CanStep, TakenAfter, Account.Get;
    if inputs != [] {
      StepKeeps(cfg, s, inputs[0]);
      RunKeeps(cfg, Step(cfg, s, inputs[0]), inputs[1..]);
    }
  }

  // ----- what that means -----

  /** Index agreement spelled out, both ways. */
  lemma AgreementMeans(r: Reg)
    requires Sane(r)
    ensures forall c, k :: (c in r.streamIndex && k in r.streamIndex[c]) <==> (k in r.streams && r.streams[k].callId == c)
    ensures forall n, k :: (n in r.ssrcIndex && k in r.ssrcIndex[n]) <==> (k in r.streams && k.ssrc == n)
    ensures forall c :: c in r.streamIndex ==> c in r.calls && NoDup(r.streamIndex[c]) && r.streamIndex[c] != []
    ensures forall n :: n in r.ssrcIndex ==> NoDup(r.ssrcIndex[n]) && r.ssrcIndex[n] != []
    ensures SetOf(r.order) == r.calls.Keys && |r.order| == |r.calls|
  {
    hide Conserved, Sound, Agrees;
    var owners, ssrcs := Owners(r.streams), Ssrcs(r.streams);
    AgreesMeans(r.streamIndex, owners);
    AgreesMeans(r.ssrcIndex, ssrcs);
    hide NoDup;
    forall c, k
      ensures (c in r.streamIndex && k in r.streamIndex[c]) <==> (k in r.streams && r.streams[k].callId == c)
    {
      assert (c in r.streamIndex && k in r.streamIndex[c]) <==> (k in owners && owners[k] == c);
    }
    forall n, k
      ensures (n in r.ssrcIndex && k in r.ssrcIndex[n]) <==> (k in r.streams && k.ssrc == n)
    {
      assert (n in r.ssrcIndex && k in r.ssrcIndex[n]) <==> (k in ssrcs && ssrcs[k] == n);
    }
    forall c | c in r.streamIndex ensures c in r.calls {
      var k := r.streamIndex[c][0];
      assert k in r.streamIndex[c];
      assert k in r.streams && r.streams[k].callId == c;
    }
    SetSize(r.order);
  }

  lemma BookkeepingMeans(s: State)
    requires Inv(s)
    ensures Sane(s.reg) && Agreement(s.reg) && s.reg.removed == []
    ensures s.inviteRr.Keys <= s.reg.calls.Keys && s.terminalDone <= s.reg.calls.Keys
    ensures forall id :: id in s.reg.calls && C.Terminal(s.reg.calls[id].state) ==> id in s.terminalDone
    ensures s.completed + s.failed == |s.teardowns|
  {
    hide Agreement, Conserved, Sound;
  }

  /** Right after the one-second tick nothing is in any tail: per-IP totals alone make up what was taken. */
  lemma AttributedExactly(s: State, ts: u64, o: Orders, at: Scope, f: Field)
    requires Inv(s) && s.lastIpattr.Some? && s.lastIpattr.value + 1_000_000 <= ts
    requires SetOf(o.flush) == s.reg.streams.Keys && !f.Lost?
    ensures var r := Attribute(s, ts, o).reg;
      Registry.Booked(r.ips, at, f) + DroppedIn(r.ledger, at, f) == r.ledger.taken.Get(at, f)
  {
    var r := Attribute(s, ts, o).reg;
    AttributeKeeps(s, ts, o);
    hide Inv, FlushAll, Tail, Registry.Booked, DroppedIn;
    assert Conserved(r) by {
      ConservedOf(Attribute(s, ts, o));
    }
    forall k | k in r.streams ensures TailIn(at, f)(r.streams[k]) == 0 {
      SameStreams(s.reg, o.flush);
      assert k in SetOf(o.flush);
      FlushAllSettles(s.reg, o.flush, k, f);
    }
    Sums.SumZero(r.streams, TailIn(at, f));
    assert Balance(r, at, f) + DroppedIn(r.ledger, at, f) == r.ledger.taken.Get(at, f);
  }

  lemma ConservedOf(s: State)
    requires Inv(s)
    ensures Conserved(s.reg)
  {
  }

  lemma SameStreams(r: Reg, keys: seq<StreamKey>)
    ensures FlushAll(r, keys).streams.Keys == r.streams.Keys
  {
    hide FlushAll;
    FlushAllKeeps(r, keys);
    var v := FlushAll(r, keys);
    assert v.streams.Keys == Owners(v.streams).Keys && r.streams.Keys == Owners(r.streams).Keys;
  }

  /** Maintenance brings both tables within their caps, save for pinned calls. */
  lemma MaintainBounds(cfg: Config, s: State, ts: u64, found: seq<Str>, o: Orders)
    requires Inv(s) && SetOf(o.stale) == s.reg.calls.Keys
    requires var t := Stale(cfg, s, ts, found, o); CanEvict(t.reg, cfg.caps, Pinned(t.pins), o.choice)
    ensures var v := Maintain(cfg, s, ts, found, o);
      && |v.reg.calls| <= Max(cfg.caps.calls, |Pinned(v.pins)|) && |v.reg.streams| <= cfg.caps.streams
      && (forall id :: id in s.reg.calls && id in Pinned(v.pins) ==> id in v.reg.calls)
      && v.inviteRr.Keys <= v.reg.calls.Keys && v.terminalDone <= v.reg.calls.Keys
  {
    hide Inv, Sane, Agreement, CanEvict, Pinned, Maintain, Stale, EvictIfNeeded;
    var t, v := Stale(cfg, s, ts, found, o), Maintain(cfg, s, ts, found, o);
    BookkeepingMeans(s);
    MaintainKeeps(cfg, s, ts, found, o);
    BookkeepingMeans(v);
    MaintainShape(cfg, s, ts, found, o);
    StaleKeepsPinned(cfg, s, ts, found, o);
    CapBounds(t.reg, cfg.caps, Pinned(t.pins), o.choice);
  }

  lemma CapBounds(r: Reg, caps: Caps, pins: set<Str>, ch: Choice)
    requires Sane(r) && CanEvict(r, caps, pins, ch)
    ensures var v := EvictIfNeeded(r, ch);
      && |v.calls| <= Max(caps.calls, |pins|) && |v.streams| <= caps.streams
      && (forall id :: id in r.calls && id in pins ==> id in v.calls)
  {
    hide Sane, CanEvict, EvictIfNeeded, SetOf;
    SubsetSize(r.calls.Keys * pins, pins);
    var v, n := EvictIfNeeded(r, ch), |r.calls.Keys * pins|;
    EvictIfNeededExact(r, caps, pins, ch);
    assert |v.calls| <= Max(caps.calls, n);
  }

  lemma MaintainShape(cfg: Config, s: State, ts: u64, found: seq<Str>, o: Orders)
    ensures var t, v := Stale(cfg, s, ts, found, o), Maintain(cfg, s, ts, found, o);
      && v.reg.calls == EvictIfNeeded(t.reg, o.choice).calls
      && v.reg.streams == EvictIfNeeded(t.reg, o.choice).streams && v.pins == t.pins
  {
    hide EvictIfNeeded, Stale;
  }

  lemma StaleKeepsPinned(cfg: Config, s: State, ts: u64, found: seq<Str>, o: Orders)
    requires Sane(s.reg) && SetOf(o.stale) == s.reg.calls.Keys
    ensures var t := Stale(cfg, s, ts, found, o);
      Sane(t.reg) && forall id :: id in s.reg.calls && id in Pinned(t.pins) ==> id in t.reg.calls
  {
    hide Sane, EvictStale, Outlived, Refreshed, Pinned;
    EvictStaleExact(s.reg, Pinned(Refreshed(s.pins, found)), cfg.ttlSecs, ts, o.stale);
  }

  lemma SubsetSize<T>(a: set<T>, b: set<T>)
    requires a <= b
    ensures |a| <= |b|
  {
    assert b == a + (b - a);
  }
}
