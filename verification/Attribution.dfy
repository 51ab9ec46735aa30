/** Per-address conservation over whole runs, and exactly which steps break it. */
module Attribution {
  import opened Prelude
  import opened Net
  import opened Utf8
  import opened Sums
  import opened KeyIndex
  import opened IpStats
  import opened Registry
  import opened RegistryKeeps
  import opened Eviction
  import opened Correlator
  import K = CorrelatorKeeps
  import C = Call

  // ----- what a step drops -----

  /** The streams at the moment a step applies the stream cap, and those it cuts. */
  ghost function CutBy(cfg: Config, s: State, i: Input): (map<StreamKey, Stream>, seq<StreamKey>) {
    match i
    case Sip(m, rr, learned, ch) =>
      var t := TakeSip(s, m, rr, learned);
      if cfg.keepTerminated && NewlyTerminal(t, m.callId)
      then (RemoveCalls(CountTerminal(MarkTerminal(t, m.callId), m.callId).reg, ch.victims).streams, ch.cut)
      else (map[], [])
    case Tick(ts, found, o) =>
      if Due(s.lastFlush, ts, 5_000_000)
      then (RemoveCalls(Stale(cfg, Attribute(s, ts, o), ts, found, o).reg, o.choice.victims).streams, o.choice.cut)
      else (map[], [])
    case _ => (map[], [])
  }

  /** The addresses a step prunes, with their totals. */
  ghost function PrunedBy(cfg: Config, s: State, i: Input): Ips {
    if i.Tick? && Due(s.lastFlush, i.ts, 5_000_000)
    then
      var r := Stale(cfg, Attribute(s, i.ts, i.orders), i.ts, i.found, i.orders).reg;
      IdleIps(EvictIfNeeded(r, i.orders.choice).ips, SatSub(i.ts, IDLE_US))
    else map[]
  }

  function CutTails(streams: map<StreamKey, Stream>, keys: seq<StreamKey>, at: Scope, f: Field): nat {
    if keys == [] then 0
    else (if keys[0] in streams then TailAt(streams[keys[0]], at, f) else 0) + CutTails(streams, keys[1..], at, f)
  }

  /** What a step drops of a scope: the open tails it cuts, and the totals it prunes. */
  ghost function Drop(cfg: Config, s: State, i: Input, at: Scope, f: Field): nat {
    CutTails(CutBy(cfg, s, i).0, CutBy(cfg, s, i).1, at, f) + Booked(PrunedBy(cfg, s, i), at, f)
  }

  ghost predicate CutsOpen(streams: map<StreamKey, Stream>, keys: seq<StreamKey>, at: Scope, f: Field) {
    exists k :: k in keys && k in streams && TailAt(streams[k], at, f) > 0
  }

  ghost predicate HasCount(ips: Ips, at: Scope, f: Field) {
    exists ip :: ip in ips && (at.Everywhere? || at.ip == ip) && ips[ip].totals.Get(f) > 0
  }

  /** Whether a step cuts a stream of the scope with an open tail, or prunes an address of it with a count. */
  ghost predicate Drops(cfg: Config, s: State, i: Input, at: Scope, f: Field) {
    CutsOpen(CutBy(cfg, s, i).0, CutBy(cfg, s, i).1, at, f) || HasCount(PrunedBy(cfg, s, i), at, f)
  }

  lemma {:induction false} CutTailsIff(streams: map<StreamKey, Stream>, keys: seq<StreamKey>, at: Scope, f: Field)
    ensures CutTails(streams, keys, at, f) > 0 <==> CutsOpen(streams, keys, at, f)
  {
    hide TailAt;
    if keys != [] {
      CutTailsIff(streams, keys[1..], at, f);
      assert keys == [keys[0]] + keys[1..];
    }
  }

  lemma {:induction false} BookedIff(ips: Ips, at: Scope, f: Field)
    ensures Booked(ips, at, f) > 0 <==> HasCount(ips, at, f)
  {
    if at.Everywhere? {
      hide SumMap;
      if HasCount(ips, at, f) {
        var ip :| ip in ips && ips[ip].totals.Get(f) > 0;
        SumTake(ips, GetOf(f), ip);
      } else {
        SumZero(ips, GetOf(f));
      }
    }
  }

  /** A step drops something exactly when it meets such a stream or address. */
  lemma DropIff(cfg: Config, s: State, i: Input, at: Scope, f: Field)
    ensures Drop(cfg, s, i, at, f) > 0 <==> Drops(cfg, s, i, at, f)
  {
    hide CutBy, PrunedBy, Booked, CutTails, CutsOpen, HasCount;
    CutTailsIff(CutBy(cfg, s, i).0, CutBy(cfg, s, i).1, at, f);
    BookedIff(PrunedBy(cfg, s, i), at, f);
  }

  // ----- the ledger records exactly that -----

  lemma {:induction false} CutTailsBeside(
      streams: map<StreamKey, Stream>, keys: seq<StreamKey>, k: StreamKey, at: Scope, f: Field)
    requires k !in keys
    ensures CutTails(streams - {k}, keys, at, f) == CutTails(streams, keys, at, f)
  {
    hide TailAt;
    if keys != [] {
      CutTailsBeside(streams, keys[1..], k, at, f);
    }
  }

  lemma {:induction false} CutAllDrops(r: Reg, keys: seq<StreamKey>, at: Scope, f: Field)
    requires NoDup(keys) && (forall k :: k in keys ==> k in r.streams) && !f.Lost?
    ensures DroppedIn(CutStreams(r, keys).ledger, at, f) == DroppedIn(r.ledger, at, f) + CutTails(r.streams, keys, at, f)
    decreases |keys|
  {
    hide TailAt, DroppedIn, CutStream;
    if keys != [] {
      var m := CutStream(r, keys[0]);
      CutTakes(r, keys[0]);
      CutDrops(r, keys[0], at, f);
      assert keys[0] !in keys[1..] && NoDup(keys[1..]);
      CutTailsBeside(r.streams, keys[1..], keys[0], at, f);
      CutAllDrops(m, keys[1..], at, f);
    }
  }

  lemma CutTakes(r: Reg, key: StreamKey)
    ensures CutStream(r, key).streams == r.streams - {key}
  {
    hide Unindex, TailBothWays, GoneWith;
  }

  lemma RemoveDropsNothing(r: Reg, ids: seq<Str>, at: Scope, f: Field)
    requires Sane(r)
    ensures DroppedIn(RemoveCalls(r, ids).ledger, at, f) == DroppedIn(r.ledger, at, f)
  {
    AgreementOf(r);
    RemoveCallsKeeps(r, ids);
    hide RemoveCalls, Agreement, Sane;
    SameDropped(r.ledger, RemoveCalls(r, ids).ledger, at, f);
  }

  lemma EvictDrops(r: Reg, caps: Caps, pins: set<Str>, ch: Choice, at: Scope, f: Field)
    requires Sane(r) && CanEvict(r, caps, pins, ch) && !f.Lost?
    ensures DroppedIn(EvictIfNeeded(r, ch).ledger, at, f)
         == DroppedIn(r.ledger, at, f) + CutTails(RemoveCalls(r, ch.victims).streams, ch.cut, at, f)
  {
    hide RemoveCalls, Sane, IsVictims, CutStreams, CutTails, DroppedIn;
    RemoveDropsNothing(r, ch.victims, at, f);
    CutAllDrops(RemoveCalls(r, ch.victims), ch.cut, at, f);
  }

  lemma TerminalDrops(cfg: Config, s: State, id: Str, ch: Choice, at: Scope, f: Field)
    requires Sane(s.reg) && id in s.reg.calls && C.Terminal(s.reg.calls[id].state) && K.Counted(s) && !f.Lost?
    requires cfg.keepTerminated ==> CanEvict(CountTerminal(s, id).reg, cfg.caps, Pinned(s.pins), ch)
    ensures DroppedIn(OnCallTerminal(cfg, s, id, ch).reg.ledger, at, f) == DroppedIn(s.reg.ledger, at, f)
      + if cfg.keepTerminated then CutTails(RemoveCalls(CountTerminal(s, id).reg, ch.victims).streams, ch.cut, at, f) else 0
  {
    K.CountTerminalKeeps(s, id);
    hide Sane, CanEvict, RemoveCalls, EvictIfNeeded, CountTerminal, K.Counted, DroppedIn, CutTails, Pinned;
    var r := CountTerminal(s, id).reg;
    if cfg.keepTerminated {
      EvictDrops(r, cfg.caps, Pinned(s.pins), ch, at, f);
    } else {
      RemoveDropsNothing(r, [id], at, f);
    }
  }

  lemma SipDrops(cfg: Config, s: State, i: Input, at: Scope, f: Field)
    requires i.Sip? && K.Inv(s) && CanStep(cfg, s, i) && !f.Lost?
    ensures DroppedIn(Step(cfg, s, i).reg.ledger, at, f) == DroppedIn(s.reg.ledger, at, f) + Drop(cfg, s, i, at, f)
  {
    var m, t := i.msg, TakeSip(s, i.msg, i.rr, i.learned);
    K.TakeSipKeeps(s, m, i.rr, i.learned);
    NoneBooked(PrunedBy(cfg, s, i), at, f);
    hide K.Inv, Sane, CanEvict, RemoveCalls, TakeSip, OnCallTerminal, CountTerminal, K.Counted, DroppedIn, Booked, Pinned;
    if NewlyTerminal(t, m.callId) {
      K.CountedSame(t, MarkTerminal(t, m.callId));
      TerminalDrops(cfg, MarkTerminal(t, m.callId), m.callId, i.choice, at, f);
    }
  }

  lemma NoneBooked(ips: Ips, at: Scope, f: Field)
    requires ips == map[]
    ensures Booked(ips, at, f) == 0
  {
  }

  lemma PruneDrops(r: Reg, cutoff: u64, at: Scope, f: Field)
    ensures DroppedIn(PruneIdle(r, cutoff).ledger, at, f)
         == DroppedIn(r.ledger, at, f) + Booked(IdleIps(r.ips, cutoff), at, f)
  {
    hide Booked, IdleIps, BusyIps;
  }

  lemma StaleDropsNothing(cfg: Config, s: State, ts: u64, found: seq<Str>, o: Orders, at: Scope, f: Field)
    requires Sane(s.reg)
    ensures DroppedIn(Stale(cfg, s, ts, found, o).reg.ledger, at, f) == DroppedIn(s.reg.ledger, at, f)
  {
    hide Sane, RemoveCalls, DroppedIn, StaleOf, Pinned, Refreshed;
    if cfg.ttlSecs > 0 && ts > 0 {
      RemoveDropsNothing(s.reg, StaleOf(s.reg, Pinned(Refreshed(s.pins, found)), Cutoff(cfg.ttlSecs, ts), o.stale), at, f);
    }
  }

  lemma MaintainDrops(cfg: Config, s: State, ts: u64, found: seq<Str>, o: Orders, at: Scope, f: Field)
    requires Sane(s.reg) && s.reg.removed == [] && SetOf(o.stale) == s.reg.calls.Keys && !f.Lost?
    requires var t := Stale(cfg, s, ts, found, o); CanEvict(t.reg, cfg.caps, Pinned(t.pins), o.choice)
    ensures var r := Stale(cfg, s, ts, found, o).reg;
      DroppedIn(Maintain(cfg, s, ts, found, o).reg.ledger, at, f) == DroppedIn(s.reg.ledger, at, f)
        + CutTails(RemoveCalls(r, o.choice.victims).streams, o.choice.cut, at, f)
        + Booked(IdleIps(EvictIfNeeded(r, o.choice).ips, SatSub(ts, IDLE_US)), at, f)
  {
    hide Sane, CanEvict, RemoveCalls, EvictStale, EvictIfNeeded, DroppedIn, Booked, IdleIps, PruneIdle, Pinned, Refreshed;
    var t := Stale(cfg, s, ts, found, o);
    K.StaleSane(s.reg, Pinned(t.pins), cfg.ttlSecs, ts, o.stale);
    StaleDropsNothing(cfg, s, ts, found, o, at, f);
    EvictDrops(t.reg, cfg.caps, Pinned(t.pins), o.choice, at, f);
    var e := PruneBookkeeping(t.(reg := EvictIfNeeded(t.reg, o.choice)));
    SameDropped(EvictIfNeeded(t.reg, o.choice).ledger, e.reg.ledger, at, f);
    PruneDrops(e.reg, SatSub(ts, IDLE_US), at, f);
  }

  lemma TickDrops(cfg: Config, s: State, i: Input, at: Scope, f: Field)
    requires i.Tick? && K.Inv(s) && CanStep(cfg, s, i) && !f.Lost?
    ensures DroppedIn(Step(cfg, s, i).reg.ledger, at, f) == DroppedIn(s.reg.ledger, at, f) + Drop(cfg, s, i, at, f)
  {
    var ts, found, o := i.ts, i.found, i.orders;
    var a := Attribute(s, ts, o);
    K.AttributeKeeps(s, ts, o);
    var t := a.(lastFlush := Rearm(a.lastFlush, ts, 5_000_000));
    K.InvBeside(a, t);
    K.InvParts(t);
    assert a.lastFlush == s.lastFlush;
    if Due(s.lastFlush, ts, 5_000_000) {
      K.SameStale(cfg, a, t, ts, found, o);
      hide K.Inv, Sane, CanEvict, Maintain, Attribute, Due, Rearm, Stale, RemoveCalls, EvictIfNeeded, IdleIps, Booked, DroppedIn;
      MaintainDrops(cfg, t, ts, found, o, at, f);
    } else {
      NoneBooked(PrunedBy(cfg, s, i), at, f);
    }
  }

  /** A step adds to the dropped amounts exactly what it drops. */
  lemma StepDrops(cfg: Config, s: State, i: Input, at: Scope, f: Field)
    requires K.Inv(s) && CanStep(cfg, s, i) && !f.Lost?
    ensures DroppedIn(Step(cfg, s, i).reg.ledger, at, f)
         == if i.Wipe? then 0 else DroppedIn(s.reg.ledger, at, f) + Drop(cfg, s, i, at, f)
  {
    if i.Sip? {
      SipDrops(cfg, s, i, at, f);
    } else if i.Tick? {
      TickDrops(cfg, s, i, at, f);
    } else {
      OtherDrops(cfg, s, i, at, f);
    }
  }

  lemma OtherDrops(cfg: Config, s: State, i: Input, at: Scope, f: Field)
    requires K.Inv(s) && !i.Sip? && !i.Tick?
    ensures DroppedIn(Step(cfg, s, i).reg.ledger, at, f) == if i.Wipe? then 0 else DroppedIn(s.reg.ledger, at, f)
    ensures Drop(cfg, s, i, at, f) == 0
  {
    K.InvParts(s);
    NoneBooked(PrunedBy(cfg, s, i), at, f);
    hide K.Inv, Sane, Agreement, IngestRtp, IngestRtcp, Booked, DroppedIn, Taken, PacketBothWays;
    if i.Rtp? {
      K.RtpSane(s.reg, i.ts, i.flow, i.ssrc, i.seq16, i.len);
      SameDropped(s.reg.ledger, Step(cfg, s, i).reg.ledger, at, f);
    } else if i.Rtcp? {
      K.RtcpSane(s.reg, i.ts, i.reporter);
      SameDropped(s.reg.ledger, Step(cfg, s, i).reg.ledger, at, f);
    } else if i.Wipe? {
      NothingDropped(at, f);
    }
  }

  lemma NothingDropped(at: Scope, f: Field)
    ensures DroppedIn(NO_HISTORY, at, f) == 0
  {
  }

  /** Removing calls leaves streams as they are or takes them out. */
  lemma RemovedStreams(r: Reg, ids: seq<Str>)
    requires Sane(r)
    ensures var v := RemoveCalls(r, ids).streams;
      forall k :: k in v ==> k in r.streams && v[k] == r.streams[k]
  {
    AgreementOf(r);
    RemoveCallsKeeps(r, ids);
    hide RemoveCalls, Agreement, Sane;
  }

  lemma StaleStreams(cfg: Config, s: State, ts: u64, found: seq<Str>, o: Orders)
    requires Sane(s.reg)
    ensures var v := Stale(cfg, s, ts, found, o).reg;
      Sane(v) && forall k :: k in v.streams ==> k in s.reg.streams && v.streams[k] == s.reg.streams[k]
  {
    hide Sane, RemoveCalls, StaleOf, Pinned, Refreshed;
    if cfg.ttlSecs > 0 && ts > 0 {
      RemoveCallsSane(s.reg, StaleOf(s.reg, Pinned(Refreshed(s.pins, found)), Cutoff(cfg.ttlSecs, ts), o.stale));
      RemovedStreams(s.reg, StaleOf(s.reg, Pinned(Refreshed(s.pins, found)), Cutoff(cfg.ttlSecs, ts), o.stale));
    }
  }

  /** A tick that also charges all tails cuts none open: only calls that end, and ticks within a second of one, do. */
  lemma ChargingTickCutsNothing(cfg: Config, s: State, i: Input, at: Scope, f: Field)
    requires K.Inv(s) && CanStep(cfg, s, i) && i.Tick? && s.lastIpattr.Some? && s.lastIpattr.value + 1_000_000 <= i.ts
    ensures !CutsOpen(CutBy(cfg, s, i).0, CutBy(cfg, s, i).1, at, f)
  {
    var a := Attribute(s, i.ts, i.orders);
    K.AttributeKeeps(s, i.ts, i.orders);
    K.InvParts(a);
    forall k | k in a.reg.streams ensures TailAt(a.reg.streams[k], at, f) == 0 {
      hide FlushAll, Tail, Sane;
      K.SameStreams(s.reg, i.orders.flush);
      assert k in SetOf(i.orders.flush);
      FlushAllSettles(s.reg, i.orders.flush, k, f);
    }
    if Due(s.lastFlush, i.ts, 5_000_000) {
      hide K.Inv, Sane, CanStep, Attribute, Stale, RemoveCalls, TailAt;
      StaleStreams(cfg, a, i.ts, i.found, i.orders);
      RemovedStreams(Stale(cfg, a, i.ts, i.found, i.orders).reg, i.orders.choice.victims);
    }
  }

  // ----- whole runs -----

  /** Everything dropped since the last clear. */
  ghost function Dropped(cfg: Config, s: State, inputs: seq<Input>, at: Scope, f: Field, before: nat): nat
    decreases |inputs|
  {
    if inputs == [] then before
    else
      var now := if inputs[0].Wipe? then 0 else before + Drop(cfg, s, inputs[0], at, f);
      Dropped(cfg, Step(cfg, s, inputs[0]), inputs[1..], at, f, now)
  }

  /** Some step since the last clear cut an open tail of the scope, or pruned a count of it. */
  ghost predicate AnyDrop(cfg: Config, s: State, inputs: seq<Input>, at: Scope, f: Field, before: bool)
    decreases |inputs|
  {
    if inputs == [] then before
    else
      var now := !inputs[0].Wipe? && (before || Drops(cfg, s, inputs[0], at, f));
      AnyDrop(cfg, Step(cfg, s, inputs[0]), inputs[1..], at, f, now)
  }

  lemma {:induction false} DroppedIff(cfg: Config, s: State, inputs: seq<Input>, at: Scope, f: Field, before: nat)
    ensures Dropped(cfg, s, inputs, at, f, before) > 0 <==> AnyDrop(cfg, s, inputs, at, f, before > 0)
    decreases |inputs|
  {
    hide Drop, Drops, Step;
    if inputs != [] {
      DropIff(cfg, s, inputs[0], at, f);
      var now := if inputs[0].Wipe? then 0 else before + Drop(cfg, s, inputs[0], at, f);
      DroppedIff(cfg, Step(cfg, s, inputs[0]), inputs[1..], at, f, now);
    }
  }

  lemma {:induction false} RunDrops(cfg: Config, s: State, inputs: seq<Input>, at: Scope, f: Field)
    requires K.Inv(s) && CanRun(cfg, s, inputs) && !f.Lost?
    ensures DroppedIn(Run(cfg, s, inputs).reg.ledger, at, f)
         == Dropped(cfg, s, inputs, at, f, DroppedIn(s.reg.ledger, at, f))
    decreases |inputs|
  {
    hide K.Inv, Step, CanStep, Drop, DroppedIn;
    if inputs != [] {
      K.StepKeeps(cfg, s, inputs[0]);
      StepDrops(cfg, s, inputs[0], at, f);
      RunDrops(cfg, Step(cfg, s, inputs[0]), inputs[1..], at, f);
    }
  }

  /** Amounts of a scope, over a run from the start. */
  lemma RunBalances(cfg: Config, inputs: seq<Input>, at: Scope, f: Field)
    requires CanRun(cfg, START, inputs) && !f.Lost?
    ensures var r, taken := Run(cfg, START, inputs).reg, TakenIn(cfg, START, inputs, at, f, 0);
      && Balance(r, at, f) + Dropped(cfg, START, inputs, at, f, 0) == taken
      && (Balance(r, at, f) == taken <==> !AnyDrop(cfg, START, inputs, at, f, false))
  {
    var r := Run(cfg, START, inputs).reg;
    hide K.Inv, Run, TakenIn, Balance, Dropped, AnyDrop;
    K.StartInv(Pins(None, [], None));
    K.RunKeeps(cfg, START, inputs);
    RunDrops(cfg, START, inputs, at, f);
    DroppedIff(cfg, START, inputs, at, f, 0);
    assert START.reg.ledger.taken.Get(at, f) == 0 == DroppedIn(START.reg.ledger, at, f);
    assert Conserved(r) by {
      K.ConservedOf(Run(cfg, START, inputs));
    }
    assert Balance(r, at, f) + DroppedIn(r.ledger, at, f) == r.ledger.taken.Get(at, f);
  }

  /**
    A whole run from the start: every map agrees, bookkeeping is bounded by the live
    calls, teardown counters match the events, and at every address and in all the
    packets and bytes charged, plus those in open tails, plus those dropped, are
    those the run's inputs brought. Nothing is missing if and only if no step since
    the last clear cut a stream with an open tail or pruned an address with a count.
    Charged loss covers every stream's last report.
   */
  lemma WholeRun(cfg: Config, inputs: seq<Input>)
    requires CanRun(cfg, START, inputs)
    ensures var s := Run(cfg, START, inputs);
      && Agreement(s.reg) && s.reg.removed == []
      && s.inviteRr.Keys <= s.reg.calls.Keys && s.terminalDone <= s.reg.calls.Keys
      && (forall id :: id in s.reg.calls && C.Terminal(s.reg.calls[id].state) ==> id in s.terminalDone)
      && s.completed + s.failed == |s.teardowns|
      && (forall at: Scope, f: Field :: !f.Lost? ==>
            && Balance(s.reg, at, f) + Dropped(cfg, START, inputs, at, f, 0) == TakenIn(cfg, START, inputs, at, f, 0)
            && (Balance(s.reg, at, f) == TakenIn(cfg, START, inputs, at, f, 0) <==>
                !AnyDrop(cfg, START, inputs, at, f, false)))
      && (forall at: Scope, dir: Dir :: LossSlack(s.reg, at, dir) >= 0)
  {
    hide K.Inv, Run, TakenIn, Agreement, Balance, LossSlack, Dropped, AnyDrop;
    K.StartInv(Pins(None, [], None));
    K.RunKeeps(cfg, START, inputs);
    var s := Run(cfg, START, inputs);
    K.BookkeepingMeans(s);
    forall at: Scope, f: Field | !f.Lost?
      ensures Balance(s.reg, at, f) + Dropped(cfg, START, inputs, at, f, 0) == TakenIn(cfg, START, inputs, at, f, 0)
      ensures Balance(s.reg, at, f) == TakenIn(cfg, START, inputs, at, f, 0) <==> !AnyDrop(cfg, START, inputs, at, f, false)
    {
      RunBalances(cfg, inputs, at, f);
    }
    assert Conserved(s.reg) by {
      K.ConservedOf(s);
    }
  }
}
