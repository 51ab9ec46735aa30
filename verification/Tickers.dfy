/** When the two tickers fire, read off the times of the ticks alone. */
module Tickers {
  import opened Prelude
  import opened Net
  import opened Utf8
  import opened IpStats
  import opened Registry
  import opened Eviction
  import opened Correlator
  import K = CorrelatorKeeps
  import C = Call

  /** The last tick that counted: the first of all, then each at least `period` after the one before. */
  function LastBeat(ticks: seq<u64>, period: nat): Option<u64> {
    if ticks == [] then None
    else
      var before, ts := LastBeat(ticks[..|ticks| - 1], period), ticks[|ticks| - 1];
      if before.None? || before.value + period <= ts then Some(ts) else before
  }

  /** A further tick at `ts` fires a ticker that some tick has armed `period` ago or more. */
  predicate Fires(ticks: seq<u64>, ts: u64, period: nat) {
    LastBeat(ticks, period).Some? && LastBeat(ticks, period).value + period <= ts
  }

  /** Times of the ticks since the last clear. */
  function TicksOf(inputs: seq<Input>, before: seq<u64>): seq<u64> {
    if inputs == [] then before
    else TicksOf(inputs[1..], if inputs[0].Wipe? then [] else if inputs[0].Tick? then before + [inputs[0].ts] else before)
  }

  lemma SipKeepsTickers(cfg: Config, s: State, m: C.SipMsg, rr: bool, learned: Option<seq<SocketAddr>>, ch: Choice)
    ensures var v := IngestSip(cfg, s, m, rr, learned, ch);
      v.lastIpattr == s.lastIpattr && v.lastFlush == s.lastFlush
  {
    hide ApplyToCall, Learn, CountActive, Retire, NewlyTerminal;
  }

  lemma MaintainKeepsTickers(cfg: Config, s: State, ts: u64, found: seq<Str>, o: Orders)
    ensures var v := Maintain(cfg, s, ts, found, o);
      v.lastIpattr == s.lastIpattr && v.lastFlush == s.lastFlush
  {
    hide EvictStale, EvictIfNeeded, PruneIdle, Refreshed, Pinned;
  }

  /** Both tickers stand where these ticks have left them. */
  predicate KeepTime(s: State, ticks: seq<u64>) {
    s.lastIpattr == LastBeat(ticks, 1_000_000) && s.lastFlush == LastBeat(ticks, 5_000_000)
  }

  lemma KeptTime(s: State, ticks: seq<u64>, ts: u64)
    requires KeepTime(s, ticks)
    ensures Due(s.lastIpattr, ts, 1_000_000) <==> Fires(ticks, ts, 1_000_000)
    ensures Due(s.lastFlush, ts, 5_000_000) <==> Fires(ticks, ts, 5_000_000)
  {
  }

  lemma TickKeepsTime(cfg: Config, s: State, i: Input, ticks: seq<u64>)
    requires KeepTime(s, ticks) && i.Tick?
    ensures KeepTime(Step(cfg, s, i), ticks + [i.ts])
  {
    hide FlushAll, Maintain;
    assert (ticks + [i.ts])[..|ticks|] == ticks;
    var a := Attribute(s, i.ts, i.orders);
    MaintainKeepsTickers(cfg, a.(lastFlush := Rearm(a.lastFlush, i.ts, 5_000_000)), i.ts, i.found, i.orders);
  }

  lemma StepKeepsTime(cfg: Config, s: State, i: Input, ticks: seq<u64>)
    requires KeepTime(s, ticks)
    ensures KeepTime(Step(cfg, s, i), TicksOf([i], ticks))
  {
    assert [i][1..] == [];
    hide LastBeat, IngestSip, IngestRtp, IngestRtcp, PeriodicFlush;
    match i {
      case Sip(m, rr, learned, ch) => SipKeepsTickers(cfg, s, m, rr, learned, ch);
      case Tick(_, _, _) => TickKeepsTime(cfg, s, i, ticks);
      case Wipe => assert LastBeat([], 1_000_000) == None && LastBeat([], 5_000_000) == None by { NoBeat(); }
      case _ =>
    }
  }

  lemma NoBeat()
    ensures forall period: nat :: LastBeat([], period) == None
  {
  }

  /**
    Over any run, whatever else happens in it: per-address attribution is due when a
    second has passed since its last time, maintenance when five have, both counted
    from the first tick after a clear.
   */
  lemma {:induction false} TickersKeepTime(cfg: Config, s: State, inputs: seq<Input>, ticks: seq<u64>)
    requires KeepTime(s, ticks)
    ensures KeepTime(Run(cfg, s, inputs), TicksOf(inputs, ticks))
    decreases |inputs|
  {
    hide Step, KeepTime;
    if inputs != [] {
      StepKeepsTime(cfg, s, inputs[0], ticks);
      assert [inputs[0]][1..] == [];
      TickersKeepTime(cfg, Step(cfg, s, inputs[0]), inputs[1..], TicksOf([inputs[0]], ticks));
    }
  }

  // ----- what a tick that fires does -----

  /** The registry just before idle addresses are dropped. */
  function BeforePrune(cfg: Config, s: State, i: Input): Reg
    requires i.Tick?
  {
    EvictIfNeeded(Stale(cfg, Attribute(s, i.ts, i.orders), i.ts, i.found, i.orders).reg, i.orders.choice)
  }

  /** After maintenance exactly the addresses with a call up, or seen within the hour, are left. */
  lemma IdlePruned(cfg: Config, s: State, i: Input, ip: IpAddr)
    requires i.Tick? && s.lastFlush.Some? && s.lastFlush.value + 5_000_000 <= i.ts
    ensures var r := BeforePrune(cfg, s, i);
      ip in Step(cfg, s, i).reg.ips <==>
        ip in r.ips && (r.ips[ip].active > 0 || i.ts <= r.ips[ip].lastSeen.GetOr(0) + 3_600_000_000)
  {
    hide EvictIfNeeded, Attribute, EvictStale, Refreshed, Pinned, IdleIps;
    var a := Attribute(s, i.ts, i.orders);
    var t := a.(lastFlush := Rearm(a.lastFlush, i.ts, 5_000_000));
    assert Due(a.lastFlush, i.ts, 5_000_000) by { AttributeKeepsFlush(s, i); }
    K.SameStale(cfg, a, t, i.ts, i.found, i.orders);
  }

  lemma AttributeKeepsFlush(s: State, i: Input)
    requires i.Tick?
    ensures Attribute(s, i.ts, i.orders).lastFlush == s.lastFlush
  {
    hide FlushAll;
  }
}
