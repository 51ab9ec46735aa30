/** The correlator as it is updated in place, proved against the machine of `Correlator`. */
module LiveCorrelator {
  import opened Prelude
  import opened Net
  import opened Utf8
  import opened KeyIndex
  import opened Eviction
  import opened Machine = Correlator
  import opened CorrelatorKeeps
  import R = Registry
  import L = LiveRegistry
  import C = Call

  class Correlator {
    const cfg: Config
    const reg: L.Registry
    var inviteRr: map<Str, bool>
    var terminalDone: set<Str>
    var completed: nat
    var failed: nat
    var lastIpattr: Option<u64>
    var lastFlush: Option<u64>
    var pins: Pins
    ghost var teardowns: seq<C.CallState>

    ghost function View(): State
      reads this, reg
    {
      State(reg.View(), inviteRr, terminalDone, completed, failed, lastIpattr, lastFlush, pins, teardowns)
    }

    ghost predicate Valid()
      reads this, reg
    {
      Inv(View())
    }

    constructor (cfg: Config)
      ensures Valid() && View() == START && this.cfg == cfg && fresh(reg)
    {
      this.cfg := cfg;
      reg := new L.Registry();
      inviteRr, terminalDone, completed, failed := map[], {}, 0, 0;
      lastIpattr, lastFlush, pins, teardowns := None, None, Pins(None, [], None), [];
      new;
      StartState(View());
    }

    // ----- SIP -----

    method PruneRemovedBookkeeping()
      modifies this`inviteRr, this`terminalDone, reg
      ensures View() == PruneBookkeeping(old(View()))
    {
      var gone := reg.DrainRemoved();
      var drop := set id | id in gone;
      inviteRr := inviteRr - drop;
      terminalDone := terminalDone - drop;
    }

    method NoteInvite(m: C.SipMsg, rr: bool)
      modifies this`inviteRr, reg
      ensures View() == Machine.NoteInvite(old(View()), m, rr)
    {
      if m.method_ == Some(C.Invite) && m.isRequest && m.toTag.None? {
        if m.callId !in inviteRr {
          inviteRr := inviteRr[m.callId := rr];
        }
        reg.AddActive([m.src.ip, m.dst.ip], true);
      }
    }

    method TakeSip(m: C.SipMsg, rr: bool, learned: Option<seq<SocketAddr>>)
      modifies this`inviteRr, reg
      ensures View() == Machine.TakeSip(old(View()), m, rr, learned)
    {
      hide Machine.NoteInvite, ApplyToCall, R.Learn;
      NoteInvite(m, rr);
      reg.ApplySip(m);
      if learned.Some? {
        reg.LearnEndpoints(learned.value, m.callId);
      }
    }

    /** Counters down, the teardown event out, and the right total up. */
    method CountTerminal(id: Str)
      requires id in reg.calls
      modifies this`completed, this`failed, this`teardowns, reg
      ensures View() == Machine.CountTerminal(old(View()), id)
    {
      hide R.CountActive;
      var c := reg.calls[id];
      reg.AddActive(c.origin.activeIps, false);
      teardowns := teardowns + [c.state];
      match c.state {
        case Completed => completed := completed + 1;
        case Failed => failed := failed + 1;
        case Canceled => failed := failed + 1;
        case _ =>
      }
    }

    method Retire(id: Str) returns (ghost ch: Choice)
      modifies reg
      ensures cfg.keepTerminated ==> CanEvict(old(reg.View()), cfg.caps, Pinned(pins), ch)
      ensures View() == old(View()).(reg := Machine.Retire(cfg, old(reg.View()), id, ch))
    {
      hide R.RemoveCalls, EvictIfNeeded, CanEvict;
      ch := Choice([], []);
      if !cfg.keepTerminated {
        reg.RemoveCalls([id]);
      } else {
        ch := reg.EvictIfNeeded(cfg.caps, Pinned(pins));
      }
    }

    method OnCallTerminal(id: Str) returns (ghost ch: Choice)
      requires id in reg.calls
      modifies this, reg
      ensures cfg.keepTerminated ==>
        CanEvict(Machine.CountTerminal(old(View()), id).reg, cfg.caps, Pinned(old(pins)), ch)
      ensures View() == Machine.OnCallTerminal(cfg, old(View()), id, ch)
    {
      hide Machine.CountTerminal, Machine.Retire, PruneBookkeeping, CanEvict;
      CountTerminal(id);
      ch := Retire(id);
      PruneRemovedBookkeeping();
    }

    /** One SIP message, end to end. */
    method IngestSip(m: C.SipMsg, rr: bool, learned: Option<seq<SocketAddr>>) returns (ghost ch: Choice)
      requires Valid()
      modifies this, reg
      ensures Valid()
      ensures CanStep(cfg, old(View()), Sip(m, rr, learned, ch))
      ensures View() == Step(cfg, old(View()), Sip(m, rr, learned, ch))
    {
      hide Inv, Machine.TakeSip, Machine.CountTerminal, Machine.OnCallTerminal, CanEvict;
      ghost var s := View();
      ch := Choice([], []);
      TakeSip(m, rr, learned);
      if m.callId in reg.calls && C.Terminal(reg.calls[m.callId].state) && m.callId !in terminalDone {
        terminalDone := terminalDone + {m.callId};
        assert View() == MarkTerminal(Machine.TakeSip(s, m, rr, learned), m.callId);
        ch := OnCallTerminal(m.callId);
      }
      TakeSipKeepsPins(s, m, rr, learned);
      StepKeeps(cfg, s, Sip(m, rr, learned, ch));
    }

    // ----- media -----

    /** One RTP packet: to its stream, or to a new one of the call its endpoints belong to. */
    method IngestRtp(ts: u64, flow: Flow5Tuple, ssrc: u32, seq16: u16, len: nat)
      requires Valid()
      modifies reg
      ensures Valid()
      ensures View() == Step(cfg, old(View()), Rtp(ts, flow, ssrc, seq16, len))
    {
      hide Inv, R.ObservePacket, R.OpenStream, Touched, WithIps;
      ghost var s := View();
      var key := R.StreamKey(flow, ssrc);
      if key in reg.streams {
        var id := reg.streams[key].callId;
        reg.ObserveKnown(key, ts, seq16, len);
        reg.Touch(id, ts);
      } else {
        var id := if flow.src in reg.endpointCall then Some(reg.endpointCall[flow.src])
                  else if flow.dst in reg.endpointCall then Some(reg.endpointCall[flow.dst])
                  else None;
        if id.Some? {
          reg.OpenStream(key, id.value, ts, seq16, len);
          reg.AddIps(id.value, flow);
          reg.Touch(id.value, ts);
        }
      }
      StepKeeps(cfg, s, Rtp(ts, flow, ssrc, seq16, len));
    }

    /** One RTCP report counts as activity of the call its source belongs to. */
    method IngestRtcp(ts: u64, ssrc: u32)
      requires Valid()
      modifies reg
      ensures Valid() && View() == Step(cfg, old(View()), Rtcp(ts, ssrc))
    {
      hide Inv, Touched;
      ghost var s := View();
      if ssrc != 0 && ssrc in reg.ssrcIndex && reg.ssrcIndex[ssrc] != [] {
        var key := reg.ssrcIndex[ssrc][0];
        if key in reg.streams {
          reg.Touch(reg.streams[key].callId, ts);
        }
      }
      StepKeeps(cfg, s, Rtcp(ts, ssrc));
    }

    // ----- ticks -----

    /** The one-second ticker. */
    method Attribute(ts: u64) returns (ghost o: Orders)
      modifies this`lastIpattr, reg
      ensures o.stale == [] && (Due(old(lastIpattr), ts, 1_000_000) ==> SetOf(o.flush) == old(reg.streams).Keys)
      ensures View() == Machine.Attribute(old(View()), ts, o)
    {
      hide R.FlushAll;
      o := Orders([], [], Choice([], []));
      var due := false;
      if lastIpattr.None? {
        lastIpattr := Some(ts);
      } else {
        due := SatSub(ts, lastIpattr.value) >= 1_000_000;
      }
      if due {
        lastIpattr := Some(ts);
        ghost var keys := reg.FlushAll();
        o := o.(flush := keys);
      }
    }

    /** The five-second maintenance: pins, stale calls, caps, bookkeeping, idle addresses. */
    method Maintain(ts: u64, found: seq<Str>) returns (ghost o: Orders)
      modifies this, reg
      ensures o.flush == [] && SetOf(o.stale) == old(reg.calls).Keys
      ensures var t := Machine.Stale(cfg, old(View()), ts, found, o);
        CanEvict(t.reg, cfg.caps, Pinned(t.pins), o.choice)
      ensures View() == Machine.Maintain(cfg, old(View()), ts, found, o)
    {
      hide Pinned, EvictStale, EvictIfNeeded, CanEvict, PruneBookkeeping, R.PruneIdle;
      if pins.query.Some? {
        pins := pins.(matches := found);
      }
      ghost var stale := reg.EvictStale(Pinned(pins), cfg.ttlSecs, ts);
      ghost var ch := reg.EvictIfNeeded(cfg.caps, Pinned(pins));
      PruneRemovedBookkeeping();
      reg.PruneIdle(SatSub(ts, IDLE_US));
      o := Orders([], stale, ch);
    }

    /** Both tickers, at one moment of capture time. */
    method MaybePeriodicFlush(ts: u64, found: seq<Str>) returns (ghost o: Orders)
      requires Valid()
      modifies this, reg
      ensures Valid()
      ensures CanStep(cfg, old(View()), Tick(ts, found, o))
      ensures View() == Step(cfg, old(View()), Tick(ts, found, o))
    {
      hide Inv, Machine.Maintain, CanEvict, Stale, R.FlushAll;
      ghost var s := View();
      ghost var a := Attribute(ts);
      ghost var s1 := View();
      o := a;
      var due := false;
      if lastFlush.None? {
        lastFlush := Some(ts);
      } else {
        due := SatSub(ts, lastFlush.value) >= 5_000_000;
      }
      if due {
        lastFlush := Some(ts);
        ghost var s2 := View();
        ghost var m := Maintain(ts, found);
        o := Orders(a.flush, m.stale, m.choice);
        OrdersApart(cfg, s, s1, s2, ts, found, a, m, o);
      }
      assert View() == PeriodicFlush(cfg, s, ts, found, o);
      StepKeeps(cfg, s, Tick(ts, found, o));
    }

    // ----- pins and clear -----

    method SetFocus(f: Option<Focus>)
      requires Valid()
      modifies this`pins
      ensures Valid() && View() == Step(cfg, old(View()), FocusOn(f))
    {
      hide Inv;
      ghost var s := View();
      pins := pins.(focus := f);
      StepKeeps(cfg, s, FocusOn(f));
    }

    method SetSearch(q: Option<Str>, found: seq<Str>)
      requires Valid()
      modifies this`pins
      ensures Valid() && View() == Step(cfg, old(View()), Search(q, found))
    {
      hide Inv;
      ghost var s := View();
      if q != pins.query {
        pins := pins.(query := q, matches := if q.None? then [] else found);
      }
      StepKeeps(cfg, s, Search(q, found));
    }

    method Clear()
      requires Valid()
      modifies this, reg
      ensures Valid() && View() == Step(cfg, old(View()), Wipe)
    {
      hide Inv;
      ghost var s := View();
      reg.Clear();
      inviteRr, terminalDone, completed, failed := map[], {}, 0, 0;
      lastFlush, lastIpattr := None, None;
      pins := Pins(pins.query, [], None);
      teardowns := [];
      StepKeeps(cfg, s, Wipe);
    }
  }

  lemma StartState(s: State)
    requires s == State(R.EMPTY_REG, map[], {}, 0, 0, None, None, Pins(None, [], None), [])
    ensures s == START && Inv(s)
  {
    hide Inv;
    StartInv(s.pins);
  }

  lemma TakeSipKeepsPins(s: State, m: C.SipMsg, rr: bool, learned: Option<seq<SocketAddr>>)
    ensures Machine.TakeSip(s, m, rr, learned).pins == s.pins
  {
  }

  /** The parts of a tick use separate parts of what order leaves open. */
  lemma OrdersApart(cfg: Config, s: State, s1: State, s2: State, ts: u64, found: seq<Str>, a: Orders, m: Orders, o: Orders)
    requires o == Orders(a.flush, m.stale, m.choice) && s1 == Machine.Attribute(s, ts, a)
    requires s2 == s1.(lastFlush := Some(ts))
    ensures Machine.Attribute(s, ts, o) == s1
    ensures Machine.Maintain(cfg, s2, ts, found, o) == Machine.Maintain(cfg, s2, ts, found, m)
    ensures Stale(cfg, s1, ts, found, o).reg == Stale(cfg, s2, ts, found, m).reg
    ensures Stale(cfg, s1, ts, found, o).pins == Stale(cfg, s2, ts, found, m).pins
  {
    hide R.FlushAll, EvictStale, EvictIfNeeded, Pinned, PruneBookkeeping, R.PruneIdle;
  }
}
