/** The correlator as a machine of steps: SIP, RTP, RTCP, ticks, pins and clear. */
module Correlator {
  import opened Prelude
  import opened Net
  import opened Utf8
  import opened KeyIndex
  import opened IpStats
  import opened Registry
  import opened Eviction
  import C = Call

  datatype Focus = Focus(primary: Str, linked: Option<Str>)

  /** What the user interface protects from eviction. */
  datatype Pins = Pins(query: Option<Str>, matches: seq<Str>, focus: Option<Focus>)

  function Pinned(p: Pins): set<Str> {
    SetOf(p.matches)
    + (if p.focus.None? then {} else {p.focus.value.primary})
    + (if p.focus.None? || p.focus.value.linked.None? then {} else {p.focus.value.linked.value})
  }

  /** `teardowns` is the history of teardown events emitted since the last clear. */
  datatype State = State(
    reg: Reg, inviteRr: map<Str, bool>, terminalDone: set<Str>, completed: nat, failed: nat,
    lastIpattr: Option<u64>, lastFlush: Option<u64>, pins: Pins, teardowns: seq<C.CallState>)

  datatype Config = Config(caps: Caps, keepTerminated: bool, ttlSecs: nat)

  const START := State(EMPTY_REG, map[], {}, 0, 0, None, None, Pins(None, [], None), [])

  // ----- SIP -----

  /** Forgets the bookkeeping of calls removed since the last time. */
  function PruneBookkeeping(s: State): State {
    var gone := SetOf(s.reg.removed);
    s.(inviteRr := s.inviteRr - gone, terminalDone := s.terminalDone - gone, reg := s.reg.(removed := []))
  }

  /** A terminal call leaves the registry at once, or stays until it is evicted. */
  function Retire(cfg: Config, r: Reg, id: Str, ch: Choice): Reg {
    if cfg.keepTerminated then EvictIfNeeded(r, ch) else RemoveCalls(r, [id])
  }

  /** Counters and the teardown event of a call that became terminal, before it is retired. */
  function CountTerminal(s: State, id: Str): State
    requires id in s.reg.calls
  {
    var c := s.reg.calls[id];
    s.(reg := CountActive(s.reg, c.origin.activeIps, false),
       teardowns := s.teardowns + [c.state],
       completed := s.completed + if c.state.Completed? then 1 else 0,
       failed := s.failed + if c.state.Failed? || c.state.Canceled? then 1 else 0)
  }

  function OnCallTerminal(cfg: Config, s: State, id: Str, ch: Choice): State
    requires id in s.reg.calls
  {
    var t := CountTerminal(s, id);
    PruneBookkeeping(t.(reg := Retire(cfg, t.reg, id, ch)))
  }

  /** An initial INVITE is remembered, and counted at both addresses. */
  function NoteInvite(s: State, m: C.SipMsg, rr: bool): State {
    if !C.InitialInvite(m) then s
    else s.(inviteRr := if m.callId in s.inviteRr then s.inviteRr else s.inviteRr[m.callId := rr],
            reg := CountActive(s.reg, [m.src.ip, m.dst.ip], true))
  }

  /** The call created if new, and moved on by the message. */
  function ApplyToCall(r: Reg, m: C.SipMsg): (v: Reg)
    ensures m.callId in v.calls
  {
    var n := GetOrCreateCall(r, m.callId);
    SetCall(n, m.callId, C.Apply(n.calls[m.callId], m))
  }

  /** Everything a message does short of ending its call. */
  function TakeSip(s0: State, m: C.SipMsg, rr: bool, learned: Option<seq<SocketAddr>>): State {
    var s := NoteInvite(s0, m, rr);
    var r := ApplyToCall(s.reg, m);
    s.(reg := if learned.Some? then Learn(r, learned.value, m.callId) else r)
  }

  predicate NewlyTerminal(s: State, id: Str) {
    id in s.reg.calls && C.Terminal(s.reg.calls[id].state) && id !in s.terminalDone
  }

  function MarkTerminal(s: State, id: Str): State {
    s.(terminalDone := s.terminalDone + {id})
  }

  function IngestSip(cfg: Config, s0: State, m: C.SipMsg, rr: bool, learned: Option<seq<SocketAddr>>, ch: Choice): State {
    var s := TakeSip(s0, m, rr, learned);
    if NewlyTerminal(s, m.callId) then OnCallTerminal(cfg, MarkTerminal(s, m.callId), m.callId, ch) else s
  }

  // ----- media -----

  /** The call a media flow belongs to, by its source endpoint, else its destination. */
  function CallOfFlow(r: Reg, flow: Flow5Tuple): Option<Str> {
    if flow.src in r.endpointCall then Some(r.endpointCall[flow.src])
    else if flow.dst in r.endpointCall then Some(r.endpointCall[flow.dst])
    else None
  }

  /** A call's last activity. */
  function Touched(r: Reg, id: Str, ts: u64): Reg {
    if id in r.calls then SetCall(r, id, r.calls[id].(lastTs := ts)) else r
  }

  /** The addresses of a new stream, added to its call's. */
  function WithIps(r: Reg, id: Str, flow: Flow5Tuple): Reg {
    if id !in r.calls then r
    else
      var o := r.calls[id].origin;
      var one := if flow.src.ip in o.ips then o.ips else o.ips + [flow.src.ip];
      var two := if flow.dst.ip in one then one else one + [flow.dst.ip];
      SetCall(r, id, r.calls[id].(origin := o.(ips := two)))
  }

  function IngestRtp(r: Reg, ts: u64, flow: Flow5Tuple, ssrc: u32, seq16: u16, len: nat): Reg {
    var key := StreamKey(flow, ssrc);
    if key in r.streams then Touched(ObservePacket(r, key, ts, seq16, len), r.streams[key].callId, ts)
    else
      match CallOfFlow(r, flow)
      case None => r
      case Some(id) => Touched(WithIps(OpenStream(r, key, id, ts, seq16, len), id, flow), id, ts)
  }

  /** Whether a packet is taken into a stream. */
  predicate Taken(r: Reg, flow: Flow5Tuple, ssrc: u32) {
    StreamKey(flow, ssrc) in r.streams || CallOfFlow(r, flow).Some?
  }

  /** A report counts as activity of the call of its source. */
  function IngestRtcp(r: Reg, ts: u64, ssrc: u32): Reg {
    if ssrc == 0 || ListOf(r.ssrcIndex, ssrc) == [] || ListOf(r.ssrcIndex, ssrc)[0] !in r.streams then r
    else Touched(r, r.streams[ListOf(r.ssrcIndex, ssrc)[0]].callId, ts)
  }

  // ----- ticks -----

  /** What hash-map order leaves open in a tick. */
  datatype Orders = Orders(flush: seq<StreamKey>, stale: seq<Str>, choice: Choice)

  predicate Due(last: Option<u64>, ts: u64, period: nat) {
    last.Some? && SatSub(ts, last.value) >= period
  }

  function Rearm(last: Option<u64>, ts: u64, period: nat): Option<u64> {
    if last.None? || Due(last, ts, period) then Some(ts) else last
  }

  /** Every second of capture time: all tails charged. */
  function Attribute(s: State, ts: u64, o: Orders): State {
    s.(reg := if Due(s.lastIpattr, ts, 1_000_000) then FlushAll(s.reg, o.flush) else s.reg,
       lastIpattr := Rearm(s.lastIpattr, ts, 1_000_000))
  }

  function Refreshed(p: Pins, found: seq<Str>): Pins {
    if p.query.None? then p else p.(matches := found)
  }

  const IDLE_US: nat := 3_600_000_000

  function Stale(cfg: Config, s: State, ts: u64, found: seq<Str>, o: Orders): State {
    var p := Refreshed(s.pins, found);
    s.(pins := p, reg := EvictStale(s.reg, Pinned(p), cfg.ttlSecs, ts, o.stale))
  }

  /** Every five seconds: pins refreshed, stale calls out, caps enforced, bookkeeping and idle addresses dropped. */
  ghost function Maintain(cfg: Config, s0: State, ts: u64, found: seq<Str>, o: Orders): State {
    var s := Stale(cfg, s0, ts, found, o);
    var t := PruneBookkeeping(s.(reg := EvictIfNeeded(s.reg, o.choice)));
    t.(reg := PruneIdle(t.reg, SatSub(ts, IDLE_US)))
  }

  ghost function PeriodicFlush(cfg: Config, s0: State, ts: u64, found: seq<Str>, o: Orders): State {
    var s := Attribute(s0, ts, o);
    var t := s.(lastFlush := Rearm(s.lastFlush, ts, 5_000_000));
    if Due(s.lastFlush, ts, 5_000_000) then Maintain(cfg, t, ts, found, o) else t
  }

  // ----- pins and clear -----

  function SetFocus(s: State, f: Option<Focus>): State {
    s.(pins := s.pins.(focus := f))
  }

  /** A changed query replaces the matches; the same query again changes nothing. */
  function SetSearch(s: State, q: Option<Str>, found: seq<Str>): State {
    if q == s.pins.query then s
    else s.(pins := s.pins.(query := q, matches := if q.None? then [] else found))
  }

  /** All state and history gone, except the query and what `removed` holds. */
  function Clear(s: State): State {
    START.(reg := EMPTY_REG.(removed := s.reg.removed), pins := Pins(s.pins.query, [], None))
  }

  // ----- steps and runs -----

  datatype Input =
    | Sip(msg: C.SipMsg, rr: bool, learned: Option<seq<SocketAddr>>, choice: Choice)
    | Rtp(ts: u64, flow: Flow5Tuple, ssrc: u32, seq16: u16, len: nat)
    | Rtcp(ts: u64, reporter: u32)
    | Tick(ts: u64, found: seq<Str>, orders: Orders)
    | FocusOn(focus: Option<Focus>)
    | Search(query: Option<Str>, found: seq<Str>)
    | Wipe

  /** The choices of a step are ones its hash maps could have made. */
  ghost predicate CanStep(cfg: Config, s: State, i: Input) {
    match i
    case Sip(m, rr, learned, ch) =>
      var t := TakeSip(s, m, rr, learned);
      cfg.keepTerminated && NewlyTerminal(t, m.callId) ==>
        CanEvict(CountTerminal(MarkTerminal(t, m.callId), m.callId).reg, cfg.caps, Pinned(s.pins), ch)
    case Tick(ts, found, o) =>
      var a := Attribute(s, ts, o);
      && (Due(s.lastIpattr, ts, 1_000_000) ==> SetOf(o.flush) == s.reg.streams.Keys)
      && (Due(s.lastFlush, ts, 5_000_000) ==>
            var t := Stale(cfg, a, ts, found, o);
            SetOf(o.stale) == a.reg.calls.Keys && CanEvict(t.reg, cfg.caps, Pinned(t.pins), o.choice))
    case _ => true
  }

  ghost function Step(cfg: Config, s: State, i: Input): State {
    match i
    case Sip(m, rr, learned, ch) => IngestSip(cfg, s, m, rr, learned, ch)
    case Rtp(ts, flow, ssrc, seq16, len) => s.(reg := IngestRtp(s.reg, ts, flow, ssrc, seq16, len))
    case Rtcp(ts, ssrc) => s.(reg := IngestRtcp(s.reg, ts, ssrc))
    case Tick(ts, found, o) => PeriodicFlush(cfg, s, ts, found, o)
    case FocusOn(f) => SetFocus(s, f)
    case Search(q, found) => SetSearch(s, q, found)
    case Wipe => Clear(s)
  }

  ghost function Run(cfg: Config, s: State, inputs: seq<Input>): State
    decreases |inputs|
  {
    if inputs == [] then s else Run(cfg, Step(cfg, s, inputs[0]), inputs[1..])
  }

  ghost predicate CanRun(cfg: Config, s: State, inputs: seq<Input>)
    decreases |inputs|
  {
    inputs == [] || (CanStep(cfg, s, inputs[0]) && CanRun(cfg, Step(cfg, s, inputs[0]), inputs[1..]))
  }

  /** Packets or bytes taken into the streams of a scope since the last clear. */
  ghost function TakenIn(cfg: Config, s: State, inputs: seq<Input>, at: Scope, f: Field, before: nat): nat
    decreases |inputs|
  {
    if inputs == [] then before
    else TakenIn(cfg, Step(cfg, s, inputs[0]), inputs[1..], at, f, TakenAfter(s, inputs[0], at, f, before))
  }

  /** A packet counts once, and its payload in bytes, at both ends of its flow. */
  function TakenAfter(s: State, i: Input, at: Scope, f: Field, before: nat): nat {
    match i
    case Rtp(_, flow, ssrc, _, len) =>
      before + if !Taken(s.reg, flow, ssrc) || !Covers(at, flow, f) then 0
               else if f.Pkts? then 1 else if f.Bytes? then len else 0
    case Wipe => 0
    case _ => before
  }
}
