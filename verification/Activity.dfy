/** Last activity, owners and packets of calls and streams over whole runs, and what the time limit removes. */
module Activity {
  import opened Prelude
  import opened Net
  import opened Utf8
  import opened KeyIndex
  import opened IpStats
  import opened Registry
  import opened RegistryKeeps
  import opened Eviction
  import opened Correlator
  import opened History
  import opened Tickers
  import K = CorrelatorKeeps
  import V = CallVerdicts
  import C = Call
  import W = SeqWindow

  function Find<T, U>(m: map<T, U>, k: T): Option<U> {
    if k in m then Some(m[k]) else None
  }

  function LastTsOf(s: State, id: Str): Option<u64> {
    if id in s.reg.calls then Some(s.reg.calls[id].lastTs) else None
  }

  // ----- what one input does -----

  /** The call a media flow was announced for: by its source, or failing that its destination. */
  function AnnouncedFor(s: State, flow: Flow5Tuple): Option<Str> {
    var src, dst := Find(s.reg.endpointCall, flow.src), Find(s.reg.endpointCall, flow.dst);
    if src.Some? then src else dst
  }

  /** The call an input is activity of: a message of it, a packet of its streams, a report on the first stream of an ssrc. */
  function Touches(s: State, i: Input): Option<Str> {
    match i
    case Sip(m, _, _, _) => Some(m.callId)
    case Rtp(_, flow, ssrc, _, _) =>
      var stream := Find(s.reg.streams, StreamKey(flow, ssrc));
      if stream.Some? then Some(stream.value.callId) else AnnouncedFor(s, flow)
    case Rtcp(_, ssrc) =>
      var keys := Find(s.reg.ssrcIndex, ssrc);
      if ssrc == 0 || keys.None? || keys.value == [] then None
      else
        var stream := Find(s.reg.streams, keys.value[0]);
        if stream.Some? then Some(stream.value.callId) else None
    case _ => None
  }

  function TimeOf(i: Input): u64 {
    match i
    case Sip(m, _, _, _) => m.ts
    case Rtp(ts, _, _, _, _) => ts
    case Rtcp(ts, _) => ts
    case Tick(ts, _, _) => ts
    case _ => 0
  }

  lemma ApplyToCallActs(r: Reg, m: C.SipMsg)
    ensures var v := ApplyToCall(r, m);
      && v.streams == r.streams && v.endpointCall == r.endpointCall
      && v.calls.Keys == r.calls.Keys + {m.callId} && v.calls[m.callId].lastTs == m.ts
      && forall id :: id in r.calls && id != m.callId ==> v.calls[id] == r.calls[id]
  {
    var n := GetOrCreateCall(r, m.callId);
    K.CreateShape(r, m.callId);
    V.ApplyRecord(n.calls[m.callId], m);
    hide C.Apply;
  }

  lemma {:induction false} LearnActs(r: Reg, eps: seq<SocketAddr>, id: Str, a: SocketAddr)
    ensures Find(Learn(r, eps, id).endpointCall, a) == if a in eps then Some(id) else Find(r.endpointCall, a)
    ensures Learn(r, eps, id).calls == r.calls && Learn(r, eps, id).streams == r.streams
    decreases |eps|
  {
    if eps != [] {
      LearnActs(r.(endpointCall := r.endpointCall[eps[0] := id]), eps[1..], id, a);
      assert eps == [eps[0]] + eps[1..];
    }
  }

  lemma TakeSipActs(s: State, m: C.SipMsg, rr: bool, learned: Option<seq<SocketAddr>>, a: SocketAddr)
    ensures var r, v := s.reg, TakeSip(s, m, rr, learned).reg;
      && v.streams == r.streams
      && v.calls.Keys == r.calls.Keys + {m.callId} && v.calls[m.callId].lastTs == m.ts
      && (forall id :: id in r.calls && id != m.callId ==> v.calls[id] == r.calls[id])
      && Find(v.endpointCall, a) == if learned.Some? && a in learned.value then Some(m.callId) else Find(r.endpointCall, a)
  {
    CountsOnly(s.reg, [m.src.ip, m.dst.ip], true);
    var n := NoteInvite(s, m, rr).reg;
    assert n.calls == s.reg.calls && n.streams == s.reg.streams && n.endpointCall == s.reg.endpointCall by {
      hide CountActive;
    }
    hide NoteInvite, ApplyToCall, Learn;
    ApplyToCallActs(n, m);
    if learned.Some? {
      LearnActs(ApplyToCall(n, m), learned.value, m.callId, a);
    }
  }

  lemma TouchedActs(r: Reg, id: Str, ts: u64)
    ensures var v := Touched(r, id, ts);
      && v == r.(calls := v.calls) && v.calls.Keys == r.calls.Keys
      && forall x :: x in r.calls ==> v.calls[x] == if x == id then r.calls[x].(lastTs := ts) else r.calls[x]
  {
  }

  lemma WithIpsActs(r: Reg, id: Str, flow: Flow5Tuple)
    ensures var v := WithIps(r, id, flow);
      && v == r.(calls := v.calls) && v.calls.Keys == r.calls.Keys
      && forall x :: x in r.calls ==> v.calls[x] == r.calls[x].(origin := v.calls[x].origin)
  {
  }

  /** A packet of a known stream, or of a new one of the call it was announced for. */
  function StreamBefore(s: State, key: StreamKey): Option<Stream> {
    if key in s.reg.streams then Some(s.reg.streams[key])
    else
      var id := AnnouncedFor(s, key.flow);
      if id.Some? then Some(NewStream(id.value, key.flow)) else None
  }

  /** A registry after a packet of `stream`, if it belongs to one. */
  ghost predicate PacketTaken(r: Reg, v: Reg, key: StreamKey, stream: Option<Stream>, ts: u64, seq16: u16, len: nat) {
    && v.endpointCall == r.endpointCall && v.calls.Keys == r.calls.Keys
    && v.streams == (if stream.Some? then r.streams[key := Observed(stream.value, ts, seq16, len)] else r.streams)
    && forall id :: id in r.calls ==>
         v.calls[id].lastTs == if stream.Some? && stream.value.callId == id then ts else r.calls[id].lastTs
  }

  lemma KnownStreamActs(r: Reg, key: StreamKey, ts: u64, seq16: u16, len: nat)
    requires key in r.streams
    ensures PacketTaken(r, Touched(ObservePacket(r, key, ts, seq16, len), r.streams[key].callId, ts), key,
                        Some(r.streams[key]), ts, seq16, len)
  {
    hide Observed, PacketBothWays, Account.Credit;
    TouchedActs(ObservePacket(r, key, ts, seq16, len), r.streams[key].callId, ts);
    hide Touched;
  }

  lemma NewStreamActs(r: Reg, key: StreamKey, id: Str, ts: u64, seq16: u16, len: nat)
    ensures PacketTaken(r, Touched(WithIps(OpenStream(r, key, id, ts, seq16, len), id, key.flow), id, ts), key,
                        Some(NewStream(id, key.flow)), ts, seq16, len)
  {
    var o := OpenStream(r, key, id, ts, seq16, len);
    OpenShape(r, key, id, ts, seq16, len);
    WithIpsActs(o, id, key.flow);
    TouchedActs(WithIps(o, id, key.flow), id, ts);
    hide Touched, WithIps, OpenStream, Observed, AddTo;
  }

  lemma RtpActs(s: State, ts: u64, flow: Flow5Tuple, ssrc: u32, seq16: u16, len: nat)
    ensures var key := StreamKey(flow, ssrc);
      PacketTaken(s.reg, IngestRtp(s.reg, ts, flow, ssrc, seq16, len), key, StreamBefore(s, key), ts, seq16, len)
  {
    var key, r := StreamKey(flow, ssrc), s.reg;
    hide Observed, ObservePacket, OpenStream, WithIps, Touched;
    if key in r.streams {
      KnownStreamActs(r, key, ts, seq16, len);
      hide PacketTaken;
    } else if CallOfFlow(r, flow).Some? {
      NewStreamActs(r, key, CallOfFlow(r, flow).value, ts, seq16, len);
      hide PacketTaken;
    }
  }

  lemma RtcpActs(s: State, ts: u64, ssrc: u32)
    ensures var r, v := s.reg, IngestRtcp(s.reg, ts, ssrc);
      && v.endpointCall == r.endpointCall && v.calls.Keys == r.calls.Keys && v.streams == r.streams
      && forall id :: id in r.calls ==>
           v.calls[id].lastTs == if Touches(s, Rtcp(ts, ssrc)) == Some(id) then ts else r.calls[id].lastTs
  {
    if ListOf(s.reg.ssrcIndex, ssrc) != [] && ListOf(s.reg.ssrcIndex, ssrc)[0] in s.reg.streams {
      TouchedActs(s.reg, s.reg.streams[ListOf(s.reg.ssrcIndex, ssrc)[0]].callId, ts);
    }
    hide Touched;
  }

  // ----- last activity -----

  lemma RtpTouches(s: State, i: Input)
    requires i.Rtp?
    ensures var stream := StreamBefore(s, StreamKey(i.flow, i.ssrc));
      Touches(s, i) == if stream.Some? then Some(stream.value.callId) else None
  {
  }

  /** A call's last activity after one input. */
  lemma StepTouches(cfg: Config, s: State, i: Input, id: Str)
    requires K.Inv(s) && CanStep(cfg, s, i)
    ensures var v := Step(cfg, s, i);
      id in v.reg.calls ==>
        LastTsOf(v, id) == if Touches(s, i) == Some(id) then Some(TimeOf(i)) else LastTsOf(s, id)
  {
    hide K.Inv, CanStep, IngestSip, IngestRtp, IngestRtcp, PeriodicFlush, TakeSip, Touches, StreamBefore;
    match i {
      case Sip(m, rr, learned, ch) =>
        SipFewer(cfg, s, i);
        TakeSipActs(s, m, rr, learned, m.src);
        SipTouches(s, i);
      case Rtp(ts, flow, ssrc, seq16, len) =>
        RtpActs(s, ts, flow, ssrc, seq16, len);
        RtpTouches(s, i);
      case Rtcp(ts, ssrc) => RtcpActs(s, ts, ssrc);
      case Tick(_, _, _) =>
        TickFewer(cfg, s, i);
        NothingTouched(s, i);
      case _ => NothingTouched(s, i);
    }
  }

  lemma SipTouches(s: State, i: Input)
    requires i.Sip?
    ensures Touches(s, i) == Some(i.msg.callId)
  {
  }

  lemma NothingTouched(s: State, i: Input)
    requires !i.Sip? && !i.Rtp? && !i.Rtcp?
    ensures Touches(s, i).None?
  {
  }

  /** The time of the last input of a run that touched a call, while the call is there. */
  ghost function LastTouch(cfg: Config, s: State, inputs: seq<Input>, id: Str, before: Option<u64>): Option<u64>
    decreases |inputs|
  {
    if inputs == [] then before
    else
      var next := Step(cfg, s, inputs[0]);
      var now := if id !in next.reg.calls then None
                 else if Touches(s, inputs[0]) == Some(id) then Some(TimeOf(inputs[0])) else before;
      LastTouch(cfg, next, inputs[1..], id, now)
  }

  /** A call's last activity is the last input that touched it, and a call that is there was touched. */
  lemma {:induction false} LastActivity(cfg: Config, s: State, inputs: seq<Input>, id: Str)
    requires K.Inv(s) && CanRun(cfg, s, inputs)
    ensures LastTsOf(Run(cfg, s, inputs), id) == LastTouch(cfg, s, inputs, id, LastTsOf(s, id))
    decreases |inputs|
  {
    hide K.Inv, Step, CanStep, Touches;
    if inputs != [] {
      K.StepKeeps(cfg, s, inputs[0]);
      StepTouches(cfg, s, inputs[0], id);
      LastActivity(cfg, Step(cfg, s, inputs[0]), inputs[1..], id);
    }
  }

  // ----- announced endpoints -----

  lemma FewerFinds(r: Reg, v: Reg, a: SocketAddr)
    requires Fewer(r, v)
    ensures var before := Find(r.endpointCall, a);
      Find(v.endpointCall, a) == if before.Some? && before.value in v.calls then before else None
  {
    hide SamePackets;
  }

  /** The call an address was last announced for, while that call is there. */
  ghost function Announced(cfg: Config, s: State, inputs: seq<Input>, a: SocketAddr, before: Option<Str>): Option<Str>
    decreases |inputs|
  {
    if inputs == [] then before
    else
      var i, next := inputs[0], Step(cfg, s, inputs[0]);
      var now := if i.Sip? && i.learned.Some? && a in i.learned.value then Some(i.msg.callId) else before;
      Announced(cfg, next, inputs[1..], a, if now.Some? && now.value in next.reg.calls then now else None)
  }

  lemma EndpointLives(s: State, a: SocketAddr)
    requires K.Inv(s)
    ensures a in s.reg.endpointCall ==> s.reg.endpointCall[a] in s.reg.calls
  {
  }

  lemma StepAnnounces(cfg: Config, s: State, i: Input, a: SocketAddr)
    requires K.Inv(s) && CanStep(cfg, s, i)
    ensures var before, v := Find(s.reg.endpointCall, a), Step(cfg, s, i).reg;
      var now := if i.Sip? && i.learned.Some? && a in i.learned.value then Some(i.msg.callId) else before;
      Find(v.endpointCall, a) == if now.Some? && now.value in v.calls then now else None
  {
    EndpointLives(s, a);
    hide K.Inv, CanStep, IngestSip, IngestRtp, IngestRtcp, PeriodicFlush, TakeSip, Fewer;
    match i {
      case Sip(m, rr, learned, ch) =>
        SipFewer(cfg, s, i);
        TakeSipActs(s, m, rr, learned, a);
        FewerFinds(TakeSip(s, m, rr, learned).reg, Step(cfg, s, i).reg, a);
      case Rtp(ts, flow, ssrc, seq16, len) => RtpActs(s, ts, flow, ssrc, seq16, len);
      case Rtcp(ts, ssrc) => RtcpActs(s, ts, ssrc);
      case Tick(_, _, _) =>
        TickFewer(cfg, s, i);
        FewerFinds(s.reg, Step(cfg, s, i).reg, a);
      case _ =>
    }
  }

  /** An address belongs to the call that last announced it, while that call is there. */
  lemma {:induction false} EndpointsAnnounced(cfg: Config, s: State, inputs: seq<Input>, a: SocketAddr)
    requires K.Inv(s) && CanRun(cfg, s, inputs)
    ensures Find(Run(cfg, s, inputs).reg.endpointCall, a)
         == Announced(cfg, s, inputs, a, Find(s.reg.endpointCall, a))
    decreases |inputs|
  {
    hide K.Inv, Step, CanStep;
    if inputs != [] {
      K.StepKeeps(cfg, s, inputs[0]);
      StepAnnounces(cfg, s, inputs[0], a);
      EndpointsAnnounced(cfg, Step(cfg, s, inputs[0]), inputs[1..], a);
    }
  }

  // ----- the packets of a stream -----

  datatype Packet = Packet(ts: u64, seq16: u16, len: nat)

  function Sizes(trace: seq<Packet>): nat {
    if trace == [] then 0 else Sizes(trace[..|trace| - 1]) + trace[|trace| - 1].len
  }

  function Numbers(trace: seq<Packet>): (r: seq<u16>)
    ensures |r| == |trace|
  {
    seq(|trace|, i requires 0 <= i < |trace| => trace[i].seq16)
  }

  /** A stream holds these packets of call `id`: counts, first and last time, and the loss window over their numbers. */
  ghost predicate Holds(s: Stream, flow: Flow5Tuple, id: Str, trace: seq<Packet>) {
    && trace != [] && s.flow == flow && s.callId == id
    && s.packets == |trace| && s.bytes == Sizes(trace)
    && s.firstTs == Some(trace[0].ts) && s.lastTs == Some(trace[|trace| - 1].ts)
    && s.window == Some(W.Run(W.Start(trace[0].seq16), Numbers(trace[1..])))
  }

  lemma NewHolds(id: Str, flow: Flow5Tuple, ts: u64, seq16: u16, len: nat)
    ensures Holds(Observed(NewStream(id, flow), ts, seq16, len), flow, id, [Packet(ts, seq16, len)])
  {
    assert [Packet(ts, seq16, len)][..0] == [];
  }

  lemma MoreHolds(s: Stream, flow: Flow5Tuple, id: Str, trace: seq<Packet>, ts: u64, seq16: u16, len: nat)
    requires Holds(s, flow, id, trace)
    ensures Holds(Observed(s, ts, seq16, len), flow, id, trace + [Packet(ts, seq16, len)])
  {
    var p := Packet(ts, seq16, len);
    assert (trace + [p])[..|trace|] == trace;
    assert Numbers((trace + [p])[1..]) == Numbers(trace[1..]) + [seq16];
    W.RunSnoc(W.Start(trace[0].seq16), Numbers(trace[1..]), seq16);
    hide W.Run, W.Observe, W.Start;
  }

  /** The history of a stream: the call it was opened for, and its packets since. */
  datatype Story = Story(id: Str, trace: seq<Packet>)

  function StoryAfter(s: State, i: Input, key: StreamKey, before: Option<Story>): Option<Story> {
    if !i.Rtp? || StreamKey(i.flow, i.ssrc) != key then before
    else
      var p := Packet(i.ts, i.seq16, i.len);
      match before
      case Some(story) => Some(story.(trace := story.trace + [p]))
      case None =>
        var id := AnnouncedFor(s, key.flow);
        if id.Some? then Some(Story(id.value, [p])) else None
  }

  ghost function StoryOf(cfg: Config, s: State, inputs: seq<Input>, key: StreamKey, before: Option<Story>): Option<Story>
    decreases |inputs|
  {
    if inputs == [] then before
    else
      var next := Step(cfg, s, inputs[0]);
      StoryOf(cfg, next, inputs[1..], key,
              if key in next.reg.streams then StoryAfter(s, inputs[0], key, before) else None)
  }

  /** A stream is there exactly when it has a story, and holds just that. */
  ghost predicate Tells(r: Reg, key: StreamKey, story: Option<Story>) {
    && (key in r.streams <==> story.Some?)
    && (story.Some? ==> Holds(r.streams[key], key.flow, story.value.id, story.value.trace))
  }

  lemma FewerTells(r: Reg, v: Reg, key: StreamKey, story: Option<Story>)
    requires Fewer(r, v) && Tells(r, key, story)
    ensures Tells(v, key, if key in v.streams then story else None)
  {
    hide W.Run, W.Start, Sizes;
  }

  /** A taken packet, seen by the history of any stream. */
  lemma TakenTells(s: State, v: Reg, i: Input, key: StreamKey, before: Option<Story>)
    requires i.Rtp? && Tells(s.reg, key, before)
    requires var at := StreamKey(i.flow, i.ssrc);
      PacketTaken(s.reg, v, at, StreamBefore(s, at), i.ts, i.seq16, i.len)
    ensures Tells(v, key, StoryAfter(s, i, key, before))
  {
    hide Holds, Observed, AnnouncedFor;
    if StreamKey(i.flow, i.ssrc) == key {
      if before.Some? {
        MoreHolds(s.reg.streams[key], key.flow, before.value.id, before.value.trace, i.ts, i.seq16, i.len);
      } else if AnnouncedFor(s, key.flow).Some? {
        NewHolds(AnnouncedFor(s, key.flow).value, key.flow, i.ts, i.seq16, i.len);
      }
    }
  }

  lemma RtpTells(s: State, i: Input, key: StreamKey, before: Option<Story>)
    requires i.Rtp? && Tells(s.reg, key, before)
    ensures Tells(IngestRtp(s.reg, i.ts, i.flow, i.ssrc, i.seq16, i.len), key, StoryAfter(s, i, key, before))
  {
    hide IngestRtp, PacketTaken, Tells, StoryAfter, StreamBefore;
    RtpActs(s, i.ts, i.flow, i.ssrc, i.seq16, i.len);
    TakenTells(s, IngestRtp(s.reg, i.ts, i.flow, i.ssrc, i.seq16, i.len), i, key, before);
  }

  lemma StepTells(cfg: Config, s: State, i: Input, key: StreamKey, before: Option<Story>)
    requires K.Inv(s) && CanStep(cfg, s, i) && Tells(s.reg, key, before)
    ensures var v := Step(cfg, s, i).reg;
      Tells(v, key, if key in v.streams then StoryAfter(s, i, key, before) else None)
  {
    hide K.Inv, CanStep, IngestSip, IngestRtp, IngestRtcp, PeriodicFlush, TakeSip, Fewer, Holds;
    match i {
      case Sip(m, rr, learned, ch) =>
        var t := TakeSip(s, m, rr, learned).reg;
        SipFewer(cfg, s, i);
        TakeSipActs(s, m, rr, learned, m.src);
        FewerTells(t, Step(cfg, s, i).reg, key, before);
      case Rtp(_, _, _, _, _) => RtpTells(s, i, key, before);
      case Rtcp(ts, ssrc) => RtcpActs(s, ts, ssrc);
      case Tick(_, _, _) =>
        TickFewer(cfg, s, i);
        FewerTells(s.reg, Step(cfg, s, i).reg, key, before);
      case _ =>
    }
  }

  /**
    Over any run a stream holds exactly the packets taken for it since it was opened,
    for the call that its source was then announced for, or failing that its
    destination.
   */
  lemma {:induction false} StreamsTell(cfg: Config, s: State, inputs: seq<Input>, key: StreamKey, before: Option<Story>)
    requires K.Inv(s) && CanRun(cfg, s, inputs) && Tells(s.reg, key, before)
    ensures Tells(Run(cfg, s, inputs).reg, key, StoryOf(cfg, s, inputs, key, before))
    decreases |inputs|
  {
    hide K.Inv, Step, CanStep, Tells, StoryAfter;
    if inputs != [] {
      var next := Step(cfg, s, inputs[0]);
      K.StepKeeps(cfg, s, inputs[0]);
      StepTells(cfg, s, inputs[0], key, before);
      StreamsTell(cfg, next, inputs[1..], key,
                  if key in next.reg.streams then StoryAfter(s, inputs[0], key, before) else None);
    }
  }

  // ----- the addresses of a call -----

  /** A call's addresses include both ends of each of its streams. */
  ghost predicate Known(r: Reg) {
    forall k :: k in r.streams && r.streams[k].callId in r.calls ==>
      var ips := r.calls[r.streams[k].callId].origin.ips;
      k.flow.src.ip in ips && k.flow.dst.ip in ips
  }

  /** Calls go, or gain addresses; streams go. */
  ghost predicate Widens(r: Reg, v: Reg) {
    && (forall k :: k in v.streams ==> k in r.streams && r.streams[k].callId == v.streams[k].callId && v.streams[k].callId in r.calls)
    && (forall id, ip :: id in r.calls && id in v.calls && ip in r.calls[id].origin.ips ==> ip in v.calls[id].origin.ips)
  }

  lemma WidensKnown(r: Reg, v: Reg)
    requires Known(r) && Widens(r, v)
    ensures Known(v)
  {
  }

  lemma FewerKnown(r: Reg, v: Reg)
    requires Known(r) && Fewer(r, v)
    ensures Known(v)
  {
  }

  lemma ApplyWidens(c: C.Call, m: C.SipMsg, ip: IpAddr)
    requires ip in c.origin.ips
    ensures ip in C.Apply(c, m).origin.ips
  {
    hide C.Ms, EqIgnoreCase;
  }

  lemma SipKnows(s: State, m: C.SipMsg, rr: bool, learned: Option<seq<SocketAddr>>)
    requires K.Inv(s) && Known(s.reg)
    ensures Known(TakeSip(s, m, rr, learned).reg)
  {
    var r, v := s.reg, TakeSip(s, m, rr, learned).reg;
    TakeSipActs(s, m, rr, learned, m.src);
    AgreementOf(r);
    forall id, ip | id in r.calls && id in v.calls && ip in r.calls[id].origin.ips ensures ip in v.calls[id].origin.ips {
      if id == m.callId {
        ApplyWidens(r.calls[id], m, ip);
        TakenCall(s, m, rr, learned);
      }
    }
    hide TakeSip, K.Inv, Indexed, NoDup;
    WidensKnown(r, v);
  }

  lemma TakenCall(s: State, m: C.SipMsg, rr: bool, learned: Option<seq<SocketAddr>>)
    ensures m.callId in TakeSip(s, m, rr, learned).reg.calls
    ensures TakeSip(s, m, rr, learned).reg.calls[m.callId] ==
      C.Apply(if m.callId in s.reg.calls then s.reg.calls[m.callId] else C.NEW_CALL, m)
  {
    CountsOnly(s.reg, [m.src.ip, m.dst.ip], true);
    if learned.Some? {
      LearnActs(ApplyToCall(NoteInvite(s, m, rr).reg, m), learned.value, m.callId, m.src);
    }
    hide C.Apply, CountActive, Learn;
  }

  lemma RtpKnows(r: Reg, ts: u64, flow: Flow5Tuple, ssrc: u32, seq16: u16, len: nat)
    requires Known(r) && Agreement(r)
    ensures Known(IngestRtp(r, ts, flow, ssrc, seq16, len))
  {
    var key := StreamKey(flow, ssrc);
    hide Observed, AddTo, PacketBothWays, Account.Credit, Indexed, NoDup;
    if key in r.streams {
      ObservedFields(r.streams[key], ts, seq16, len);
      var o := ObservePacket(r, key, ts, seq16, len);
      assert Known(o);
      TouchedKnows(o, r.streams[key].callId, ts);
      hide Touched, Known;
    } else if CallOfFlow(r, flow).Some? {
      var id := CallOfFlow(r, flow).value;
      var o := OpenStream(r, key, id, ts, seq16, len);
      OpenShape(r, key, id, ts, seq16, len);
      ObservedFields(NewStream(id, flow), ts, seq16, len);
      hide OpenStream, Touched;
      WithIpsKnows(r, o, key, id, Observed(NewStream(id, flow), ts, seq16, len));
      TouchedKnows(WithIps(o, id, flow), id, ts);
    }
  }

  lemma TouchedKnows(r: Reg, id: Str, ts: u64)
    requires Known(r)
    ensures Known(Touched(r, id, ts))
  {
  }

  lemma WithIpsKnows(r: Reg, o: Reg, key: StreamKey, id: Str, stream: Stream)
    requires Known(r) && stream.callId == id && o.calls == r.calls && o.streams == r.streams[key := stream]
    ensures Known(WithIps(o, id, key.flow))
  {
  }

  lemma StepKnows(cfg: Config, s: State, i: Input)
    requires K.Inv(s) && CanStep(cfg, s, i) && Known(s.reg)
    ensures Known(Step(cfg, s, i).reg)
  {
    K.InvParts(s);
    AgreementOf(s.reg);
    hide K.Inv, CanStep, IngestSip, IngestRtp, IngestRtcp, PeriodicFlush, TakeSip, Fewer, Sane, Agreement;
    match i {
      case Sip(m, rr, learned, ch) =>
        SipFewer(cfg, s, i);
        SipKnows(s, m, rr, learned);
        FewerKnown(TakeSip(s, m, rr, learned).reg, Step(cfg, s, i).reg);
      case Rtp(ts, flow, ssrc, seq16, len) => RtpKnows(s.reg, ts, flow, ssrc, seq16, len);
      case Rtcp(ts, ssrc) => RtcpKnows(s, ts, ssrc);
      case Tick(_, _, _) =>
        TickFewer(cfg, s, i);
        FewerKnown(s.reg, Step(cfg, s, i).reg);
      case _ =>
    }
  }

  lemma RtcpKnows(s: State, ts: u64, ssrc: u32)
    requires Known(s.reg)
    ensures Known(IngestRtcp(s.reg, ts, ssrc))
  {
    if ListOf(s.reg.ssrcIndex, ssrc) != [] && ListOf(s.reg.ssrcIndex, ssrc)[0] in s.reg.streams {
      TouchedKnows(s.reg, s.reg.streams[ListOf(s.reg.ssrcIndex, ssrc)[0]].callId, ts);
    }
    hide Touched, Known;
  }

  /** In every run a call knows the addresses of all its media. */
  lemma {:induction false} AddressesKnown(cfg: Config, s: State, inputs: seq<Input>)
    requires K.Inv(s) && CanRun(cfg, s, inputs) && Known(s.reg)
    ensures Known(Run(cfg, s, inputs).reg)
    decreases |inputs|
  {
    hide K.Inv, Step, CanStep, Known;
    if inputs != [] {
      K.StepKeeps(cfg, s, inputs[0]);
      StepKnows(cfg, s, inputs[0]);
      AddressesKnown(cfg, Step(cfg, s, inputs[0]), inputs[1..]);
    }
  }

  // ----- the time limit -----

  /** What the user interface keeps: calls in focus, and the matches of a search, those just found if there is one. */
  predicate Protected(p: Pins, found: seq<Str>, id: Str) {
    || (p.focus.Some? && (p.focus.value.primary == id || p.focus.value.linked == Some(id)))
    || (if p.query.Some? then id in found else id in p.matches)
  }

  lemma PinnedMeans(p: Pins, found: seq<Str>, id: Str)
    ensures id in Pinned(Refreshed(p, found)) <==> Protected(p, found, id)
  {
  }

  /** Calls of a tick that is due: some outlived the time limit, then some gave way to the cap. */
  lemma TickCalls(cfg: Config, s: State, i: Input, id: Str)
    requires K.Inv(s) && CanStep(cfg, s, i) && i.Tick? && id in s.reg.calls
    requires s.lastFlush.Some? && s.lastFlush.value + 5_000_000 <= i.ts
    ensures id !in Step(cfg, s, i).reg.calls <==>
      || id in i.orders.choice.victims
      || (cfg.ttlSecs > 0 && i.ts > 0 && !Protected(s.pins, i.found, id) && Outlived(s.reg.calls[id], cfg.ttlSecs, i.ts))
    ensures Protected(s.pins, i.found, id) ==> id in Step(cfg, s, i).reg.calls
    ensures |s.reg.calls| <= cfg.caps.calls ==> i.orders.choice.victims == []
  {
    var ts, found, o := i.ts, i.found, i.orders;
    var a := Attribute(s, ts, o);
    K.AttributeKeeps(s, ts, o);
    FlushAllKeeps(s.reg, o.flush);
    var t := a.(lastFlush := Rearm(a.lastFlush, ts, 5_000_000));
    K.InvBeside(a, t);
    K.InvParts(t);
    assert a.lastFlush == s.lastFlush && a.reg.calls == s.reg.calls && a.pins == s.pins by {
      hide FlushAll, Lossless;
    }
    K.SameStale(cfg, a, t, ts, found, o);
    hide K.Inv, Sane, CanEvict, Attribute, Stale, Lossless, FlushAll, Maintain;
    MaintainCalls(cfg, t, ts, found, o, id);
  }

  lemma MaintainCalls(cfg: Config, s: State, ts: u64, found: seq<Str>, o: Orders, id: Str)
    requires Sane(s.reg) && s.reg.removed == [] && SetOf(o.stale) == s.reg.calls.Keys && id in s.reg.calls
    requires var t := Stale(cfg, s, ts, found, o); CanEvict(t.reg, cfg.caps, Pinned(t.pins), o.choice)
    ensures id !in Maintain(cfg, s, ts, found, o).reg.calls <==>
      || id in o.choice.victims
      || (cfg.ttlSecs > 0 && ts > 0 && !Protected(s.pins, found, id) && Outlived(s.reg.calls[id], cfg.ttlSecs, ts))
    ensures Protected(s.pins, found, id) ==> id in Maintain(cfg, s, ts, found, o).reg.calls
    ensures |s.reg.calls| <= cfg.caps.calls ==> o.choice.victims == []
  {
    var t, pins := Stale(cfg, s, ts, found, o), Pinned(Refreshed(s.pins, found));
    PinnedMeans(s.pins, found, id);
    EvictStaleExact(s.reg, pins, cfg.ttlSecs, ts, o.stale);
    K.MaintainShape(cfg, s, ts, found, o);
    EvictIfNeededExact(t.reg, cfg.caps, pins, o.choice);
    NoVictims(t.reg, cfg.caps, pins, o.choice);
    hide Sane, CanEvict, Maintain, EvictStale, EvictIfNeeded, Pinned, Refreshed, Protected, Outlived;
    K.SubsetSize(t.reg.calls.Keys, s.reg.calls.Keys);
  }

  lemma NoVictims(r: Reg, caps: Caps, pins: set<Str>, ch: Choice)
    requires CanEvict(r, caps, pins, ch)
    ensures |r.calls| <= caps.calls ==> ch.victims == []
  {
  }

  lemma QuietTick(cfg: Config, s: State, i: Input)
    requires K.Inv(s) && i.Tick? && (s.lastFlush.None? || i.ts < s.lastFlush.value + 5_000_000)
    ensures Step(cfg, s, i).reg.calls == s.reg.calls
  {
    FlushAllKeeps(s.reg, i.orders.flush);
    hide FlushAll, Lossless;
  }

  lemma TickOfActive(cfg: Config, s: State, i: Input, id: Str)
    requires K.Inv(s) && CanStep(cfg, s, i) && i.Tick? && |s.reg.calls| <= cfg.caps.calls
    requires id in s.reg.calls && !IsOver(s.reg.calls[id])
    ensures id !in Step(cfg, s, i).reg.calls <==>
      && s.lastFlush.Some? && s.lastFlush.value + 5_000_000 <= i.ts
      && cfg.ttlSecs > 0 && !Protected(s.pins, i.found, id)
      && 0 < s.reg.calls[id].lastTs && s.reg.calls[id].lastTs + cfg.ttlSecs * 1_000_000 < i.ts
  {
    hide K.Inv, CanStep, Step, Protected;
    if s.lastFlush.Some? && s.lastFlush.value + 5_000_000 <= i.ts {
      TickCalls(cfg, s, i, id);
    } else {
      QuietTick(cfg, s, i);
    }
  }

  lemma MaintenanceFires(cfg: Config, inputs: seq<Input>, s: State, ts: u64)
    requires s == Run(cfg, START, inputs)
    ensures s.lastFlush.Some? && s.lastFlush.value + 5_000_000 <= ts <==> Fires(TicksOf(inputs, []), ts, 5_000_000)
  {
    hide Run, TicksOf;
    TickersKeepTime(cfg, START, inputs, []);
  }

  /**
    A tick removes a call that is still up, while calls are within their cap, if and
    only if its maintenance is due, the limit is set, nobody protects the call, and
    the last input that touched it is further back than the limit.
   */
  lemma StillActiveStays(cfg: Config, inputs: seq<Input>, s: State, i: Input, id: Str)
    requires CanRun(cfg, START, inputs) && s == Run(cfg, START, inputs) && i.Tick? && CanStep(cfg, s, i)
    requires |s.reg.calls| <= cfg.caps.calls && id in s.reg.calls && !IsOver(s.reg.calls[id])
    ensures var last := LastTouch(cfg, START, inputs, id, None);
      && last.Some?
      && (id !in Step(cfg, s, i).reg.calls <==>
            && Fires(TicksOf(inputs, []), i.ts, 5_000_000) && cfg.ttlSecs > 0 && !Protected(s.pins, i.found, id)
            && 0 < last.value && last.value + cfg.ttlSecs * 1_000_000 < i.ts)
  {
    hide K.Inv, Run, CanRun, CanStep, Step, LastTouch, Protected, Fires, TicksOf, IsOver;
    MaintenanceFires(cfg, inputs, s, i.ts);
    K.StartInv(Pins(None, [], None));
    K.RunKeeps(cfg, START, inputs);
    LastActivity(cfg, START, inputs, id);
    TickOfActive(cfg, s, i, id);
  }
}
