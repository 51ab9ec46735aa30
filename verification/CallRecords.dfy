/** Calls of the registry over whole runs: each is the state machine run over its own messages. */
module CallRecords {
  import opened Prelude
  import opened Net
  import opened Utf8
  import opened Registry
  import opened KeyIndex
  import opened RegistryKeeps
  import opened Eviction
  import opened Correlator
  import opened History
  import opened Activity
  import K = CorrelatorKeeps
  import V = CallVerdicts
  import C = Call

  /** Media of a call move its last activity and its addresses, nothing else. */
  predicate SameRecord(c: C.Call, d: C.Call) {
    c == d.(lastTs := c.lastTs, origin := d.origin.(ips := c.origin.ips))
  }

  lemma ApplyRecords(c: C.Call, d: C.Call, m: C.SipMsg)
    requires SameRecord(c, d)
    ensures SameRecord(C.Apply(c, m), C.Apply(d, m))
  {
    hide EqIgnoreCase, C.Ms;
  }

  ghost predicate Recorded(r: Reg, id: Str, msgs: Option<seq<C.SipMsg>>) {
    && (id in r.calls <==> msgs.Some?)
    && (msgs.Some? ==> SameRecord(r.calls[id], C.Run(msgs.value)))
  }

  function MessagesAfter(i: Input, id: Str, before: Option<seq<C.SipMsg>>): Option<seq<C.SipMsg>> {
    if i.Sip? && i.msg.callId == id then Some(before.GetOr([]) + [i.msg]) else before
  }

  /** The messages a call has had since it was opened, while it is there. */
  ghost function MessagesOf(cfg: Config, s: State, inputs: seq<Input>, id: Str, before: Option<seq<C.SipMsg>>): Option<seq<C.SipMsg>>
    decreases |inputs|
  {
    if inputs == [] then before
    else
      var next := Step(cfg, s, inputs[0]);
      MessagesOf(cfg, next, inputs[1..], id, if id in next.reg.calls then MessagesAfter(inputs[0], id, before) else None)
  }

  lemma FewerRecorded(r: Reg, v: Reg, id: Str, msgs: Option<seq<C.SipMsg>>)
    requires Fewer(r, v) && Recorded(r, id, msgs)
    ensures Recorded(v, id, if id in v.calls then msgs else None)
  {
    hide C.Run, SamePackets;
  }

  lemma SipRecorded(s: State, m: C.SipMsg, rr: bool, learned: Option<seq<SocketAddr>>, id: Str, before: Option<seq<C.SipMsg>>)
    requires Recorded(s.reg, id, before)
    ensures Recorded(TakeSip(s, m, rr, learned).reg, id, if m.callId == id then Some(before.GetOr([]) + [m]) else before)
  {
    TakeSipActs(s, m, rr, learned, m.src);
    TakenCall(s, m, rr, learned);
    assert C.Run([]) == C.NEW_CALL;
    hide TakeSip, C.Apply, C.Run;
    if m.callId == id {
      var msgs := before.GetOr([]);
      ApplyRecords(if id in s.reg.calls then s.reg.calls[id] else C.NEW_CALL, C.Run(msgs), m);
      V.RunSnoc(msgs + [m], |msgs|);
      assert (msgs + [m])[..|msgs|] == msgs;
    }
  }

  lemma TouchedRecords(r: Reg, id: Str, ts: u64, x: Str)
    requires x in r.calls
    ensures x in Touched(r, id, ts).calls && SameRecord(Touched(r, id, ts).calls[x], r.calls[x])
  {
  }

  lemma RtpRecords(r: Reg, ts: u64, flow: Flow5Tuple, ssrc: u32, seq16: u16, len: nat, x: Str)
    requires x in r.calls
    ensures var v := IngestRtp(r, ts, flow, ssrc, seq16, len);
      v.calls.Keys == r.calls.Keys && SameRecord(v.calls[x], r.calls[x])
  {
    var key := StreamKey(flow, ssrc);
    hide Observed, AddTo, PacketBothWays, Account.Credit;
    if key in r.streams {
      TouchedRecords(ObservePacket(r, key, ts, seq16, len), r.streams[key].callId, ts, x);
    } else if CallOfFlow(r, flow).Some? {
      var id := CallOfFlow(r, flow).value;
      var o := OpenStream(r, key, id, ts, seq16, len);
      OpenShape(r, key, id, ts, seq16, len);
      hide OpenStream;
      TouchedRecords(WithIps(o, id, flow), id, ts, x);
    }
  }

  lemma StillRecorded(r: Reg, v: Reg, id: Str, msgs: Option<seq<C.SipMsg>>)
    requires Recorded(r, id, msgs) && v.calls.Keys == r.calls.Keys
    requires id in r.calls ==> SameRecord(v.calls[id], r.calls[id])
    ensures Recorded(v, id, msgs)
  {
    hide C.Run;
  }

  lemma StepRecorded(cfg: Config, s: State, i: Input, id: Str, before: Option<seq<C.SipMsg>>)
    requires K.Inv(s) && CanStep(cfg, s, i) && Recorded(s.reg, id, before)
    ensures var v := Step(cfg, s, i).reg;
      Recorded(v, id, if id in v.calls then MessagesAfter(i, id, before) else None)
  {
    hide K.Inv, CanStep, IngestSip, IngestRtp, IngestRtcp, PeriodicFlush, TakeSip, Fewer, C.Run, SameRecord;
    match i {
      case Sip(m, rr, learned, ch) =>
        SipFewer(cfg, s, i);
        SipRecorded(s, m, rr, learned, id, before);
        FewerRecorded(TakeSip(s, m, rr, learned).reg, Step(cfg, s, i).reg, id, MessagesAfter(i, id, before));
      case Rtp(ts, flow, ssrc, seq16, len) =>
        RtpActs(s, ts, flow, ssrc, seq16, len);
        if id in s.reg.calls {
          RtpRecords(s.reg, ts, flow, ssrc, seq16, len, id);
        }
        StillRecorded(s.reg, Step(cfg, s, i).reg, id, before);
      case Rtcp(ts, ssrc) =>
        RtcpRecords(s, ts, ssrc, id);
        StillRecorded(s.reg, Step(cfg, s, i).reg, id, before);
      case Tick(_, _, _) =>
        TickFewer(cfg, s, i);
        FewerRecorded(s.reg, Step(cfg, s, i).reg, id, before);
      case _ =>
    }
  }

  lemma RtcpRecords(s: State, ts: u64, ssrc: u32, x: Str)
    ensures var v := IngestRtcp(s.reg, ts, ssrc);
      v.calls.Keys == s.reg.calls.Keys && (x in s.reg.calls ==> SameRecord(v.calls[x], s.reg.calls[x]))
  {
  }

  /**
    Over any run a call is there exactly while it has messages since it was opened,
    and it is the state machine run over those, media aside: so whatever holds of
    that machine's runs holds of every live call.
   */
  lemma {:induction false} CallsRecord(cfg: Config, s: State, inputs: seq<Input>, id: Str, before: Option<seq<C.SipMsg>>)
    requires K.Inv(s) && CanRun(cfg, s, inputs) && Recorded(s.reg, id, before)
    ensures Recorded(Run(cfg, s, inputs).reg, id, MessagesOf(cfg, s, inputs, id, before))
    decreases |inputs|
  {
    hide K.Inv, Step, CanStep, Recorded, MessagesAfter;
    if inputs != [] {
      var next := Step(cfg, s, inputs[0]);
      K.StepKeeps(cfg, s, inputs[0]);
      StepRecorded(cfg, s, inputs[0], id, before);
      CallsRecord(cfg, next, inputs[1..], id, if id in next.reg.calls then MessagesAfter(inputs[0], id, before) else None);
    }
  }
}
