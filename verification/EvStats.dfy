/** The statistics accumulator, fed by live events or by raw log records. */
module EvStats {
  import opened Prelude
  import opened Net
  import opened Sip
  import opened Utf8
  import opened Events
  import opened Codec
  import opened Payload
  import opened SkipParsers
  import opened Sums

  const WINDOW_US: nat := 300 * 1_000_000

  /** The floating-point operations the accumulator uses; nothing is assumed of them. */
  datatype Floats = Floats(zero: F64, add: (F64, F64) -> F64, ofU32: u32 -> F64, millis: nat -> F64)

  datatype Counters = Counters(pkts: nat, lost: nat, bytes: nat) {
    function Add(p: nat, l: nat, b: nat): Counters {
      Counters(pkts + p, lost + l, bytes + b)
    }
  }

  datatype FailKind = NotFound | Reject | Busy | Timeout | Fail

  datatype FailSplit = FailSplit(notfound: nat, reject: nat, busy: nat, timeout: nat, fail: nat) {
    function Bump(kind: FailKind): FailSplit {
      match kind
      case NotFound => this.(notfound := notfound + 1)
      case Reject => this.(reject := reject + 1)
      case Busy => this.(busy := busy + 1)
      case Timeout => this.(timeout := timeout + 1)
      case Fail => this.(fail := fail + 1)
    }

    function Total(): nat {
      notfound + reject + busy + timeout + fail
    }
  }

  /** Class of a failed teardown by its SIP status or Q.850 cause. */
  function ClassifyFail(code: Option<u32>): FailKind {
    match code
    case None => Fail
    case Some(c) =>
      if c in {404, 410, 484, 485, 604, 1} then NotFound
      else if c in {486, 600, 17} then Busy
      else if c in {408, 480, 504, 18, 19} then Timeout
      else if c in {401, 403, 407, 433, 488, 603, 606, 607, 21} then Reject
      else Fail
  }

  datatype WindowAcc = WindowAcc(
    loss: Counters, sipMsgs: nat, sipBytes: nat, invites: set<nat>, teardowns: nat, answered: nat,
    completed: nat, canceled: nat, fail: FailSplit, calls: set<nat>, streams: set<(nat, u32)>,
    rttSum: F64, rttN: nat)

  function EmptyWindow(zero: F64): WindowAcc {
    WindowAcc(Counters(0, 0, 0), 0, 0, {}, 0, 0, 0, 0, FailSplit(0, 0, 0, 0, 0), {}, {}, zero, 0)
  }

  datatype EventCounts = EventCounts(
    sip: nat, txn: nat, call: nat, streamSnap: nat, rtcpRtt: nat, health: nat, error: nat, diag: nat,
    skipped: nat)

  datatype CallCounts = CallCounts(
    invite: nat, bye: nat, cancel: nat, completed: nat, failed: nat, canceled: nat)

  datatype StreamId = StreamId(callId: nat, ssrc: u32, flow: Flow5Tuple)

  datatype SnapState = SnapState(packets: u64, lost: u64, bytes: u64)

  datatype StreamQuality = StreamQuality(
    packets: u64, mos: Option<F64>, jitterMs: Option<F64>, rttMs: Option<F64>)

  /** Responses by class, index 1 to 6. */
  type Classes = s: seq<nat> | |s| == 7 witness [0, 0, 0, 0, 0, 0, 0]

  /** Durations and codes of torn-down calls. */
  datatype Timings = Timings(
    pddSamples: seq<u32>, setupSum: F64, setupN: nat, talkSum: F64, talkN: nat, callDurSum: F64,
    callDurN: nat, hangup: map<u32, nat>)

  /** What snapshots accumulate outside the windows. */
  datatype Media = Media(
    lastSnap: map<StreamId, SnapState>, lastQuality: map<StreamId, StreamQuality>,
    ipLoss: map<IpAddr, Counters>, all: Counters)

  datatype Stats = Stats(
    events: EventCounts, intern: map<Str, nat>, callIds: set<nat>, seizureIds: set<nat>,
    calls: CallCounts, windows: map<nat, WindowAcc>, media: Media, sipBytes: nat, sipClass: Classes,
    fail: FailSplit, timings: Timings, answered: nat, rttSum: F64, rttN: nat,
    startTs: Option<u64>, endTs: Option<u64>)

  function Init(fp: Floats): Stats {
    Stats(EventCounts(0, 0, 0, 0, 0, 0, 0, 0, 0), map[], {}, {}, CallCounts(0, 0, 0, 0, 0, 0),
          map[], Media(map[], map[], map[], Counters(0, 0, 0)), 0, [0, 0, 0, 0, 0, 0, 0],
          FailSplit(0, 0, 0, 0, 0), Timings([], fp.zero, 0, fp.zero, 0, fp.zero, 0, map[]), 0,
          fp.zero, 0, None, None)
  }

  // ----- what each event does -----

  function Lookup<K, V>(m: map<K, V>, k: K, default: V): V {
    if k in m then m[k] else default
  }

  function WindowStart(ts: nat): nat {
    ts / WINDOW_US * WINDOW_US
  }

  function WindowAt(fp: Floats, s: Stats, ts: nat): WindowAcc {
    Lookup(s.windows, WindowStart(ts), EmptyWindow(fp.zero))
  }

  function NoteTs(s: Stats, ts: u64): Stats {
    s.(startTs := Some(s.startTs.GetOr(ts)), endTs := Some(ts))
  }

  /** The number a call id stands for, and the table with it. */
  function IdOf(s: Stats, name: Str): nat {
    Lookup(s.intern, name, |s.intern|)
  }

  function WithCall(s: Stats, name: Str): Stats {
    s.(intern := s.intern[name := IdOf(s, name)], callIds := s.callIds + {IdOf(s, name)})
  }

  predicate IsMethod(e: SipMsgEvt, name: seq<byte>) {
    e.isRequest && e.method_.Some? && EqIgnoreCase(e.method_.value, name)
  }

  function ResponseClass(e: SipMsgEvt): nat {
    if !e.isRequest && e.status.Some? then e.status.value / 100 else 0
  }

  function One(b: bool): nat {
    if b then 1 else 0
  }

  function SipWindowed(w: WindowAcc, cid: nat, e: SipMsgEvt, invite: bool): WindowAcc {
    w.(calls := w.calls + {cid}, sipMsgs := w.sipMsgs + 1, sipBytes := w.sipBytes + |e.raw|,
       invites := if invite then w.invites + {cid} else w.invites)
  }

  /** The clock, the call's number and the set of calls: how an event of a call starts. */
  function Admitted(s: Stats, ts: u64, name: Str): Stats {
    WithCall(NoteTs(s, ts), name)
  }

  function SizeCounted(s: Stats, e: SipMsgEvt): Stats {
    s.(events := s.events.(sip := s.events.sip + 1), sipBytes := s.sipBytes + |e.raw|)
  }

  function RequestCounted(s: Stats, cid: nat, e: SipMsgEvt): Stats {
    var invite := IsMethod(e, INVITE);
    s.(calls := s.calls.(invite := s.calls.invite + One(invite), bye := s.calls.bye + One(IsMethod(e, BYE)),
                         cancel := s.calls.cancel + One(IsMethod(e, CANCEL))),
       seizureIds := if invite then s.seizureIds + {cid} else s.seizureIds)
  }

  function ResponseCounted(s: Stats, e: SipMsgEvt): Stats {
    var cls := ResponseClass(e);
    if 1 <= cls <= 6 then s.(sipClass := s.sipClass[cls := s.sipClass[cls] + 1]) else s
  }

  function SipCounted(s: Stats, cid: nat, e: SipMsgEvt): Stats {
    ResponseCounted(RequestCounted(SizeCounted(s, e), cid, e), e)
  }

  function IngestSip(fp: Floats, s0: Stats, ts: u64, e: SipMsgEvt): (r: Stats)
    ensures r.endTs == Some(ts)
  {
    var cid := IdOf(s0, e.callId);
    var s := SipCounted(Admitted(s0, ts, e.callId), cid, e);
    var w := SipWindowed(WindowAt(fp, s, ts), cid, e, IsMethod(e, INVITE));
    s.(windows := s.windows[WindowStart(ts) := w])
  }

  /** The end a call's durations are taken to. */
  function CallEnd(e: CallEvt): Option<u64> {
    if e.endTs.Some? then e.endTs else e.byeTs
  }

  /** A span that both ends are known for and that does not run backwards. */
  function Span(from: Option<u64>, to: Option<u64>): Option<nat> {
    if from.Some? && to.Some? && to.value >= from.value then Some(to.value - from.value) else None
  }

  /** A window with one more teardown. */
  function TornDown(w: WindowAcc, e: CallEvt, cid: nat): WindowAcc {
    w.(teardowns := w.teardowns + 1, calls := w.calls + {cid},
       completed := w.completed + One(e.state == 3), canceled := w.canceled + One(e.state == 5),
       fail := if e.state == 4 then w.fail.Bump(ClassifyFail(e.hangupCode)) else w.fail,
       answered := w.answered + One(e.answerTs.Some?))
  }

  function CountTeardown(s: Stats, e: CallEvt): Stats {
    s.(calls := s.calls.(completed := s.calls.completed + One(e.state == 3),
                         failed := s.calls.failed + One(e.state == 4),
                         canceled := s.calls.canceled + One(e.state == 5)),
       fail := if e.state == 4 then s.fail.Bump(ClassifyFail(e.hangupCode)) else s.fail,
       answered := s.answered + One(e.answerTs.Some?))
  }

  /** Delay samples and the hangup code. */
  function AddSamples(fp: Floats, t: Timings, e: CallEvt): Timings {
    t.(pddSamples := t.pddSamples + if e.pddMs.Some? then [e.pddMs.value] else [],
       setupSum := if e.setupMs.Some? then fp.add(t.setupSum, fp.ofU32(e.setupMs.value)) else t.setupSum,
       setupN := t.setupN + One(e.setupMs.Some?),
       hangup := if e.hangupCode.Some?
                 then t.hangup[e.hangupCode.value := Lookup(t.hangup, e.hangupCode.value, 0) + 1]
                 else t.hangup)
  }

  /** Durations, those that do not run backwards. */
  function AddSpans(fp: Floats, t: Timings, e: CallEvt): Timings {
    var talk, dur := Span(e.answerTs, CallEnd(e)), Span(e.inviteTs, CallEnd(e));
    t.(talkSum := if talk.Some? then fp.add(t.talkSum, fp.millis(talk.value)) else t.talkSum,
       talkN := t.talkN + One(talk.Some?),
       callDurSum := if dur.Some? then fp.add(t.callDurSum, fp.millis(dur.value)) else t.callDurSum,
       callDurN := t.callDurN + One(dur.Some?))
  }

  function TimeTeardown(fp: Floats, t: Timings, e: CallEvt): Timings {
    AddSpans(fp, AddSamples(fp, t, e), e)
  }

  function NoteCall(s0: Stats, ts: u64, name: Str): (r: Stats)
    ensures r.endTs == Some(ts)
  {
    var s := Admitted(s0, ts, name);
    s.(events := s.events.(call := s.events.call + 1))
  }

  /** A teardown, its window already updated to `w`. */
  function FinishCall(fp: Floats, s: Stats, k: nat, w: WindowAcc, e: CallEvt): Stats {
    var c := CountTeardown(s.(windows := s.windows[k := w]), e);
    c.(timings := TimeTeardown(fp, c.timings, e))
  }

  function IngestCall(fp: Floats, s0: Stats, ts: u64, e: CallEvt): (r: Stats)
    ensures r.endTs == Some(ts)
  {
    var s := NoteCall(s0, ts, e.callId);
    if e.kind != Teardown then s
    else FinishCall(fp, s, WindowStart(ts), TornDown(WindowAt(fp, s, ts), e, IdOf(s0, e.callId)), e)
  }

  const UNKNOWN_FLOW: Flow5Tuple :=
    Flow5Tuple(Udp, SocketAddr(V4([0, 0, 0, 0]), 0), SocketAddr(V4([0, 0, 0, 0]), 0))

  function StreamIdOf(s: Stats, e: SnapLite): StreamId {
    StreamId(IdOf(s, e.callId), e.ssrc, e.flow.GetOr(UNKNOWN_FLOW))
  }

  /** What a snapshot adds since the stream's previous one. */
  function SnapStep(last: map<StreamId, SnapState>, key: StreamId, e: SnapLite): Counters {
    var prev := Lookup(last, key, SnapState(0, 0, 0));
    Counters(SatSub(e.packets, prev.packets), SatSub(e.lost, prev.lost), SatSub(e.bytes, prev.bytes))
  }

  function AddIp(m: map<IpAddr, Counters>, ip: IpAddr, d: Counters): map<IpAddr, Counters> {
    m[ip := Lookup(m, ip, Counters(0, 0, 0)).Add(d.pkts, d.lost, d.bytes)]
  }

  /** A snapshot outside its window: kept as the stream's last, its delta added up. */
  function SnapMedia(m: Media, key: StreamId, e: SnapLite, d: Counters): Media {
    Media(m.lastSnap[key := SnapState(e.packets, e.lost, e.bytes)],
          m.lastQuality[key := StreamQuality(e.packets, e.mos, e.jitterMs, e.rttAvgMs)],
          if d != Counters(0, 0, 0) && e.flow.Some?
          then AddIp(AddIp(m.ipLoss, e.flow.value.src.ip, d), e.flow.value.dst.ip, d)
          else m.ipLoss,
          m.all.Add(d.pkts, d.lost, d.bytes))
  }

  function SnapWindow(w: WindowAcc, cid: nat, ssrc: u32, d: Counters): WindowAcc {
    w.(loss := w.loss.Add(d.pkts, d.lost, d.bytes), calls := w.calls + {cid}, streams := w.streams + {(cid, ssrc)})
  }

  function NoteSnap(s0: Stats, ts: u64, name: Str): Stats {
    var s := Admitted(s0, ts, name);
    s.(events := s.events.(streamSnap := s.events.streamSnap + 1))
  }

  function IngestSnap(fp: Floats, s0: Stats, ts: u64, e: SnapLite): (r: Stats)
    ensures r.endTs == Some(ts)
  {
    var s, cid, key := NoteSnap(s0, ts, e.callId), IdOf(s0, e.callId), StreamIdOf(s0, e);
    var d := SnapStep(s.media.lastSnap, key, e);
    var m := s.(media := SnapMedia(s.media, key, e, d));
    m.(windows := m.windows[WindowStart(ts) := SnapWindow(WindowAt(fp, m, ts), cid, e.ssrc, d)])
  }

  function IngestRtt(fp: Floats, s0: Stats, ts: u64, rttMs: F64): (r: Stats)
    ensures r.endTs == Some(ts)
  {
    var s, w := NoteTs(s0, ts), WindowAt(fp, s0, ts);
    s.(events := s.events.(rtcpRtt := s.events.rtcpRtt + 1),
       rttSum := fp.add(s.rttSum, rttMs), rttN := s.rttN + 1,
       windows := s.windows[WindowStart(ts) := w.(rttSum := fp.add(w.rttSum, rttMs), rttN := w.rttN + 1)])
  }

  /** The four event types that are only counted, by their type code. */
  function Count(s0: Stats, ts: u64, ty: byte): (r: Stats)
    ensures r.endTs == Some(ts)
  {
    var s := NoteTs(s0, ts);
    s.(events := match ty
                 case 2 => s.events.(txn := s.events.txn + 1)
                 case 6 => s.events.(health := s.events.health + 1)
                 case 8 => s.events.(diag := s.events.diag + 1)
                 case _ => s.events.(error := s.events.error + 1))
  }

  /** One live event. */
  function Ingest(fp: Floats, s: Stats, ev: Event): (r: Stats)
    ensures r.endTs == Some(ev.TsUs())
  {
    match ev
    case SipMsg(ts, e) => IngestSip(fp, s, ts, e)
    case Call(ts, e) => IngestCall(fp, s, ts, e)
    case StreamSnap(ts, e) => IngestSnap(fp, s, ts, LiteOf(e, e.callId))
    case RtcpRtt(ts, e) => IngestRtt(fp, s, ts, e.rttMs)
    case _ => Count(s, ev.TsUs(), ev.TypeCode())
  }

  /** A live session: every event in turn. */
  function Fold(fp: Floats, s: Stats, events: seq<Event>): Stats
    decreases |events|
  {
    if events == [] then s else Fold(fp, Ingest(fp, s, events[0]), events[1..])
  }

  function Skipped(s: Stats): Stats {
    s.(events := s.events.(skipped := s.events.skipped + 1))
  }

  /**
    One raw record: types 4 and 5 through the walkers, the counted types undecoded.
    `None` when decoding stops the process.
   */
  function IngestRecord(fp: Floats, s: Stats, ty: byte, ts: u64, payload: seq<byte>): Option<Stats> {
    match ty
    case 4 =>
      (match ParseSnapLite(payload)
       case Some(lite) => Some(IngestSnap(fp, s, ts, lite))
       case None => Some(Skipped(s)))
    case 5 =>
      (match ParseRttMs(payload)
       case Some(rtt) => Some(IngestRtt(fp, s, ts, rtt))
       case None => Some(Skipped(s)))
    case _ =>
      if ty == 1 || ty == 3 then
        match Decode(ty, ts, payload)
        case Decoded(ev) => Some(Ingest(fp, s, ev))
        case Malformed => Some(Skipped(s))
        case Fatal => None
      else
        Some(Count(s, ts, ty))
  }
}
