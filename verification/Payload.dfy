/** The payload of each event type, written and decoded. */
module Payload {
  import opened Prelude
  import opened Net
  import opened Utf8
  import opened Events
  import opened Codec
  import Varint

  // ----- field lists, in wire order -----

  const SIP: seq<Kind> :=
    [KFlow, KU8, KOptStr, KOptU16, KStr] + [KOptU32, KOptStr, KOptStr, KOptStr, KBytes]
  const TXN: seq<Kind> := [KStr, KStr, KStr, KOptU16, KOptU32]
  const CALL: seq<Kind> :=
    [KStr, KU8, KOptStr, KOptStr] + [KOptStr, KOptStr, KU8, KU8]
    + [KOptU64, KOptU64, KOptU64, KOptU64, KOptU64, KOptU64]
    + [KOptU32, KOptU32, KOptU32, KOptStr] + [KVarint, KVarint, KVarint, KVarint]
  const SNAP_BASE: seq<Kind> :=
    [KStr, KU32, KFlow, KOptStr, KOptU8] + [KVarint, KVarint, KVarint, KF64] + [KOptF64, KOptF64, KOptStr]
  /** Fields added after `direction`; older logs stop before them. */
  const SNAP_TAIL: seq<Kind> :=
    [KVarint, KOptU64, KOptU64, KOptF64, KOptF64] + [KOptF64, KOptF64, KOptStr, KU8]
  const RTT: seq<Kind> := [KStr, KU32, KF64, KOptF64]
  const HEALTH: seq<Kind> :=
    [KVarint, KStr] + [KVarint, KVarint, KVarint, KF64, KVarint]
    + [KF64, KVarint, KF64, KVarint] + [KF64, KVarint, KF64, KVarint]
  const ERROR: seq<Kind> := [KStr, KStr]
  const DIAG: seq<Kind> := [KStr, KU8, KStr, KStr]

  function BoolByte(b: bool): byte {
    if b then 1 else 0
  }

  function KindByte(k: CallKind): byte {
    match k
    case Setup => 1
    case Update => 2
    case Teardown => 3
  }

  function KindOfByte(b: byte): CallKind {
    if b == 3 then Teardown else if b == 2 then Update else Setup
  }

  // Long payloads are listed, and written, in parts.

  function SipStart(e: SipMsgEvt): seq<Val> {
    [VFlow(e.flow), VU8(BoolByte(e.isRequest)), VOptStr(e.method_), VOptU16(e.status),
     VStr(e.callId)]
  }

  function SipRest(e: SipMsgEvt): seq<Val> {
    [VOptU32(e.cseq), VOptStr(e.branch), VOptStr(e.fromTag), VOptStr(e.toTag), VBytes(e.raw)]
  }

  function TxnVals(e: TxnEvt): seq<Val> {
    [VStr(e.callId), VStr(e.branch), VStr(e.method_), VOptU16(e.responseCode), VOptU32(e.delayMs)]
  }

  function CallParties(e: CallEvt): seq<Val> {
    [VStr(e.callId), VU8(KindByte(e.kind)), VOptStr(e.fromUser), VOptStr(e.toUser)]
  }

  function CallState(e: CallEvt): seq<Val> {
    [VOptStr(e.fromUri), VOptStr(e.toUri), VU8(e.state), VU8(e.outcome)]
  }

  function CallTimes(e: CallEvt): seq<Val> {
    [VOptU64(e.inviteTs), VOptU64(e.tryingTs), VOptU64(e.ringingTs), VOptU64(e.answerTs),
     VOptU64(e.byeTs), VOptU64(e.endTs)]
  }

  function CallResult(e: CallEvt): seq<Val> {
    [VOptU32(e.pddMs), VOptU32(e.setupMs), VOptU32(e.hangupCode), VOptStr(e.hangupReason)]
  }

  function CallCounts(e: CallEvt): seq<Val> {
    [VVarint(e.pktsSip), VVarint(e.pktsRtp), VVarint(e.pktsRtcp), VVarint(e.bytes)]
  }

  function SnapIdentity(e: StreamSnapEvt): seq<Val> {
    [VStr(e.callId), VU32(e.ssrc), VFlow(e.flow), VOptStr(e.codec), VOptU8(e.payloadType)]
  }

  function SnapCounts(e: StreamSnapEvt): seq<Val> {
    [VVarint(e.packets), VVarint(e.lost), VVarint(e.expected), VF64(e.lossPct)]
  }

  function SnapQuality(e: StreamSnapEvt): seq<Val> {
    [VOptF64(e.jitterMs), VOptF64(e.mos), VOptStr(e.direction)]
  }

  function SnapSpan(e: StreamSnapEvt): seq<Val> {
    [VVarint(e.bytes), VOptU64(e.firstTsUs), VOptU64(e.lastTsUs), VOptF64(e.rttMinMs),
     VOptF64(e.rttAvgMs)]
  }

  function SnapRelay(e: StreamSnapEvt): seq<Val> {
    [VOptF64(e.rttMaxMs), VOptF64(e.onewayMs), VOptStr(e.leg), VU8(BoolByte(e.viaTurn))]
  }

  function RttVals(e: RtcpRttEvt): seq<Val> {
    [VStr(e.callId), VU32(e.ssrc), VF64(e.rttMs), VOptF64(e.onewayMs)]
  }

  function HealthStart(h: HealthBucket): seq<Val> {
    [VVarint(h.bucketUs), VStr(h.dimKey)]
  }

  function MetricCounts(m: MetricSet): seq<Val> {
    [VVarint(m.calls), VVarint(m.answered), VVarint(m.failed), VF64(m.pddSumMs), VVarint(m.pddN)]
  }

  function MetricSums(m: MetricSet): seq<Val> {
    [VF64(m.jitterSumMs), VVarint(m.jitterN), VF64(m.lossSumPct), VVarint(m.lossN)]
  }

  function MetricScores(m: MetricSet): seq<Val> {
    [VF64(m.rttSumMs), VVarint(m.rttN), VF64(m.mosSum), VVarint(m.mosN)]
  }

  function ErrorVals(e: ErrorEvt): seq<Val> {
    [VStr(e.kind), VStr(e.msg)]
  }

  function DiagVals(e: DiagEvt): seq<Val> {
    [VStr(e.callId), VU8(e.severity), VStr(e.code), VStr(e.message)]
  }

  function CallVals(e: CallEvt): seq<Val> {
    CallParties(e) + CallState(e) + CallTimes(e) + CallResult(e) + CallCounts(e)
  }

  function SnapBaseVals(e: StreamSnapEvt): seq<Val> {
    SnapIdentity(e) + SnapCounts(e) + SnapQuality(e)
  }

  function SnapTailVals(e: StreamSnapEvt): seq<Val> {
    SnapSpan(e) + SnapRelay(e)
  }

  function HealthVals(h: HealthBucket): seq<Val> {
    HealthStart(h) + MetricCounts(h.metrics) + MetricSums(h.metrics) + MetricScores(h.metrics)
  }

  /** The fields an event writes. */
  function Values(ev: Event): seq<Val> {
    match ev
    case SipMsg(_, e) => SipStart(e) + SipRest(e)
    case Txn(_, e) => TxnVals(e)
    case Call(_, e) => CallVals(e)
    case StreamSnap(_, e) => SnapBaseVals(e) + SnapTailVals(e)
    case RtcpRtt(_, e) => RttVals(e)
    case Health(h) => HealthVals(h)
    case Error(_, e) => ErrorVals(e)
    case Diag(_, e) => DiagVals(e)
  }

  // ----- decoding -----

  /** The field list of a record type; a snapshot's is its base. */
  function SchemaOf(ty: byte): seq<Kind> {
    match ty
    case 1 => SIP
    case 2 => TXN
    case 3 => CALL
    case 4 => SNAP_BASE
    case 5 => RTT
    case 6 => HEALTH
    case 7 => ERROR
    case 8 => DIAG
    case _ => []
  }

  /** What the fields after `direction` are taken to be when they are absent. */
  const NO_TAIL: seq<Val> :=
    [VVarint(0), VOptU64(None), VOptU64(None), VOptF64(None), VOptF64(None), VOptF64(None),
     VOptF64(None), VOptStr(None), VU8(0)]

  /** The event made of a decoded field list; unknown types become an error event. */
  function Build(ty: byte, ts: u64, v: seq<Val>): Event
    requires |v| == |SchemaOf(ty)| + if ty == 4 then |SNAP_TAIL| else 0
  {
    match ty
    case 1 =>
      SipMsg(ts, SipMsgEvt(v[0].Flow(), v[1].Byte() != 0, v[2].OptStr(), v[3].OptU16(), v[4].Str(),
                           v[5].OptU32(), v[6].OptStr(), v[7].OptStr(), v[8].OptStr(), v[9].Blob()))
    case 2 =>
      Txn(ts, TxnEvt(v[0].Str(), v[1].Str(), v[2].Str(), v[3].OptU16(), v[4].OptU32()))
    case 3 =>
      Call(ts, CallEvt(v[0].Str(), KindOfByte(v[1].Byte()), v[2].OptStr(), v[3].OptStr(), v[4].OptStr(),
                       v[5].OptStr(), v[6].Byte(), v[7].Byte(), v[8].OptU64(), v[9].OptU64(),
                       v[10].OptU64(), v[11].OptU64(), v[12].OptU64(), v[13].OptU64(), v[14].OptU32(),
                       v[15].OptU32(), v[16].OptU32(), v[17].OptStr(),
                       v[18].Num(), v[19].Num(), v[20].Num(), v[21].Num()))
    case 4 =>
      StreamSnap(ts, StreamSnapEvt(v[0].Str(), v[1].U32(), v[2].Flow(), v[3].OptStr(), v[4].OptU8(),
                                   v[5].Num(), v[6].Num(), v[7].Num(), v[8].Float(), v[9].OptFloat(),
                                   v[10].OptFloat(), v[11].OptStr(),
                                   v[12].Num(), v[13].OptU64(), v[14].OptU64(), v[15].OptFloat(),
                                   v[16].OptFloat(), v[17].OptFloat(), v[18].OptFloat(), v[19].OptStr(),
                                   v[20].Byte() != 0))
    case 5 =>
      RtcpRtt(ts, RtcpRttEvt(v[0].Str(), v[1].U32(), v[2].Float(), v[3].OptFloat()))
    case 6 =>
      Health(HealthBucket(v[0].Num(), v[1].Str(),
        MetricSet(v[2].Num(), v[3].Num(), v[4].Num(), v[5].Float(), v[6].Num(), v[7].Float(), v[8].Num(),
                  v[9].Float(), v[10].Num(), v[11].Float(), v[12].Num(), v[13].Float(), v[14].Num())))
    case 7 => Error(ts, ErrorEvt(v[0].Str(), v[1].Str()))
    case 8 => Diag(ts, DiagEvt(v[0].Str(), v[1].Byte(), v[2].Str(), v[3].Str()))
    case _ => Error(ts, ErrorEvt(AsciiStr(UNKNOWN_EVENT), AsciiStr(SKIPPED + Digits(ty))))
  }

  /** "unknown_event" */
  const UNKNOWN_EVENT: seq<byte> := [117, 110, 107, 110, 111, 119, 110, 95, 101, 118, 101, 110, 116]
  /** "skipped event type " */
  const SKIPPED: seq<byte> :=
    [115, 107, 105, 112, 112, 101, 100, 32, 101, 118, 101, 110, 116, 32, 116, 121, 112, 101, 32]

  /** A snapshot's later fields, or their defaults when the payload stops before them. */
  function DecTail(rd: seq<byte>): (r: Option<seq<Val>>)
    ensures r.Some? ==> HaveKinds(r.value, SNAP_TAIL)
  {
    if rd == [] then Some(NO_TAIL)
    else
      var (w, _) :- DecAll(SNAP_TAIL, rd);
      Some(w)
  }

  /** Decoding a payload; `None` when some field is cut short or overlong. */
  function DecodePayload(ty: byte, ts: u64, rd: seq<byte>): Option<Event> {
    var (v, rd) :- DecAll(SchemaOf(ty), rd);
    if ty == 4 then
      var w :- DecTail(rd);
      Some(Build(ty, ts, v + w))
    else
      Some(Build(ty, ts, v))
  }

  /** Whether decoding meets a field too long to allocate, which stops the process. */
  predicate Aborts(ty: byte, rd: seq<byte>) {
    || AnyOverlong(SchemaOf(ty), rd)
    || (ty == 4 && DecAll(SNAP_BASE, rd).Some? && AnyOverlong(SNAP_TAIL, DecAll(SNAP_BASE, rd).value.1))
  }

  /** What becomes of a payload: an event, an error to skip, or the end of the process. */
  datatype Outcome = Decoded(ev: Event) | Malformed | Fatal

  function Decode(ty: byte, ts: u64, rd: seq<byte>): Outcome {
    if Aborts(ty, rd) then Fatal
    else
      match DecodePayload(ty, ts, rd)
      case Some(ev) => Decoded(ev)
      case None => Malformed
  }

  /** A payload that decodes never stops the process, so decoding it is the event. */
  lemma DecodesSafely(ty: byte, ts: u64, rd: seq<byte>)
    requires DecodePayload(ty, ts, rd).Some? && |rd| <= MAX_ALLOC
    ensures Decode(ty, ts, rd) == Decoded(DecodePayload(ty, ts, rd).value)
  {
    hide Build, AnyOverlong, DecAll;
    AllReadNoneOverlong(SchemaOf(ty), rd);
    if ty == 4 {
      var rest := DecAll(SNAP_BASE, rd).value.1;
      if rest != [] {
        AllReadNoneOverlong(SNAP_TAIL, rest);
      } else {
        NothingOverlong();
      }
    }
  }

  lemma NothingOverlong()
    ensures !AnyOverlong(SNAP_TAIL, [])
  {
    assert SNAP_TAIL[0] == KVarint;
  }

  /** A first string that announces more than can be allocated stops the process, whatever follows. */
  lemma OverlongNameIsFatal(ty: byte, ts: u64, n: u64, rest: seq<byte>)
    requires ty in {2, 3, 4, 5, 7, 8} && n > MAX_ALLOC
    ensures Decode(ty, ts, Varint.Encode(n) + rest) == Fatal
  {
    Varint.RoundTrip(n, rest);
  }

  // ----- round trip -----

  lemma KindsConcat(a: seq<Val>, b: seq<Val>)
    ensures Kinds(a + b) == Kinds(a) + Kinds(b)
  {
  }

  lemma SipKinds(e: SipMsgEvt)
    ensures Kinds(SipStart(e) + SipRest(e)) == SIP
  {
    KindsConcat(SipStart(e), SipRest(e));
    assert Kinds(SipStart(e)) == [KFlow, KU8, KOptStr, KOptU16, KStr];
    assert Kinds(SipRest(e)) == [KOptU32, KOptStr, KOptStr, KOptStr, KBytes];
  }

  lemma CallKinds(e: CallEvt)
    ensures Kinds(CallVals(e)) == CALL
  {
    var a := CallParties(e) + CallState(e);
    KindsConcat(CallParties(e), CallState(e));
    KindsConcat(a, CallTimes(e));
    KindsConcat(a + CallTimes(e), CallResult(e));
    KindsConcat(a + CallTimes(e) + CallResult(e), CallCounts(e));
    assert Kinds(CallParties(e)) == [KStr, KU8, KOptStr, KOptStr];
    assert Kinds(CallState(e)) == [KOptStr, KOptStr, KU8, KU8];
    assert Kinds(CallTimes(e)) == [KOptU64, KOptU64, KOptU64, KOptU64, KOptU64, KOptU64];
    assert Kinds(CallResult(e)) == [KOptU32, KOptU32, KOptU32, KOptStr];
    assert Kinds(CallCounts(e)) == [KVarint, KVarint, KVarint, KVarint];
  }

  lemma HealthKinds(h: HealthBucket)
    ensures Kinds(HealthVals(h)) == HEALTH
  {
    var a, m := HealthStart(h) + MetricCounts(h.metrics), h.metrics;
    KindsConcat(HealthStart(h), MetricCounts(m));
    KindsConcat(a, MetricSums(m));
    KindsConcat(a + MetricSums(m), MetricScores(m));
    assert Kinds(HealthStart(h)) == [KVarint, KStr];
    assert Kinds(MetricCounts(m)) == [KVarint, KVarint, KVarint, KF64, KVarint];
    assert Kinds(MetricSums(m)) == [KF64, KVarint, KF64, KVarint];
    assert Kinds(MetricScores(m)) == [KF64, KVarint, KF64, KVarint];
  }

  lemma SnapKinds(e: StreamSnapEvt)
    ensures Kinds(SnapBaseVals(e)) == SNAP_BASE && Kinds(SnapTailVals(e)) == SNAP_TAIL
  {
    KindsConcat(SnapIdentity(e), SnapCounts(e));
    KindsConcat(SnapIdentity(e) + SnapCounts(e), SnapQuality(e));
    KindsConcat(SnapSpan(e), SnapRelay(e));
    assert Kinds(SnapIdentity(e)) == [KStr, KU32, KFlow, KOptStr, KOptU8];
    assert Kinds(SnapCounts(e)) == [KVarint, KVarint, KVarint, KF64];
    assert Kinds(SnapQuality(e)) == [KOptF64, KOptF64, KOptStr];
    assert Kinds(SnapSpan(e)) == [KVarint, KOptU64, KOptU64, KOptF64, KOptF64];
    assert Kinds(SnapRelay(e)) == [KOptF64, KOptF64, KOptStr, KU8];
  }

  /** Each event writes the fields its record type lists. */
  lemma ValuesHaveKinds(ev: Event)
    requires !ev.StreamSnap?
    ensures Kinds(Values(ev)) == SchemaOf(ev.TypeCode())
  {
    match ev {
      case SipMsg(_, e) => SipKinds(e);
      case Call(_, e) => CallKinds(e);
      case Health(h) => HealthKinds(h);
      case _ =>
    }
  }

  lemma BuildValues(ev: Event, ts: u64)
    ensures |Values(ev)| == |SchemaOf(ev.TypeCode())| + if ev.StreamSnap? then |SNAP_TAIL| else 0
    ensures Build(ev.TypeCode(), ts, Values(ev)) == ev.At(ts)
  {
  }

  lemma DecodeFields(ty: byte, ts: u64, vals: seq<Val>)
    requires ty != 4 && Kinds(vals) == SchemaOf(ty) && |EncAll(vals)| <= MAX_RECORD_LEN
    ensures DecodePayload(ty, ts, EncAll(vals)) == Some(Build(ty, ts, vals))
  {
    FieldsRoundTrip(vals, []);
    assert EncAll(vals) + [] == EncAll(vals);
  }

  /** Both parts of a snapshot read back, one after the other. */
  lemma SnapFieldsRead(v: seq<Val>, w: seq<Val>)
    requires Kinds(v) == SNAP_BASE && Kinds(w) == SNAP_TAIL && |EncAll(v + w)| <= MAX_RECORD_LEN
    ensures DecAll(SNAP_BASE, EncAll(v + w)) == Some((v, EncAll(w)))
    ensures DecAll(SNAP_TAIL, EncAll(w)) == Some((w, []))
    ensures EncAll(w) != []
  {
    EncAllConcat(v, w);
    FieldsRoundTrip(v, EncAll(w));
    FieldsRoundTrip(w, []);
    assert EncAll(w) + [] == EncAll(w);
    assert Kinds(w)[0] == SNAP_TAIL[0] == KVarint;
    EncNonEmpty(w);
  }

  lemma EncNonEmpty(w: seq<Val>)
    requires w != [] && w[0].VVarint?
    ensures EncAll(w) != []
  {
    assert |EncAll(w)| >= |Enc(w[0])| > 0;
  }

  lemma DecodeParts(ts: u64, v: seq<Val>, w: seq<Val>, rd: seq<byte>)
    requires DecAll(SNAP_BASE, rd).Some? && DecAll(SNAP_BASE, rd).value.0 == v
    requires var rest := DecAll(SNAP_BASE, rd).value.1;
      rest != [] && DecAll(SNAP_TAIL, rest).Some? && DecAll(SNAP_TAIL, rest).value.0 == w
    ensures DecodePayload(4, ts, rd).Some?
    ensures DecodePayload(4, ts, rd) == Some(Build(4, ts, v + w))
  {
  }

  lemma PayloadReads(ev: Event, ts: u64)
    requires |EncAll(Values(ev))| <= MAX_RECORD_LEN
    ensures DecodePayload(ev.TypeCode(), ts, EncAll(Values(ev))) == Some(ev.At(ts))
  {
    BuildValues(ev, ts);
    if ev.StreamSnap? {
      SnapKinds(ev.snap);
      var v, w := SnapBaseVals(ev.snap), SnapTailVals(ev.snap);
      SnapFieldsRead(v, w);
      DecodeParts(ts, v, w, EncAll(v + w));
    } else {
      ValuesHaveKinds(ev);
      DecodeFields(ev.TypeCode(), ts, Values(ev));
    }
  }

  /** Every event decodes from its own payload, at the time it is read. */
  lemma PayloadRoundTrip(ev: Event, ts: u64)
    requires |EncAll(Values(ev))| <= MAX_RECORD_LEN
    ensures DecodePayload(ev.TypeCode(), ts, EncAll(Values(ev))) == Some(ev.At(ts))
    ensures Decode(ev.TypeCode(), ts, EncAll(Values(ev))) == Decoded(ev.At(ts))
  {
    PayloadReads(ev, ts);
    DecodesSafely(ev.TypeCode(), ts, EncAll(Values(ev)));
  }

  /** A snapshot from its fields by position, its call id apart. */
  function SnapFrom(callId: Str, v: seq<Val>, w: seq<Val>): StreamSnapEvt
    requires |v| == 12 && |w| == 9
  {
    StreamSnapEvt(callId, v[1].U32(), v[2].Flow(), v[3].OptStr(), v[4].OptU8(), v[5].Num(),
                  v[6].Num(), v[7].Num(), v[8].Float(), v[9].OptFloat(), v[10].OptFloat(),
                  v[11].OptStr(), w[0].Num(), w[1].OptU64(), w[2].OptU64(), w[3].OptFloat(),
                  w[4].OptFloat(), w[5].OptFloat(), w[6].OptFloat(), w[7].OptStr(), w[8].Byte() != 0)
  }

  lemma BuiltSnap(ts: u64, v: seq<Val>, w: seq<Val>)
    requires |v| == 12 && |w| == 9
    ensures Build(4, ts, v + w) == StreamSnap(ts, SnapFrom(v[0].Str(), v, w))
  {
  }

  /** A snapshot in the older layout reads with every later field at its default. */
  lemma OldSnapDecodes(e: StreamSnapEvt, ts: u64)
    requires |EncAll(SnapBaseVals(e))| <= MAX_RECORD_LEN
    ensures DecodePayload(4, ts, EncAll(SnapBaseVals(e)))
         == Some(StreamSnap(ts, e.(bytes := 0, firstTsUs := None, lastTsUs := None, rttMinMs := None,
                                   rttAvgMs := None, rttMaxMs := None, onewayMs := None,
                                   leg := None, viaTurn := false)))
    ensures Decode(4, ts, EncAll(SnapBaseVals(e))).Decoded?
  {
    var v := SnapBaseVals(e);
    SnapKinds(e);
    OldSnapFields(ts, v);
    BuiltSnap(ts, v, NO_TAIL);
    DecodesSafely(4, ts, EncAll(v));
  }

  lemma OldSnapFields(ts: u64, v: seq<Val>)
    requires Kinds(v) == SNAP_BASE && |EncAll(v)| <= MAX_RECORD_LEN
    ensures DecodePayload(4, ts, EncAll(v)) == Some(Build(4, ts, v + NO_TAIL))
  {
    FieldsRoundTrip(v, []);
    assert EncAll(v) + [] == EncAll(v);
  }
}
