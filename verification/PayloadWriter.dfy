/** Writing payloads into a reused buffer. */
module PayloadWriter {
  import opened Prelude
  import opened Net
  import opened Utf8
  import opened Events
  import opened Codec
  import opened Payload
  import Varint

  /** The reused encode buffer, with the fields written to it so far. */
  class Buffer {
    var data: seq<byte>
    ghost var vals: seq<Val>

    ghost predicate Valid()
      reads this
    {
      data == EncAll(vals)
    }

    constructor ()
      ensures Valid() && data == [] && vals == []
    {
      data, vals := [], [];
    }

    method Clear()
      modifies this
      ensures Valid() && vals == [] && data == []
    {
      data, vals := [], [];
    }

    method Push(b: byte)
      modifies this`data
      ensures data == old(data) + [b]
    {
      data := data + [b];
    }

    method Extend(s: seq<byte>)
      modifies this`data
      ensures data == old(data) + s
    {
      data := data + s;
    }

    /** Seven bits at a time, low group first. */
    method PushVarint(n0: nat)
      modifies this`data
      ensures data == old(data) + Varint.Encode(n0)
    {
      var n := n0;
      while true
        invariant data + Varint.Encode(n) == old(data) + Varint.Encode(n0)
        decreases n
      {
        var b := n % 0x80;
        var more := n / 0x80;
        if more == 0 {
          Push(b);
          break;
        }
        assert data + Varint.Encode(n) == data + [b + 0x80] + Varint.Encode(more);
        Push(b + 0x80);
        n := more;
      }
    }

    /** Records that the bytes just pushed, in two parts, are field `v`. */
    ghost method Wrote2(a: seq<byte>, b: seq<byte>, v: Val)
      requires data == EncAll(vals) + a + b && Enc(v) == a + b
      modifies this`vals
      ensures Valid() && vals == old(vals) + [v]
    {
      assert data == EncAll(vals) + (a + b);
      Wrote(v);
    }

    /** Records that the bytes just pushed are field `v`. */
    ghost method Wrote(v: Val)
      requires data == EncAll(vals) + Enc(v)
      modifies this`vals
      ensures Valid() && vals == old(vals) + [v]
    {
      EncAllSnoc(vals, v);
      vals := vals + [v];
    }

    method WriteU8(b: byte)
      requires Valid()
      modifies this
      ensures Valid() && vals == old(vals) + [VU8(b)]
    {
      Push(b);
      Wrote(VU8(b));
    }

    method WriteU32(n: u32)
      requires Valid()
      modifies this
      ensures Valid() && vals == old(vals) + [VU32(n)]
    {
      Extend(Be32(n));
      Wrote(VU32(n));
    }

    method WriteVarint(n: u64)
      requires Valid()
      modifies this
      ensures Valid() && vals == old(vals) + [VVarint(n)]
    {
      PushVarint(n);
      Wrote(VVarint(n));
    }

    method WriteString(s: Str)
      requires Valid()
      modifies this
      ensures Valid() && vals == old(vals) + [VStr(s)]
    {
      PushVarint(|s|);
      Extend(s);
      Wrote2(Varint.Encode(|s|), s, VStr(s));
    }

    method WriteOptString(s: Option<Str>)
      requires Valid()
      modifies this
      ensures Valid() && vals == old(vals) + [VOptStr(s)]
    {
      match s {
        case Some(t) =>
          PushVarint(|t| + 1);
          Extend(t);
          Wrote2(Varint.Encode(|t| + 1), t, VOptStr(s));
        case None =>
          PushVarint(0);
          Wrote(VOptStr(s));
      }
    }

    method WriteBytes(s: seq<byte>)
      requires Valid()
      modifies this
      ensures Valid() && vals == old(vals) + [VBytes(s)]
    {
      PushVarint(|s|);
      Extend(s);
      Wrote2(Varint.Encode(|s|), s, VBytes(s));
    }

    method WriteOptU64(v: Option<u64>)
      requires Valid()
      modifies this
      ensures Valid() && vals == old(vals) + [VOptU64(v)]
    {
      match v {
        case Some(n) =>
          Push(1);
          PushVarint(n);
          Wrote2([1], Varint.Encode(n), VOptU64(v));
        case None =>
          Push(0);
          Wrote(VOptU64(v));
      }
    }

    method WriteOptU32(v: Option<u32>)
      requires Valid()
      modifies this
      ensures Valid() && vals == old(vals) + [VOptU32(v)]
    {
      match v {
        case Some(n) =>
          Push(1);
          PushVarint(n);
          Wrote2([1], Varint.Encode(n), VOptU32(v));
        case None =>
          Push(0);
          Wrote(VOptU32(v));
      }
    }

    method WriteOptU16(v: Option<u16>)
      requires Valid()
      modifies this
      ensures Valid() && vals == old(vals) + [VOptU16(v)]
    {
      match v {
        case Some(n) =>
          Push(1);
          Extend(Be16(n));
          Wrote2([1], Be16(n), VOptU16(v));
        case None =>
          Push(0);
          Wrote(VOptU16(v));
      }
    }

    method WriteOptU8(v: Option<byte>)
      requires Valid()
      modifies this
      ensures Valid() && vals == old(vals) + [VOptU8(v)]
    {
      match v {
        case Some(b) =>
          Push(1);
          Push(b);
          Wrote2([1], [b], VOptU8(v));
        case None =>
          Push(0);
          Wrote(VOptU8(v));
      }
    }

    method WriteF64(x: F64)
      requires Valid()
      modifies this
      ensures Valid() && vals == old(vals) + [VF64(x)]
    {
      Extend(x);
      Wrote(VF64(x));
    }

    method WriteOptF64(v: Option<F64>)
      requires Valid()
      modifies this
      ensures Valid() && vals == old(vals) + [VOptF64(v)]
    {
      match v {
        case Some(x) =>
          Push(1);
          Extend(x);
          Wrote2([1], x, VOptF64(v));
        case None =>
          Push(0);
          Wrote(VOptF64(v));
      }
    }

    method WriteFlow(f: Flow5Tuple)
      requires Valid()
      modifies this
      ensures Valid() && vals == old(vals) + [VFlow(f)]
    {
      Push(if f.proto == Udp then 0 else 1);
      PushAddr(f.src);
      PushAddr(f.dst);
      ghost var head := [if f.proto == Udp then 0 else 1] + EncAddr(f.src);
      assert data == EncAll(vals) + head + EncAddr(f.dst);
      Wrote2(head, EncAddr(f.dst), VFlow(f));
    }

    method PushAddr(a: SocketAddr)
      modifies this`data
      ensures data == old(data) + EncAddr(a)
    {
      match a.ip {
        case V4(o) =>
          Push(4);
          Extend(o);
        case V6(o) =>
          Push(6);
          Extend(o);
      }
      Extend(Be16(a.port));
    }

    method WriteSipStart(e: SipMsgEvt)
      requires Valid()
      modifies this
      ensures Valid() && vals == old(vals) + SipStart(e)
    {
      WriteFlow(e.flow);
      WriteU8(BoolByte(e.isRequest));
      WriteOptString(e.method_);
      WriteOptU16(e.status);
      WriteString(e.callId);
    }

    method WriteSipRest(e: SipMsgEvt)
      requires Valid()
      modifies this
      ensures Valid() && vals == old(vals) + SipRest(e)
    {
      WriteOptU32(e.cseq);
      WriteOptString(e.branch);
      WriteOptString(e.fromTag);
      WriteOptString(e.toTag);
      WriteBytes(e.raw);
    }

    method WriteTxnVals(e: TxnEvt)
      requires Valid()
      modifies this
      ensures Valid() && vals == old(vals) + TxnVals(e)
    {
      WriteString(e.callId);
      WriteString(e.branch);
      WriteString(e.method_);
      WriteOptU16(e.responseCode);
      WriteOptU32(e.delayMs);
    }

    method WriteCallParties(e: CallEvt)
      requires Valid()
      modifies this
      ensures Valid() && vals == old(vals) + CallParties(e)
    {
      WriteString(e.callId);
      WriteU8(KindByte(e.kind));
      WriteOptString(e.fromUser);
      WriteOptString(e.toUser);
    }

    method WriteCallState(e: CallEvt)
      requires Valid()
      modifies this
      ensures Valid() && vals == old(vals) + CallState(e)
    {
      WriteOptString(e.fromUri);
      WriteOptString(e.toUri);
      WriteU8(e.state);
      WriteU8(e.outcome);
    }

    method WriteCallTimes(e: CallEvt)
      requires Valid()
      modifies this
      ensures Valid() && vals == old(vals) + CallTimes(e)
    {
      WriteOptU64(e.inviteTs);
      WriteOptU64(e.tryingTs);
      WriteOptU64(e.ringingTs);
      WriteOptU64(e.answerTs);
      WriteOptU64(e.byeTs);
      WriteOptU64(e.endTs);
    }

    method WriteCallResult(e: CallEvt)
      requires Valid()
      modifies this
      ensures Valid() && vals == old(vals) + CallResult(e)
    {
      WriteOptU32(e.pddMs);
      WriteOptU32(e.setupMs);
      WriteOptU32(e.hangupCode);
      WriteOptString(e.hangupReason);
    }

    method WriteCallCounts(e: CallEvt)
      requires Valid()
      modifies this
      ensures Valid() && vals == old(vals) + CallCounts(e)
    {
      WriteVarint(e.pktsSip);
      WriteVarint(e.pktsRtp);
      WriteVarint(e.pktsRtcp);
      WriteVarint(e.bytes);
    }

    method WriteSnapIdentity(e: StreamSnapEvt)
      requires Valid()
      modifies this
      ensures Valid() && vals == old(vals) + SnapIdentity(e)
    {
      WriteString(e.callId);
      WriteU32(e.ssrc);
      WriteFlow(e.flow);
      WriteOptString(e.codec);
      WriteOptU8(e.payloadType);
    }

    method WriteSnapCounts(e: StreamSnapEvt)
      requires Valid()
      modifies this
      ensures Valid() && vals == old(vals) + SnapCounts(e)
    {
      WriteVarint(e.packets);
      WriteVarint(e.lost);
      WriteVarint(e.expected);
      WriteF64(e.lossPct);
    }

    method WriteSnapQuality(e: StreamSnapEvt)
      requires Valid()
      modifies this
      ensures Valid() && vals == old(vals) + SnapQuality(e)
    {
      WriteOptF64(e.jitterMs);
      WriteOptF64(e.mos);
      WriteOptString(e.direction);
    }

    method WriteSnapSpan(e: StreamSnapEvt)
      requires Valid()
      modifies this
      ensures Valid() && vals == old(vals) + SnapSpan(e)
    {
      WriteVarint(e.bytes);
      WriteOptU64(e.firstTsUs);
      WriteOptU64(e.lastTsUs);
      WriteOptF64(e.rttMinMs);
      WriteOptF64(e.rttAvgMs);
    }

    method WriteSnapRelay(e: StreamSnapEvt)
      requires Valid()
      modifies this
      ensures Valid() && vals == old(vals) + SnapRelay(e)
    {
      WriteOptF64(e.rttMaxMs);
      WriteOptF64(e.onewayMs);
      WriteOptString(e.leg);
      WriteU8(BoolByte(e.viaTurn));
    }

    method WriteRttVals(e: RtcpRttEvt)
      requires Valid()
      modifies this
      ensures Valid() && vals == old(vals) + RttVals(e)
    {
      WriteString(e.callId);
      WriteU32(e.ssrc);
      WriteF64(e.rttMs);
      WriteOptF64(e.onewayMs);
    }

    method WriteHealthStart(h: HealthBucket)
      requires Valid()
      modifies this
      ensures Valid() && vals == old(vals) + HealthStart(h)
    {
      WriteVarint(h.bucketUs);
      WriteString(h.dimKey);
    }

    method WriteMetricCounts(m: MetricSet)
      requires Valid()
      modifies this
      ensures Valid() && vals == old(vals) + MetricCounts(m)
    {
      WriteVarint(m.calls);
      WriteVarint(m.answered);
      WriteVarint(m.failed);
      WriteF64(m.pddSumMs);
      WriteVarint(m.pddN);
    }

    method WriteMetricSums(m: MetricSet)
      requires Valid()
      modifies this
      ensures Valid() && vals == old(vals) + MetricSums(m)
    {
      WriteF64(m.jitterSumMs);
      WriteVarint(m.jitterN);
      WriteF64(m.lossSumPct);
      WriteVarint(m.lossN);
    }

    method WriteMetricScores(m: MetricSet)
      requires Valid()
      modifies this
      ensures Valid() && vals == old(vals) + MetricScores(m)
    {
      WriteF64(m.rttSumMs);
      WriteVarint(m.rttN);
      WriteF64(m.mosSum);
      WriteVarint(m.mosN);
    }

    method WriteErrorVals(e: ErrorEvt)
      requires Valid()
      modifies this
      ensures Valid() && vals == old(vals) + ErrorVals(e)
    {
      WriteString(e.kind);
      WriteString(e.msg);
    }

    method WriteDiagVals(e: DiagEvt)
      requires Valid()
      modifies this
      ensures Valid() && vals == old(vals) + DiagVals(e)
    {
      WriteString(e.callId);
      WriteU8(e.severity);
      WriteString(e.code);
      WriteString(e.message);
    }

    method WriteSipMsg(e: SipMsgEvt)
      requires Valid() && vals == []
      modifies this
      ensures Valid() && vals == SipStart(e) + SipRest(e)
    {
      WriteSipStart(e);
      WriteSipRest(e);
    }

    method WriteCall(e: CallEvt)
      requires Valid() && vals == []
      modifies this
      ensures Valid() && vals == CallVals(e)
    {
      WriteCallParties(e);
      WriteCallState(e);
      WriteCallTimes(e);
      WriteCallResult(e);
      WriteCallCounts(e);
    }

    method WriteStreamSnap(e: StreamSnapEvt)
      requires Valid() && vals == []
      modifies this
      ensures Valid() && vals == SnapBaseVals(e) + SnapTailVals(e)
    {
      WriteSnapIdentity(e);
      WriteSnapCounts(e);
      WriteSnapQuality(e);
      WriteSnapSpan(e);
      WriteSnapRelay(e);
    }

    method WriteHealth(h: HealthBucket)
      requires Valid() && vals == []
      modifies this
      ensures Valid() && vals == HealthVals(h)
    {
      WriteHealthStart(h);
      WriteMetricCounts(h.metrics);
      WriteMetricSums(h.metrics);
      WriteMetricScores(h.metrics);
    }
  }

  /** One event's payload into the reused buffer; the result is its type code. */
  method EncodeEventPayload(buf: Buffer, ev: Event) returns (ty: byte)
    modifies buf
    ensures buf.Valid() && buf.vals == Values(ev) && ty == ev.TypeCode()
  {
    buf.Clear();
    match ev {
      case SipMsg(_, e) =>
        buf.WriteSipMsg(e);
        ty := 1;
      case Txn(_, e) =>
        buf.WriteTxnVals(e);
        ty := 2;
      case Call(_, e) =>
        buf.WriteCall(e);
        ty := 3;
      case StreamSnap(_, e) =>
        buf.WriteStreamSnap(e);
        ty := 4;
      case RtcpRtt(_, e) =>
        buf.WriteRttVals(e);
        ty := 5;
      case Health(h) =>
        buf.WriteHealth(h);
        ty := 6;
      case Error(_, e) =>
        buf.WriteErrorVals(e);
        ty := 7;
      case Diag(_, e) =>
        buf.WriteDiagVals(e);
        ty := 8;
    }
  }
}
