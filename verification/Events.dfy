/** Event log payloads. Floats are their eight bytes, strings their UTF-8 bytes. */
module Events {
  import opened Prelude
  import opened Net
  import opened Utf8

  type F64 = s: seq<byte> | |s| == 8 witness seq(8, _ => 0)

  datatype CallKind = Setup | Update | Teardown

  datatype SipMsgEvt = SipMsgEvt(
    flow: Flow5Tuple, isRequest: bool, method_: Option<Str>, status: Option<u16>, callId: Str,
    cseq: Option<u32>, branch: Option<Str>, fromTag: Option<Str>, toTag: Option<Str>, raw: seq<byte>)

  datatype TxnEvt = TxnEvt(
    callId: Str, branch: Str, method_: Str, responseCode: Option<u16>, delayMs: Option<u32>)

  datatype CallEvt = CallEvt(
    callId: Str, kind: CallKind,
    fromUser: Option<Str>, toUser: Option<Str>, fromUri: Option<Str>, toUri: Option<Str>,
    state: byte, outcome: byte,
    inviteTs: Option<u64>, tryingTs: Option<u64>, ringingTs: Option<u64>, answerTs: Option<u64>,
    byeTs: Option<u64>, endTs: Option<u64>,
    pddMs: Option<u32>, setupMs: Option<u32>, hangupCode: Option<u32>, hangupReason: Option<Str>,
    pktsSip: u64, pktsRtp: u64, pktsRtcp: u64, bytes: u64)

  datatype StreamSnapEvt = StreamSnapEvt(
    callId: Str, ssrc: u32, flow: Flow5Tuple, codec: Option<Str>, payloadType: Option<byte>,
    packets: u64, lost: u64, expected: u64, lossPct: F64, jitterMs: Option<F64>, mos: Option<F64>,
    direction: Option<Str>,
    bytes: u64, firstTsUs: Option<u64>, lastTsUs: Option<u64>,
    rttMinMs: Option<F64>, rttAvgMs: Option<F64>, rttMaxMs: Option<F64>, onewayMs: Option<F64>,
    leg: Option<Str>, viaTurn: bool)

  datatype RtcpRttEvt = RtcpRttEvt(callId: Str, ssrc: u32, rttMs: F64, onewayMs: Option<F64>)

  datatype MetricSet = MetricSet(
    calls: u64, answered: u64, failed: u64, pddSumMs: F64, pddN: u64, jitterSumMs: F64, jitterN: u64,
    lossSumPct: F64, lossN: u64, rttSumMs: F64, rttN: u64, mosSum: F64, mosN: u64)

  datatype HealthBucket = HealthBucket(bucketUs: u64, dimKey: Str, metrics: MetricSet)

  datatype ErrorEvt = ErrorEvt(kind: Str, msg: Str)

  datatype DiagEvt = DiagEvt(callId: Str, severity: byte, code: Str, message: Str)

  datatype Event =
    | SipMsg(ts: u64, sip: SipMsgEvt)
    | Txn(ts: u64, txn: TxnEvt)
    | Call(ts: u64, call: CallEvt)
    | StreamSnap(ts: u64, snap: StreamSnapEvt)
    | RtcpRtt(ts: u64, rtt: RtcpRttEvt)
    | Health(health: HealthBucket)
    | Error(ts: u64, error: ErrorEvt)
    | Diag(ts: u64, diag: DiagEvt)
  {
    /** A health bucket has no clock of its own besides its bucket start. */
    function TsUs(): u64 {
      if Health? then health.bucketUs else ts
    }

    /** The event as read at another log time. */
    function At(t: u64): Event {
      match this
      case SipMsg(_, e) => SipMsg(t, e)
      case Txn(_, e) => Txn(t, e)
      case Call(_, e) => Call(t, e)
      case StreamSnap(_, e) => StreamSnap(t, e)
      case RtcpRtt(_, e) => RtcpRtt(t, e)
      case Health(h) => Health(h)
      case Error(_, e) => Error(t, e)
      case Diag(_, e) => Diag(t, e)
    }

    /** The record type written for the event. */
    function TypeCode(): byte {
      match this
      case SipMsg(_, _) => 1
      case Txn(_, _) => 2
      case Call(_, _) => 3
      case StreamSnap(_, _) => 4
      case RtcpRtt(_, _) => 5
      case Health(_) => 6
      case Error(_, _) => 7
      case Diag(_, _) => 8
    }
  }
}
