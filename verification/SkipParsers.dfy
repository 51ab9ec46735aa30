/** The hand-written walkers that read the same payloads as the full decoder. */
module SkipParsers {
  import opened Prelude
  import opened Net
  import opened Utf8
  import opened Events
  import opened Codec
  import opened Payload
  import Varint

  // ----- slice readers -----

  function SliceStr(rd: seq<byte>): Option<(Str, seq<byte>)> {
    var (s, rd) :- ReadBlob(rd);
    Some((if Valid(s) then s else [], rd))
  }

  function SkipOptString(rd: seq<byte>): Option<seq<byte>> {
    var (len, rd) :- ReadVarint(rd);
    if len == 0 then Some(rd)
    else
      var n := SatSub(len, 1);
      if |rd| < n then None else Some(rd[n..])
  }

  function SkipOptTagged(rd: seq<byte>, body: nat): Option<seq<byte>> {
    if rd == [] then None
    else if rd[0] == 0 then Some(rd[1..])
    else if |rd[1..]| < body then None
    else Some(rd[1..][body..])
  }

  function SkipOptVarint(rd: seq<byte>): Option<seq<byte>> {
    if rd == [] then None
    else if rd[0] == 0 then Some(rd[1..])
    else
      var (_, rd) :- ReadVarint(rd[1..]);
      Some(rd)
  }

  function SliceOptF64(rd: seq<byte>): Option<(Option<F64>, seq<byte>)> {
    var (flag, rd) :- Take(rd, 1);
    if flag[0] == 0 then Some((None, rd))
    else
      var (x, rd) :- Take(rd, 8);
      Some((Some(x), rd))
  }

  function SliceOptU8(rd: seq<byte>): Option<(Option<byte>, seq<byte>)> {
    var (flag, rd) :- Take(rd, 1);
    if flag[0] == 0 then Some((None, rd))
    else
      var (b, rd) :- Take(rd, 1);
      Some((Some(b[0]), rd))
  }

  function SliceOptU64(rd: seq<byte>): Option<(Option<u64>, seq<byte>)> {
    var (flag, rd) :- Take(rd, 1);
    if flag[0] == 0 then Some((None, rd))
    else
      var (n, rd) :- ReadVarint(rd);
      Some((Some(n), rd))
  }

  function SliceOptOwnedString(rd: seq<byte>): Option<(Option<Str>, seq<byte>)> {
    var (len, rd) :- ReadVarint(rd);
    if len == 0 then Some((None, rd))
    else
      var (s, rd) :- Take(rd, SatSub(len, 1));
      Some((Some(LossyStr(s)), rd))
  }

  // ----- the three parsers -----

  /** The snapshot fields the statistics need. */
  datatype SnapLite = SnapLite(
    callId: Str, ssrc: u32, flow: Option<Flow5Tuple>, packets: u64, lost: u64, bytes: u64,
    jitterMs: Option<F64>, mos: Option<F64>, rttAvgMs: Option<F64>)

  /** Up to `direction`; the later fields at their defaults. */
  function LiteBase(rd: seq<byte>): Option<(SnapLite, seq<byte>)> {
    var (callId, rd) :- SliceStr(rd);
    var (ssrc, rd) :- Take(rd, 4);
    var (flow, rd) :- ReadFlow(rd);
    var rd :- SkipOptString(rd);
    var rd :- SkipOptTagged(rd, 1);
    var (packets, rd) :- ReadVarint(rd);
    var (lost, rd) :- ReadVarint(rd);
    var (_, rd) :- ReadVarint(rd);
    var (_, rd) :- Take(rd, 8);
    var (jitterMs, rd) :- SliceOptF64(rd);
    var (mos, rd) :- SliceOptF64(rd);
    var rd :- SkipOptString(rd);
    Some((SnapLite(callId, Be32Of(ssrc), Some(flow), packets, lost, 0, jitterMs, mos, None), rd))
  }

  function LiteTail(e: SnapLite, rd: seq<byte>): Option<SnapLite> {
    var (bytes, rd) :- ReadVarint(rd);
    var rd :- SkipOptVarint(rd);
    var rd :- SkipOptVarint(rd);
    var rd :- SkipOptTagged(rd, 8);
    var (rttAvgMs, _) :- SliceOptF64(rd);
    Some(e.(bytes := bytes, rttAvgMs := rttAvgMs))
  }

  function ParseSnapLite(rd: seq<byte>): Option<SnapLite> {
    var (e, rd) :- LiteBase(rd);
    if rd == [] then Some(e) else LiteTail(e, rd)
  }

  /** The snapshot fields after `direction`, as the summary parser reads them. */
  function SummaryTail(e: StreamSnapEvt, rd: seq<byte>): Option<StreamSnapEvt> {
    var (bytes, rd) :- ReadVarint(rd);
    var (firstTsUs, rd) :- SliceOptU64(rd);
    var (lastTsUs, rd) :- SliceOptU64(rd);
    var (rttMinMs, rd) :- SliceOptF64(rd);
    var (rttAvgMs, rd) :- SliceOptF64(rd);
    var (rttMaxMs, rd) :- SliceOptF64(rd);
    var (onewayMs, rd) :- SliceOptF64(rd);
    var (leg, rd) :- if rd == [] then Some((None, rd)) else SliceOptOwnedString(rd);
    var (turn, _) :- if rd == [] then Some(([0], rd)) else Take(rd, 1);
    Some(e.(bytes := bytes, firstTsUs := firstTsUs, lastTsUs := lastTsUs, rttMinMs := rttMinMs,
            rttAvgMs := rttAvgMs, rttMaxMs := rttMaxMs, onewayMs := onewayMs, leg := leg,
            viaTurn := turn[0] != 0))
  }

  function SummaryBase(rd: seq<byte>): Option<(StreamSnapEvt, seq<byte>)> {
    var (callId, rd) :- SliceStr(rd);
    var (ssrc, rd) :- Take(rd, 4);
    var (flow, rd) :- ReadFlow(rd);
    var (codec, rd) :- SliceOptOwnedString(rd);
    var (payloadType, rd) :- SliceOptU8(rd);
    var (packets, rd) :- ReadVarint(rd);
    var (lost, rd) :- ReadVarint(rd);
    var (expected, rd) :- ReadVarint(rd);
    var (lossPct, rd) :- Take(rd, 8);
    var (jitterMs, rd) :- SliceOptF64(rd);
    var (mos, rd) :- SliceOptF64(rd);
    var (direction, rd) :- SliceOptOwnedString(rd);
    Some((StreamSnapEvt(callId, Be32Of(ssrc), flow, codec, payloadType, packets, lost, expected,
                        lossPct, jitterMs, mos, direction,
                        0, None, None, None, None, None, None, None, false), rd))
  }

  /** The full summary used by replay; its fields are those of the snapshot event. */
  function ParseSummary(rd: seq<byte>): Option<StreamSnapEvt> {
    var (e, rd) :- SummaryBase(rd);
    if rd == [] then Some(e) else SummaryTail(e, rd)
  }

  /** The sample of an RTT record, its call id and ssrc skipped. */
  function ParseRttMs(rd: seq<byte>): Option<F64> {
    var (_, rd) :- SliceStr(rd);
    if |rd| < 4 + 8 then None
    else
      Some(rd[4..][..8])
  }

  // ----- one field, read in full and skipped -----

  lemma StrAgrees(rd: seq<byte>)
    ensures Dec(KStr, rd).Some? <==> SliceStr(rd).Some?
    ensures Dec(KStr, rd).Some? <==> ReadBlob(rd).Some?
    ensures Dec(KStr, rd).Some? ==> SliceStr(rd).value.1 == Dec(KStr, rd).value.1
    ensures Dec(KStr, rd).Some? ==>
      (SliceStr(rd).value.0 == Dec(KStr, rd).value.0.Str() <==> Valid(ReadBlob(rd).value.0))
  {
    if ReadBlob(rd).Some? {
      LossyIsValid(ReadBlob(rd).value.0);
    }
  }

  lemma OptStringAgrees(rd: seq<byte>)
    requires Dec(KOptStr, rd).Some?
    ensures SkipOptString(rd) == Some(Dec(KOptStr, rd).value.1)
    ensures SliceOptOwnedString(rd) == Some((Dec(KOptStr, rd).value.0.OptStr(), Dec(KOptStr, rd).value.1))
  {
  }

  lemma OptF64Agrees(rd: seq<byte>)
    requires Dec(KOptF64, rd).Some?
    ensures SliceOptF64(rd) == Some((Dec(KOptF64, rd).value.0.OptFloat(), Dec(KOptF64, rd).value.1))
    ensures SkipOptTagged(rd, 8) == Some(Dec(KOptF64, rd).value.1)
  {
  }

  lemma OptU8Agrees(rd: seq<byte>)
    requires Dec(KOptU8, rd).Some?
    ensures SliceOptU8(rd) == Some((Dec(KOptU8, rd).value.0.OptU8(), Dec(KOptU8, rd).value.1))
    ensures SkipOptTagged(rd, 1) == Some(Dec(KOptU8, rd).value.1)
  {
  }

  lemma OptU64Agrees(rd: seq<byte>)
    requires Dec(KOptU64, rd).Some?
    ensures SliceOptU64(rd) == Some((Dec(KOptU64, rd).value.0.OptU64(), Dec(KOptU64, rd).value.1))
    ensures SkipOptVarint(rd) == Some(Dec(KOptU64, rd).value.1)
  {
  }

  /** A field without a flag, as its plain reader gives it. */
  lemma PlainAgrees(rd: seq<byte>)
    ensures Dec(KU32, rd).Some? ==> Take(rd, 4) == Some((Take(rd, 4).value.0, Dec(KU32, rd).value.1))
                                    && Be32Of(Take(rd, 4).value.0) == Dec(KU32, rd).value.0.U32()
    ensures Dec(KF64, rd).Some? ==> Take(rd, 8) == Some((Dec(KF64, rd).value.0.Float(), Dec(KF64, rd).value.1))
    ensures Dec(KFlow, rd).Some? ==> ReadFlow(rd) == Some((Dec(KFlow, rd).value.0.Flow(), Dec(KFlow, rd).value.1))
    ensures Dec(KVarint, rd).Some? ==> ReadVarint(rd) == Some((Dec(KVarint, rd).value.0.Num(), Dec(KVarint, rd).value.1))
  {
  }

  /** Where the `i`-th field of a list starts. */
  function At(ks: seq<Kind>, rd: seq<byte>, i: nat): seq<byte>
    requires i <= |ks| && DecAll(ks, rd).Some?
  {
    if i == 0 then rd else At(ks[1..], Dec(ks[0], rd).value.1, i - 1)
  }

  lemma {:induction false} AtSteps(ks: seq<Kind>, rd: seq<byte>, i: nat)
    requires i < |ks| && DecAll(ks, rd).Some?
    ensures Dec(ks[i], At(ks, rd, i)) == Some((DecAll(ks, rd).value.0[i], At(ks, rd, i + 1)))
  {
    hide Dec;
    if i > 0 {
      AtSteps(ks[1..], Dec(ks[0], rd).value.1, i - 1);
    }
  }

  lemma {:induction false} AtEnd(ks: seq<Kind>, rd: seq<byte>)
    requires DecAll(ks, rd).Some?
    ensures At(ks, rd, |ks|) == DecAll(ks, rd).value.1
  {
    hide Dec;
    if ks != [] {
      AtEnd(ks[1..], Dec(ks[0], rd).value.1);
    }
  }

  /** `r` are the field boundaries of a list that decodes to `v`. */
  ghost predicate Boundaries(ks: seq<Kind>, r: seq<seq<byte>>, v: seq<Val>) {
    && |r| == |ks| + 1 && |v| == |ks|
    && forall i :: 0 <= i < |ks| ==> Dec(ks[i], r[i]) == Some((v[i], r[i + 1]))
  }

  /** The field boundaries of a list that decodes. */
  function BoundariesOf(ks: seq<Kind>, rd: seq<byte>): seq<seq<byte>>
    requires DecAll(ks, rd).Some?
  {
    seq(|ks| + 1, i requires 0 <= i <= |ks| => At(ks, rd, i))
  }

  lemma BoundariesHold(ks: seq<Kind>, rd: seq<byte>)
    requires DecAll(ks, rd).Some?
    ensures var r := BoundariesOf(ks, rd);
      && Boundaries(ks, r, DecAll(ks, rd).value.0)
      && r[0] == rd && r[|ks|] == DecAll(ks, rd).value.1
  {
    hide Dec;
    var r := BoundariesOf(ks, rd);
    forall i | 0 <= i < |ks|
      ensures Dec(ks[i], r[i]) == Some((DecAll(ks, rd).value.0[i], r[i + 1]))
    {
      AtSteps(ks, rd, i);
    }
    AtEnd(ks, rd);
  }

  lemma BaseFields(r: seq<seq<byte>>, v: seq<Val>)
    requires Boundaries(SNAP_BASE, r, v)
    ensures Dec(KStr, r[0]) == Some((v[0], r[1]))
    ensures Dec(KU32, r[1]) == Some((v[1], r[2]))
    ensures Dec(KFlow, r[2]) == Some((v[2], r[3]))
    ensures Dec(KOptStr, r[3]) == Some((v[3], r[4]))
    ensures Dec(KOptU8, r[4]) == Some((v[4], r[5]))
    ensures Dec(KVarint, r[5]) == Some((v[5], r[6]))
    ensures Dec(KVarint, r[6]) == Some((v[6], r[7]))
    ensures Dec(KVarint, r[7]) == Some((v[7], r[8]))
    ensures Dec(KF64, r[8]) == Some((v[8], r[9]))
    ensures Dec(KOptF64, r[9]) == Some((v[9], r[10]))
    ensures Dec(KOptF64, r[10]) == Some((v[10], r[11]))
    ensures Dec(KOptStr, r[11]) == Some((v[11], r[12]))
  {
    assert SNAP_BASE[0] == KStr;
    assert SNAP_BASE[1] == KU32;
    assert SNAP_BASE[2] == KFlow;
    assert SNAP_BASE[3] == KOptStr;
    assert SNAP_BASE[4] == KOptU8;
    assert SNAP_BASE[5] == KVarint;
    assert SNAP_BASE[6] == KVarint;
    assert SNAP_BASE[7] == KVarint;
    assert SNAP_BASE[8] == KF64;
    assert SNAP_BASE[9] == KOptF64;
    assert SNAP_BASE[10] == KOptF64;
    assert SNAP_BASE[11] == KOptStr;
  }

  lemma TailFields(r: seq<seq<byte>>, w: seq<Val>)
    requires Boundaries(SNAP_TAIL, r, w)
    ensures Dec(KVarint, r[0]) == Some((w[0], r[1]))
    ensures Dec(KOptU64, r[1]) == Some((w[1], r[2]))
    ensures Dec(KOptU64, r[2]) == Some((w[2], r[3]))
    ensures Dec(KOptF64, r[3]) == Some((w[3], r[4]))
    ensures Dec(KOptF64, r[4]) == Some((w[4], r[5]))
    ensures Dec(KOptF64, r[5]) == Some((w[5], r[6]))
    ensures Dec(KOptF64, r[6]) == Some((w[6], r[7]))
    ensures Dec(KOptStr, r[7]) == Some((w[7], r[8]))
    ensures Dec(KU8, r[8]) == Some((w[8], r[9]))
  {
    assert SNAP_TAIL[0] == KVarint;
    assert SNAP_TAIL[1] == KOptU64;
    assert SNAP_TAIL[2] == KOptU64;
    assert SNAP_TAIL[3] == KOptF64;
    assert SNAP_TAIL[4] == KOptF64;
    assert SNAP_TAIL[5] == KOptF64;
    assert SNAP_TAIL[6] == KOptF64;
    assert SNAP_TAIL[7] == KOptStr;
    assert SNAP_TAIL[8] == KU8;
  }

  // ----- agreement on arbitrary bytes -----

  /** The lite view of a snapshot whose call id the walker read as `callId`. */
  function LiteOf(e: StreamSnapEvt, callId: Str): SnapLite {
    SnapLite(callId, e.ssrc, Some(e.flow), e.packets, e.lost, e.bytes, e.jitterMs, e.mos, e.rttAvgMs)
  }

  lemma LiteBaseAgrees(r: seq<seq<byte>>, v: seq<Val>)
    requires Boundaries(SNAP_BASE, r, v)
    ensures SliceStr(r[0]).Some?
    ensures LiteBase(r[0]) ==
      Some((SnapLite(SliceStr(r[0]).value.0, v[1].U32(), Some(v[2].Flow()), v[5].Num(), v[6].Num(), 0,
                     v[9].OptFloat(), v[10].OptFloat(), None), r[12]))
  {
    BaseFields(r, v);
    hide Dec, SliceStr, SkipOptString, SkipOptTagged, SliceOptF64, SliceOptU8, SliceOptOwnedString, ReadFlow,
      ReadVarint, Take, Boundaries;
    StrAgrees(r[0]);
    PlainAgrees(r[1]);
    PlainAgrees(r[2]);
    PlainAgrees(r[5]);
    PlainAgrees(r[6]);
    PlainAgrees(r[7]);
    PlainAgrees(r[8]);
    OptStringAgrees(r[3]);
    OptU8Agrees(r[4]);
    OptF64Agrees(r[9]);
    OptF64Agrees(r[10]);
    OptStringAgrees(r[11]);
  }

  lemma LiteTailAgrees(e: SnapLite, r: seq<seq<byte>>, w: seq<Val>)
    requires Boundaries(SNAP_TAIL, r, w)
    ensures LiteTail(e, r[0]) == Some(e.(bytes := w[0].Num(), rttAvgMs := w[4].OptFloat()))
  {
    TailFields(r, w);
    OptU64Agrees(r[1]);
    OptU64Agrees(r[2]);
    OptF64Agrees(r[3]);
    OptF64Agrees(r[4]);
  }

  lemma SummaryBaseAgrees(r: seq<seq<byte>>, v: seq<Val>)
    requires Boundaries(SNAP_BASE, r, v)
    ensures SliceStr(r[0]).Some?
    ensures SummaryBase(r[0]) ==
      Some((StreamSnapEvt(SliceStr(r[0]).value.0, v[1].U32(), v[2].Flow(), v[3].OptStr(), v[4].OptU8(),
                          v[5].Num(), v[6].Num(), v[7].Num(), v[8].Float(), v[9].OptFloat(),
                          v[10].OptFloat(), v[11].OptStr(),
                          0, None, None, None, None, None, None, None, false), r[12]))
  {
    BaseFields(r, v);
    hide Dec, SliceStr, SkipOptString, SkipOptTagged, SliceOptF64, SliceOptU8, SliceOptOwnedString, ReadFlow,
      ReadVarint, Take, Boundaries;
    StrAgrees(r[0]);
    PlainAgrees(r[1]);
    PlainAgrees(r[2]);
    PlainAgrees(r[5]);
    PlainAgrees(r[6]);
    PlainAgrees(r[7]);
    PlainAgrees(r[8]);
    OptStringAgrees(r[3]);
    OptU8Agrees(r[4]);
    OptF64Agrees(r[9]);
    OptF64Agrees(r[10]);
    OptStringAgrees(r[11]);
  }

  lemma SummaryTailAgrees(e: StreamSnapEvt, r: seq<seq<byte>>, w: seq<Val>)
    requires Boundaries(SNAP_TAIL, r, w)
    ensures SummaryTail(e, r[0]) ==
      Some(e.(bytes := w[0].Num(), firstTsUs := w[1].OptU64(), lastTsUs := w[2].OptU64(),
              rttMinMs := w[3].OptFloat(), rttAvgMs := w[4].OptFloat(), rttMaxMs := w[5].OptFloat(),
              onewayMs := w[6].OptFloat(), leg := w[7].OptStr(), viaTurn := w[8].Byte() != 0))
  {
    TailFields(r, w);
    OptU64Agrees(r[1]);
    OptU64Agrees(r[2]);
    OptF64Agrees(r[3]);
    OptF64Agrees(r[4]);
    OptF64Agrees(r[5]);
    OptF64Agrees(r[6]);
    OptStringAgrees(r[7]);
  }

  lemma LiteReads(rd: seq<byte>, v: seq<Val>, rest: seq<byte>, w: seq<Val>)
    requires DecAll(SNAP_BASE, rd) == Some((v, rest)) && DecTail(rest) == Some(w)
    ensures SliceStr(rd).Some? && |v| == 12 && |w| == 9
    ensures var e := SnapFrom(SliceStr(rd).value.0, v, w);
      ParseSnapLite(rd) == Some(LiteOf(e, e.callId))
  {
    hide Dec, LiteBase, LiteTail, Boundaries, BoundariesOf, SliceStr, DecAll;
    var r := BoundariesOf(SNAP_BASE, rd);
    BoundariesHold(SNAP_BASE, rd);
    LiteBaseAgrees(r, v);
    if rest != [] {
      var t := BoundariesOf(SNAP_TAIL, rest);
      BoundariesHold(SNAP_TAIL, rest);
      LiteTailAgrees(LiteBase(rd).value.0, t, w);
    }
  }

  lemma SummaryReads(rd: seq<byte>, v: seq<Val>, rest: seq<byte>, w: seq<Val>)
    requires DecAll(SNAP_BASE, rd) == Some((v, rest)) && DecTail(rest) == Some(w)
    ensures SliceStr(rd).Some? && |v| == 12 && |w| == 9
    ensures ParseSummary(rd) == Some(SnapFrom(SliceStr(rd).value.0, v, w))
  {
    hide Dec, SummaryBase, SummaryTail, Boundaries, BoundariesOf, SliceStr, DecAll;
    var r := BoundariesOf(SNAP_BASE, rd);
    BoundariesHold(SNAP_BASE, rd);
    SummaryBaseAgrees(r, v);
    if rest != [] {
      var t := BoundariesOf(SNAP_TAIL, rest);
      BoundariesHold(SNAP_TAIL, rest);
      SummaryTailAgrees(SummaryBase(rd).value.0, t, w);
    }
  }

  /** The first field of a snapshot is its call id. */
  lemma CallIdFirst(rd: seq<byte>)
    requires DecAll(SNAP_BASE, rd).Some?
    ensures Dec(KStr, rd).Some? && DecAll(SNAP_BASE, rd).value.0[0] == Dec(KStr, rd).value.0
  {
    hide Dec;
    assert SNAP_BASE[0] == KStr;
  }

  /**
    On any bytes the full decoder accepts, both walkers accept too and read the
    same fields, in the current and the older layout. The call id agrees if and
    only if its bytes are valid UTF-8: the decoder replaces, the walkers drop.
   */
  lemma SnapParsersAgree(ts: u64, rd: seq<byte>)
    requires DecodePayload(4, ts, rd).Some?
    ensures SliceStr(rd).Some? && ReadBlob(rd).Some? && DecodePayload(4, ts, rd).value.StreamSnap?
    ensures var e, callId := DecodePayload(4, ts, rd).value.snap, SliceStr(rd).value.0;
      && ParseSnapLite(rd) == Some(LiteOf(e, callId))
      && ParseSummary(rd) == Some(e.(callId := callId))
      && (callId == e.callId <==> Valid(ReadBlob(rd).value.0))
  {
    hide Dec, ParseSnapLite, ParseSummary, SliceStr, ReadBlob, DecAll, DecTail, Build;
    var (v, rest) := DecAll(SNAP_BASE, rd).value;
    var w := DecTail(rest).value;
    CallIdFirst(rd);
    StrAgrees(rd);
    LiteReads(rd, v, rest, w);
    SummaryReads(rd, v, rest, w);
    BuiltSnap(ts, v, w);
  }

  lemma WordThenFloat(rd: seq<byte>, a: (Val, seq<byte>), b: (Val, seq<byte>))
    requires Dec(KU32, rd) == Some(a) && Dec(KF64, a.1) == Some(b)
    ensures |rd| >= 4 + 8 && rd[4..][..8] == b.0.Float()
  {
  }

  lemma RttDecoded(ts: u64, rd: seq<byte>)
    requires DecodePayload(5, ts, rd).Some?
    ensures DecAll(RTT, rd).Some? && DecodePayload(5, ts, rd).value.RtcpRtt?
    ensures DecodePayload(5, ts, rd).value.rtt.rttMs == DecAll(RTT, rd).value.0[2].Float()
  {
    hide DecAll, Dec;
  }

  /** The RTT walker reads the decoder's sample on any bytes the decoder accepts. */
  lemma RttParserAgrees(ts: u64, rd: seq<byte>)
    requires DecodePayload(5, ts, rd).Some?
    ensures ParseRttMs(rd) == Some(DecodePayload(5, ts, rd).value.rtt.rttMs)
  {
    RttDecoded(ts, rd);
    hide DecodePayload, Dec, SliceStr, BoundariesOf, DecAll;
    var v := DecAll(RTT, rd).value.0;
    var r := BoundariesOf(RTT, rd);
    BoundariesHold(RTT, rd);
    assert RTT[0] == KStr && RTT[1] == KU32 && RTT[2] == KF64;
    assert Dec(RTT[0], r[0]) == Some((v[0], r[1]));
    assert Dec(RTT[1], r[1]) == Some((v[1], r[2]));
    assert Dec(RTT[2], r[2]) == Some((v[2], r[3]));
    StrAgrees(r[0]);
    WordThenFloat(r[1], (v[1], r[2]), (v[2], r[3]));
  }
}
