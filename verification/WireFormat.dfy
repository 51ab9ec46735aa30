/** The bytes of the log format, said without its encoders. */
module WireFormat {
  import opened Prelude
  import opened Net
  import opened Events
  import opened Utf8
  import opened Codec
  import opened Payload
  import opened EvlogFile
  import Varint

  // ----- numbers -----

  /** Little-endian groups of seven bits. */
  function Groups(s: seq<byte>): nat {
    if s == [] then 0 else s[0] % 128 + 128 * Groups(s[1..])
  }

  /** The shortest run of groups for `n`: a high bit on all but the last byte. */
  ghost predicate Spells(s: seq<byte>, n: nat) {
    && s != [] && Groups(s) == n
    && (forall i :: 0 <= i < |s| ==> (s[i] >= 128 <==> i < |s| - 1))
    && (|s| > 1 ==> s[|s| - 1] != 0)
  }

  lemma {:induction false} EncodeSpells(n: nat)
    ensures Spells(Varint.Encode(n), n)
    ensures n > 0 ==> Varint.Encode(n)[|Varint.Encode(n)| - 1] != 0
    decreases n
  {
    if n >= 128 {
      var s := Varint.Encode(n);
      EncodeSpells(n / 128);
      assert s[1..] == Varint.Encode(n / 128);
      assert forall i :: 0 < i < |s| ==> s[i] == s[1..][i - 1];
    } else {
      assert [n][1..] == [];
    }
  }

  lemma {:induction false} LastGroup(s: seq<byte>)
    requires s != [] && s[|s| - 1] != 0 && s[|s| - 1] < 128
    ensures Groups(s) > 0
    decreases |s|
  {
    if |s| > 1 {
      LastGroup(s[1..]);
    }
  }

  lemma {:induction false} SpelledOnce(s: seq<byte>, n: nat)
    requires Spells(s, n)
    ensures s == Varint.Encode(n)
    decreases |s|
  {
    var t := s[1..];
    if t == [] {
      assert Groups(t) == 0;
    } else {
      assert forall i :: 0 <= i < |t| ==> t[i] == s[i + 1];
      assert s[0] >= 128;
      LastGroup(t);
      SpelledOnce(t, Groups(t));
      assert n / 128 == Groups(t) && n % 128 == s[0] % 128;
      assert s == [s[0]] + t;
    }
  }

  /** A varint is the one shortest spelling of its number. */
  lemma VarintIs(n: nat, s: seq<byte>)
    ensures s == Varint.Encode(n) <==> Spells(s, n)
  {
    EncodeSpells(n);
    if Spells(s, n) {
      SpelledOnce(s, n);
    }
  }

  /** A number, most significant byte first. */
  function BigEndian(s: seq<byte>): nat {
    if s == [] then 0 else 256 * BigEndian(s[..|s| - 1]) + s[|s| - 1]
  }

  lemma TwoBytes(s: seq<byte>)
    requires |s| == 2
    ensures BigEndian(s) == Be16Of(s)
  {
    assert s[..1][..0] == [] && s[..1][0] == s[0];
    assert BigEndian(s[..1]) == s[0];
  }

  lemma FourBytes(s: seq<byte>)
    requires |s| == 4
    ensures BigEndian(s) == Be32Of(s)
  {
    assert s[..3][..2] == s[..2] && s[2..] == [s[2], s[3]];
    TwoBytes(s[..2]);
    assert BigEndian(s[..3]) == 256 * BigEndian(s[..2]) + s[2];
  }

  lemma Be16Is(n: u16, s: seq<byte>)
    ensures s == Be16(n) <==> |s| == 2 && BigEndian(s) == n
  {
    if |s| == 2 {
      TwoBytes(s);
    }
  }

  lemma Be16Back(s: seq<byte>)
    requires |s| == 2
    ensures Be16(Be16Of(s)) == s
  {
  }

  lemma Be32Back(s: seq<byte>)
    requires |s| == 4
    ensures Be32(Be32Of(s)) == s
  {
    Be16Back(s[..2]);
    Be16Back(s[2..]);
    var hi: u16, lo: u16 := Be16Of(s[..2]), Be16Of(s[2..]);
    hide Be16, Be16Of;
    assert Be32Of(s) == 0x1_0000 * (hi as int) + lo;
    assert Be32Of(s) / 0x1_0000 == hi && Be32Of(s) % 0x1_0000 == lo;
    assert s == s[..2] + s[2..];
  }

  lemma Be32Is(n: u32, s: seq<byte>)
    ensures s == Be32(n) <==> |s| == 4 && BigEndian(s) == n
  {
    Be32RoundTrip(n);
    assert |Be32(n)| == 4;
    hide Be32, Be32Of;
    if |s| == 4 {
      FourBytes(s);
      Be32Back(s);
    }
  }

  // ----- fields -----

  /** `s` is the number of bytes in `text`, plus `extra`, and then `text`. */
  ghost predicate Counted(s: seq<byte>, text: seq<byte>, extra: nat) {
    exists k :: 0 <= k <= |s| && s[k..] == text && Spells(s[..k], |text| + extra)
  }

  /** Address family, octets and port. */
  predicate AddrWritten(s: seq<byte>, a: SocketAddr) {
    var octets := if a.ip.V4? then a.ip.v4 else a.ip.v6;
    && |s| == 1 + |octets| + 2
    && s[0] == (if a.ip.V4? then 4 else 6)
    && s[1..1 + |octets|] == octets
    && BigEndian(s[1 + |octets|..]) == a.port
  }

  ghost predicate FlowWritten(s: seq<byte>, f: Flow5Tuple) {
    && s != [] && s[0] == (if f.proto.Udp? then 0 else 1)
    && exists k :: 1 <= k <= |s| && AddrWritten(s[1..k], f.src) && AddrWritten(s[k..], f.dst)
  }

  /** The bytes of a field: how its number, text or address stands in the log. */
  ghost predicate Written(s: seq<byte>, v: Val) {
    match v
    case VU8(b) => s == [b]
    case VU32(n) => |s| == 4 && BigEndian(s) == n
    case VVarint(n) => Spells(s, n)
    case VStr(t) => Counted(s, t, 0)
    case VOptStr(None) => s == [0]
    case VOptStr(Some(t)) => Counted(s, t, 1)
    case VBytes(t) => Counted(s, t, 0)
    case VF64(x) => s == x
    case VFlow(f) => FlowWritten(s, f)
    case _ => if Absent(v) then s == [0] else s != [] && s[0] == 1 && Present(s[1..], v)
  }

  predicate Absent(v: Val) {
    match v
    case VOptU64(o) => o.None?
    case VOptU32(o) => o.None?
    case VOptU16(o) => o.None?
    case VOptU8(o) => o.None?
    case VOptF64(o) => o.None?
    case _ => false
  }

  /** What follows the presence flag. */
  ghost predicate Present(s: seq<byte>, v: Val) {
    match v
    case VOptU64(Some(n)) => Spells(s, n)
    case VOptU32(Some(n)) => Spells(s, n)
    case VOptU16(Some(n)) => |s| == 2 && BigEndian(s) == n
    case VOptU8(Some(b)) => s == [b]
    case VOptF64(Some(x)) => s == x
    case _ => false
  }

  lemma CountedIs(s: seq<byte>, text: seq<byte>, extra: nat)
    ensures s == Varint.Encode(|text| + extra) + text <==> Counted(s, text, extra)
  {
    var p := Varint.Encode(|text| + extra);
    VarintIs(|text| + extra, p);
    if s == p + text {
      assert s[..|p|] == p && s[|p|..] == text;
    }
    if Counted(s, text, extra) {
      var k :| 0 <= k <= |s| && s[k..] == text && Spells(s[..k], |text| + extra);
      VarintIs(|text| + extra, s[..k]);
      assert s == s[..k] + s[k..];
    }
  }

  lemma AddrIs(s: seq<byte>, a: SocketAddr)
    ensures s == EncAddr(a) <==> AddrWritten(s, a)
  {
    var octets: seq<byte> := if a.ip.V4? then a.ip.v4 else a.ip.v6;
    var tag: byte := if a.ip.V4? then 4 else 6;
    assert EncAddr(a) == [tag] + octets + Be16(a.port);
    if |s| == 1 + |octets| + 2 {
      Be16Is(a.port, s[1 + |octets|..]);
      assert s == [s[0]] + s[1..1 + |octets|] + s[1 + |octets|..];
    }
  }

  lemma FlowIs(s: seq<byte>, f: Flow5Tuple)
    ensures s == EncFlow(f) <==> FlowWritten(s, f)
  {
    hide EncAddr, AddrWritten;
    var src, dst := EncAddr(f.src), EncAddr(f.dst);
    AddrIs(src, f.src);
    AddrIs(dst, f.dst);
    if s == EncFlow(f) {
      assert s[1..1 + |src|] == src && s[1 + |src|..] == dst;
    }
    if FlowWritten(s, f) {
      var k :| 1 <= k <= |s| && AddrWritten(s[1..k], f.src) && AddrWritten(s[k..], f.dst);
      AddrIs(s[1..k], f.src);
      AddrIs(s[k..], f.dst);
      assert s == [s[0]] + s[1..k] + s[k..];
    }
  }

  lemma PresentIs(s: seq<byte>, v: Val)
    requires IsOptional(KindOf(v)) && !Absent(v)
    ensures [1] + s == Enc(v) <==> Present(s, v)
  {
    assert ([1] + s)[1..] == s;
    if Enc(v) != [] {
      assert Enc(v) == [Enc(v)[0]] + Enc(v)[1..];
    }
    match v
    case VOptU64(Some(n)) => VarintIs(n, s); assert Enc(v)[1..] == Varint.Encode(n);
    case VOptU32(Some(n)) => VarintIs(n, s); assert Enc(v)[1..] == Varint.Encode(n);
    case VOptU16(Some(n)) => Be16Is(n, s); assert Enc(v)[1..] == Be16(n);
    case VOptU8(Some(b)) => assert Enc(v)[1..] == [b];
    case VOptF64(Some(x)) => assert Enc(v)[1..] == x;
    case _ =>
  }

  lemma OptionalIs(s: seq<byte>, v: Val)
    requires IsOptional(KindOf(v))
    ensures s == Enc(v) <==> Written(s, v)
  {
    if Absent(v) {
      assert Enc(v) == [0];
      assert s == Enc(v) <==> Written(s, v);
    } else {
      if s != [] {
        PresentIs(s[1..], v);
        assert s == [s[0]] + s[1..];
      }
      assert Enc(v) != [] && Enc(v)[0] == 1;
    }
  }

  /** A byte string is what the log holds for a field exactly when it reads as described. */
  lemma FieldIs(s: seq<byte>, v: Val)
    ensures s == Enc(v) <==> Written(s, v)
  {
    if IsOptional(KindOf(v)) {
      OptionalIs(s, v);
    } else {
      match v
      case VU32(n) => Be32Is(n, s);
      case VVarint(n) => VarintIs(n, s);
      case VStr(t) => CountedIs(s, t, 0);
      case VOptStr(Some(t)) => CountedIs(s, t, 1);
      case VBytes(t) => CountedIs(s, t, 0);
      case VFlow(f) => FlowIs(s, f);
      case VOptStr(None) => assert Varint.Encode(0) == [0];
      case _ =>
    }
  }

  // ----- payloads and records -----

  /** The fields one after another, nothing between or after them. */
  ghost predicate Laid(s: seq<byte>, vals: seq<Val>) {
    if vals == [] then s == []
    else exists k :: 0 <= k <= |s| && Written(s[..k], vals[0]) && Laid(s[k..], vals[1..])
  }

  lemma {:induction false} PayloadIs(s: seq<byte>, vals: seq<Val>)
    ensures s == EncAll(vals) <==> Laid(s, vals)
    decreases |vals|
  {
    hide Written, Enc;
    if vals != [] {
      var p := Enc(vals[0]);
      FieldIs(p, vals[0]);
      PayloadIs(EncAll(vals[1..]), vals[1..]);
      if s == EncAll(vals) {
        assert s[..|p|] == p && s[|p|..] == EncAll(vals[1..]);
      }
      if Laid(s, vals) {
        var k :| 0 <= k <= |s| && Written(s[..k], vals[0]) && Laid(s[k..], vals[1..]);
        FieldIs(s[..k], vals[0]);
        PayloadIs(s[k..], vals[1..]);
        assert s == s[..k] + s[k..];
      }
    }
  }

  /** Time since the record before, type, payload length, payload. */
  ghost predicate Framed(s: seq<byte>, ev: Event, last: u64) {
    exists i, j :: Cut(s, ev, last, i, j)
  }

  ghost predicate Cut(s: seq<byte>, ev: Event, last: u64, i: int, j: int) {
    && 0 <= i < j <= |s|
    && Spells(s[..i], if ev.TsUs() < last then 0 else ev.TsUs() - last)
    && s[i] == ev.TypeCode()
    && Spells(s[i + 1..j], |s| - j)
    && Laid(s[j..], Values(ev))
  }

  lemma Rejoin(s: seq<byte>, i: nat, j: nat)
    requires i < j <= |s|
    ensures s == s[..i] + [s[i]] + s[i + 1..j] + s[j..]
  {
  }

  lemma CutIs(s: seq<byte>, ev: Event, last: u64, i: nat, j: nat)
    requires Cut(s, ev, last, i, j)
    ensures s == Frame(ItemOf(ev, last))
  {
    hide Spells, Laid, Values, EncAll;
    var item := ItemOf(ev, last);
    PayloadIs(s[j..], Values(ev));
    VarintIs(item.delta, s[..i]);
    VarintIs(|s[j..]|, s[i + 1..j]);
    Rejoin(s, i, j);
  }

  /** A record is the one byte string so framed. */
  lemma RecordIs(s: seq<byte>, ev: Event, last: u64)
    ensures s == Frame(ItemOf(ev, last)) <==> Framed(s, ev, last)
  {
    hide Spells, Laid, Values, EncAll;
    var item := ItemOf(ev, last);
    var d, l := Varint.Encode(item.delta), Varint.Encode(|item.payload|);
    VarintIs(item.delta, d);
    VarintIs(|item.payload|, l);
    PayloadIs(item.payload, Values(ev));
    if s == Frame(item) {
      var i, j := |d|, |d| + 1 + |l|;
      assert s[..i] == d && s[i + 1..j] == l && s[j..] == item.payload;
      assert Cut(s, ev, last, i, j);
    }
    if Framed(s, ev, last) {
      var i, j :| Cut(s, ev, last, i, j);
      CutIs(s, ev, last, i, j);
    }
  }

  // ----- a record of each type, its fields all different, so that no two can trade places -----

  /** A text of one ASCII character. */
  function Letter(b: byte): (s: Str)
    requires b < 0x80
    ensures s == [b]
  {
    var s: seq<byte> := [b];
    assert CharLen(s) == 1 && s[1..] == [];
    assert Valid(s);
    s
  }

  function Float(b: byte): F64 {
    [b, 0, 0, 0, 0, 0, 0, 1]
  }

  /** 10.0.0.1:5060 to 10.0.0.2:5080 over UDP. */
  const FLOW: Flow5Tuple := Flow5Tuple(
    Udp, SocketAddr(V4([10, 0, 0, 1]), 5060), SocketAddr(V4([10, 0, 0, 2]), 5080))
  const FLOW_BYTES: seq<byte> := [0] + [4, 10, 0, 0, 1, 19, 196] + [4, 10, 0, 0, 2, 19, 216]

  lemma PortBytes()
    ensures Be16(5060) == [19, 196] && Be16(5080) == [19, 216]
  {
  }

  lemma FlowBytes()
    ensures Enc(VFlow(FLOW)) == FLOW_BYTES && |FLOW_BYTES| == 15
  {
    PortBytes();
    hide Be16;
    assert EncAddr(FLOW.src) == [4, 10, 0, 0, 1, 19, 196];
    assert EncAddr(FLOW.dst) == [4, 10, 0, 0, 2, 19, 216];
    hide EncAddr;
  }

  /** The fields of one small number. */
  lemma Small(k: byte)
    requires k < 0x80
    ensures Enc(VU8(k)) == [k] && Enc(VVarint(k)) == [k] && Enc(VU32(k)) == [0, 0, 0, k]
    ensures Enc(VStr(Letter(k))) == [1, k] && Enc(VOptStr(Some(Letter(k)))) == [2, k]
    ensures Enc(VOptU64(Some(k))) == [1, k] && Enc(VOptU32(Some(k))) == [1, k]
    ensures Enc(VOptU16(Some(k))) == [1, 0, k] && Enc(VOptU8(Some(k))) == [1, k]
  {
  }

  lemma SmallFloat(k: byte)
    ensures Enc(VF64(Float(k))) == Float(k) && Enc(VOptF64(Some(Float(k)))) == [1] + Float(k)
  {
  }

  /** A record of an early event with a short payload. */
  lemma ShortRecord(ev: Event, payload: seq<byte>)
    requires EncAll(Values(ev)) == payload && |payload| < 128 && ev.TsUs() < 128
    ensures Frame(ItemOf(ev, 0)) == [ev.TsUs(), ev.TypeCode(), |payload|] + payload
  {
    hide Values, EncAll;
  }

  lemma Fields2(a: Val, b: Val)
    ensures EncAll([a, b]) == Enc(a) + Enc(b)
  {
    hide Enc;
    EncAllSnoc([a], b);
    assert [a][1..] == [] && [a] + [b] == [a, b];
    assert EncAll([a]) == Enc(a) + EncAll([]);
  }

  lemma Fields4(a: Val, b: Val, c: Val, d: Val)
    ensures EncAll([a, b, c, d]) == Enc(a) + Enc(b) + Enc(c) + Enc(d)
  {
    hide Enc;
    Fields2(a, b);
    Fields2(c, d);
    EncAllConcat([a, b], [c, d]);
    assert [a, b, c, d] == [a, b] + [c, d];
  }

  lemma Fields5(a: Val, b: Val, c: Val, d: Val, e: Val)
    ensures EncAll([a, b, c, d, e]) == Enc(a) + Enc(b) + Enc(c) + Enc(d) + Enc(e)
  {
    hide Enc;
    Fields4(a, b, c, d);
    EncAllSnoc([a, b, c, d], e);
    assert [a, b, c, d, e] == [a, b, c, d] + [e];
  }

  const SIP_SAMPLE: SipMsgEvt := SipMsgEvt(
    FLOW, true, Some(Letter(11)), Some(12), Letter(13), Some(14), Some(Letter(15)), Some(Letter(16)),
    Some(Letter(17)), [18])

  lemma SipSampleParts(e: SipMsgEvt)
    requires e == SIP_SAMPLE
    ensures EncAll(SipStart(e)) == FLOW_BYTES + [1] + [2, 11] + [1, 0, 12] + [1, 13]
    ensures EncAll(SipRest(e)) == [1, 14] + [2, 15] + [2, 16] + [2, 17] + [1, 18]
  {
    FlowBytes();
    assert Enc(VBytes([18])) == [1, 18];
    hide Enc, EncAll;
    Small(1);
    Small(11); Small(12); Small(13); Small(14);
    Small(15); Small(16); Small(17);
    Fields5(VFlow(e.flow), VU8(1), VOptStr(e.method_), VOptU16(e.status), VStr(e.callId));
    Fields5(VOptU32(e.cseq), VOptStr(e.branch), VOptStr(e.fromTag), VOptStr(e.toTag), VBytes(e.raw));
  }

  lemma SipSample()
    ensures Frame(ItemOf(SipMsg(9, SIP_SAMPLE), 0)) ==
      [9, 1, 33] + ((FLOW_BYTES + [1] + [2, 11] + [1, 0, 12] + [1, 13]) + ([1, 14] + [2, 15] + [2, 16] + [2, 17] + [1, 18]))
  {
    var e := SIP_SAMPLE;
    SipSampleParts(e);
    EncAllConcat(SipStart(e), SipRest(e));
    FlowBytes();
    hide SipStart, SipRest, EncAll, Enc, Frame, ItemOf;
    ShortRecord(SipMsg(9, e), EncAll(Values(SipMsg(9, e))));
  }

  const TXN_SAMPLE: TxnEvt := TxnEvt(Letter(11), Letter(12), Letter(13), Some(14), Some(15))

  lemma TxnSample(e: TxnEvt)
    requires e == TXN_SAMPLE
    ensures Frame(ItemOf(Txn(9, e), 0)) == [9, 2, 11] + ([1, 11] + [1, 12] + [1, 13] + [1, 0, 14] + [1, 15])
  {
    hide Enc, EncAll;
    Small(11); Small(12); Small(13); Small(14); Small(15);
    Fields5(VStr(e.callId), VStr(e.branch), VStr(e.method_), VOptU16(e.responseCode), VOptU32(e.delayMs));
    ShortRecord(Txn(9, e), EncAll(TxnVals(e)));
  }

  const CALL_SAMPLE: CallEvt := CallEvt(
    Letter(11), Teardown, Some(Letter(12)), Some(Letter(13)), Some(Letter(14)), Some(Letter(15)), 16, 17,
    Some(18), Some(19), Some(20), Some(21), Some(22), Some(23),
    Some(24), Some(25), Some(26), Some(Letter(27)), 28, 29, 30, 31)

  lemma CallSampleParts(e: CallEvt)
    requires e == CALL_SAMPLE
    ensures EncAll(CallParties(e)) == [1, 11] + [3] + [2, 12] + [2, 13]
    ensures EncAll(CallState(e)) == [2, 14] + [2, 15] + [16] + [17]
  {
    hide Enc, EncAll;
    Small(3);
    Small(11); Small(12); Small(13); Small(14); Small(15); Small(16); Small(17);
    Fields4(VStr(e.callId), VU8(3), VOptStr(e.fromUser), VOptStr(e.toUser));
    Fields4(VOptStr(e.fromUri), VOptStr(e.toUri), VU8(e.state), VU8(e.outcome));
  }

  lemma CallSampleTimes(e: CallEvt)
    requires e == CALL_SAMPLE
    ensures EncAll(CallTimes(e)) == ([1, 18] + [1, 19] + [1, 20] + [1, 21]) + ([1, 22] + [1, 23])
  {
    hide Enc, EncAll;
    Small(18); Small(19); Small(20); Small(21); Small(22); Small(23);
    var a := [VOptU64(e.inviteTs), VOptU64(e.tryingTs), VOptU64(e.ringingTs), VOptU64(e.answerTs)];
    var b := [VOptU64(e.byeTs), VOptU64(e.endTs)];
    Fields4(VOptU64(e.inviteTs), VOptU64(e.tryingTs), VOptU64(e.ringingTs), VOptU64(e.answerTs));
    Fields2(VOptU64(e.byeTs), VOptU64(e.endTs));
    EncAllConcat(a, b);
    assert CallTimes(e) == a + b;
  }

  lemma CallSampleEnd(e: CallEvt)
    requires e == CALL_SAMPLE
    ensures EncAll(CallResult(e)) == [1, 24] + [1, 25] + [1, 26] + [2, 27]
    ensures EncAll(CallCounts(e)) == [28] + [29] + [30] + [31]
  {
    hide Enc, EncAll;
    Small(24); Small(25); Small(26); Small(27);
    Small(28); Small(29); Small(30); Small(31);
    Fields4(VOptU32(e.pddMs), VOptU32(e.setupMs), VOptU32(e.hangupCode), VOptStr(e.hangupReason));
    Fields4(VVarint(e.pktsSip), VVarint(e.pktsRtp), VVarint(e.pktsRtcp), VVarint(e.bytes));
  }

  lemma FiveParts(a: seq<Val>, b: seq<Val>, c: seq<Val>, d: seq<Val>, e: seq<Val>)
    ensures EncAll(a + b + c + d + e) == EncAll(a) + EncAll(b) + EncAll(c) + EncAll(d) + EncAll(e)
  {
    hide EncAll;
    EncAllConcat(a, b);
    EncAllConcat(a + b, c);
    EncAllConcat(a + b + c, d);
    EncAllConcat(a + b + c + d, e);
  }

  lemma CallSample(e: CallEvt)
    requires e == CALL_SAMPLE
    ensures Frame(ItemOf(Event.Call(9, e), 0)) == [9, 3, 37]
      + (([1, 11] + [3] + [2, 12] + [2, 13]) + ([2, 14] + [2, 15] + [16] + [17])
         + (([1, 18] + [1, 19] + [1, 20] + [1, 21]) + ([1, 22] + [1, 23]))
         + ([1, 24] + [1, 25] + [1, 26] + [2, 27]) + ([28] + [29] + [30] + [31]))
  {
    hide Enc, EncAll, CallParties, CallState, CallTimes, CallResult, CallCounts, Frame, ItemOf;
    FiveParts(CallParties(e), CallState(e), CallTimes(e), CallResult(e), CallCounts(e));
    CallSampleParts(e);
    CallSampleTimes(e);
    CallSampleEnd(e);
    ShortRecord(Event.Call(9, e), EncAll(CallVals(e)));
  }

  const RTT_SAMPLE: RtcpRttEvt := RtcpRttEvt(Letter(11), 12, Float(13), Some(Float(14)))

  lemma RttSample(e: RtcpRttEvt)
    requires e == RTT_SAMPLE
    ensures Frame(ItemOf(RtcpRtt(9, e), 0)) == [9, 5, 23]
      + ([1, 11] + [0, 0, 0, 12] + [13, 0, 0, 0, 0, 0, 0, 1] + ([1] + [14, 0, 0, 0, 0, 0, 0, 1]))
  {
    hide Enc, EncAll;
    Small(11); Small(12); SmallFloat(13); SmallFloat(14);
    Fields4(VStr(e.callId), VU32(e.ssrc), VF64(e.rttMs), VOptF64(e.onewayMs));
    ShortRecord(RtcpRtt(9, e), EncAll(RttVals(e)));
  }

  const ERROR_SAMPLE: ErrorEvt := ErrorEvt(Letter(11), Letter(12))

  lemma ErrorSample(e: ErrorEvt)
    requires e == ERROR_SAMPLE
    ensures Frame(ItemOf(Error(9, e), 0)) == [9, 7, 4] + ([1, 11] + [1, 12])
  {
    hide Enc, EncAll;
    Small(11); Small(12);
    Fields2(VStr(e.kind), VStr(e.msg));
    ShortRecord(Error(9, e), EncAll(ErrorVals(e)));
  }

  const DIAG_SAMPLE: DiagEvt := DiagEvt(Letter(11), 12, Letter(13), Letter(14))

  lemma DiagSample(e: DiagEvt)
    requires e == DIAG_SAMPLE
    ensures Frame(ItemOf(Diag(9, e), 0)) == [9, 8, 7] + ([1, 11] + [12] + [1, 13] + [1, 14])
  {
    hide Enc, EncAll;
    Small(11); Small(12); Small(13); Small(14);
    Fields4(VStr(e.callId), VU8(e.severity), VStr(e.code), VStr(e.message));
    ShortRecord(Diag(9, e), EncAll(DiagVals(e)));
  }

  const SNAP_SAMPLE: StreamSnapEvt := StreamSnapEvt(
    Letter(11), 12, FLOW, Some(Letter(13)), Some(14), 15, 16, 17, Float(18),
    Some(Float(19)), Some(Float(20)), Some(Letter(21)), 22, Some(23), Some(24),
    Some(Float(25)), Some(Float(26)), Some(Float(27)), Some(Float(28)), Some(Letter(29)), true)

  lemma SnapSampleBase(e: StreamSnapEvt)
    requires e == SNAP_SAMPLE
    ensures EncAll(SnapIdentity(e)) == [1, 11] + [0, 0, 0, 12] + FLOW_BYTES + [2, 13] + [1, 14]
    ensures EncAll(SnapCounts(e)) == [15] + [16] + [17] + Float(18)
    ensures EncAll(SnapQuality(e)) == ([1] + Float(19)) + ([1] + Float(20)) + [2, 21]
  {
    FlowBytes();
    hide Enc, EncAll, Float;
    Small(11); Small(12); Small(13); Small(14);
    Small(15); Small(16); Small(17); SmallFloat(18);
    SmallFloat(19); SmallFloat(20); Small(21);
    Fields5(VStr(e.callId), VU32(e.ssrc), VFlow(e.flow), VOptStr(e.codec), VOptU8(e.payloadType));
    Fields4(VVarint(e.packets), VVarint(e.lost), VVarint(e.expected), VF64(e.lossPct));
    Fields2(VOptF64(e.jitterMs), VOptF64(e.mos));
    EncAllSnoc([VOptF64(e.jitterMs), VOptF64(e.mos)], VOptStr(e.direction));
    assert SnapQuality(e) == [VOptF64(e.jitterMs), VOptF64(e.mos)] + [VOptStr(e.direction)];
  }

  lemma SnapSampleTail(e: StreamSnapEvt)
    requires e == SNAP_SAMPLE
    ensures EncAll(SnapSpan(e)) == [22] + [1, 23] + [1, 24] + ([1] + Float(25)) + ([1] + Float(26))
    ensures EncAll(SnapRelay(e)) == ([1] + Float(27)) + ([1] + Float(28)) + [2, 29] + [1]
  {
    hide Enc, EncAll, Float;
    Small(22); Small(23); Small(24); SmallFloat(25); SmallFloat(26);
    SmallFloat(27); SmallFloat(28); Small(29); Small(1);
    Fields5(VVarint(e.bytes), VOptU64(e.firstTsUs), VOptU64(e.lastTsUs), VOptF64(e.rttMinMs),
            VOptF64(e.rttAvgMs));
    Fields4(VOptF64(e.rttMaxMs), VOptF64(e.onewayMs), VOptStr(e.leg), VU8(1));
  }

  lemma SnapSample(e: StreamSnapEvt)
    requires e == SNAP_SAMPLE
    ensures Frame(ItemOf(StreamSnap(9, e), 0)) == [9, 4, 100]
      + ((([1, 11] + [0, 0, 0, 12] + FLOW_BYTES + [2, 13] + [1, 14]) + ([15] + [16] + [17] + Float(18))
          + (([1] + Float(19)) + ([1] + Float(20)) + [2, 21]))
         + (([22] + [1, 23] + [1, 24] + ([1] + Float(25)) + ([1] + Float(26)))
            + (([1] + Float(27)) + ([1] + Float(28)) + [2, 29] + [1])))
  {
    SnapSampleBase(e);
    SnapSampleTail(e);
    FlowBytes();
    hide Enc, EncAll, Float, SnapIdentity, SnapCounts, SnapQuality, SnapSpan, SnapRelay, Frame, ItemOf;
    EncAllConcat(SnapIdentity(e), SnapCounts(e));
    EncAllConcat(SnapIdentity(e) + SnapCounts(e), SnapQuality(e));
    EncAllConcat(SnapSpan(e), SnapRelay(e));
    EncAllConcat(SnapBaseVals(e), SnapTailVals(e));
    ShortRecord(StreamSnap(9, e), EncAll(SnapBaseVals(e) + SnapTailVals(e)));
  }

  const HEALTH_SAMPLE: HealthBucket := HealthBucket(9, Letter(11), MetricSet(
    12, 13, 14, Float(15), 16, Float(17), 18, Float(19), 20, Float(21), 22, Float(23), 24))

  lemma HealthSampleParts(h: HealthBucket)
    requires h == HEALTH_SAMPLE
    ensures EncAll(HealthStart(h)) == [9] + [1, 11]
    ensures EncAll(MetricCounts(h.metrics)) == [12] + [13] + [14] + Float(15) + [16]
    ensures EncAll(MetricSums(h.metrics)) == Float(17) + [18] + Float(19) + [20]
    ensures EncAll(MetricScores(h.metrics)) == Float(21) + [22] + Float(23) + [24]
  {
    hide Enc, EncAll, Float;
    Small(9); Small(11); Small(12); Small(13); Small(14); SmallFloat(15); Small(16);
    SmallFloat(17); Small(18); SmallFloat(19); Small(20);
    SmallFloat(21); Small(22); SmallFloat(23); Small(24);
    var m := h.metrics;
    Fields2(VVarint(h.bucketUs), VStr(h.dimKey));
    Fields5(VVarint(m.calls), VVarint(m.answered), VVarint(m.failed), VF64(m.pddSumMs), VVarint(m.pddN));
    Fields4(VF64(m.jitterSumMs), VVarint(m.jitterN), VF64(m.lossSumPct), VVarint(m.lossN));
    Fields4(VF64(m.rttSumMs), VVarint(m.rttN), VF64(m.mosSum), VVarint(m.mosN));
  }

  lemma HealthSample(h: HealthBucket)
    requires h == HEALTH_SAMPLE
    ensures Frame(ItemOf(Health(h), 0)) == [9, 6, 51]
      + (([9] + [1, 11]) + ([12] + [13] + [14] + Float(15) + [16])
         + (Float(17) + [18] + Float(19) + [20]) + (Float(21) + [22] + Float(23) + [24]))
  {
    HealthSampleParts(h);
    hide Enc, EncAll, Float, HealthStart, MetricCounts, MetricSums, MetricScores, Frame, ItemOf;
    EncAllConcat(HealthStart(h), MetricCounts(h.metrics));
    EncAllConcat(HealthStart(h) + MetricCounts(h.metrics), MetricSums(h.metrics));
    EncAllConcat(HealthStart(h) + MetricCounts(h.metrics) + MetricSums(h.metrics), MetricScores(h.metrics));
    ShortRecord(Health(h), EncAll(HealthVals(h)));
  }

  /** The first bytes of a file: "SMON", version 2, no flags, the offset in seconds. */
  lemma HeaderIs(h: seq<byte>, tz: Octets)
    ensures h == Header(tz) <==> |h| == 12 && h[..4] == [83, 77, 79, 78] && h[4..8] == [0, 2, 0, 0] && h[8..] == tz
  {
    assert Be16(VERSION) == [0, 2] && Be16(0) == [0, 0];
    hide Be16;
    if |h| == 12 {
      assert h == h[..4] + h[4..8] + h[8..];
    }
  }
}
