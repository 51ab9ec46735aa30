/** Payload fields on the wire, and the payload of each event type. */
module Codec {
  import opened Prelude
  import opened Net
  import opened Utf8
  import opened Events
  import Varint

  const MAX_RECORD_LEN: nat := 32 * 1024 * 1024
  /** The longest buffer that can be asked for at all; asking for more stops the process. */
  const MAX_ALLOC: nat := 0x7fff_ffff_ffff_ffff

  datatype Kind =
    | KU8 | KU32 | KVarint | KStr | KOptStr | KBytes | KOptU64 | KOptU32 | KOptU16 | KOptU8
    | KF64 | KOptF64 | KFlow

  datatype Val =
    | VU8(u8: byte) | VU32(u32_: u32) | VVarint(n: u64) | VStr(str: Str) | VOptStr(optStr: Option<Str>)
    | VBytes(blob: seq<byte>) | VOptU64(optU64: Option<u64>) | VOptU32(optU32: Option<u32>)
    | VOptU16(optU16: Option<u16>) | VOptU8(optU8: Option<byte>) | VF64(f64: F64)
    | VOptF64(optF64: Option<F64>) | VFlow(flow: Flow5Tuple)
  {
    // The content of a field, for a reader that knows its kind.
    function Byte(): byte { if VU8? then u8 else 0 }
    function U32(): u32 { if VU32? then u32_ else 0 }
    function Num(): u64 { if VVarint? then n else 0 }
    function Str(): Str { if VStr? then str else [] }
    function OptStr(): Option<Str> { if VOptStr? then optStr else None }
    function Blob(): seq<byte> { if VBytes? then blob else [] }
    function OptU64(): Option<u64> { if VOptU64? then optU64 else None }
    function OptU32(): Option<u32> { if VOptU32? then optU32 else None }
    function OptU16(): Option<u16> { if VOptU16? then optU16 else None }
    function OptU8(): Option<byte> { if VOptU8? then optU8 else None }
    function Float(): F64 { if VF64? then f64 else seq(8, _ => 0) }
    function OptFloat(): Option<F64> { if VOptF64? then optF64 else None }
    function Flow(): Flow5Tuple {
      if VFlow? then flow
      else Flow5Tuple(Udp, SocketAddr(V4([0, 0, 0, 0]), 0), SocketAddr(V4([0, 0, 0, 0]), 0))
    }
  }

  function KindOf(v: Val): Kind {
    match v
    case VU8(_) => KU8
    case VU32(_) => KU32
    case VVarint(_) => KVarint
    case VStr(_) => KStr
    case VOptStr(_) => KOptStr
    case VBytes(_) => KBytes
    case VOptU64(_) => KOptU64
    case VOptU32(_) => KOptU32
    case VOptU16(_) => KOptU16
    case VOptU8(_) => KOptU8
    case VF64(_) => KF64
    case VOptF64(_) => KOptF64
    case VFlow(_) => KFlow
  }

  // ----- writing one field -----

  function Be16(n: u16): seq<byte> {
    [n / 0x100, n % 0x100]
  }

  function Be32(n: u32): seq<byte> {
    Be16(n / 0x1_0000) + Be16(n % 0x1_0000)
  }

  function EncAddr(a: SocketAddr): seq<byte> {
    (match a.ip
     case V4(o) => [4] + o
     case V6(o) => [6] + o) + Be16(a.port)
  }

  function EncFlow(f: Flow5Tuple): seq<byte> {
    [if f.proto == Udp then 0 else 1] + EncAddr(f.src) + EncAddr(f.dst)
  }

  function Enc(v: Val): seq<byte> {
    match v
    case VU8(b) => [b]
    case VU32(n) => Be32(n)
    case VVarint(n) => Varint.Encode(n)
    case VStr(s) => Varint.Encode(|s|) + s
    case VOptStr(None) => Varint.Encode(0)
    case VOptStr(Some(s)) => Varint.Encode(|s| + 1) + s
    case VBytes(s) => Varint.Encode(|s|) + s
    case VOptU64(None) => [0]
    case VOptU64(Some(n)) => [1] + Varint.Encode(n)
    case VOptU32(None) => [0]
    case VOptU32(Some(n)) => [1] + Varint.Encode(n)
    case VOptU16(None) => [0]
    case VOptU16(Some(n)) => [1] + Be16(n)
    case VOptU8(None) => [0]
    case VOptU8(Some(b)) => [1] + [b]
    case VF64(x) => x
    case VOptF64(None) => [0]
    case VOptF64(Some(x)) => [1] + x
    case VFlow(f) => EncFlow(f)
  }

  // ----- reading one field -----

  /** The next `n` bytes and the rest. */
  function Take(rd: seq<byte>, n: nat): Option<(seq<byte>, seq<byte>)> {
    if |rd| < n then None else Some((rd[..n], rd[n..]))
  }

  function ReadVarint(rd: seq<byte>): Option<(u64, seq<byte>)> {
    match Varint.Decode(rd)
    case Ok(n, rest) => Some((n, rest))
    case _ => None
  }

  function LossyStr(s: seq<byte>): Str {
    LossyIsValid(s);
    Lossy(s)
  }

  function ReadBlob(rd: seq<byte>): Option<(seq<byte>, seq<byte>)> {
    var (n, rd) :- ReadVarint(rd);
    Take(rd, n)
  }

  /** `None` inside for a length of 0, otherwise length minus one bytes. */
  function ReadOptBlob(rd: seq<byte>): Option<(Option<seq<byte>>, seq<byte>)> {
    var (n, rd) :- ReadVarint(rd);
    if n == 0 then Some((None, rd))
    else
      var (s, rd) :- Take(rd, n - 1);
      Some((Some(s), rd))
  }

  function Be16Of(b: seq<byte>): u16
    requires |b| == 2
  {
    0x100 * (b[0] as int) + b[1]
  }

  function Be32Of(b: seq<byte>): u32
    requires |b| == 4
  {
    0x1_0000 * (Be16Of(b[..2]) as int) + Be16Of(b[2..])
  }

  function ReadAddr(rd: seq<byte>): Option<(SocketAddr, seq<byte>)> {
    var (tag, rd) :- Take(rd, 1);
    var (octets, rd) :- Take(rd, if tag[0] == 4 then 4 else 16);
    var (port, rd) :- Take(rd, 2);
    Some((SocketAddr(if tag[0] == 4 then V4(octets) else V6(octets), Be16Of(port)), rd))
  }

  function ReadFlow(rd: seq<byte>): Option<(Flow5Tuple, seq<byte>)> {
    var (proto, rd) :- Take(rd, 1);
    var (src, rd) :- ReadAddr(rd);
    var (dst, rd) :- ReadAddr(rd);
    Some((Flow5Tuple(if proto[0] == 1 then Tcp else Udp, src, dst), rd))
  }

  function Dec(k: Kind, rd: seq<byte>): (r: Option<(Val, seq<byte>)>)
    ensures r.Some? ==> KindOf(r.value.0) == k
  {
    match k
    case KU8 =>
      var (b, rd) :- Take(rd, 1);
      Some((VU8(b[0]), rd))
    case KU32 =>
      var (b, rd) :- Take(rd, 4);
      Some((VU32(Be32Of(b)), rd))
    case KVarint =>
      var (n, rd) :- ReadVarint(rd);
      Some((VVarint(n), rd))
    case KStr =>
      var (s, rd) :- ReadBlob(rd);
      Some((VStr(LossyStr(s)), rd))
    case KOptStr =>
      var (s, rd) :- ReadOptBlob(rd);
      Some((VOptStr(if s.Some? then Some(LossyStr(s.value)) else None), rd))
    case KBytes =>
      var (s, rd) :- ReadBlob(rd);
      Some((VBytes(s), rd))
    case KF64 =>
      var (x, rd) :- Take(rd, 8);
      Some((VF64(x), rd))
    case KFlow =>
      var (f, rd) :- ReadFlow(rd);
      Some((VFlow(f), rd))
    case _ =>
      var (flag, rd) :- Take(rd, 1);
      DecOptional(k, flag[0] != 0, rd)
  }

  /** The body of a field that carries a presence flag. */
  function DecOptional(k: Kind, present: bool, rd: seq<byte>): (r: Option<(Val, seq<byte>)>)
    requires IsOptional(k)
    ensures r.Some? ==> KindOf(r.value.0) == k
  {
    match k
    case KOptU64 =>
      if !present then Some((VOptU64(None), rd))
      else
        var (n, rd) :- ReadVarint(rd);
        Some((VOptU64(Some(n)), rd))
    case KOptU32 =>
      if !present then Some((VOptU32(None), rd))
      else
        var (n, rd) :- ReadVarint(rd);
        Some((VOptU32(Some(n % 0x1_0000_0000)), rd))
    case KOptU16 =>
      if !present then Some((VOptU16(None), rd))
      else
        var (b, rd) :- Take(rd, 2);
        Some((VOptU16(Some(Be16Of(b))), rd))
    case KOptU8 =>
      if !present then Some((VOptU8(None), rd))
      else
        var (b, rd) :- Take(rd, 1);
        Some((VOptU8(Some(b[0])), rd))
    case KOptF64 =>
      if !present then Some((VOptF64(None), rd))
      else
        var (x, rd) :- Take(rd, 8);
        Some((VOptF64(Some(x)), rd))
  }

  /**
    Whether reading a field asks for a buffer past the limit: strings and blobs
    allocate what their length announces before looking for the bytes.
   */
  predicate Overlong(k: Kind, rd: seq<byte>) {
    match k
    case KStr => ReadVarint(rd).Some? && ReadVarint(rd).value.0 > MAX_ALLOC
    case KBytes => ReadVarint(rd).Some? && ReadVarint(rd).value.0 > MAX_ALLOC
    case KOptStr => ReadVarint(rd).Some? && ReadVarint(rd).value.0 > MAX_ALLOC + 1
    case _ => false
  }

  lemma TakeConcat(a: seq<byte>, rest: seq<byte>)
    ensures Take(a + rest, |a|) == Some((a, rest))
  {
    assert (a + rest)[..|a|] == a && (a + rest)[|a|..] == rest;
  }

  lemma BlobRoundTrip(s: seq<byte>, extra: nat, rest: seq<byte>)
    requires |s| + extra <= MAX_U64
    ensures ReadVarint(Varint.Encode(|s| + extra) + s + rest) == Some((|s| + extra, s + rest))
    ensures Take(s + rest, |s|) == Some((s, rest))
  {
    assert Varint.Encode(|s| + extra) + s + rest == Varint.Encode(|s| + extra) + (s + rest);
    Varint.RoundTrip(|s| + extra, s + rest);
    TakeConcat(s, rest);
  }

  lemma AddrRoundTrip(a: SocketAddr, rest: seq<byte>)
    ensures ReadAddr(EncAddr(a) + rest) == Some((a, rest))
  {
    var octets: seq<byte> := if a.ip.V4? then a.ip.v4 else a.ip.v6;
    var tag: byte := if a.ip.V4? then 4 else 6;
    assert EncAddr(a) + rest == [tag] + (octets + (Be16(a.port) + rest));
    TakeConcat([tag], octets + (Be16(a.port) + rest));
    TakeConcat(octets, Be16(a.port) + rest);
    TakeConcat(Be16(a.port), rest);
  }

  lemma FlowRoundTrip(f: Flow5Tuple, rest: seq<byte>)
    ensures ReadFlow(EncFlow(f) + rest) == Some((f, rest))
  {
    var p: seq<byte> := [if f.proto == Udp then 0 else 1];
    assert EncFlow(f) + rest == p + (EncAddr(f.src) + (EncAddr(f.dst) + rest));
    TakeConcat(p, EncAddr(f.src) + (EncAddr(f.dst) + rest));
    AddrRoundTrip(f.src, EncAddr(f.dst) + rest);
    AddrRoundTrip(f.dst, rest);
  }

  predicate IsOptional(k: Kind) {
    k in {KOptU64, KOptU32, KOptU16, KOptU8, KOptF64}
  }

  lemma FlagRead(k: Kind, flag: byte, tail: seq<byte>)
    requires IsOptional(k)
    ensures Dec(k, [flag] + tail) == DecOptional(k, flag != 0, tail)
  {
    TakeConcat([flag], tail);
  }

  lemma OptionalBody(v: Val, body: seq<byte>, rest: seq<byte>)
    requires IsOptional(KindOf(v)) && Enc(v) == [1] + body
    ensures DecOptional(KindOf(v), true, body + rest) == Some((v, rest))
  {
    assert Enc(v)[0] == 1 && Enc(v)[1..] == body;
    match v {
      case VOptU64(Some(n)) => assert body == Varint.Encode(n); Varint.RoundTrip(n, rest);
      case VOptU32(Some(n)) => assert body == Varint.Encode(n); Varint.RoundTrip(n, rest);
      case VOptU16(Some(n)) => assert body == Be16(n); TakeConcat(Be16(n), rest);
      case VOptU8(Some(b)) => assert body == [b]; TakeConcat([b], rest);
      case VOptF64(Some(x)) => assert body == x; TakeConcat(x, rest);
      case _ =>
    }
  }

  lemma OptionalAbsent(v: Val, rest: seq<byte>)
    requires IsOptional(KindOf(v)) && Enc(v) == [0]
    ensures DecOptional(KindOf(v), false, rest) == Some((v, rest))
  {
    assert Enc(v)[0] == 0;
  }

  /** A flagged field is its flag and, after a flag of one, its body. */
  lemma FlagFirst(v: Val)
    requires IsOptional(KindOf(v))
    ensures Enc(v) == [0] || (Enc(v) != [] && Enc(v) == [1] + Enc(v)[1..])
  {
  }

  /** Reading a flagged field back. */
  lemma OptionalRoundTrip(v: Val, rest: seq<byte>)
    requires IsOptional(KindOf(v))
    ensures Dec(KindOf(v), Enc(v) + rest) == Some((v, rest))
  {
    hide Dec, DecOptional, Enc;
    FlagFirst(v);
    var flag, body := Enc(v)[0], Enc(v)[1..];
    assert Enc(v) + rest == [flag] + (body + rest);
    FlagRead(KindOf(v), flag, body + rest);
    if flag == 0 {
      assert Enc(v) == [0] && body + rest == rest;
      OptionalAbsent(v, rest);
    } else {
      OptionalBody(v, body, rest);
    }
  }

  /** Reading a length-prefixed field back. */
  lemma TextRoundTrip(v: Val, rest: seq<byte>)
    requires (v.VStr? || v.VBytes?) && |Enc(v)| <= MAX_RECORD_LEN
    ensures Dec(KindOf(v), Enc(v) + rest) == Some((v, rest))
  {
    if v.VStr? {
      BlobRoundTrip(v.str, 0, rest);
      LossyOfValid(v.str);
    } else {
      BlobRoundTrip(v.blob, 0, rest);
    }
  }

  lemma SomeTextReads(s: Str, rest: seq<byte>)
    requires |s| < MAX_U64
    ensures Dec(KOptStr, Varint.Encode(|s| + 1) + s + rest) == Some((VOptStr(Some(s)), rest))
  {
    BlobRoundTrip(s, 1, rest);
    LossyOfValid(s);
    hide Varint.Encode, Varint.Decode, ReadVarint, Take, Lossy;
    OptBlobReads(Varint.Encode(|s| + 1) + s + rest, s, s + rest, rest);
  }

  lemma OptBlobReads(rd: seq<byte>, s: Str, tail: seq<byte>, rest: seq<byte>)
    requires ReadVarint(rd) == Some((|s| + 1, tail)) && Take(tail, |s|) == Some((s, rest)) && LossyStr(s) == s
    ensures Dec(KOptStr, rd) == Some((VOptStr(Some(s)), rest))
  {
  }

  lemma OptTextRoundTrip(v: Val, rest: seq<byte>)
    requires v.VOptStr? && |Enc(v)| <= MAX_RECORD_LEN
    ensures Dec(KindOf(v), Enc(v) + rest) == Some((v, rest))
  {
    if v.optStr.None? {
      Varint.RoundTrip(0, rest);
    } else {
      SomeTextReads(v.optStr.value, rest);
    }
  }

  lemma Be32RoundTrip(n: u32)
    ensures Be32Of(Be32(n)) == n
  {
    assert Be32(n)[..2] == Be16(n / 0x1_0000) && Be32(n)[2..] == Be16(n % 0x1_0000);
  }

  /** Reading a field of fixed shape back. */
  lemma PlainRoundTrip(v: Val, rest: seq<byte>)
    requires v.VU8? || v.VU32? || v.VF64?
    ensures Dec(KindOf(v), Enc(v) + rest) == Some((v, rest))
  {
    TakeConcat(Enc(v), rest);
    if v.VU32? {
      Be32RoundTrip(v.u32_);
    }
  }

  lemma NumberRoundTrip(v: Val, rest: seq<byte>)
    requires v.VVarint?
    ensures Dec(KindOf(v), Enc(v) + rest) == Some((v, rest))
  {
    Varint.RoundTrip(v.n, rest);
  }

  lemma FlowFieldRoundTrip(v: Val, rest: seq<byte>)
    requires v.VFlow?
    ensures Dec(KindOf(v), Enc(v) + rest) == Some((v, rest))
  {
    FlowRoundTrip(v.flow, rest);
    FlowRead(EncFlow(v.flow) + rest, v.flow, rest);
  }

  lemma FlowRead(rd: seq<byte>, f: Flow5Tuple, rest: seq<byte>)
    requires ReadFlow(rd) == Some((f, rest))
    ensures Dec(KFlow, rd) == Some((VFlow(f), rest))
  {
  }

  /** Every field reads back as it was written, whatever follows it. */
  lemma FieldRoundTrip(v: Val, rest: seq<byte>)
    requires |Enc(v)| <= MAX_RECORD_LEN
    ensures Dec(KindOf(v), Enc(v) + rest) == Some((v, rest))
  {
    if v.VStr? || v.VBytes? {
      TextRoundTrip(v, rest);
    } else if v.VOptStr? {
      OptTextRoundTrip(v, rest);
    } else if v.VU8? || v.VU32? || v.VF64? {
      PlainRoundTrip(v, rest);
    } else if v.VVarint? {
      NumberRoundTrip(v, rest);
    } else if v.VFlow? {
      FlowFieldRoundTrip(v, rest);
    } else {
      OptionalRoundTrip(v, rest);
    }
  }

  // ----- lists of fields -----

  function EncAll(vals: seq<Val>): seq<byte> {
    if vals == [] then [] else Enc(vals[0]) + EncAll(vals[1..])
  }

  function Kinds(vals: seq<Val>): (ks: seq<Kind>)
    ensures |ks| == |vals|
  {
    seq(|vals|, i requires 0 <= i < |vals| => KindOf(vals[i]))
  }

  predicate HaveKinds(vals: seq<Val>, ks: seq<Kind>) {
    |vals| == |ks| && forall i :: 0 <= i < |ks| ==> KindOf(vals[i]) == ks[i]
  }

  function DecAll(ks: seq<Kind>, rd: seq<byte>): (r: Option<(seq<Val>, seq<byte>)>)
    ensures r.Some? ==> HaveKinds(r.value.0, ks)
  {
    if ks == [] then Some(([], rd))
    else
      var (v, rd) :- Dec(ks[0], rd);
      var (vs, rd) :- DecAll(ks[1..], rd);
      Some(([v] + vs, rd))
  }

  /** Whether reading these fields in turn ever meets an overlong one. */
  predicate AnyOverlong(ks: seq<Kind>, rd: seq<byte>) {
    ks != [] &&
    (Overlong(ks[0], rd) || (Dec(ks[0], rd).Some? && AnyOverlong(ks[1..], Dec(ks[0], rd).value.1)))
  }

  /** Some field is overlong, and every field before it reads. */
  ghost predicate ReachesOverlong(ks: seq<Kind>, rd: seq<byte>) {
    exists i :: 0 <= i < |ks| && OverlongAt(ks, rd, i)
  }

  predicate OverlongAt(ks: seq<Kind>, rd: seq<byte>, i: nat)
    requires i < |ks|
  {
    DecAll(ks[..i], rd).Some? && Overlong(ks[i], DecAll(ks[..i], rd).value.1)
  }

  lemma OverlongLater(ks: seq<Kind>, rd: seq<byte>, i: nat)
    requires 0 < i < |ks| && Dec(ks[0], rd).Some?
    ensures OverlongAt(ks, rd, i) <==> OverlongAt(ks[1..], Dec(ks[0], rd).value.1, i - 1)
  {
    hide Dec, Overlong;
    assert ks[..i][1..] == ks[1..][..i - 1];
  }

  lemma {:induction false} AnyOverlongIff(ks: seq<Kind>, rd: seq<byte>)
    ensures AnyOverlong(ks, rd) <==> ReachesOverlong(ks, rd)
  {
    hide Dec, Overlong;
    if ks != [] {
      assert OverlongAt(ks, rd, 0) <==> Overlong(ks[0], rd);
      if Dec(ks[0], rd).Some? {
        var rest := Dec(ks[0], rd).value.1;
        AnyOverlongIff(ks[1..], rest);
        forall i | 0 < i < |ks|
          ensures OverlongAt(ks, rd, i) <==> OverlongAt(ks[1..], rest, i - 1)
        {
          OverlongLater(ks, rd, i);
        }
        if ReachesOverlong(ks[1..], rest) {
          var j :| 0 <= j < |ks| - 1 && OverlongAt(ks[1..], rest, j);
          assert OverlongAt(ks, rd, j + 1);
        }
      } else {
        forall i | 0 < i < |ks|
          ensures !OverlongAt(ks, rd, i)
        {
          assert ks[..i][0] == ks[0];
        }
      }
    }
  }

  /** A field that reads is not overlong, unless the input itself is past the limit. */
  lemma ReadsNotOverlong(k: Kind, rd: seq<byte>)
    requires Dec(k, rd).Some? && |rd| <= MAX_ALLOC
    ensures !Overlong(k, rd) && |Dec(k, rd).value.1| <= |rd|
  {
    VarintShrinks(rd);
    if IsOptional(k) {
      VarintShrinks(rd[1..]);
    }
  }

  lemma VarintShrinks(rd: seq<byte>)
    ensures ReadVarint(rd).Some? ==> |ReadVarint(rd).value.1| <= |rd|
  {
    if Varint.Decode(rd).Ok? {
      Varint.DecodeConsumes(rd, 0, 0);
    }
  }

  lemma {:induction false} AllReadNoneOverlong(ks: seq<Kind>, rd: seq<byte>)
    requires DecAll(ks, rd).Some? && |rd| <= MAX_ALLOC
    ensures !AnyOverlong(ks, rd) && |DecAll(ks, rd).value.1| <= |rd|
  {
    hide Dec, Overlong;
    if ks != [] {
      ReadsNotOverlong(ks[0], rd);
      AllReadNoneOverlong(ks[1..], Dec(ks[0], rd).value.1);
    }
  }

  lemma {:induction false} EncAllSnoc(vals: seq<Val>, v: Val)
    ensures EncAll(vals + [v]) == EncAll(vals) + Enc(v)
  {
    if vals == [] {
      assert [v][1..] == [];
    } else {
      assert (vals + [v])[1..] == vals[1..] + [v];
      EncAllSnoc(vals[1..], v);
    }
  }

  lemma {:induction false} EncAllConcat(a: seq<Val>, b: seq<Val>)
    ensures EncAll(a + b) == EncAll(a) + EncAll(b)
  {
    if a == [] {
      assert a + b == b;
    } else {
      assert (a + b)[1..] == a[1..] + b;
      EncAllConcat(a[1..], b);
    }
  }

  /** A whole field list reads back. */
  lemma {:induction false} FieldsRoundTrip(vals: seq<Val>, rest: seq<byte>)
    requires |EncAll(vals)| <= MAX_RECORD_LEN
    ensures DecAll(Kinds(vals), EncAll(vals) + rest) == Some((vals, rest))
  {
    if vals == [] {
      assert Kinds(vals) == [] && EncAll(vals) + rest == rest;
    } else {
      var tail := EncAll(vals[1..]) + rest;
      assert EncAll(vals) + rest == Enc(vals[0]) + tail;
      FieldRoundTrip(vals[0], tail);
      FieldsRoundTrip(vals[1..], rest);
      var ks := Kinds(vals);
      assert ks[0] == KindOf(vals[0]) && ks[1..] == Kinds(vals[1..]);
      assert [vals[0]] + vals[1..] == vals;
    }
  }
}
