/** Content-Length framing of SIP over TCP. */
module TcpReasm {
  import opened Prelude
  import opened Net
  import opened Utf8

  const MAX_STREAM_BUF: nat := 0x10_0000
  const IDLE_US: nat := 60_000_000

  const CRLF2: seq<byte> := [13, 10, 13, 10]

  // ----- header scanning -----

  predicate BlankLineAt(buf: seq<byte>, i: nat) {
    i + 4 <= |buf| && buf[i..i + 4] == CRLF2
  }

  /** Position of the first blank line. */
  function FindDoubleCrlf(buf: seq<byte>): (r: Option<nat>)
    ensures r.Some? ==> BlankLineAt(buf, r.value) && forall j :: 0 <= j < r.value ==> !BlankLineAt(buf, j)
    ensures r.None? ==> forall j: nat :: !BlankLineAt(buf, j)
  {
    FindFrom(buf, 0)
  }

  function FindFrom(buf: seq<byte>, i: nat): (r: Option<nat>)
    requires forall j :: 0 <= j < i ==> !BlankLineAt(buf, j)
    ensures r.Some? ==> BlankLineAt(buf, r.value) && forall j :: 0 <= j < r.value ==> !BlankLineAt(buf, j)
    ensures r.None? ==> forall j: nat :: !BlankLineAt(buf, j)
    decreases |buf| - i
  {
    if i + 4 > |buf| then None
    else if BlankLineAt(buf, i) then Some(i)
    else FindFrom(buf, i + 1)
  }

  /** Index of the first `b`, or the length when there is none. */
  function IndexOf(s: seq<byte>, b: byte): (i: nat)
    ensures i <= |s|
    ensures i < |s| ==> s[i] == b
    ensures forall j :: 0 <= j < i ==> s[j] != b
  {
    if s == [] || s[0] == b then 0 else 1 + IndexOf(s[1..], b)
  }

  /** Byte length of a Unicode white-space character at the front, or 0. */
  function SpaceAtFront(s: seq<byte>): (n: nat)
    ensures n <= |s|
  {
    if |s| >= 1 && (9 <= s[0] <= 13 || s[0] == 32) then 1
    else if |s| >= 2 && s[0] == 0xC2 && s[1] in {0x85, 0xA0} then 2
    else if |s| >= 3 && IsWideSpace(s[0], s[1], s[2]) then 3
    else 0
  }

  function SpaceAtBack(s: seq<byte>): (n: nat)
    ensures n <= |s|
  {
    var k := |s|;
    if k >= 1 && (9 <= s[k - 1] <= 13 || s[k - 1] == 32) then 1
    else if k >= 2 && s[k - 2] == 0xC2 && s[k - 1] in {0x85, 0xA0} then 2
    else if k >= 3 && IsWideSpace(s[k - 3], s[k - 2], s[k - 1]) then 3
    else 0
  }

  predicate IsWideSpace(a: byte, b: byte, c: byte) {
    || (a == 0xE1 && b == 0x9A && c == 0x80)
    || (a == 0xE2 && b == 0x80 && (0x80 <= c <= 0x8A || c in {0xA8, 0xA9, 0xAF}))
    || (a == 0xE2 && b == 0x81 && c == 0x9F)
    || (a == 0xE3 && b == 0x80 && c == 0x80)
  }

  function Trim(s: seq<byte>): seq<byte>
    decreases |s|
  {
    if SpaceAtFront(s) > 0 then Trim(s[SpaceAtFront(s)..])
    else if SpaceAtBack(s) > 0 then Trim(s[..|s| - SpaceAtBack(s)])
    else s
  }

  /** "content-length" */
  const LONG_NAME: seq<byte> := [99, 111, 110, 116, 101, 110, 116, 45, 108, 101, 110, 103, 116, 104]
  /** "l" */
  const SHORT_NAME: seq<byte> := [108]

  predicate IsDigits(s: seq<byte>) {
    forall i :: 0 <= i < |s| ==> 48 <= s[i] <= 57
  }

  function Decimal(s: seq<byte>): nat
    requires IsDigits(s)
  {
    if s == [] then 0 else 10 * Decimal(s[..|s| - 1]) + (s[|s| - 1] - 48)
  }

  /** `str::parse::<usize>()`, with 0 for any text it refuses. */
  function ParseUsize(s: seq<byte>): (n: nat)
    ensures n <= MAX_U64
  {
    var d := if s != [] && s[0] == 43 then s[1..] else s;
    if d != [] && IsDigits(d) && Decimal(d) <= MAX_U64 then Decimal(d) else 0
  }

  /** A line that carries the length, in its long or short form, in any case. */
  predicate Announces(line: seq<byte>) {
    var colon := IndexOf(line, 58);
    colon < |line| && (EqIgnoreCase(Trim(line[..colon]), LONG_NAME) || EqIgnoreCase(Trim(line[..colon]), SHORT_NAME))
  }

  function LengthInLines(text: seq<byte>): (n: nat)
    ensures n <= MAX_U64
    decreases |text|
  {
    if text == [] then 0
    else
      var eol := IndexOf(text, 10);
      var line := text[..eol];
      if Announces(line) then ParseUsize(Trim(line[IndexOf(line, 58) + 1..]))
      else if eol == |text| then 0
      else LengthInLines(text[eol + 1..])
  }

  function ExtractContentLength(headers: seq<byte>): (n: nat)
    ensures n <= MAX_U64
  {
    LengthInLines(Lossy(headers))
  }

  // ----- what a length line means -----

  /** Lines as they stand in a header, each with its line feed. */
  function Lines(lines: seq<seq<byte>>): seq<byte> {
    if lines == [] then [] else lines[0] + [10] + Lines(lines[1..])
  }

  lemma {:induction false} IndexOfConcat(s: seq<byte>, b: byte, rest: seq<byte>)
    requires forall i :: 0 <= i < |s| ==> s[i] != b
    ensures IndexOf(s + [b] + rest, b) == |s| && IndexOf(s, b) == |s|
  {
    if s != [] {
      assert (s + [b] + rest)[1..] == s[1..] + [b] + rest;
      IndexOfConcat(s[1..], b, rest);
    }
  }

  /** The length line as it stands: name, colon, space, number, and perhaps a carriage return. */
  function LengthLine(name: seq<byte>, n: nat, cr: bool): seq<byte> {
    name + [58] + LengthValue(n, cr)
  }

  predicate IsName(name: seq<byte>) {
    EqIgnoreCase(name, LONG_NAME) || EqIgnoreCase(name, SHORT_NAME)
  }

  /** Text that starts and ends with a letter or digit is its own trim. */
  lemma TrimPlain(s: seq<byte>)
    requires s != [] && 48 <= s[0] <= 122 && 48 <= s[|s| - 1] <= 122
    ensures Trim(s) == s
  {
    assert SpaceAtFront(s) == 0 && SpaceAtBack(s) == 0;
  }

  lemma LettersOnly()
    ensures |LONG_NAME| == 14 && LONG_NAME[0] == 99 && LONG_NAME[13] == 104
    ensures forall i :: 0 <= i < 14 ==> IsLetter(LONG_NAME[i])
  {
  }

  lemma SameLetter(b: byte, letter: byte)
    requires LowerByte(b) == LowerByte(letter) && (letter == 45 || 97 <= letter <= 122)
    ensures b != 58 && b != 10 && (letter != 45 ==> 48 <= b <= 122)
  {
  }

  predicate IsLetter(b: byte) {
    b == 45 || 97 <= b <= 122
  }

  lemma LikeIsPlain(name: seq<byte>, like: seq<byte>)
    requires EqIgnoreCase(name, like) && like != [] && like[0] != 45 && like[|like| - 1] != 45
    requires forall i :: 0 <= i < |like| ==> IsLetter(like[i])
    ensures Trim(name) == name && forall i :: 0 <= i < |name| ==> name[i] != 58 && name[i] != 10
  {
    hide LowerByte, Trim;
    forall i | 0 <= i < |name|
      ensures name[i] != 58 && name[i] != 10 && (like[i] != 45 ==> 48 <= name[i] <= 122)
    {
      assert IsLetter(like[i]);
      SameLetter(name[i], like[i]);
    }
    TrimPlain(name);
  }

  lemma NameIsPlain(name: seq<byte>)
    requires IsName(name)
    ensures Trim(name) == name && forall i :: 0 <= i < |name| ==> name[i] != 58 && name[i] != 10
  {
    LettersOnly();
    hide EqIgnoreCase, Trim;
    if EqIgnoreCase(name, LONG_NAME) {
      LikeIsPlain(name, LONG_NAME);
    } else {
      LikeIsPlain(name, SHORT_NAME);
    }
  }

  lemma DigitsStay(d: seq<byte>)
    requires d != [] && IsDigits(d)
    ensures Trim([32] + d) == d && Trim([32] + d + [13]) == d
  {
    var e := d + [13];
    TrimPlain(d);
    assert SpaceAtFront(e) == 0 && SpaceAtBack(e) == 1 && e[..|e| - 1] == d;
    assert Trim(e) == Trim(d);
    var f, g := [32] + d, [32] + d + [13];
    assert SpaceAtFront(f) == 1 && f[1..] == d;
    assert SpaceAtFront(g) == 1 && g[1..] == e;
  }

  lemma {:induction false} DecimalOfDigits(n: nat)
    ensures Decimal(Digits(n)) == n
  {
    if n >= 10 {
      DecimalOfDigits(n / 10);
      assert Digits(n)[..|Digits(n)| - 1] == Digits(n / 10);
    } else {
      assert Digits(n)[..0] == [];
    }
  }

  /** What stands after the colon of a length line. */
  function LengthValue(n: nat, cr: bool): seq<byte> {
    [32] + Digits(n) + if cr then [13] else []
  }

  lemma ValueParses(n: u64, cr: bool)
    ensures ParseUsize(Trim(LengthValue(n, cr))) == n
    ensures forall i :: 0 <= i < |LengthValue(n, cr)| ==> LengthValue(n, cr)[i] != 10
  {
    DigitsStay(Digits(n));
    DecimalOfDigits(n);
    assert cr || LengthValue(n, cr) == [32] + Digits(n);
  }

  lemma ColonSplits(name: seq<byte>, value: seq<byte>)
    requires forall i :: 0 <= i < |name| ==> name[i] != 58
    ensures var line := name + [58] + value;
      IndexOf(line, 58) == |name| && line[..|name|] == name && line[|name| + 1..] == value
  {
    IndexOfConcat(name, 58, value);
  }

  lemma LengthLineAnnounces(name: seq<byte>, n: u64, cr: bool)
    requires IsName(name)
    ensures var line := LengthLine(name, n, cr);
      && Announces(line) && ParseUsize(Trim(line[IndexOf(line, 58) + 1..])) == n
      && forall i :: 0 <= i < |line| ==> line[i] != 10
  {
    hide LengthValue, Trim, ParseUsize, IndexOf, EqIgnoreCase;
    NameIsPlain(name);
    ValueParses(n, cr);
    ColonSplits(name, LengthValue(n, cr));
  }

  /** A length line first in the text. */
  lemma LengthFirst(line: seq<byte>, n: nat, rest: seq<byte>)
    requires Announces(line) && ParseUsize(Trim(line[IndexOf(line, 58) + 1..])) == n
    requires forall i :: 0 <= i < |line| ==> line[i] != 10
    ensures LengthInLines(line + [10] + rest) == n && LengthInLines(line) == n
  {
    IndexOfConcat(line, 10, rest);
    hide Trim, ParseUsize, EqIgnoreCase;
    var text := line + [10] + rest;
    assert text[..|line|] == line && line[..|line|] == line;
  }

  /** Past lines that announce nothing, a length line gives its number, whatever follows. */
  lemma {:induction false} LengthFound(lines: seq<seq<byte>>, line: seq<byte>, n: nat, rest: seq<byte>)
    requires Announces(line) && ParseUsize(Trim(line[IndexOf(line, 58) + 1..])) == n
    requires forall i :: 0 <= i < |line| ==> line[i] != 10
    requires forall i :: 0 <= i < |lines| ==> 10 !in lines[i] && !Announces(lines[i])
    ensures LengthInLines(Lines(lines) + (line + [10] + rest)) == n
    ensures LengthInLines(Lines(lines) + line) == n
  {
    hide Announces, Trim, ParseUsize, IndexOf, LengthInLines;
    if lines == [] {
      LengthFirst(line, n, rest);
      assert Lines(lines) + line == line && Lines(lines) + (line + [10] + rest) == line + [10] + rest;
    } else {
      LengthFound(lines[1..], line, n, rest);
      SkipLine(lines[0], Lines(lines[1..]) + (line + [10] + rest));
      SkipLine(lines[0], Lines(lines[1..]) + line);
      assert Lines(lines) + (line + [10] + rest) == lines[0] + [10] + (Lines(lines[1..]) + (line + [10] + rest));
      assert Lines(lines) + line == lines[0] + [10] + (Lines(lines[1..]) + line);
    }
  }

  lemma SkipLine(line: seq<byte>, rest: seq<byte>)
    requires 10 !in line && !Announces(line)
    ensures LengthInLines(line + [10] + rest) == LengthInLines(rest)
  {
    var text := line + [10] + rest;
    IndexOfConcat(line, 10, rest);
    assert text[..|line|] == line && text[|line| + 1..] == rest;
  }

  /** The announced length of a header in valid text, wherever its line stands. */
  lemma AnnouncedLength(lines: seq<seq<byte>>, name: seq<byte>, n: u64, cr: bool, rest: seq<byte>)
    requires IsName(name)
    requires forall i :: 0 <= i < |lines| ==> 10 !in lines[i] && !Announces(lines[i])
    ensures var last := Lines(lines) + LengthLine(name, n, cr);
      Valid(last) ==> ExtractContentLength(last) == n
    ensures var text := Lines(lines) + (LengthLine(name, n, cr) + [10] + rest);
      Valid(text) ==> ExtractContentLength(text) == n
  {
    LengthLineAnnounces(name, n, cr);
    LengthFound(lines, LengthLine(name, n, cr), n, rest);
    hide Announces, LengthInLines, LengthLine, Trim, ParseUsize, IndexOf;
    var last, text := Lines(lines) + LengthLine(name, n, cr), Lines(lines) + (LengthLine(name, n, cr) + [10] + rest);
    if Valid(last) {
      LossyOfValid(last);
    }
    if Valid(text) {
      LossyOfValid(text);
    }
  }

  /** A line with no colon, or whose name, trimmed, is no form of Content-Length. */
  ghost predicate Silent(line: seq<byte>) {
    || 58 !in line
    || exists i :: 0 <= i < |line| && line[i] == 58 && 58 !in line[..i] && !IsName(Trim(line[..i]))
  }

  lemma SilentAnnouncesNothing(line: seq<byte>)
    requires Silent(line)
    ensures !Announces(line)
  {
    hide Trim, EqIgnoreCase;
    if 58 in line {
      var i :| 0 <= i < |line| && line[i] == 58 && 58 !in line[..i] && !IsName(Trim(line[..i]));
      assert forall j :: 0 <= j < i ==> line[j] == line[..i][j];
      assert IndexOf(line, 58) == i;
    }
  }

  lemma LastLineSilent(line: seq<byte>)
    requires 10 !in line && !Announces(line)
    ensures LengthInLines(line) == 0
  {
    hide Announces;
    assert line[..|line|] == line;
  }

  lemma {:induction false} NoLengthInLines(lines: seq<seq<byte>>, last: seq<byte>)
    requires forall i :: 0 <= i < |lines| ==> 10 !in lines[i] && !Announces(lines[i])
    requires 10 !in last && !Announces(last)
    ensures LengthInLines(Lines(lines) + last) == 0
  {
    hide Announces, LengthInLines;
    LastLineSilent(last);
    if lines == [] {
      assert Lines(lines) + last == last;
    } else {
      NoLengthInLines(lines[1..], last);
      SkipLine(lines[0], Lines(lines[1..]) + last);
      assert Lines(lines) + last == lines[0] + [10] + (Lines(lines[1..]) + last);
    }
  }

  /** A header in valid text with no length line announces no body. */
  lemma NothingAnnounced(lines: seq<seq<byte>>, last: seq<byte>)
    requires forall line :: line in lines + [last] ==> 10 !in line && Silent(line)
    requires Valid(Lines(lines) + last)
    ensures ExtractContentLength(Lines(lines) + last) == 0
  {
    forall line | line in lines + [last]
      ensures !Announces(line)
    {
      SilentAnnouncesNothing(line);
    }
    hide Announces, Silent;
    assert last in lines + [last];
    forall i | 0 <= i < |lines|
      ensures 10 !in lines[i] && !Announces(lines[i])
    {
      assert lines[i] in lines + [last];
    }
    NoLengthInLines(lines, last);
    LossyOfValid(Lines(lines) + last);
  }

  // ----- framing -----

  /**
    What a buffer holds: complete messages and the rest, unless some header
    announces a length that does not fit a machine word with its own size.
   */
  datatype Framed = Framed(msgs: seq<seq<byte>>, rest: seq<byte>) | Overflow

  datatype Head = NeedMore | TooLong | Message(total: nat)

  /** The message at the front of a buffer, if it is complete. */
  function HeadOf(buf: seq<byte>): (h: Head)
    ensures h.Message? ==> 0 < h.total <= |buf|
  {
    match FindDoubleCrlf(buf)
    case None => NeedMore
    case Some(sep) =>
      var total := sep + 4 + ExtractContentLength(buf[..sep]);
      if total > MAX_U64 then TooLong
      else if |buf| < total then NeedMore
      else Message(total)
  }

  function Frames(buf: seq<byte>): Framed
    decreases |buf|
  {
    match HeadOf(buf)
    case NeedMore => Framed([], buf)
    case TooLong => Overflow
    case Message(total) => Prepend(buf[..total], Frames(buf[total..]))
  }

  function Prepend(msg: seq<byte>, f: Framed): Framed {
    match f
    case Overflow => Overflow
    case Framed(msgs, rest) => Framed([msg] + msgs, rest)
  }

  function Concat(parts: seq<seq<byte>>): seq<byte> {
    if parts == [] then [] else parts[0] + Concat(parts[1..])
  }

  lemma ConcatCons(m: seq<byte>, msgs: seq<seq<byte>>, rest: seq<byte>)
    ensures Concat([m] + msgs) + rest == m + (Concat(msgs) + rest)
  {
    assert ([m] + msgs)[1..] == msgs;
  }

  /** Nothing is lost, added or reordered by framing. */
  lemma {:induction false} FramesConserve(buf: seq<byte>)
    requires Frames(buf).Framed?
    ensures Concat(Frames(buf).msgs) + Frames(buf).rest == buf
    decreases |buf|
  {
    var h := HeadOf(buf);
    if h.Message? {
      var m, f := buf[..h.total], Frames(buf[h.total..]);
      FramesConserve(buf[h.total..]);
      ConcatCons(m, f.msgs, f.rest);
      assert buf == m + buf[h.total..];
    }
  }

  lemma FindStable(a: seq<byte>, b: seq<byte>)
    requires FindDoubleCrlf(a).Some?
    ensures FindDoubleCrlf(a + b) == FindDoubleCrlf(a)
  {
    var i := FindDoubleCrlf(a).value;
    forall j | 0 <= j <= i
      ensures BlankLineAt(a + b, j) <==> BlankLineAt(a, j)
    {
      assert (a + b)[j..j + 4] == a[j..j + 4];
    }
  }

  /** More bytes never change a head already decided. */
  lemma HeadStable(a: seq<byte>, b: seq<byte>)
    requires !HeadOf(a).NeedMore?
    ensures HeadOf(a + b) == HeadOf(a)
  {
    FindStable(a, b);
    var sep := FindDoubleCrlf(a).value;
    assert (a + b)[..sep] == a[..sep];
  }

  /** `f` continued by the framing of what follows its rest. */
  function Continue(f: Framed, b: seq<byte>): Framed {
    match f
    case Overflow => Overflow
    case Framed(msgs, rest) => PrependAll(msgs, Frames(rest + b))
  }

  function PrependAll(msgs: seq<seq<byte>>, f: Framed): Framed {
    match f
    case Overflow => Overflow
    case Framed(more, rest) => Framed(msgs + more, rest)
  }

  lemma PrependNone(f: Framed)
    ensures PrependAll([], f) == f
  {
    if f.Framed? {
      assert [] + f.msgs == f.msgs;
    }
  }

  lemma PrependThenAll(m: seq<byte>, msgs: seq<seq<byte>>, f: Framed)
    ensures Prepend(m, PrependAll(msgs, f)) == PrependAll([m] + msgs, f)
  {
    if f.Framed? {
      assert [m] + msgs + f.msgs == [m] + (msgs + f.msgs);
    }
  }

  lemma AllThenPrepend(msgs: seq<seq<byte>>, m: seq<byte>, f: Framed)
    ensures PrependAll(msgs, Prepend(m, f)) == PrependAll(msgs + [m], f)
  {
    if f.Framed? {
      assert msgs + ([m] + f.msgs) == msgs + [m] + f.msgs;
    }
  }

  /** Later bytes continue exactly where the rest of the earlier ones stopped. */
  lemma {:induction false} FramesExtend(a: seq<byte>, b: seq<byte>)
    ensures Frames(a + b) == Continue(Frames(a), b)
    decreases |a|
  {
    hide HeadOf;
    var h := HeadOf(a);
    match h {
      case NeedMore =>
        PrependNone(Frames(a + b));
      case TooLong =>
        HeadStable(a, b);
      case Message(total) =>
        HeadStable(a, b);
        var m, f := a[..total], Frames(a[total..]);
        assert (a + b)[total..] == a[total..] + b && (a + b)[..total] == m;
        FramesExtend(a[total..], b);
        if f.Framed? {
          PrependThenAll(m, f.msgs, Frames(f.rest + b));
        }
    }
  }

  lemma {:induction false} FramesOfRest(buf: seq<byte>)
    requires Frames(buf).Framed?
    ensures Frames(Frames(buf).rest) == Framed([], Frames(buf).rest)
    ensures |Frames(buf).rest| <= |buf|
    decreases |buf|
  {
    var h := HeadOf(buf);
    if h.Message? {
      FramesOfRest(buf[h.total..]);
    }
  }

  /** A message that announces its own body length is framed as one message. */
  lemma WellFormedMessageFramed(headers: seq<byte>, body: seq<byte>, more: seq<byte>)
    requires FindDoubleCrlf(headers + CRLF2) == Some(|headers|)
    requires ExtractContentLength(headers) == |body|
    requires |headers| + 4 + |body| <= MAX_U64
    ensures var m := headers + CRLF2 + body;
      Frames(m + more) == Prepend(m, Frames(more))
  {
    var m := headers + CRLF2 + body;
    var buf := m + more;
    assert buf == (headers + CRLF2) + (body + more);
    FindStable(headers + CRLF2, body + more);
    assert buf[..|headers|] == headers;
    assert HeadOf(buf) == Message(|m|);
    assert buf[..|m|] == m && buf[|m|..] == more;
  }

  /** Without a length line the message ends at its blank line, whatever follows. */
  lemma UnannouncedMessageFramed(lines: seq<seq<byte>>, last: seq<byte>, more: seq<byte>)
    requires forall line :: line in lines + [last] ==> 10 !in line && Silent(line)
    requires Valid(Lines(lines) + last) && |Lines(lines) + last| + 4 <= MAX_U64
    requires FindDoubleCrlf(Lines(lines) + last + CRLF2) == Some(|Lines(lines) + last|)
    ensures Frames(Lines(lines) + last + CRLF2 + more) == Prepend(Lines(lines) + last + CRLF2, Frames(more))
  {
    hide Silent, Frames, FindDoubleCrlf, ExtractContentLength;
    NothingAnnounced(lines, last);
    var headers := Lines(lines) + last;
    WellFormedMessageFramed(headers, [], more);
    assert headers + CRLF2 + [] == headers + CRLF2;
  }

  // ----- one flow over a run of segments -----

  /** What one `Feed` does to a flow's buffer. */
  function FeedBuffer(buf: seq<byte>, data: seq<byte>): Framed {
    if |buf + data| > MAX_STREAM_BUF then Framed([], []) else Frames(buf + data)
  }

  function FeedAll(buf: seq<byte>, segments: seq<seq<byte>>): Framed
    decreases |segments|
  {
    if segments == [] then Framed([], buf)
    else
      match FeedBuffer(buf, segments[0])
      case Overflow => Overflow
      case Framed(msgs, rest) => PrependAll(msgs, FeedAll(rest, segments[1..]))
  }

  /** No segment makes the buffer exceed its cap. */
  predicate NeverDropped(buf: seq<byte>, segments: seq<seq<byte>>)
    decreases |segments|
  {
    segments == [] ||
    (|buf + segments[0]| <= MAX_STREAM_BUF &&
     (Frames(buf + segments[0]).Framed? ==>
        NeverDropped(Frames(buf + segments[0]).rest, segments[1..])))
  }

  /** However a stream is cut, its messages and rest are those of the whole. */
  lemma {:induction false} CutsDoNotMatter(buf: seq<byte>, segments: seq<seq<byte>>)
    requires Frames(buf) == Framed([], buf) && NeverDropped(buf, segments)
    ensures FeedAll(buf, segments) == Frames(buf + Concat(segments))
    decreases |segments|
  {
    if segments == [] {
      assert buf + [] == buf;
    } else {
      var a, tail := buf + segments[0], Concat(segments[1..]);
      assert buf + Concat(segments) == a + tail;
      FramesExtend(a, tail);
      if Frames(a).Framed? {
        FramesOfRest(a);
        CutsDoNotMatter(Frames(a).rest, segments[1..]);
      }
    }
  }

  lemma {:induction false} SmallNeverDropped(buf: seq<byte>, segments: seq<seq<byte>>)
    requires |buf| + |Concat(segments)| <= MAX_STREAM_BUF
    ensures NeverDropped(buf, segments)
    decreases |segments|
  {
    if segments != [] && Frames(buf + segments[0]).Framed? {
      FramesOfRest(buf + segments[0]);
      SmallNeverDropped(Frames(buf + segments[0]).rest, segments[1..]);
    }
  }

  /** Segmentation independence for a stream no longer than the cap. */
  lemma SegmentationIndependence(one: seq<seq<byte>>, two: seq<seq<byte>>)
    requires Concat(one) == Concat(two) && |Concat(one)| <= MAX_STREAM_BUF
    ensures FeedAll([], one) == FeedAll([], two) == FeedAll([], [Concat(one)])
    ensures FeedAll([], one).Framed? ==>
      Concat(FeedAll([], one).msgs) + FeedAll([], one).rest == Concat(one)
  {
    var whole := [Concat(one)];
    assert Concat(whole) == Concat(one) + Concat([]) == Concat(one);
    assert [] + Concat(one) == Concat(one);
    SmallNeverDropped([], one);
    SmallNeverDropped([], two);
    SmallNeverDropped([], whole);
    CutsDoNotMatter([], one);
    CutsDoNotMatter([], two);
    CutsDoNotMatter([], whole);
    if Frames(Concat(one)).Framed? {
      FramesConserve(Concat(one));
    }
  }

  // ----- many flows -----

  datatype Segment = Segment(flow: Flow5Tuple, data: seq<byte>)

  function BufferOf(buffers: map<Flow5Tuple, seq<byte>>, flow: Flow5Tuple): seq<byte> {
    if flow in buffers then buffers[flow] else []
  }

  /** An interleaved run; `None` once some message length overflows. */
  function RunFlows(buffers: map<Flow5Tuple, seq<byte>>, run: seq<Segment>)
    : Option<(seq<(Flow5Tuple, seq<byte>)>, map<Flow5Tuple, seq<byte>>)>
    decreases |run|
  {
    if run == [] then Some(([], buffers))
    else
      var s := run[0];
      match FeedBuffer(BufferOf(buffers, s.flow), s.data)
      case Overflow => None
      case Framed(msgs, rest) =>
        var (out, last) :- RunFlows(buffers[s.flow := rest], run[1..]);
        Some((Tagged(s.flow, msgs) + out, last))
  }

  function Tagged(flow: Flow5Tuple, msgs: seq<seq<byte>>): seq<(Flow5Tuple, seq<byte>)> {
    seq(|msgs|, i requires 0 <= i < |msgs| => (flow, msgs[i]))
  }

  function SegmentsOf(run: seq<Segment>, flow: Flow5Tuple): seq<seq<byte>> {
    if run == [] then []
    else (if run[0].flow == flow then [run[0].data] else []) + SegmentsOf(run[1..], flow)
  }

  function MessagesOf(out: seq<(Flow5Tuple, seq<byte>)>, flow: Flow5Tuple): seq<seq<byte>> {
    if out == [] then []
    else (if out[0].0 == flow then [out[0].1] else []) + MessagesOf(out[1..], flow)
  }

  lemma {:induction false} MessagesOfConcat(a: seq<(Flow5Tuple, seq<byte>)>,
                                            b: seq<(Flow5Tuple, seq<byte>)>, flow: Flow5Tuple)
    ensures MessagesOf(a + b, flow) == MessagesOf(a, flow) + MessagesOf(b, flow)
  {
    if a == [] {
      assert a + b == b;
    } else {
      MessagesOfConcat(a[1..], b, flow);
      assert (a + b)[1..] == a[1..] + b;
    }
  }

  lemma {:induction false} MessagesOfTagged(f: Flow5Tuple, msgs: seq<seq<byte>>, flow: Flow5Tuple)
    ensures MessagesOf(Tagged(f, msgs), flow) == if f == flow then msgs else []
  {
    if msgs != [] {
      MessagesOfTagged(f, msgs[1..], flow);
      assert Tagged(f, msgs)[1..] == Tagged(f, msgs[1..]);
      assert msgs == [msgs[0]] + msgs[1..];
    }
  }

  /** Flows do not disturb each other: each sees only its own segments. */
  lemma {:induction false} FlowsIndependent(buffers: map<Flow5Tuple, seq<byte>>, run: seq<Segment>,
                                            flow: Flow5Tuple)
    requires RunFlows(buffers, run).Some?
    ensures var (out, last) := RunFlows(buffers, run).value;
      FeedAll(BufferOf(buffers, flow), SegmentsOf(run, flow))
        == Framed(MessagesOf(out, flow), BufferOf(last, flow))
    decreases |run|
  {
    if run != [] {
      var s := run[0];
      var f := FeedBuffer(BufferOf(buffers, s.flow), s.data);
      var next := buffers[s.flow := f.rest];
      FlowsIndependent(next, run[1..], flow);
      var (out, last) := RunFlows(next, run[1..]).value;
      MessagesOfConcat(Tagged(s.flow, f.msgs), out, flow);
      MessagesOfTagged(s.flow, f.msgs, flow);
      var mine := SegmentsOf(run[1..], flow);
      if s.flow == flow {
        assert SegmentsOf(run, flow) == [s.data] + mine;
        assert ([s.data] + mine)[1..] == mine;
      } else {
        assert SegmentsOf(run, flow) == mine;
        assert MessagesOf(Tagged(s.flow, f.msgs) + out, flow) == MessagesOf(out, flow);
      }
    }
  }

  // ----- the reassembler -----

  datatype FlowBuf = FlowBuf(data: seq<byte>, lastUs: u64)

  class TcpReassembler {
    var buffers: map<Flow5Tuple, FlowBuf>

    /** The buffered bytes of every flow. */
    ghost function Contents(): map<Flow5Tuple, seq<byte>>
      reads this
    {
      map f | f in buffers :: buffers[f].data
    }

    constructor ()
      ensures buffers == map[]
    {
      buffers := map[];
    }

    /** Drops exactly the flows idle for `idleUs` of capture time. */
    method Prune(nowUs: u64, idleUs: u64)
      modifies this
      ensures buffers == map f | f in old(buffers) && SatSub(nowUs, old(buffers)[f].lastUs) < idleUs
                             :: old(buffers)[f]
    {
      buffers := map f | f in buffers && SatSub(nowUs, buffers[f].lastUs) < idleUs :: buffers[f];
    }

    /** `None`: some header's length does not fit, and nothing more is claimed. */
    method Feed(flow: Flow5Tuple, data: seq<byte>, tsUs: u64) returns (out: Option<seq<seq<byte>>>)
      modifies this
      ensures out.None? <==> FeedBuffer(BufferOf(old(Contents()), flow), data).Overflow?
      ensures out.Some? ==>
        var f := FeedBuffer(BufferOf(old(Contents()), flow), data);
        && out.value == f.msgs
        && buffers == if f.rest == [] then old(buffers) - {flow}
                      else old(buffers)[flow := FlowBuf(f.rest, tsUs)]
    {
      var buf := if flow in buffers then buffers[flow].data else [];
      buf := buf + data;
      var msgs: seq<seq<byte>> := [];
      var dropFlow := false;
      if |buf| > MAX_STREAM_BUF {
        dropFlow := true;
      } else {
        ghost var whole := buf;
        PrependNone(Frames(buf));
        while true
          invariant |buf| <= |whole| && buffers == old(buffers)
          invariant Frames(whole) == PrependAll(msgs, Frames(buf))
          decreases |buf|
        {
          var sep := FindDoubleCrlf(buf);
          if sep.None? {
            break;
          }
          var headerEnd := sep.value + 4;
          var contentLength := ExtractContentLength(buf[..sep.value]);
          var total := headerEnd + contentLength;
          if total > MAX_U64 {
            return None;
          }
          if |buf| < total {
            break;
          }
          assert HeadOf(buf) == Message(total);
          AllThenPrepend(msgs, buf[..total], Frames(buf[total..]));
          msgs := msgs + [buf[..total]];
          buf := buf[total..];
        }
        assert HeadOf(buf).NeedMore? && msgs + [] == msgs;
        assert Frames(whole) == Framed(msgs, buf);
        if buf == [] {
          dropFlow := true;
        }
      }
      if dropFlow {
        buffers := buffers - {flow};
      } else {
        buffers := buffers[flow := FlowBuf(buf, tsUs)];
      }
      return Some(msgs);
    }
  }
}
