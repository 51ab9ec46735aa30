/** UTF-8 validity, and the lossy decoding that replaces what is not valid. */
module Utf8 {
  import opened Prelude

  const REPLACEMENT: seq<byte> := [0xEF, 0xBF, 0xBD]

  /** Encoded width announced by a lead byte, 0 if it is not a lead byte. */
  function Width(b: byte): nat {
    if b < 0x80 then 1
    else if 0xC2 <= b <= 0xDF then 2
    else if 0xE0 <= b <= 0xEF then 3
    else if 0xF0 <= b <= 0xF4 then 4
    else 0
  }

  predicate IsCont(b: byte) {
    0x80 <= b <= 0xBF
  }

  /** Second bytes a lead byte admits. */
  predicate SecondOk(lead: byte, b: byte) {
    if lead == 0xE0 then 0xA0 <= b <= 0xBF
    else if lead == 0xED then 0x80 <= b <= 0x9F
    else if lead == 0xF0 then 0x90 <= b <= 0xBF
    else if lead == 0xF4 then 0x80 <= b <= 0x8F
    else IsCont(b)
  }

  /** Length of the well-formed character at the front, 0 if there is none. */
  function CharLen(s: seq<byte>): (n: nat)
    ensures n <= |s| && n <= 4
  {
    if s == [] then 0
    else
      var w := Width(s[0]);
      if w == 0 || |s| < w then 0
      else if w >= 2 && !SecondOk(s[0], s[1]) then 0
      else if w >= 3 && !IsCont(s[2]) then 0
      else if w == 4 && !IsCont(s[3]) then 0
      else w
  }

  /** Length of the maximal ill-formed run that one replacement stands for. */
  function BadLen(s: seq<byte>): (n: nat)
    requires s != [] && CharLen(s) == 0
    ensures 1 <= n <= |s|
  {
    var w := Width(s[0]);
    if w < 3 || |s| < 2 || !SecondOk(s[0], s[1]) then 1
    else if w == 3 || |s| < 3 || !IsCont(s[2]) then 2
    else 3
  }

  predicate Valid(s: seq<byte>)
    decreases |s|
  {
    s == [] || (CharLen(s) > 0 && Valid(s[CharLen(s)..]))
  }

  type Str = s: seq<byte> | Valid(s) witness []

  function Lossy(s: seq<byte>): (r: seq<byte>)
    ensures s != [] ==> r != []
    decreases |s|
  {
    if s == [] then []
    else if CharLen(s) > 0 then s[..CharLen(s)] + Lossy(s[CharLen(s)..])
    else REPLACEMENT + Lossy(s[BadLen(s)..])
  }

  /** Decoding a valid string gives it back. */
  lemma {:induction false} LossyOfValid(s: seq<byte>)
    requires Valid(s)
    ensures Lossy(s) == s
    decreases |s|
  {
    if s != [] {
      LossyOfValid(s[CharLen(s)..]);
    }
  }

  lemma {:induction false} ValidChar(c: seq<byte>, rest: seq<byte>)
    requires CharLen(c) == |c| > 0 && Valid(rest)
    ensures Valid(c + rest)
  {
    var s := c + rest;
    assert s[0] == c[0] && (|c| > 1 ==> s[1] == c[1]) && (|c| > 2 ==> s[2] == c[2]);
    assert CharLen(s) == |c|;
    assert s[|c|..] == rest;
  }

  /** Lossy decoding always yields a valid string, and keeps only valid ones. */
  lemma {:induction false} LossyIsValid(s: seq<byte>)
    ensures Valid(Lossy(s))
    ensures Lossy(s) == s <==> Valid(s)
    decreases |s|
  {
    if s == [] {
    } else if CharLen(s) > 0 {
      var n := CharLen(s);
      LossyIsValid(s[n..]);
      assert CharLen(s[..n]) == n;
      ValidChar(s[..n], Lossy(s[n..]));
    } else {
      LossyIsValid(s[BadLen(s)..]);
      ValidChar(REPLACEMENT, Lossy(s[BadLen(s)..]));
    }
    if Valid(s) {
      LossyOfValid(s);
    }
  }

  predicate IsAscii(s: seq<byte>) {
    forall i :: 0 <= i < |s| ==> s[i] < 0x80
  }

  lemma {:induction false} AsciiIsValid(s: seq<byte>)
    requires IsAscii(s)
    ensures Valid(s)
    decreases |s|
  {
    if s != [] {
      AsciiIsValid(s[1..]);
    }
  }

  function AsciiStr(s: seq<byte>): Str
    requires IsAscii(s)
  {
    AsciiIsValid(s);
    s
  }

  // ASCII letters without regard to case.

  function LowerByte(b: byte): byte {
    if 65 <= b <= 90 then b + 32 else b
  }

  predicate EqIgnoreCase(a: seq<byte>, b: seq<byte>) {
    |a| == |b| && forall i :: 0 <= i < |a| ==> LowerByte(a[i]) == LowerByte(b[i])
  }

  /** Decimal digits, as `{}` prints them. */
  function Digits(n: nat): (s: seq<byte>)
    ensures |s| > 0 && forall i :: 0 <= i < |s| ==> 48 <= s[i] <= 57
  {
    if n < 10 then [48 + n] else Digits(n / 10) + [48 + n % 10]
  }
}
