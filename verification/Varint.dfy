/** Little-endian base-128 integers of at most 64 bits. */
module Varint {
  import opened Prelude

  datatype Parsed = Ok(value: u64, rest: seq<byte>) | Eof | TooLong

  /** 128 to the power `k`: the weight of the `k`-th group of seven bits. */
  function Weight(k: nat): (w: nat)
    ensures w > 0
  {
    if k == 0 then 1 else 128 * Weight(k - 1)
  }

  function Encode(n: nat): (s: seq<byte>)
    ensures |s| > 0
  {
    if n < 128 then [n] else [n % 128 + 128] + Encode(n / 128)
  }

  /** The contribution of group `k`: shifting in 64 bits drops what does not fit. */
  function Group(b: byte, k: nat): u64 {
    ((b % 128) * Weight(k)) % 0x1_0000_0000_0000_0000
  }

  /** `acc` holds groups below `k`, so adding group `k` is or-ing it in. */
  function DecodeFrom(rd: seq<byte>, k: nat, acc: nat): Parsed
    requires k < 10 && acc < Weight(k)
    decreases |rd|
  {
    if rd == [] then Eof
    else
      var sum := acc + Group(rd[0], k);
      GroupFits(rd[0], k, acc);
      if rd[0] < 128 then Ok(sum, rd[1..])
      else if k + 1 >= 10 then TooLong
      else DecodeFrom(rd[1..], k + 1, sum)
  }

  function Decode(rd: seq<byte>): Parsed {
    DecodeFrom(rd, 0, 0)
  }

  lemma Weights()
    ensures Weight(9) == 0x8000_0000_0000_0000
    ensures Weight(10) == 0x40_0000_0000_0000_0000
  {
    assert Weight(2) == 0x4000;
    assert Weight(4) == 0x1000_0000;
    assert Weight(6) == 0x400_0000_0000;
    assert Weight(8) == 0x100_0000_0000_0000;
  }

  lemma {:induction false} WeightMonotone(j: nat, k: nat)
    requires j <= k
    ensures Weight(j) <= Weight(k)
    decreases k - j
  {
    if j < k {
      WeightMonotone(j, k - 1);
    }
  }

  lemma GroupFits(b: byte, k: nat, acc: nat)
    requires k < 10 && acc < Weight(k)
    ensures acc + Group(b, k) <= MAX_U64
    ensures k < 9 ==> Group(b, k) == (b % 128) * Weight(k) && acc + Group(b, k) < Weight(k + 1)
  {
    Weights();
    var g := b % 128;
    if k < 9 {
      WeightMonotone(k + 1, 9);
      assert g * Weight(k) <= 127 * Weight(k);
    } else {
      assert Group(b, 9) == (g * 0x8000_0000_0000_0000) % 0x1_0000_0000_0000_0000;
      assert Group(b, 9) == (g % 2) * 0x8000_0000_0000_0000;
    }
  }

  lemma SplitProduct(n: nat, w: nat)
    ensures n * w == (n / 128) * (128 * w) + (n % 128) * w
  {
    var q, g := n / 128, n % 128;
    assert n == q * 128 + g;
    assert n * w == (q * 128) * w + g * w;
  }

  /** A value of several groups: its low group and the rest one weight up. */
  lemma SplitGroup(n: nat, k: nat)
    requires k < 10 && n >= 128 && n * Weight(k) <= MAX_U64
    ensures k < 9
    ensures (n / 128) * Weight(k + 1) <= MAX_U64
    ensures n * Weight(k) == (n / 128) * Weight(k + 1) + (n % 128) * Weight(k)
  {
    var w, q := Weight(k), n / 128;
    SplitProduct(n, w);
    AtLeastFactor(q, 128 * w);
    AtLeastFactor(n % 128, w);
    if k == 9 {
      Weights();
    }
  }

  lemma AtLeastFactor(q: nat, w: nat)
    ensures q * w >= 0 && (q >= 1 ==> q * w >= w)
  {
  }

  /** Reading back what was written, whatever follows it. */
  lemma {:induction false} RoundTripFrom(n: nat, rest: seq<byte>, k: nat, acc: nat)
    requires k < 10 && acc < Weight(k) && n * Weight(k) <= MAX_U64
    ensures acc + n * Weight(k) <= MAX_U64
    ensures DecodeFrom(Encode(n) + rest, k, acc) == Ok(acc + n * Weight(k), rest)
    decreases n
  {
    var s := Encode(n) + rest;
    GroupFits(s[0], k, acc);
    if n < 128 {
      assert s[1..] == rest;
      assert Group(s[0], k) == n * Weight(k);
    } else {
      SplitGroup(n, k);
      assert s[0] == n % 128 + 128 && s[1..] == Encode(n / 128) + rest;
      assert Group(s[0], k) == (n % 128) * Weight(k);
      RoundTripFrom(n / 128, rest, k + 1, acc + Group(s[0], k));
    }
  }

  lemma RoundTrip(n: u64, rest: seq<byte>)
    ensures Decode(Encode(n) + rest) == Ok(n, rest)
  {
    RoundTripFrom(n, rest, 0, 0);
  }

  /** A value cut short is an end of input, never an overlong value. */
  lemma {:induction false} CutShortFrom(n: nat, cut: nat, k: nat, acc: nat)
    requires k < 10 && acc < Weight(k) && n * Weight(k) <= MAX_U64 && cut < |Encode(n)|
    ensures DecodeFrom(Encode(n)[..cut], k, acc).Eof?
    decreases n
  {
    if cut > 0 {
      var s := Encode(n);
      GroupFits(s[0], k, acc);
      SplitGroup(n, k);
      assert s[..cut][1..] == Encode(n / 128)[..cut - 1];
      CutShortFrom(n / 128, cut - 1, k + 1, acc + Group(s[0], k));
    }
  }

  lemma CutShort(n: u64, cut: nat)
    requires cut < |Encode(n)|
    ensures Decode(Encode(n)[..cut]).Eof?
  {
    CutShortFrom(n, cut, 0, 0);
  }

  /** The rest is a proper suffix. */
  lemma {:induction false} DecodeConsumes(rd: seq<byte>, k: nat, acc: nat)
    requires k < 10 && acc < Weight(k) && DecodeFrom(rd, k, acc).Ok?
    ensures |DecodeFrom(rd, k, acc).rest| < |rd|
    ensures DecodeFrom(rd, k, acc).rest == rd[|rd| - |DecodeFrom(rd, k, acc).rest|..]
    decreases |rd|
  {
    GroupFits(rd[0], k, acc);
    if rd[0] >= 128 {
      DecodeConsumes(rd[1..], k + 1, acc + Group(rd[0], k));
    }
  }

  /** The slice walker's reader: at most ten bytes, any failure is `None`. */
  method SliceVarint(rd0: seq<byte>) returns (v: Option<u64>, rd: seq<byte>)
    ensures match Decode(rd0)
            case Ok(value, rest) => v == Some(value) && rd == rest
            case _ => v == None
  {
    rd := rd0;
    var result: nat := 0;
    var k: nat := 0;
    while k < 10
      invariant k <= 10
      invariant k < 10 ==> result < Weight(k) && Decode(rd0) == DecodeFrom(rd, k, result)
      invariant k < 10
      decreases 10 - k
    {
      if rd == [] {
        return None, rd;
      }
      var b := rd[0];
      rd := rd[1..];
      GroupFits(b, k, result);
      result := result + Group(b, k);
      if b < 128 {
        return Some(result), rd;
      }
      k := k + 1;
      if k * 7 >= 64 {
        return None, rd;
      }
    }
    v := None;
  }
}
