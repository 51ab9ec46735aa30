/** A u64 bitmap seen as its 64 bits, bit 0 first. */
module Bits {

  type Bits64 = s: seq<bool> | |s| == 64 witness seq(64, _ => false)

  const ZERO: Bits64 := seq(64, _ => false)
  const ALL_ONES: Bits64 := seq(64, _ => true)

  /** `popcount` of any run of bits. */
  function CountOnes(s: seq<bool>): nat {
    if s == [] then 0 else (if s[0] then 1 else 0) + CountOnes(s[1..])
  }

  function Shl(m: Bits64, d: nat): Bits64
    requires d < 64
  {
    seq(64, i requires 0 <= i < 64 => i >= d && m[i - d])
  }

  function Shr(m: Bits64, d: nat): Bits64
    requires d < 64
  {
    seq(64, i requires 0 <= i < 64 => i + d < 64 && m[i + d])
  }

  function Or(a: Bits64, b: Bits64): Bits64 {
    seq(64, i requires 0 <= i < 64 => a[i] || b[i])
  }

  /** `(1 << n) - 1`. */
  function LowOnes(n: nat): Bits64
    requires n < 64
  {
    seq(64, i requires 0 <= i < 64 => i < n)
  }

  lemma {:induction false} CountConcat(a: seq<bool>, b: seq<bool>)
    ensures CountOnes(a + b) == CountOnes(a) + CountOnes(b)
  {
    if a == [] {
      assert a + b == b;
    } else {
      CountConcat(a[1..], b);
      assert (a + b)[1..] == a[1..] + b;
    }
  }

  lemma {:induction false} CountNone(s: seq<bool>)
    requires forall i :: 0 <= i < |s| ==> !s[i]
    ensures CountOnes(s) == 0
  {
    if s != [] {
      CountNone(s[1..]);
    }
  }

  /** Shifting right by `k` keeps exactly the bits from `k` up. */
  lemma CountShr(m: Bits64, k: nat)
    requires k < 64
    ensures CountOnes(Shr(m, k)) == CountOnes(m[k..])
  {
    var zeros := seq(k, _ => false);
    assert Shr(m, k) == m[k..] + zeros;
    CountConcat(m[k..], zeros);
    CountNone(zeros);
  }
}

/**
  The reference model of loss accounting: sequence numbers are unwrapped to
  integers, and the reorder bitmap is the set of numbers already filled.
 */
module SeqWindow {
  import opened Prelude

  const REORDER: nat := 64
  const RESTART: nat := 4096
  const SEQ_MOD: nat := 0x1_0000

  /**
    `first` and `last`: lowest and highest extended number of the current epoch
    (an epoch starts at the first packet or at a restart). `filled`: the numbers
    that arrived in time. `closedLost`: loss booked by the epochs before this one.
   */
  datatype Window = Window(first: int, last: int, filled: set<int>, closedLost: nat, restarts: nat)

  ghost predicate WellFormed(w: Window) {
    && w.first <= w.last
    && w.first in w.filled
    && w.last in w.filled
    && (forall n :: n in w.filled ==> w.first <= n <= w.last)
  }

  function Start(seq16: u16): Window {
    Window(seq16, seq16, {seq16 as int}, 0, 0)
  }

  /** How many numbers in `[lo, hi)` were skipped and never filled. */
  function Gaps(filled: set<int>, lo: int, hi: int): nat
    decreases hi - lo
  {
    if lo >= hi then 0 else (if lo in filled then 0 else 1) + Gaps(filled, lo + 1, hi)
  }

  /** Skipped numbers that left the reorder window unfilled, over all epochs. */
  function Expired(w: Window): nat {
    w.closedLost + Gaps(w.filled, w.first, w.last - REORDER)
  }

  /** Skipped numbers still inside the reorder window. */
  function Pending(w: Window): nat {
    Gaps(w.filled, Max(w.first, w.last - REORDER), w.last)
  }

  function Lost(w: Window): nat {
    Expired(w) + Pending(w)
  }

  /** The extended number a 16-bit number stands for: the nearest to `last`. */
  function Unwrap(last: int, seq16: u16): (e: int)
    ensures e % SEQ_MOD == seq16
    ensures -0x8000 <= e - last < 0x8000
  {
    var diff := (seq16 - last) % SEQ_MOD;
    if diff < 0x8000 then last + diff else last + diff - SEQ_MOD
  }

  /** What one arrival does to the reference model. */
  function Observe(w: Window, seq16: u16): Window {
    var e := Unwrap(w.last, seq16);
    if e > w.last + RESTART then
      Window(e, e, {e}, Expired(w), w.restarts + 1)
    else if e > w.last then
      w.(last := e, filled := w.filled + {e})
    else if e >= w.first && e >= w.last - REORDER then
      w.(filled := w.filled + {e})
    else
      w
  }

  lemma {:induction false} GapsSplit(filled: set<int>, lo: int, mid: int, hi: int)
    requires lo <= mid <= hi
    ensures Gaps(filled, lo, hi) == Gaps(filled, lo, mid) + Gaps(filled, mid, hi)
    decreases mid - lo
  {
    if lo < mid {
      GapsSplit(filled, lo + 1, mid, hi);
    }
  }

  lemma {:induction false} GapsSame(f: set<int>, g: set<int>, lo: int, hi: int)
    requires forall n :: lo <= n < hi ==> (n in f <==> n in g)
    ensures Gaps(f, lo, hi) == Gaps(g, lo, hi)
    decreases hi - lo
  {
    if lo < hi {
      GapsSame(f, g, lo + 1, hi);
    }
  }

  lemma {:induction false} GapsAll(f: set<int>, lo: int, hi: int)
    requires lo <= hi
    requires forall n :: lo <= n < hi ==> n !in f
    ensures Gaps(f, lo, hi) == hi - lo
    decreases hi - lo
  {
    if lo < hi {
      GapsAll(f, lo + 1, hi);
    }
  }

  /** Numbers of an interval are either filled or gaps. */
  lemma {:induction false} GapsComplement(f: set<int>, lo: int, hi: int)
    requires lo <= hi
    requires forall n :: n in f ==> lo <= n < hi
    ensures Gaps(f, lo, hi) + |f| == hi - lo
    decreases hi - lo
  {
    if lo == hi {
      assert f == {} by {
        if n :| n in f {
          assert false;
        }
      }
    } else {
      var g := f - {lo};
      GapsComplement(g, lo + 1, hi);
      GapsSame(f, g, lo + 1, hi);
    }
  }

  lemma LostComplement(w: Window)
    requires WellFormed(w)
    ensures Lost(w) - w.closedLost + |w.filled| == w.last - w.first + 1
  {
    var m := Max(w.first, w.last - REORDER);
    GapsSplit(w.filled, w.first, m, w.last);
    GapsSplit(w.filled, w.first, w.last, w.last + 1);
    GapsComplement(w.filled, w.first, w.last + 1);
  }

  // ----- whole runs -----

  function Run(w: Window, seqs: seq<u16>): Window
    decreases |seqs|
  {
    if seqs == [] then w else Run(Observe(w, seqs[0]), seqs[1..])
  }

  /** An arrival past the restart threshold: a new epoch starts with it. */
  predicate Restarts(w: Window, seq16: u16) {
    Unwrap(w.last, seq16) > w.last + RESTART
  }

  /** An arrival that fills a number: new, and ahead or neither too late nor before the first. */
  predicate Useful(w: Window, seq16: u16) {
    var e := Unwrap(w.last, seq16);
    e !in w.filled && (e > w.last || (e >= w.first && e >= w.last - REORDER))
  }

  predicate AllUseful(w: Window, seqs: seq<u16>)
    decreases |seqs|
  {
    seqs == [] || (Useful(w, seqs[0]) && AllUseful(Observe(w, seqs[0]), seqs[1..]))
  }

  lemma {:induction false} RunCounts(w: Window, seqs: seq<u16>)
    requires WellFormed(w)
    ensures var v := Run(w, seqs);
      && WellFormed(v) && v.restarts >= w.restarts
      && (v.restarts == w.restarts ==>
            && v.first == w.first && v.closedLost == w.closedLost
            && |v.filled| <= |w.filled| + |seqs|
            && (|v.filled| == |w.filled| + |seqs| <==> AllUseful(w, seqs)))
    decreases |seqs|
  {
    if seqs != [] {
      var w' := Observe(w, seqs[0]);
      var e := Unwrap(w.last, seqs[0]);
      if w'.restarts == w.restarts {
        assert w'.filled == w.filled || w'.filled == w.filled + {e};
        assert e in w.filled ==> w'.filled == w.filled;
      }
      RunCounts(w', seqs[1..]);
    }
  }

  /**
    For every arrival sequence without a restart: the expected count
    (received + lost) is `highest - first + 1` if and only if every arrival was
    useful; otherwise it is too high by the number of useless arrivals.
   */
  lemma ExpectedExactIff(seq0: u16, seqs: seq<u16>)
    requires Run(Start(seq0), seqs).restarts == 0
    ensures var v := Run(Start(seq0), seqs);
      && 1 + |seqs| + Lost(v) >= v.last - v.first + 1
      && (1 + |seqs| + Lost(v) == v.last - v.first + 1 <==> AllUseful(Start(seq0), seqs))
  {
    RunCounts(Start(seq0), seqs);
    LostComplement(Run(Start(seq0), seqs));
  }

  // ----- runs with restarts -----

  /** Highest minus first plus one, over the epochs a run closes and the one it ends in. */
  function Spans(w: Window, seqs: seq<u16>): int
    decreases |seqs|
  {
    if seqs == [] then w.last - w.first + 1
    else (if Restarts(w, seqs[0]) then w.last - w.first + 1 else 0) + Spans(Observe(w, seqs[0]), seqs[1..])
  }

  /** Skipped numbers still pending when a restart drops them unbooked. */
  function DroppedPending(w: Window, seqs: seq<u16>): nat
    decreases |seqs|
  {
    if seqs == [] then 0
    else (if Restarts(w, seqs[0]) then Pending(w) else 0) + DroppedPending(Observe(w, seqs[0]), seqs[1..])
  }

  /** Arrivals that fill nothing: duplicates, too late, or below the first. */
  function Useless(w: Window, seqs: seq<u16>): nat
    decreases |seqs|
  {
    if seqs == [] then 0
    else (if Useful(w, seqs[0]) then 0 else 1) + Useless(Observe(w, seqs[0]), seqs[1..])
  }

  lemma {:induction false} EpochSum(w: Window, seqs: seq<u16>)
    requires WellFormed(w)
    ensures |w.filled| + |seqs| + Lost(Run(w, seqs)) - w.closedLost + DroppedPending(w, seqs)
         == Spans(w, seqs) + Useless(w, seqs)
    decreases |seqs|
  {
    hide Gaps;
    LostComplement(w);
    if seqs != [] {
      var next, e := Observe(w, seqs[0]), Unwrap(w.last, seqs[0]);
      if !Restarts(w, seqs[0]) {
        assert next.closedLost == w.closedLost;
        assert next.filled == if Useful(w, seqs[0]) then w.filled + {e} else w.filled;
      }
      EpochSum(next, seqs[1..]);
    }
  }

  /**
    For every arrival sequence: received plus lost is the sum of the epochs' spans,
    less what restarts dropped while pending, plus the useless arrivals. So it is the
    expected count if and only if those two balance.
   */
  lemma ExpectedOverEpochs(seq0: u16, seqs: seq<u16>)
    ensures var w := Start(seq0);
      && 1 + |seqs| + Lost(Run(w, seqs)) == Spans(w, seqs) - DroppedPending(w, seqs) + Useless(w, seqs)
      && (1 + |seqs| + Lost(Run(w, seqs)) == Spans(w, seqs) <==> DroppedPending(w, seqs) == Useless(w, seqs))
  {
    EpochSum(Start(seq0), seqs);
  }

  // ----- order independence -----

  function Wrap(x: nat): u16 {
    x % SEQ_MOD
  }

  function WrapAll(xs: seq<nat>): (r: seq<u16>)
    ensures |r| == |xs|
  {
    seq(|xs|, i requires 0 <= i < |xs| => Wrap(xs[i]))
  }

  function Numbers(xs: seq<nat>): set<int> {
    if xs == [] then {} else Numbers(xs[..|xs| - 1]) + {xs[|xs| - 1] as int}
  }

  function Highest(xs: seq<nat>): nat
    requires xs != []
  {
    if |xs| == 1 then xs[0] else Max(Highest(xs[..|xs| - 1]), xs[|xs| - 1])
  }

  /**
    A tame arrival order of sender numbers: no duplicates, the lowest first, no
    jump past the restart threshold, nothing later than the reorder window.
   */
  ghost predicate Tame(xs: seq<nat>) {
    && xs != [] && xs[0] < SEQ_MOD
    && (forall i, j :: 0 <= i < j < |xs| ==> xs[i] != xs[j])
    && (forall i :: 0 < i < |xs| ==> xs[0] < xs[i])
    && (forall i :: 0 < i < |xs| ==>
          Highest(xs[..i]) - REORDER <= xs[i] <= Highest(xs[..i]) + RESTART)
  }

  lemma TamePrefix(xs: seq<nat>)
    requires Tame(xs) && |xs| > 1
    ensures Tame(xs[..|xs| - 1])
  {
    var ys := xs[..|xs| - 1];
    forall i | 0 < i < |ys|
      ensures Highest(ys[..i]) - REORDER <= ys[i] <= Highest(ys[..i]) + RESTART
    {
      assert ys[..i] == xs[..i];
    }
  }

  lemma {:induction false} RunSnoc(w: Window, seqs: seq<u16>, s: u16)
    ensures Run(w, seqs + [s]) == Observe(Run(w, seqs), s)
    decreases |seqs|
  {
    if seqs == [] {
      assert [s][1..] == [];
    } else {
      assert (seqs + [s])[1..] == seqs[1..] + [s];
      RunSnoc(Observe(w, seqs[0]), seqs[1..], s);
    }
  }

  lemma UnwrapWrap(last: nat, x: nat)
    requires -0x8000 <= x - last < 0x8000
    ensures Unwrap(last, Wrap(x)) == x
  {
  }

  /** One more arrival of a tame order. */
  lemma TameStep(xs: seq<nat>, n: nat)
    requires Tame(xs) && n == |xs| - 1 > 0
    ensures Observe(Window(xs[0], Highest(xs[..n]), Numbers(xs[..n]), 0, 0), Wrap(xs[n]))
         == Window(xs[0], Highest(xs), Numbers(xs), 0, 0)
  {
    TamePrefix(xs);
    UnwrapWrap(Highest(xs[..n]), xs[n]);
  }

  lemma WrapAllSnoc(xs: seq<nat>, n: nat)
    requires n == |xs| - 1 > 0
    ensures WrapAll(xs[1..]) == WrapAll(xs[..n][1..]) + [Wrap(xs[n])] && xs[..n][0] == xs[0]
  {
  }

  /** The model recovers the sender's own numbers through 16-bit wrap-around. */
  lemma {:induction false} TameRun(xs: seq<nat>)
    requires Tame(xs)
    ensures var v := Run(Start(Wrap(xs[0])), WrapAll(xs[1..]));
      v == Window(xs[0], Highest(xs), Numbers(xs), 0, 0)
  {
    if |xs| > 1 {
      var n := |xs| - 1;
      var ys := xs[..n];
      TamePrefix(xs);
      TameStep(xs, n);
      WrapAllSnoc(xs, n);
      hide Observe, Highest, Numbers, Tame, Wrap, WrapAll, Run, Start;
      TameRun(ys);
      RunSnoc(Start(Wrap(xs[0])), WrapAll(ys[1..]), Wrap(xs[n]));
    }
  }

  lemma {:induction false} DistinctCount(xs: seq<nat>)
    requires forall i, j :: 0 <= i < j < |xs| ==> xs[i] != xs[j]
    ensures |Numbers(xs)| == |xs|
    ensures forall n :: n in Numbers(xs) ==> n >= 0 && n in xs
  {
    if xs != [] {
      DistinctCount(xs[..|xs| - 1]);
    }
  }

  /** Exact loss for a tame arrival order: the count of RFC 3550, appendix A.3. */
  lemma TameLossExact(xs: seq<nat>)
    requires Tame(xs)
    ensures var v := Run(Start(Wrap(xs[0])), WrapAll(xs[1..]));
      && |xs| + Lost(v) == Highest(xs) - xs[0] + 1
      && v.restarts == 0
  {
    TameRun(xs);
    DistinctCount(xs);
    RunCounts(Start(Wrap(xs[0])), WrapAll(xs[1..]));
    LostComplement(Run(Start(Wrap(xs[0])), WrapAll(xs[1..])));
  }

  lemma {:induction false} HighestIsMax(xs: seq<nat>)
    requires xs != []
    ensures Highest(xs) in xs && forall x :: x in xs ==> x <= Highest(xs)
  {
    if |xs| > 1 {
      HighestIsMax(xs[..|xs| - 1]);
      assert xs == xs[..|xs| - 1] + [xs[|xs| - 1]];
    }
  }

  /** Reordering the same packets, within the window, never changes the loss. */
  lemma OrderIndependent(xs: seq<nat>, ys: seq<nat>)
    requires Tame(xs) && Tame(ys) && multiset(xs) == multiset(ys)
    ensures Lost(Run(Start(Wrap(xs[0])), WrapAll(xs[1..])))
         == Lost(Run(Start(Wrap(ys[0])), WrapAll(ys[1..])))
  {
    TameLossExact(xs);
    TameLossExact(ys);
    HighestIsMax(xs);
    HighestIsMax(ys);
    assert |xs| == |multiset(xs)| == |multiset(ys)| == |ys|;
    forall x ensures x in xs <==> x in ys {
      assert x in xs <==> x in multiset(xs);
      assert x in ys <==> x in multiset(ys);
    }
    assert xs[0] in ys && ys[0] in xs;
  }
}

/** The stream's loss and jitter accumulator. */
module MediaStats {
  import opened Prelude
  import opened Bits
  import W = SeqWindow

  const RTP_REORDER_WINDOW: nat := 64
  const RTP_RESTART_WINDOW: nat := 4096
  const JITTER_DISCONT_MS: real := 1000.0

  datatype RtpStatsHeader = RtpStatsHeader(payloadType: byte, sequenceNumber: u16, rtpTimestamp: u32)

  datatype Stats = Stats(packetCount: nat, lostPackets: nat, expectedPackets: nat, restarts: nat,
                         jitterMs: Option<real>)

  /** Default clock of a payload type. */
  function DefaultClock(pt: byte): (r: u32)
    ensures r > 0
  {
    if 96 <= pt <= 127 then 48000 else 8000
  }

  function AbsReal(x: real): real {
    if x < 0.0 then -x else x
  }

  /** Signed distance between two wrapping 32-bit RTP timestamps. */
  function RtpTsDelta(cur: u32, prev: u32): (d: int)
  {
    var forward := (cur - prev) % 0x1_0000_0000;
    if forward <= 0x7fff_ffff then forward else -((prev - cur) % 0x1_0000_0000)
  }

  /** `RtpTsDelta` is the only 32-bit signed number congruent to the difference. */
  lemma RtpTsDeltaNearest(cur: u32, prev: u32, d: int)
    requires -0x8000_0000 <= d < 0x8000_0000
    ensures (prev + d) % 0x1_0000_0000 == cur <==> d == RtpTsDelta(cur, prev)
  {
    var diff := (cur - prev) % 0x1_0000_0000;
    assert (prev + d) % 0x1_0000_0000 == cur ==> d == diff || d == diff - 0x1_0000_0000;
  }

  /** `|D|` of RFC 3550, in clock units. */
  function TransitDelta(arrivalDelta: int, tsDelta: int, clock: nat): (d: real)
    ensures d >= 0.0
  {
    AbsReal(arrivalDelta as real * clock as real / 1_000_000.0 - tsDelta as real)
  }

  /** One update of the RFC 3550 estimator with its discontinuity guard. */
  function JitterStep(jitter: real, delta: real, clock: nat): real
    requires clock > 0
  {
    if delta * 1000.0 / clock as real <= JITTER_DISCONT_MS
    then jitter + (delta - jitter) / 16.0
    else jitter
  }

  datatype JitterState = JitterState(arrival: Option<u64>, rtpTs: Option<u32>, units: real, samples: nat)

  /** One packet of the estimator: the first only sets what to compare with, a discontinuity adds no sample. */
  function JitterAfter(j: JitterState, arrivalUs: u64, rtpTs: u32, clock: nat): JitterState
    requires clock > 0
  {
    if j.arrival.None? || j.rtpTs.None? then j.(arrival := Some(arrivalUs), rtpTs := Some(rtpTs))
    else
      var delta := TransitDelta(arrivalUs - j.arrival.value, RtpTsDelta(rtpTs, j.rtpTs.value), clock);
      JitterState(Some(arrivalUs), Some(rtpTs), JitterStep(j.units, delta, clock),
                  j.samples + if delta * 1000.0 / clock as real <= JITTER_DISCONT_MS then 1 else 0)
  }

  /** How far two packets' spacing at arrival is off their spacing in media time, in clock units. */
  function Spread(a: (u64, u32), b: (u64, u32), clock: nat): real {
    var arrived, sent := (b.0 - a.0) as real * clock as real / 1_000_000.0, RtpTsDelta(b.1, a.1) as real;
    if arrived >= sent then arrived - sent else sent - arrived
  }

  /**
    A packet whose spread is within one second of clock moves the estimator a
    sixteenth of the way to it and counts as a sample; any other leaves both alone.
   */
  ghost predicate Smooths(before: JitterState, after: JitterState, arrivalUs: u64, rtpTs: u32, clock: nat) {
    && after.arrival == Some(arrivalUs) && after.rtpTs == Some(rtpTs)
    && (before.arrival.Some? && before.rtpTs.Some? ==>
          var spread := Spread((before.arrival.value, before.rtpTs.value), (arrivalUs, rtpTs), clock);
          if spread <= clock as real
          then 16.0 * (after.units - before.units) == spread - before.units && after.samples == before.samples + 1
          else after.units == before.units && after.samples == before.samples)
    && (before.arrival.None? || before.rtpTs.None? ==> after.units == before.units && after.samples == before.samples)
  }

  lemma SpreadIsTransit(a: (u64, u32), b: (u64, u32), clock: nat)
    ensures Spread(a, b, clock) == TransitDelta(b.0 - a.0, RtpTsDelta(b.1, a.1), clock)
  {
    hide RtpTsDelta;
  }

  /** A second's worth of milliseconds is a clock's worth of units. */
  lemma GuardIsOneSecond(spread: real, clock: real)
    requires clock > 0.0
    ensures spread * 1000.0 / clock <= JITTER_DISCONT_MS <==> spread <= clock
  {
    var ms := spread * 1000.0 / clock;
    assert ms * clock == spread * 1000.0;
    if ms <= 1000.0 {
      ScaledAtMost(ms, 1000.0, clock);
    } else {
      ScaledAtMost(1000.0, ms, clock);
      assert ms * clock != 1000.0 * clock by {
        if ms * clock == 1000.0 * clock {
          CancelReal(ms, 1000.0, clock);
        }
      }
    }
  }

  lemma ScaledAtMost(x: real, y: real, c: real)
    requires x <= y && c > 0.0
    ensures x * c <= y * c
  {
  }

  lemma JitterSmooths(j: JitterState, arrivalUs: u64, rtpTs: u32, clock: nat)
    requires clock > 0
    ensures Smooths(j, JitterAfter(j, arrivalUs, rtpTs, clock), arrivalUs, rtpTs, clock)
  {
    if j.arrival.Some? && j.rtpTs.Some? {
      var before := (j.arrival.value, j.rtpTs.value);
      SpreadIsTransit(before, (arrivalUs, rtpTs), clock);
      hide RtpTsDelta, Spread, TransitDelta;
      GuardIsOneSecond(Spread(before, (arrivalUs, rtpTs), clock), clock as real);
    }
  }

  function JitterRun(j: JitterState, packets: seq<(u64, u32)>, clock: nat): JitterState
    requires clock > 0
    decreases |packets|
  {
    if packets == [] then j
    else JitterRun(JitterAfter(j, packets[0].0, packets[0].1, clock), packets[1..], clock)
  }

  function Pow(x: real, n: nat): real {
    if n == 0 then 1.0 else x * Pow(x, n - 1)
  }

  /** Packets all spread by `d` from one to the next, after `last`. */
  ghost predicate Steady(last: (u64, u32), packets: seq<(u64, u32)>, clock: nat, d: real)
    decreases |packets|
  {
    packets == [] || (Spread(last, packets[0], clock) == d && Steady(packets[0], packets[1..], clock, d))
  }

  /** The estimator closes in on a steady spread by a sixteenth of what is missing with every sample. */
  lemma {:induction false} SteadyCloses(j: JitterState, packets: seq<(u64, u32)>, clock: nat, d: real)
    requires clock > 0 && j.arrival.Some? && j.rtpTs.Some? && d <= clock as real
    requires Steady((j.arrival.value, j.rtpTs.value), packets, clock, d)
    ensures var v := JitterRun(j, packets, clock);
      && v.units == d - (d - j.units) * Pow(15.0 / 16.0, |packets|) && v.samples == j.samples + |packets|
    decreases |packets|
  {
    hide Spread, JitterAfter;
    if packets != [] {
      var next := JitterAfter(j, packets[0].0, packets[0].1, clock);
      JitterSmooths(j, packets[0].0, packets[0].1, clock);
      assert (next.arrival.value, next.rtpTs.value) == packets[0];
      SteadyCloses(next, packets[1..], clock, d);
      var rest := Pow(15.0 / 16.0, |packets| - 1);
      assert d - next.units == (d - j.units) * (15.0 / 16.0);
      assert (d - next.units) * rest == (d - j.units) * (15.0 / 16.0 * rest);
    }
  }

  /** So from nothing, `n` samples of a steady spread give all of it but a share of (15/16)^n. */
  lemma SteadyJitter(first: (u64, u32), packets: seq<(u64, u32)>, clock: nat, d: real)
    requires clock > 0 && d <= clock as real && Steady(first, packets, clock, d)
    ensures var v := JitterRun(JitterState(None, None, 0.0, 0), [first] + packets, clock);
      v.units == d * (1.0 - Pow(15.0 / 16.0, |packets|)) && v.samples == |packets|
  {
    hide Spread;
    assert ([first] + packets)[1..] == packets;
    SteadyCloses(JitterState(Some(first.0), Some(first.1), 0.0, 0), packets, clock, d);
  }

  lemma JitterStepBounded(jitter: real, delta: real, clock: nat)
    requires clock > 0 && delta >= 0.0 && 0.0 <= jitter <= clock as real
    ensures 0.0 <= JitterStep(jitter, delta, clock) <= clock as real
  {
    var c := clock as real;
    if delta * 1000.0 / c <= JITTER_DISCONT_MS {
      assert delta * 1000.0 == (delta * 1000.0 / c) * c;
      assert delta <= c;
    }
  }

  /** An estimator value in milliseconds. */
  function Millis(jitter: real, clock: nat): real
    requires clock > 0
  {
    jitter * 1000.0 / clock as real
  }

  /** The same estimator under another clock. */
  function Rescaled(jitter: real, prior: nat, rate: nat): real
    requires prior > 0
  {
    jitter * (rate as real / prior as real)
  }

  lemma RescaleKeepsMillis(jitter: real, prior: nat, rate: nat)
    requires prior > 0 && rate > 0 && 0.0 <= jitter <= prior as real
    ensures 0.0 <= Rescaled(jitter, prior, rate) <= rate as real
    ensures Millis(Rescaled(jitter, prior, rate), rate) == Millis(jitter, prior)
  {
    var p, r, q := prior as real, rate as real, rate as real / prior as real;
    var scaled := Rescaled(jitter, prior, rate);
    assert q * p == r && q > 0.0;
    assert scaled == jitter * q <= p * q;
    var a, b := Millis(jitter, prior), Millis(scaled, rate);
    assert a * p == jitter * 1000.0;
    assert b * r == (jitter * q) * 1000.0;
    assert a * r == b * r by {
      Reorder(a, p, q);
      Reorder(jitter, 1000.0, q);
    }
    CancelReal(a, b, r);
  }

  lemma Reorder(x: real, y: real, z: real)
    ensures x * (z * y) == (x * y) * z == (x * z) * y
  {
  }

  lemma CancelReal(x: real, y: real, r: real)
    requires r > 0.0 && x * r == y * r
    ensures x == y
  {
    assert x == (x * r) / r == y;
  }

  lemma MillisBounded(jitter: real, clock: nat)
    requires clock > 0 && 0.0 <= jitter <= clock as real
    ensures 0.0 <= Millis(jitter, clock) <= 1000.0
  {
    assert Millis(jitter, clock) * clock as real == jitter * 1000.0;
  }

  /** Number `n` of the window was skipped and is still unfilled. */
  ghost predicate Missing(w: W.Window, n: int) {
    n >= w.first && n !in w.filled
  }

  /** Bit `i` is set exactly when `last - 1 - i` is missing. */
  ghost predicate Refines(mask: Bits64, w: W.Window) {
    forall i :: 0 <= i < 64 ==> (mask[i] <==> Missing(w, w.last - 1 - i))
  }

  /** The bits `lo..hi` count the gaps between ages `hi` and `lo`. */
  lemma {:induction false} OnesAreGaps(mask: Bits64, w: W.Window, lo: nat, hi: nat)
    requires Refines(mask, w) && lo <= hi <= 64
    ensures CountOnes(mask[lo..hi])
         == W.Gaps(w.filled, Max(w.first, w.last - hi), Max(w.first, w.last - lo))
    decreases hi - lo
  {
    if lo < hi {
      OnesAreGaps(mask, w, lo, hi - 1);
      assert mask[lo..hi] == mask[lo..hi - 1] + [mask[hi - 1]];
      CountConcat(mask[lo..hi - 1], [mask[hi - 1]]);
      assert CountOnes([mask[hi - 1]]) == if mask[hi - 1] then 1 else 0;
    }
  }

  lemma PendingIsPopcount(mask: Bits64, w: W.Window)
    requires Refines(mask, w) && W.WellFormed(w)
    ensures CountOnes(mask) == W.Pending(w)
  {
    OnesAreGaps(mask, w, 0, 64);
    assert mask[0..64] == mask;
  }

  /** The window after its highest number moved forward by `d`. */
  ghost function Advanced(w: W.Window, d: nat): W.Window {
    w.(last := w.last + d, filled := w.filled + {w.last + d})
  }

  /** The top `k` bits are exactly what expires when the window moves by `k`. */
  lemma TopBitsExpire(mask: Bits64, w: W.Window, k: nat)
    requires Refines(mask, w) && W.WellFormed(w) && k <= 64
    ensures W.Gaps(w.filled, w.first, w.last - 64 + k)
         == W.Gaps(w.filled, w.first, w.last - 64) + CountOnes(mask[64 - k..])
  {
    OnesAreGaps(mask, w, 64 - k, 64);
    assert mask[64 - k..64] == mask[64 - k..];
    if w.first < w.last - 64 {
      W.GapsSplit(w.filled, w.first, w.last - 64, w.last - 64 + k);
    }
  }

  /** What a jump inside the window expires. */
  lemma ShortJumpExpires(mask: Bits64, w: W.Window, d: nat)
    requires Refines(mask, w) && W.WellFormed(w) && 0 < d < 64
    ensures W.Expired(Advanced(w, d)) == W.Expired(w) + CountOnes(Shr(mask, 64 - d))
  {
    CountShr(mask, 64 - d);
    TopBitsExpire(mask, w, d);
    W.GapsSame(w.filled, Advanced(w, d).filled, w.first, w.last + d - 64);
  }

  /** What a jump past the window expires, and the part it books at once. */
  lemma LongJumpExpires(mask: Bits64, w: W.Window, d: nat)
    requires Refines(mask, w) && W.WellFormed(w) && 64 <= d <= RTP_RESTART_WINDOW
    ensures W.Expired(Advanced(w, d)) == W.Expired(w) + CountOnes(mask) + SatSub(d, 65)
  {
    var hi := w.last + d - 64;
    assert mask[0..] == mask;
    TopBitsExpire(mask, w, 64);
    W.GapsSame(w.filled, Advanced(w, d).filled, w.first, hi);
    W.GapsSplit(w.filled, w.first, w.last, hi);
    if d > 64 {
      W.GapsAll(w.filled, w.last + 1, hi);
    }
  }

  /** The shifted and refilled bitmap is the bitmap of the advanced window. */
  lemma JumpRefines(mask: Bits64, w: W.Window, d: nat, mask': Bits64)
    requires Refines(mask, w) && W.WellFormed(w) && 0 < d <= RTP_RESTART_WINDOW
    requires d > 64 ==> mask' == ALL_ONES
    requires d == 64 ==> mask' == Or(ZERO, LowOnes(63))
    requires d < 64 ==> mask' == Or(Shl(mask, d), LowOnes(d - 1))
    ensures Refines(mask', Advanced(w, d))
  {
    var v := Advanced(w, d);
    forall i | 0 <= i < 64
      ensures mask'[i] <==> Missing(v, v.last - 1 - i)
    {
      if i >= d {
        assert mask'[i] == mask[i - d];
        assert v.last - 1 - i == w.last - 1 - (i - d);
        assert Missing(v, v.last - 1 - i) <==> Missing(w, w.last - 1 - (i - d));
      }
    }
  }

  /** Filling a number still inside the window clears its bit and unbooks nothing. */
  lemma LateFill(mask: Bits64, w: W.Window, age: nat)
    requires Refines(mask, w) && W.WellFormed(w) && 0 < age <= 64
    ensures var v := if w.last - age >= w.first then w.(filled := w.filled + {w.last - age}) else w;
      Refines(mask[age - 1 := false], v) && W.Expired(v) == W.Expired(w)
  {
    if w.last - age >= w.first {
      var g := w.filled + {w.last - age};
      W.GapsSame(w.filled, g, w.first, w.last - 64);
      assert forall n :: Missing(w.(filled := g), n) <==> Missing(w, n) && n != w.last - age;
    }
  }

  /** The reference model's step, by the code's own case split on `diff`. */
  lemma ObserveCases(w: W.Window, seq16: u16, last: u16)
    requires W.WellFormed(w) && last == w.last % W.SEQ_MOD
    ensures var diff := (seq16 - last) % 0x1_0000;
      && (diff == 0 ==> W.Observe(w, seq16) == w)
      && (diff < 0x8000 ==> (w.last + diff) % W.SEQ_MOD == seq16)
      && (0 < diff <= RTP_RESTART_WINDOW ==> W.Observe(w, seq16) == Advanced(w, diff))
      && (RTP_RESTART_WINDOW < diff < 0x8000 ==>
            W.Observe(w, seq16)
              == W.Window(w.last + diff, w.last + diff, {w.last + diff}, W.Expired(w), w.restarts + 1))
      && (diff >= 0x8000 ==>
            var age := (last - seq16) % 0x1_0000;
            && age == 0x1_0000 - diff
            && W.Observe(w, seq16) == if age <= 64 && w.last - age >= w.first
                                      then w.(filled := w.filled + {w.last - age}) else w)
  {
    var diff := (seq16 - last) % 0x1_0000;
    assert diff == (seq16 - w.last) % 0x1_0000;
    if diff == 0 {
      assert w.filled + {w.last} == w.filled;
    }
  }

  class MediaStatsAccumulator {
    var packetCount: nat
    var lostPackets: nat
    var restarts: nat
    var payloadType: Option<byte>
    var clockRate: Option<u32>
    var firstSequence: Option<u16>
    var lastSequence: Option<u16>
    var pendingMask: Bits64
    var prevArrivalMicros: Option<u64>
    var prevRtpTimestamp: Option<u32>
    var jitterRtpUnits: real
    var jitterSamples: nat
    /** The reference model of everything observed so far. */
    ghost var window: Option<W.Window>

    ghost predicate SequenceValid()
      reads this
    {
      match window
      case None => firstSequence.None? && lastSequence.None? && pendingMask == ZERO
                   && lostPackets == 0 && restarts == 0
      case Some(w) =>
        && firstSequence.Some?
        && W.WellFormed(w)
        && lastSequence == Some(w.last % W.SEQ_MOD)
        && Refines(pendingMask, w)
        && lostPackets == W.Expired(w)
        && restarts == w.restarts
    }

    ghost predicate JitterValid()
      reads this
    {
      match clockRate
      case None => jitterRtpUnits == 0.0 && jitterSamples == 0
      case Some(r) => r > 0 && 0.0 <= jitterRtpUnits <= r as real
    }

    ghost predicate Valid()
      reads this
    {
      SequenceValid() && JitterValid()
    }

    constructor ()
      ensures Valid() && window == None && packetCount == 0 && clockRate == None
    {
      packetCount, lostPackets, restarts := 0, 0, 0;
      payloadType, clockRate := None, None;
      firstSequence, lastSequence := None, None;
      pendingMask := ZERO;
      prevArrivalMicros, prevRtpTimestamp := None, None;
      jitterRtpUnits, jitterSamples := 0.0, 0;
      window := None;
    }

    /** The estimator and what it compares the next packet with. */
    ghost function Jitter(): JitterState
      reads this
    {
      JitterState(prevArrivalMicros, prevRtpTimestamp, jitterRtpUnits, jitterSamples)
    }

    function JitterMs(): Option<real>
      reads this
    {
      if clockRate.Some? && jitterSamples > 0 && clockRate.value > 0
      then Some(Millis(jitterRtpUnits, clockRate.value))
      else None
    }

    /** Changing the clock rescales the estimator and leaves `jitter_ms` alone. */
    method SetClockRate(rate: u32)
      requires Valid()
      modifies this`clockRate, this`jitterRtpUnits
      ensures Valid()
      ensures clockRate == if rate == 0 then old(clockRate) else Some(rate)
      ensures JitterMs() == old(JitterMs())
    {
      if rate == 0 {
        return;
      }
      if clockRate.Some? && clockRate.value != 0 && clockRate.value != rate {
        RescaleKeepsMillis(jitterRtpUnits, clockRate.value, rate);
        jitterRtpUnits := Rescaled(jitterRtpUnits, clockRate.value, rate);
      }
      clockRate := Some(rate);
    }

    method Observe(arrivalMicros: u64, header: Option<RtpStatsHeader>)
      requires Valid()
      modifies this
      ensures Valid()
      ensures packetCount == old(packetCount) + 1
      ensures header.None? ==> window == old(window) && JitterMs() == old(JitterMs())
      ensures header.Some? ==>
        window == Some(if old(window).None? then W.Start(header.value.sequenceNumber)
                       else W.Observe(old(window).value, header.value.sequenceNumber))
      ensures header.None? ==> clockRate == old(clockRate) && Jitter() == old(Jitter())
      ensures header.Some? ==>
        && payloadType == Some(old(payloadType).GetOr(header.value.payloadType))
        && clockRate == Some(old(clockRate).GetOr(if 96 <= header.value.payloadType <= 127 then 48000 else 8000))
        && Jitter() == JitterAfter(old(Jitter()), arrivalMicros, header.value.rtpTimestamp, clockRate.value)
        && Smooths(old(Jitter()), Jitter(), arrivalMicros, header.value.rtpTimestamp, clockRate.value)
    {
      hide Smooths;
      packetCount := packetCount + 1;
      if header.None? {
        return;
      }
      var h := header.value;
      if payloadType.None? {
        payloadType := Some(h.payloadType);
      }
      if clockRate.None? {
        clockRate := Some(DefaultClock(h.payloadType));
      }
      ObserveSequence(h.sequenceNumber);
      ObserveJitter(arrivalMicros, h.rtpTimestamp, clockRate.value);
    }

    /** The bitmap window refines the reference model at every arrival. */
    method ObserveSequence(seq16: u16)
      requires SequenceValid()
      modifies this`firstSequence, this`lastSequence, this`restarts, this`pendingMask, this`lostPackets, this`window
      ensures SequenceValid()
      ensures window == Some(if old(window).None? then W.Start(seq16)
                             else W.Observe(old(window).value, seq16))
    {
      if firstSequence.None? {
        firstSequence := Some(seq16);
        lastSequence := Some(seq16);
        window := Some(W.Start(seq16));
        return;
      }
      var last := lastSequence.value;
      ghost var w := window.value;
      var diff := (seq16 - last) % 0x1_0000;
      ObserveCases(w, seq16, last);
      window := Some(W.Observe(w, seq16));
      if diff == 0 {
        return;
      }
      if diff < 0x8000 {
        if diff > RTP_RESTART_WINDOW {
          pendingMask := ZERO;
          assert Refines(pendingMask, window.value);
          restarts := restarts + 1;
          lastSequence := Some(seq16);
          return;
        }
        Advance(w, diff);
        lastSequence := Some(seq16);
      } else {
        var age := (last - seq16) % 0x1_0000;
        if 0 < age <= RTP_REORDER_WINDOW {
          LateFill(pendingMask, w, age);
          pendingMask := pendingMask[age - 1 := false];
        }
      }
    }

    /** The bitmap moves up by `diff`: what leaves it unfilled is lost, what was skipped is pending. */
    method Advance(ghost w: W.Window, diff: nat)
      requires W.WellFormed(w) && Refines(pendingMask, w) && lostPackets == W.Expired(w)
      requires 0 < diff <= RTP_RESTART_WINDOW
      modifies this`pendingMask, this`lostPackets
      ensures Refines(pendingMask, Advanced(w, diff)) && lostPackets == W.Expired(Advanced(w, diff))
    {
      ghost var before := pendingMask;
      if diff >= 64 {
        LongJumpExpires(pendingMask, w, diff);
        lostPackets := lostPackets + CountOnes(pendingMask);
        pendingMask := ZERO;
      } else {
        ShortJumpExpires(pendingMask, w, diff);
        lostPackets := lostPackets + CountOnes(Shr(pendingMask, 64 - diff));
        pendingMask := Shl(pendingMask, diff);
      }
      var missing := diff - 1;
      var buffered := Min(missing, RTP_REORDER_WINDOW);
      lostPackets := lostPackets + (missing - buffered);
      if buffered >= 64 {
        pendingMask := ALL_ONES;
      } else {
        pendingMask := Or(pendingMask, LowOnes(buffered));
      }
      JumpRefines(before, w, diff, pendingMask);
    }

    /** Reported jitter stays within one second whatever arrives. */
    method ObserveJitter(arrivalUs: u64, rtpTs: u32, clock: u32)
      requires JitterValid() && clockRate == Some(clock)
      modifies this`prevArrivalMicros, this`prevRtpTimestamp, this`jitterRtpUnits, this`jitterSamples
      ensures JitterValid() && Jitter() == JitterAfter(old(Jitter()), arrivalUs, rtpTs, clock)
      ensures Smooths(old(Jitter()), Jitter(), arrivalUs, rtpTs, clock)
    {
      JitterSmooths(Jitter(), arrivalUs, rtpTs, clock);
      hide Smooths;
      if prevArrivalMicros.Some? && prevRtpTimestamp.Some? {
        var arrivalUnits := (arrivalUs - prevArrivalMicros.value) as real * clock as real / 1_000_000.0;
        var delta := AbsReal(arrivalUnits - RtpTsDelta(rtpTs, prevRtpTimestamp.value) as real);
        assert delta == TransitDelta(arrivalUs - prevArrivalMicros.value, RtpTsDelta(rtpTs, prevRtpTimestamp.value), clock);
        hide TransitDelta, RtpTsDelta, AbsReal;
        JitterStepBounded(jitterRtpUnits, delta, clock);
        var deltaMs := delta * 1000.0 / clock as real;
        if deltaMs <= JITTER_DISCONT_MS {
          jitterRtpUnits := jitterRtpUnits + (delta - jitterRtpUnits) / 16.0;
          jitterSamples := jitterSamples + 1;
        }
      }
      prevArrivalMicros := Some(arrivalUs);
      prevRtpTimestamp := Some(rtpTs);
    }

    method Snapshot() returns (s: Stats)
      requires Valid()
      ensures s.packetCount == packetCount
      ensures s.lostPackets == if window.None? then 0 else W.Lost(window.value)
      ensures s.expectedPackets == packetCount + s.lostPackets
      ensures s.restarts == if window.None? then 0 else window.value.restarts
      ensures s.jitterMs == JitterMs()
      ensures s.jitterMs.Some? ==> 0.0 <= s.jitterMs.value <= 1000.0
    {
      if window.None? {
        CountNone(pendingMask);
      } else {
        PendingIsPopcount(pendingMask, window.value);
      }
      var lost := lostPackets + CountOnes(pendingMask);
      var jitter := JitterMs();
      if jitter.Some? {
        MillisBounded(jitterRtpUnits, clockRate.value);
      }
      s := Stats(packetCount, lost, packetCount + lost, restarts, jitter);
    }
  }
}
