/** The log file: framed records behind a header, one writer, one reader. */
module EvlogFile {
  import opened Prelude
  import opened Events
  import opened Codec
  import opened Payload
  import opened PayloadWriter
  import Varint

  const MAGIC: seq<byte> := [83, 77, 79, 78]
  const VERSION: u16 := 2

  type Octets = s: seq<byte> | |s| == 4 witness [0, 0, 0, 0]

  /** Magic, version, flags and the writer's UTC offset. */
  function Header(tz: Octets): (h: seq<byte>)
    ensures |h| == 12
  {
    MAGIC + Be16(VERSION) + Be16(0) + tz
  }

  // ----- bytes of a log -----

  /** What one record frames. */
  datatype Item = Item(delta: u64, ty: byte, payload: seq<byte>)

  function Frame(item: Item): seq<byte> {
    Varint.Encode(item.delta) + [item.ty] + Varint.Encode(|item.payload|) + item.payload
  }

  function Bytes(items: seq<Item>): seq<byte> {
    if items == [] then [] else Frame(items[0]) + Bytes(items[1..])
  }

  /** The record of an event written after one at time `last`. */
  function ItemOf(ev: Event, last: u64): Item {
    Item(SatSub(ev.TsUs(), last), ev.TypeCode(), EncAll(Values(ev)))
  }

  function Items(events: seq<Event>, last: u64): (items: seq<Item>)
    ensures |items| == |events|
  {
    if events == [] then [] else [ItemOf(events[0], last)] + Items(events[1..], events[0].TsUs())
  }

  function LogBytes(events: seq<Event>): seq<byte> {
    Bytes(Items(events, 0))
  }

  // ----- reading -----

  datatype Raw = Raw(ty: byte, ts: u64, payload: seq<byte>, rest: seq<byte>) | End | Corrupt

  /** The next framed record; a truncated one is the end, an overlong field an error. */
  function ParseRecord(rd: seq<byte>, clock: u64): Raw {
    match Varint.Decode(rd)
    case Eof => End
    case TooLong => Corrupt
    case Ok(delta, rd1) =>
      if rd1 == [] then End
      else
        match Varint.Decode(rd1[1..])
        case Eof => End
        case TooLong => Corrupt
        case Ok(len, rd2) =>
          if len > MAX_RECORD_LEN then Corrupt
          else if |rd2| < len then End
          else Raw(rd1[0], SatAdd(clock, delta), rd2[..len], rd2[len..])
  }

  lemma ParseConsumes(rd: seq<byte>, clock: u64)
    ensures ParseRecord(rd, clock).Raw? ==> |ParseRecord(rd, clock).rest| < |rd|
  {
    if Varint.Decode(rd).Ok? {
      Varint.DecodeConsumes(rd, 0, 0);
      var rd1 := Varint.Decode(rd).rest;
      if rd1 != [] && Varint.Decode(rd1[1..]).Ok? {
        Varint.DecodeConsumes(rd1[1..], 0, 0);
      }
    }
  }

  datatype RawRecord = RawRecord(ty: byte, ts: u64, payload: seq<byte>)

  /** All framed records; the flag says whether the end was clean. */
  function ReadRecords(rd: seq<byte>, clock: u64): (seq<RawRecord>, bool)
    decreases |rd|
  {
    ParseConsumes(rd, clock);
    match ParseRecord(rd, clock)
    case End => ([], true)
    case Corrupt => ([], false)
    case Raw(ty, ts, payload, rest) =>
      var (more, clean) := ReadRecords(rest, ts);
      ([RawRecord(ty, ts, payload)] + more, clean)
  }

  /** The records that decode, up to one that stops the process. */
  function DecodeRecords(records: seq<RawRecord>): seq<Event> {
    if records == [] then []
    else
      var r := records[0];
      match Decode(r.ty, r.ts, r.payload)
      case Decoded(ev) => [ev] + DecodeRecords(records[1..])
      case Malformed => DecodeRecords(records[1..])
      case Fatal => []
  }

  /** Whether some record stops the process that decodes them all. */
  predicate AnyFatal(records: seq<RawRecord>) {
    records != [] && (Aborts(records[0].ty, records[0].payload) || AnyFatal(records[1..]))
  }

  // ----- framing round trip -----

  /** The records of a log as the reader delivers them: deltas added up. */
  function Delivered(items: seq<Item>, clock: u64): (r: seq<RawRecord>)
    ensures |r| == |items|
  {
    if items == [] then []
    else
      var now := SatAdd(clock, items[0].delta);
      [RawRecord(items[0].ty, now, items[0].payload)] + Delivered(items[1..], now)
  }

  predicate AllFit(items: seq<Item>) {
    forall i :: 0 <= i < |items| ==> |items[i].payload| <= MAX_RECORD_LEN
  }

  lemma FrameParts(item: Item, rest: seq<byte>)
    ensures Frame(item) + rest
         == Varint.Encode(item.delta) + ([item.ty] + (Varint.Encode(|item.payload|) + (item.payload + rest)))
  {
  }

  /** A framed record parses back; one over the cap does not. */
  lemma FrameRoundTrip(item: Item, rest: seq<byte>, clock: u64)
    requires |item.payload| <= MAX_U64
    ensures ParseRecord(Frame(item) + rest, clock)
         == if |item.payload| <= MAX_RECORD_LEN
            then Raw(item.ty, SatAdd(clock, item.delta), item.payload, rest) else Corrupt
  {
    var tail2 := item.payload + rest;
    var tail1 := [item.ty] + (Varint.Encode(|item.payload|) + tail2);
    FrameParts(item, rest);
    Varint.RoundTrip(item.delta, tail1);
    Varint.RoundTrip(|item.payload|, tail2);
    assert tail1[1..] == Varint.Encode(|item.payload|) + tail2;
    assert tail2[..|item.payload|] == item.payload && tail2[|item.payload|..] == rest;
  }

  lemma ReadEnd(rd: seq<byte>, clock: u64)
    requires ParseRecord(rd, clock) == End
    ensures ReadRecords(rd, clock) == ([], true)
  {
  }

  lemma ReadNext(rd: seq<byte>, clock: u64, r: RawRecord, rest: seq<byte>)
    requires ParseRecord(rd, clock) == Raw(r.ty, r.ts, r.payload, rest)
    ensures ReadRecords(rd, clock) == ([r] + ReadRecords(rest, r.ts).0, ReadRecords(rest, r.ts).1)
  {
    ParseConsumes(rd, clock);
  }

  /**
    A written log reads to a clean end if and only if no payload is over the
    record cap, and then gives every record in order.
   */
  lemma {:induction false} ReadsBack(items: seq<Item>, clock: u64)
    requires forall i :: 0 <= i < |items| ==> |items[i].payload| <= MAX_U64
    ensures ReadRecords(Bytes(items), clock).1 <==> AllFit(items)
    ensures AllFit(items) ==> ReadRecords(Bytes(items), clock).0 == Delivered(items, clock)
  {
    if items != [] {
      var now := SatAdd(clock, items[0].delta);
      FrameRoundTrip(items[0], Bytes(items[1..]), clock);
      if |items[0].payload| <= MAX_RECORD_LEN {
        ReadNext(Bytes(items), clock, RawRecord(items[0].ty, now, items[0].payload), Bytes(items[1..]));
        ReadsBack(items[1..], now);
      }
    }
  }

  // ----- crash truncation -----

  /** How many records lie wholly before a cut. */
  function WholeBefore(items: seq<Item>, cut: nat): (n: nat)
    ensures n <= |items|
  {
    if items == [] || cut < |Frame(items[0])| then 0
    else 1 + WholeBefore(items[1..], cut - |Frame(items[0])|)
  }

  /** A record cut short reads as the end of the file. */
  lemma CutRecordEnds(item: Item, cut: nat, clock: u64)
    requires |item.payload| <= MAX_RECORD_LEN && cut < |Frame(item)|
    ensures ParseRecord(Frame(item)[..cut], clock) == End
  {
    var d, l := Varint.Encode(item.delta), Varint.Encode(|item.payload|);
    var rd := Frame(item)[..cut];
    if cut < |d| {
      assert rd == d[..cut];
      Varint.CutShort(item.delta, cut);
    } else {
      var rd1 := rd[|d|..];
      assert rd == d + rd1;
      Varint.RoundTrip(item.delta, rd1);
      if rd1 != [] {
        CutInBody(item, rd1[1..], cut - |d| - 1);
      }
    }
  }

  /** The length and payload cut short: no length, or too few bytes for it. */
  lemma CutInBody(item: Item, rd: seq<byte>, cut: nat)
    requires |item.payload| <= MAX_RECORD_LEN
    requires var body := Varint.Encode(|item.payload|) + item.payload;
      cut < |body| && rd == body[..cut]
    ensures Varint.Decode(rd).Eof? ||
            (Varint.Decode(rd).Ok? && Varint.Decode(rd).value == |item.payload| > |Varint.Decode(rd).rest|)
  {
    var l := Varint.Encode(|item.payload|);
    if cut < |l| {
      assert rd == l[..cut];
      Varint.CutShort(|item.payload|, cut);
    } else {
      assert rd == l + rd[|l|..];
      Varint.RoundTrip(|item.payload|, rd[|l|..]);
    }
  }

  /**
    A log cut at any byte gives exactly the records wholly before the cut, then
    a clean end: never an error, never a partial record.
   */
  lemma {:induction false} TruncationSafe(items: seq<Item>, clock: u64, cut: nat)
    requires AllFit(items) && cut <= |Bytes(items)|
    ensures ReadRecords(Bytes(items)[..cut], clock)
         == (Delivered(items[..WholeBefore(items, cut)], clock), true)
  {
    if items != [] {
      var item, tail := items[0], Bytes(items[1..]);
      var size, part := |Frame(items[0])|, Bytes(items)[..cut];
      hide Frame, ParseRecord, ReadRecords;
      if cut < size {
        assert part == Frame(item)[..cut];
        CutRecordEnds(item, cut, clock);
        ReadEnd(part, clock);
      } else {
        assert part == Frame(item) + tail[..cut - size];
        FrameRoundTrip(item, tail[..cut - size], clock);
        var now := SatAdd(clock, item.delta);
        ReadNext(part, clock, RawRecord(item.ty, now, item.payload), tail[..cut - size]);
        TruncationSafe(items[1..], now, cut - size);
        assert items[..WholeBefore(items, cut)][1..] == items[1..][..WholeBefore(items[1..], cut - size)];
      }
    }
  }

  // ----- events -----

  /** The reader's clock after an event at `ts` that followed one at `last`. */
  function Tick(clock: u64, ts: u64, last: u64): u64 {
    SatAdd(clock, SatSub(ts, last))
  }

  /** The events of a log, stamped with the reader's clock. */
  function Replayed(events: seq<Event>, last: u64, clock: u64): (r: seq<Event>)
    ensures |r| == |events|
  {
    if events == [] then []
    else
      var now := Tick(clock, events[0].TsUs(), last);
      [events[0].At(now)] + Replayed(events[1..], events[0].TsUs(), now)
  }

  lemma {:induction false} DecodesReplayed(events: seq<Event>, last: u64, clock: u64)
    requires AllFit(Items(events, last))
    ensures DecodeRecords(Delivered(Items(events, last), clock)) == Replayed(events, last, clock)
    ensures !AnyFatal(Delivered(Items(events, last), clock))
  {
    hide Aborts, DecodePayload;
    if events != [] {
      var ev, items := events[0], Items(events, last);
      var now := Tick(clock, ev.TsUs(), last);
      assert items[0] == ItemOf(ev, last) && items[1..] == Items(events[1..], ev.TsUs());
      PayloadRoundTrip(ev, now);
      DecodesReplayed(events[1..], ev.TsUs(), now);
      assert Delivered(items, clock)[1..] == Delivered(items[1..], now);
    }
  }

  lemma {:induction false} ItemsPrefix(events: seq<Event>, last: u64, n: nat)
    requires n <= |events|
    ensures Items(events, last)[..n] == Items(events[..n], last)
  {
    hide ItemOf;
    if n == 0 {
      assert Items(events, last)[..0] == [];
    } else {
      var first, rest := [ItemOf(events[0], last)], Items(events[1..], events[0].TsUs());
      ItemsPrefix(events[1..], events[0].TsUs(), n - 1);
      assert events[..n][1..] == events[1..][..n - 1];
      assert (first + rest)[..n] == first + rest[..n - 1];
    }
  }

  /** The whole log reads back: same events, in order, no record fatal, then a clean end. */
  lemma LogRoundTrip(events: seq<Event>)
    requires AllFit(Items(events, 0))
    ensures ReadRecords(LogBytes(events), 0) == (Delivered(Items(events, 0), 0), true)
    ensures DecodeRecords(ReadRecords(LogBytes(events), 0).0) == Replayed(events, 0, 0)
    ensures !AnyFatal(ReadRecords(LogBytes(events), 0).0)
  {
    ReadsBack(Items(events, 0), 0);
    DecodesReplayed(events, 0, 0);
  }

  // ----- timestamps -----

  /** The reader's clock after each event, given the times written. */
  function Clocks(times: seq<u64>, last: u64, clock: u64): (r: seq<u64>)
    ensures |r| == |times|
  {
    if times == [] then []
    else [Tick(clock, times[0], last)] + Clocks(times[1..], times[0], Tick(clock, times[0], last))
  }

  function TimesOf(events: seq<Event>): (r: seq<u64>)
    ensures |r| == |events|
  {
    seq(|events|, i requires 0 <= i < |events| => events[i].TsUs())
  }

  /** The deltas a writer derives from these times. */
  ghost predicate HasDeltas(items: seq<Item>, times: seq<u64>, last: u64) {
    |items| == |times| &&
    forall i :: 0 <= i < |items| ==> items[i].delta == SatSub(times[i], Prev(times, last, i))
  }

  function Prev(times: seq<u64>, last: u64, i: nat): u64
    requires i <= |times|
  {
    if i == 0 then last else times[i - 1]
  }

  lemma {:induction false} ItemsHaveDeltas(events: seq<Event>, last: u64)
    ensures HasDeltas(Items(events, last), TimesOf(events), last)
  {
    hide EncAll, Values;
    if events != [] {
      var rest := Items(events[1..], events[0].TsUs());
      ItemsHaveDeltas(events[1..], events[0].TsUs());
      assert Items(events, last) == [ItemOf(events[0], last)] + rest;
      assert TimesOf(events) == [events[0].TsUs()] + TimesOf(events[1..]);
    }
  }

  /** The reader's times depend on the times written alone. */
  lemma {:induction false} DeliveredClocks(items: seq<Item>, times: seq<u64>, last: u64, clock: u64, i: nat)
    requires HasDeltas(items, times, last) && i < |items|
    ensures Delivered(items, clock)[i].ts == Clocks(times, last, clock)[i]
  {
    assert items[0].delta == SatSub(times[0], last);
    if i > 0 {
      forall j | 0 <= j < |items| - 1
        ensures items[1..][j].delta == SatSub(times[1..][j], Prev(times[1..], times[0], j))
      {
        assert items[j + 1].delta == SatSub(times[j + 1], Prev(times, last, j + 1));
      }
      DeliveredClocks(items[1..], times[1..], times[0], Tick(clock, times[0], last), i - 1);
    }
  }

  /** Total backward movement up to and including position `i`. */
  function Backward(times: seq<u64>, last: u64, i: nat): nat
    requires i < |times|
  {
    SatSub(last, times[0]) + if i == 0 then 0 else Backward(times[1..], times[0], i - 1)
  }

  ghost predicate NeverBack(times: seq<u64>, last: u64) {
    times == [] || (last <= times[0] && NeverBack(times[1..], times[0]))
  }

  /**
    The reader's clock is the time written plus the lead it started with plus all
    backward movement so far, as long as that sum fits 64 bits.
   */
  lemma {:induction false} ClockDrift(times: seq<u64>, last: u64, clock: u64, i: nat)
    requires i < |times| && clock >= last
    requires forall j :: 0 <= j <= i ==> times[j] + (clock - last) + Backward(times, last, j) <= MAX_U64
    ensures Clocks(times, last, clock)[i] == times[i] + (clock - last) + Backward(times, last, i)
  {
    var t := times[0];
    var now := Tick(clock, t, last);
    assert t + (clock - last) + Backward(times, last, 0) <= MAX_U64;
    assert now == t + (clock - last) + SatSub(last, t);
    if i > 0 {
      forall j | 0 <= j <= i - 1
        ensures times[1..][j] + (now - t) + Backward(times[1..], t, j) <= MAX_U64
      {
        assert times[j + 1] + (clock - last) + Backward(times, last, j + 1) <= MAX_U64;
      }
      ClockDrift(times[1..], t, now, i - 1);
    }
  }

  /** Every time reads back exactly if and only if times never go back. */
  lemma {:induction false} TimesExactIff(times: seq<u64>, last: u64)
    ensures Clocks(times, last, last) == times <==> NeverBack(times, last)
  {
    if times != [] {
      var t := times[0];
      assert Tick(last, t, last) == Max(last, t);
      var c := Clocks(times, last, last);
      assert c[0] == Max(last, t);
      if last <= t {
        TimesExactIff(times[1..], t);
        assert c == [t] + Clocks(times[1..], t, t);
        assert c[1..] == Clocks(times[1..], t, t);
        assert times == [t] + times[1..];
      }
    }
  }

  /** The timestamps of a whole log read back exactly if and only if they never go back. */
  lemma LogTimesExactIff(events: seq<Event>)
    ensures (forall i :: 0 <= i < |events| ==> Delivered(Items(events, 0), 0)[i].ts == events[i].TsUs())
       <==> NeverBack(TimesOf(events), 0)
  {
    hide Items, Delivered, Clocks, NeverBack, HasDeltas, ItemOf, Tick;
    ItemsHaveDeltas(events, 0);
    TimesExactIff(TimesOf(events), 0);
    var c, t := Clocks(TimesOf(events), 0, 0), TimesOf(events);
    forall i | 0 <= i < |events|
      ensures Delivered(Items(events, 0), 0)[i].ts == c[i] && t[i] == events[i].TsUs()
    {
      DeliveredClocks(Items(events, 0), TimesOf(events), 0, 0, i);
    }
    assert (forall i :: 0 <= i < |c| ==> c[i] == t[i]) <==> c == t;
  }

  // ----- the file as a reader opens it -----

  /** Bytes left after the header check: a short header is swallowed whole. */
  function Body(file: seq<byte>): seq<byte> {
    if |file| >= 4 && file[..4] == MAGIC then file[Min(12, |file|)..] else file
  }

  /** The writer's UTC offset, when the header is whole and new enough. */
  function TzOf(file: seq<byte>): Option<Octets> {
    if |file| >= 12 && file[..4] == MAGIC && Be16Of(file[4..6]) >= 2 then Some(file[8..12]) else None
  }

  lemma HeaderReads(tz: Octets, body: seq<byte>)
    ensures Body(Header(tz) + body) == body && TzOf(Header(tz) + body) == Some(tz)
  {
    var file := Header(tz) + body;
    assert file[..4] == MAGIC && file[4..6] == Be16(VERSION) && file[8..12] == tz;
  }

  /** Fewer than four bytes are no magic, and hold no whole record either. */
  lemma StubEnds(k: nat)
    requires k < 4
    ensures ParseRecord(MAGIC[..k], 0) == End
  {
    var rd := MAGIC[..k];
    if k > 0 {
      assert rd[0] == 83;
      assert Varint.Decode(rd) == Varint.Ok(83, rd[1..]) by {
        assert Varint.Weight(0) == 1;
      }
      if k == 3 {
        assert rd[1..][1..][0] == 79;
        assert Varint.Decode(rd[1..][1..]) == Varint.Ok(79, []) by {
          assert Varint.Weight(0) == 1;
        }
      }
    }
  }

  /** A written file cut at any byte at all, header included, reads to a clean end. */
  lemma FileTruncationSafe(tz: Octets, events: seq<Event>, cut: nat)
    requires AllFit(Items(events, 0))
    requires cut <= |Header(tz) + LogBytes(events)|
    ensures var whole := if cut < 12 then 0 else WholeBefore(Items(events, 0), cut - 12);
      var (records, clean) := ReadRecords(Body((Header(tz) + LogBytes(events))[..cut]), 0);
      && clean
      && whole <= |events|
      && records == Delivered(Items(events[..whole], 0), 0)
      && DecodeRecords(records) == Replayed(events[..whole], 0, 0) && !AnyFatal(records)
  {
    hide ReadRecords, Items, DecodeRecords, AnyFatal, Replayed, Delivered, Body, LogBytes, Header, WholeBefore, AllFit;
    var log := LogBytes(events);
    if cut < 12 {
      HeaderCut(tz, log, cut);
      ReadEnd(Body((Header(tz) + log)[..cut]), 0);
      assert events[..0] == [];
      NothingReplayed();
    } else {
      assert (Header(tz) + log)[..cut] == Header(tz) + log[..cut - 12];
      HeaderReads(tz, log[..cut - 12]);
      BodyCut(events, cut - 12);
    }
  }

  lemma NothingReplayed()
    ensures Items([], 0) == [] && Delivered([], 0) == [] && DecodeRecords([]) == [] && !AnyFatal([])
    ensures Replayed([], 0, 0) == []
  {
  }

  lemma BodyCut(events: seq<Event>, cut: nat)
    requires AllFit(Items(events, 0)) && cut <= |LogBytes(events)|
    ensures var whole := WholeBefore(Items(events, 0), cut);
      && ReadRecords(LogBytes(events)[..cut], 0) == (Delivered(Items(events[..whole], 0), 0), true)
      && DecodeRecords(Delivered(Items(events[..whole], 0), 0)) == Replayed(events[..whole], 0, 0)
      && !AnyFatal(Delivered(Items(events[..whole], 0), 0))
  {
    hide ReadRecords, DecodeRecords, AnyFatal, Replayed, Delivered;
    var whole := WholeBefore(Items(events, 0), cut);
    TruncationSafe(Items(events, 0), 0, cut);
    ItemsPrefix(events, 0, whole);
    FitPrefix(Items(events, 0), whole);
    hide Items, Bytes;
    DecodesReplayed(events[..whole], 0, 0);
  }

  lemma FitPrefix(items: seq<Item>, n: nat)
    requires AllFit(items) && n <= |items|
    ensures AllFit(items[..n])
  {
  }

  /** A file cut inside its header holds no record. */
  lemma HeaderCut(tz: Octets, log: seq<byte>, cut: nat)
    requires cut < 12
    ensures ParseRecord(Body((Header(tz) + log)[..cut]), 0) == End
  {
    var part := (Header(tz) + log)[..cut];
    if cut < 4 {
      assert part == MAGIC[..cut];
      StubEnds(cut);
    } else {
      assert part[..4] == MAGIC;
    }
  }

  // ----- the writer -----

  lemma {:induction false} BytesSnoc(items: seq<Item>, item: Item)
    ensures Bytes(items + [item]) == Bytes(items) + Frame(item)
  {
    if items == [] {
      assert [item][1..] == [];
    } else {
      assert (items + [item])[1..] == items[1..] + [item];
      BytesSnoc(items[1..], item);
    }
  }

  lemma {:induction false} ItemsSnoc(events: seq<Event>, last: u64, ev: Event)
    ensures Items(events + [ev], last)
         == Items(events, last) + [ItemOf(ev, if events == [] then last else events[|events| - 1].TsUs())]
  {
    hide ItemOf;
    if events == [] {
      assert [ev][1..] == [];
    } else {
      assert (events + [ev])[1..] == events[1..] + [ev];
      ItemsSnoc(events[1..], events[0].TsUs(), ev);
    }
  }

  lemma LogGrows(events: seq<Event>, ev: Event, last: u64)
    requires last == if events == [] then 0 else events[|events| - 1].TsUs()
    ensures LogBytes(events + [ev]) == LogBytes(events) + Frame(ItemOf(ev, last))
  {
    hide Items, Bytes, Frame, ItemOf;
    ItemsSnoc(events, 0, ev);
    BytesSnoc(Items(events, 0), ItemOf(ev, last));
  }

  lemma Assoc(a: seq<byte>, b: seq<byte>, c: seq<byte>)
    ensures (a + b) + c == a + (b + c)
  {
  }

  /** Frames a payload into the reused record buffer. */
  method FrameInto(rec: Buffer, item: Item)
    modifies rec
    ensures rec.data == Frame(item)
  {
    rec.Clear();
    rec.PushVarint(item.delta);
    rec.Push(item.ty);
    rec.PushVarint(|item.payload|);
    rec.Extend(item.payload);
  }

  class EvlogWriter {
    /** Everything handed to the sink. */
    var sink: seq<byte>
    var lastTs: u64
    var bytesWritten: nat
    const payloadBuf: Buffer
    const recBuf: Buffer
    ghost var tz: Octets
    ghost var events: seq<Event>

    ghost predicate Valid()
      reads this, payloadBuf, recBuf
    {
      && payloadBuf != recBuf
      && sink == Header(tz) + LogBytes(events)
      && lastTs == (if events == [] then 0 else events[|events| - 1].TsUs())
      && bytesWritten == |LogBytes(events)|
    }

    constructor (tzOffset: Octets)
      ensures Valid() && events == [] && tz == tzOffset && fresh(payloadBuf) && fresh(recBuf)
    {
      payloadBuf := new Buffer();
      recBuf := new Buffer();
      sink := MAGIC + Be16(VERSION) + Be16(0) + tzOffset;
      lastTs, bytesWritten := 0, 0;
      tz, events := tzOffset, [];
    }

    /** Appends one record; times that go back are stored as they are. */
    method Write(ev: Event)
      requires Valid()
      modifies this, payloadBuf, recBuf
      ensures Valid() && events == old(events) + [ev] && tz == old(tz)
      ensures sink == old(sink) + Frame(ItemOf(ev, old(lastTs)))
      ensures lastTs == ev.TsUs()
    {
      hide Header, LogBytes, Frame, EncAll, Values;
      var ts := ev.TsUs();
      var ty := EncodeEventPayload(payloadBuf, ev);
      var delta := SatSub(ts, lastTs);
      FrameInto(recBuf, Item(delta, ty, payloadBuf.data));
      LogGrows(events, ev, lastTs);
      Assoc(Header(tz), LogBytes(events), recBuf.data);
      sink := sink + recBuf.data;
      lastTs := ts;
      bytesWritten := bytesWritten + |recBuf.data|;
      events := events + [ev];
    }
  }

  // ----- the reader -----

  /** `CapacityOverflow` is no error value of the reader: the process ends there. */
  datatype IoError = UnexpectedEof | InvalidData | CapacityOverflow
  datatype IoResult<T> = Good(value: T) | Bad(error: IoError)

  lemma SliceFrom(s: seq<byte>, from: nat, n: nat)
    requires from + n <= |s|
    ensures s[from..][..n] == s[from..from + n] && s[from..][n..] == s[from + n..]
  {
  }

  class EvlogReader {
    const file: seq<byte>
    var pos: nat
    var lastTs: u64
    var tzOffset: Option<Octets>

    ghost predicate Valid()
      reads this
    {
      pos <= |file|
    }

    ghost function Rest(): seq<byte>
      requires Valid()
      reads this
    {
      file[pos..]
    }

    constructor (file: seq<byte>)
      ensures Valid() && this.file == file && lastTs == 0
      ensures Rest() == Body(file) && tzOffset == TzOf(file)
    {
      this.file := file;
      lastTs := 0;
      tzOffset := None;
      if |file| >= 4 && file[..4] == MAGIC {
        if |file| >= 12 {
          pos := 12;
          if Be16Of(file[4..6]) >= 2 {
            tzOffset := Some(file[8..12]);
          }
        } else {
          pos := |file|;
        }
      } else {
        pos := 0;
      }
    }

    /** `read_exact` of one byte. */
    method ReadByte() returns (b: Option<byte>)
      requires Valid()
      modifies this`pos
      ensures Valid()
      ensures old(Rest()) == [] ==> b == None && Rest() == []
      ensures old(Rest()) != [] ==> b == Some(old(Rest())[0]) && Rest() == old(Rest())[1..]
    {
      if pos == |file| {
        return None;
      }
      b := Some(file[pos]);
      pos := pos + 1;
    }

    method ReadVarint() returns (r: IoResult<u64>)
      requires Valid()
      modifies this`pos
      ensures Valid()
      ensures match Varint.Decode(old(Rest()))
              case Ok(n, rest) => r == Good(n) && Rest() == rest
              case Eof => r == Bad(UnexpectedEof)
              case TooLong => r == Bad(InvalidData)
    {
      hide ParseRecord, Body;
      var result: nat := 0;
      var k: nat := 0;
      while true
        invariant Valid() && k < 10 && result < Varint.Weight(k)
        invariant Varint.Decode(old(Rest())) == Varint.DecodeFrom(Rest(), k, result)
        decreases 10 - k
      {
        var b := ReadByte();
        if b.None? {
          return Bad(UnexpectedEof);
        }
        Varint.GroupFits(b.value, k, result);
        result := result + Varint.Group(b.value, k);
        if b.value < 128 {
          return Good(result);
        }
        k := k + 1;
        if 7 * k >= 64 {
          return Bad(InvalidData);
        }
      }
    }

    /** The next record; `Good(None)` at a clean or truncated end. */
    method NextRaw() returns (r: IoResult<Option<RawRecord>>)
      requires Valid()
      modifies this
      ensures Valid() && tzOffset == old(tzOffset)
      ensures match ParseRecord(old(Rest()), old(lastTs))
              case End => r == Good(None)
              case Corrupt => r == Bad(InvalidData)
              case Raw(ty, ts, payload, rest) =>
                r == Good(Some(RawRecord(ty, ts, payload))) && Rest() == rest && lastTs == ts
    {
      hide Body, Frame, ReadRecords, Varint.Decode;
      var delta := ReadVarint();
      if delta.Bad? {
        return if delta.error == UnexpectedEof then Good(None) else Bad(delta.error);
      }
      var ts := SatAdd(lastTs, delta.value);
      lastTs := ts;
      var ty := ReadByte();
      if ty.None? {
        return Good(None);
      }
      var len := ReadVarint();
      if len.Bad? {
        return if len.error == UnexpectedEof then Good(None) else Bad(len.error);
      }
      if len.value > MAX_RECORD_LEN {
        return Bad(InvalidData);
      }
      if |file| - pos < len.value {
        return Good(None);
      }
      var payload := file[pos..pos + len.value];
      SliceFrom(file, pos, len.value);
      pos := pos + len.value;
      return Good(Some(RawRecord(ty.value, ts, payload)));
    }

    /**
      The next event that decodes; framed records that do not are skipped, and a field
      too long to allocate ends the process.
     */
    method NextEvent() returns (r: IoResult<Option<Event>>)
      requires Valid()
      modifies this
      ensures Valid() && tzOffset == old(tzOffset)
      ensures var (records, clean) := ReadRecords(old(Rest()), old(lastTs));
        var events := DecodeRecords(records);
        && (r == Bad(CapacityOverflow) <==> events == [] && AnyFatal(records))
        && (r == Good(None) <==> events == [] && !AnyFatal(records) && clean)
        && (r == Bad(InvalidData) <==> events == [] && !AnyFatal(records) && !clean)
        && r != Bad(UnexpectedEof)
        && (r.Good? && r.value.Some? ==>
              && events != [] && r.value.value == events[0]
              && DecodeRecords(ReadRecords(Rest(), lastTs).0) == events[1..]
              && AnyFatal(ReadRecords(Rest(), lastTs).0) == AnyFatal(records)
              && ReadRecords(Rest(), lastTs).1 == clean)
    {
      hide Aborts, DecodePayload, ParseRecord;
      while true
        invariant Valid() && tzOffset == old(tzOffset)
        invariant DecodeRecords(ReadRecords(Rest(), lastTs).0)
               == DecodeRecords(ReadRecords(old(Rest()), old(lastTs)).0)
        invariant AnyFatal(ReadRecords(Rest(), lastTs).0) == AnyFatal(ReadRecords(old(Rest()), old(lastTs)).0)
        invariant ReadRecords(Rest(), lastTs).1 == ReadRecords(old(Rest()), old(lastTs)).1
        decreases |Rest()|
      {
        ParseConsumes(Rest(), lastTs);
        ghost var records := ReadRecords(Rest(), lastTs).0;
        var raw := NextRaw();
        if raw.Bad? {
          return Bad(raw.error);
        }
        if raw.value.None? {
          return Good(None);
        }
        var rec := raw.value.value;
        assert records[0] == rec && records[1..] == ReadRecords(Rest(), lastTs).0;
        var outcome := Decode(rec.ty, rec.ts, rec.payload);
        if outcome.Fatal? {
          return Bad(CapacityOverflow);
        }
        if outcome.Decoded? {
          return Good(Some(outcome.ev));
        }
      }
    }
  }
}
