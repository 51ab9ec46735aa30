/** A log scanned offline leaves the statistics of the session that wrote it. */
module StatsReplay {
  import opened Prelude
  import opened Events
  import opened Utf8
  import opened Codec
  import opened Payload
  import opened SkipParsers
  import opened EvlogFile
  import opened EvStats

  // ----- scanning -----

  /** `None` once a record stops the process. */
  function FoldRecords(fp: Floats, s: Stats, records: seq<RawRecord>): Option<Stats>
    decreases |records|
  {
    if records == [] then Some(s)
    else
      var r := records[0];
      var v :- IngestRecord(fp, s, r.ty, r.ts, r.payload);
      FoldRecords(fp, v, records[1..])
  }

  /** Offline scan of a log body: a framing error counts as one skipped record and ends it. */
  function Scanned(fp: Floats, s: Stats, rd: seq<byte>, clock: u64): Option<Stats> {
    var (records, clean) := ReadRecords(rd, clock);
    var v :- FoldRecords(fp, s, records);
    Some(if clean then v else Skipped(v))
  }

  /** A scan does what the next record says, then goes on behind it. */
  lemma ScanStep(fp: Floats, s: Stats, rd: seq<byte>, clock: u64)
    ensures Scanned(fp, s, rd, clock) ==
      match ParseRecord(rd, clock)
      case End => Some(s)
      case Corrupt => Some(Skipped(s))
      case Raw(ty, ts, payload, rest) =>
        (match IngestRecord(fp, s, ty, ts, payload)
         case Some(v) => Scanned(fp, v, rest, ts)
         case None => None)
  {
    hide IngestRecord;
    ParseConsumes(rd, clock);
    var p := ParseRecord(rd, clock);
    if p.Raw? {
      var r := RawRecord(p.ty, p.ts, p.payload);
      ReadNext(rd, clock, r, p.rest);
      assert ([r] + ReadRecords(p.rest, p.ts).0)[1..] == ReadRecords(p.rest, p.ts).0;
    }
  }

  /** The live session, had it seen its events at these times. */
  function FoldAt(fp: Floats, s: Stats, events: seq<Event>, times: seq<u64>): Stats
    requires |times| == |events|
    decreases |events|
  {
    if events == [] then s else FoldAt(fp, IngestAt(fp, s, events[0], times[0]), events[1..], times[1..])
  }

  function IngestAt(fp: Floats, s: Stats, ev: Event, t: u64): (r: Stats)
    ensures r.endTs == Some(t)
  {
    if ev.Health? then Count(s, t, ev.TypeCode()) else Ingest(fp, s, ev.At(t))
  }

  // ----- one record -----

  lemma SnapCallIdReads(e: StreamSnapEvt)
    requires |EncAll(SnapBaseVals(e) + SnapTailVals(e))| <= MAX_RECORD_LEN
    ensures var rd := EncAll(SnapBaseVals(e) + SnapTailVals(e));
      ReadBlob(rd).Some? && ReadBlob(rd).value.0 == e.callId
  {
    var vals := SnapBaseVals(e) + SnapTailVals(e);
    assert vals[0] == VStr(e.callId);
    FirstBlobReads(vals, e.callId);
  }

  lemma FirstBlobReads(vals: seq<Val>, name: Str)
    requires vals != [] && vals[0] == VStr(name) && |EncAll(vals)| <= MAX_RECORD_LEN
    ensures ReadBlob(EncAll(vals)).Some? && ReadBlob(EncAll(vals)).value.0 == name
  {
    var rest := EncAll(vals[1..]);
    assert EncAll(vals) == Enc(vals[0]) + rest;
    assert |name| <= |Enc(vals[0])|;
    BlobRoundTrip(name, 0, rest);
  }

  /**
    A written record is taken as the live event is, though snapshots and RTT samples
    go through walkers and four types are never decoded.
   */
  lemma RecordAgrees(fp: Floats, s: Stats, ev: Event, t: u64)
    requires |EncAll(Values(ev))| <= MAX_RECORD_LEN
    ensures IngestRecord(fp, s, ev.TypeCode(), t, EncAll(Values(ev))) == Some(IngestAt(fp, s, ev, t))
  {
    PayloadRoundTrip(ev, t);
    if ev.StreamSnap? {
      SnapRecordAgrees(fp, s, ev, t);
    } else if ev.RtcpRtt? {
      RttParserAgrees(t, EncAll(Values(ev)));
    }
  }

  lemma SnapRecordAgrees(fp: Floats, s: Stats, ev: Event, t: u64)
    requires ev.StreamSnap? && |EncAll(Values(ev))| <= MAX_RECORD_LEN
    ensures IngestRecord(fp, s, 4, t, EncAll(Values(ev)))
         == Some(IngestSnap(fp, s, t, LiteOf(ev.snap, ev.snap.callId)))
  {
    var rd := EncAll(Values(ev));
    PayloadRoundTrip(ev, t);
    SnapParsersAgree(t, rd);
    SnapCallIdReads(ev.snap);
  }

  // ----- whole sessions -----

  lemma {:induction false} RecordsAgree(fp: Floats, s: Stats, events: seq<Event>, last: u64, clock: u64)
    requires AllFit(Items(events, last))
    ensures FoldRecords(fp, s, Delivered(Items(events, last), clock))
         == Some(FoldAt(fp, s, events, Clocks(TimesOf(events), last, clock)))
    decreases |events|
  {
    hide IngestRecord, IngestAt, EncAll, Values;
    if events != [] {
      var ev, items, times := events[0], Items(events, last), TimesOf(events);
      var now := Tick(clock, ev.TsUs(), last);
      assert items[0] == ItemOf(ev, last) && items[1..] == Items(events[1..], ev.TsUs());
      assert times[1..] == TimesOf(events[1..]);
      assert Clocks(times, last, clock)[1..] == Clocks(times[1..], ev.TsUs(), now);
      assert Delivered(items, clock)[1..] == Delivered(items[1..], now);
      RecordAgrees(fp, s, ev, now);
      RecordsAgree(fp, IngestAt(fp, s, ev, now), events[1..], ev.TsUs(), now);
    }
  }

  lemma OwnTime(fp: Floats, s: Stats, ev: Event)
    ensures IngestAt(fp, s, ev, ev.TsUs()) == Ingest(fp, s, ev)
  {
    assert ev.At(ev.TsUs()) == ev;
  }

  lemma {:induction false} AtOwnTimes(fp: Floats, s: Stats, events: seq<Event>)
    ensures FoldAt(fp, s, events, TimesOf(events)) == Fold(fp, s, events)
    decreases |events|
  {
    hide Ingest, IngestAt;
    if events != [] {
      var ev := events[0];
      OwnTime(fp, s, ev);
      assert TimesOf(events)[1..] == TimesOf(events[1..]);
      AtOwnTimes(fp, Ingest(fp, s, ev), events[1..]);
    }
  }

  /** Whatever the times, a scanned log is the live session seen at the reader's clock. */
  lemma OfflineIsLiveAtClock(fp: Floats, events: seq<Event>)
    requires AllFit(Items(events, 0))
    ensures Scanned(fp, Init(fp), LogBytes(events), 0)
         == Some(FoldAt(fp, Init(fp), events, Clocks(TimesOf(events), 0, 0)))
  {
    LogRoundTrip(events);
    RecordsAgree(fp, Init(fp), events, 0, 0);
  }

  lemma {:induction false} FoldEndsAt(fp: Floats, s: Stats, events: seq<Event>, times: seq<u64>)
    requires |times| == |events| > 0
    ensures FoldAt(fp, s, events, times).endTs == Some(times[|times| - 1])
    decreases |events|
  {
    hide IngestAt;
    if |events| > 1 {
      FoldEndsAt(fp, IngestAt(fp, s, events[0], times[0]), events[1..], times[1..]);
    } else {
      assert events[1..] == [] && times[1..] == [];
    }
  }

  /** Times that go back show in the total backward movement, and only those do. */
  lemma {:induction false} BackwardIff(times: seq<u64>, last: u64)
    requires times != []
    ensures Backward(times, last, |times| - 1) == 0 <==> NeverBack(times, last)
  {
    if |times| > 1 {
      BackwardIff(times[1..], times[0]);
    } else {
      assert times[1..] == [];
    }
  }

  /** Sessions seen to end at different times differ. */
  lemma EndsDiffer(fp: Floats, s: Stats, events: seq<Event>, a: seq<u64>, b: seq<u64>)
    requires |a| == |b| == |events| > 0 && a[|a| - 1] != b[|b| - 1]
    ensures FoldAt(fp, s, events, a) != FoldAt(fp, s, events, b)
  {
    FoldEndsAt(fp, s, events, a);
    FoldEndsAt(fp, s, events, b);
  }

  /** The reader's clock never reaches the top of its range. */
  ghost predicate Unsaturated(times: seq<u64>) {
    forall i :: 0 <= i < |times| ==> times[i] + Backward(times, 0, i) <= MAX_U64
  }

  lemma LastClock(times: seq<u64>)
    requires times != [] && Unsaturated(times)
    ensures Clocks(times, 0, 0)[|times| - 1] == times[|times| - 1] <==> NeverBack(times, 0)
  {
    ClockDrift(times, 0, 0, |times| - 1);
    BackwardIff(times, 0);
  }

  /**
    A written log scanned offline leaves exactly the live session's statistics when
    event times never go back. As long as the reader's clock does not saturate that
    is the only case: any step back shows.
   */
  lemma LiveEqualsOffline(fp: Floats, events: seq<Event>)
    requires AllFit(Items(events, 0))
    ensures NeverBack(TimesOf(events), 0) ==>
      Scanned(fp, Init(fp), LogBytes(events), 0) == Some(Fold(fp, Init(fp), events))
    ensures Unsaturated(TimesOf(events)) && !NeverBack(TimesOf(events), 0) ==>
      Scanned(fp, Init(fp), LogBytes(events), 0) != Some(Fold(fp, Init(fp), events))
  {
    var s, times := Init(fp), TimesOf(events);
    var clocks := Clocks(times, 0, 0);
    OfflineIsLiveAtClock(fp, events);
    AtOwnTimes(fp, s, events);
    TimesExactIff(times, 0);
    if Unsaturated(times) && !NeverBack(times, 0) {
      LastClock(times);
      EndsDiffer(fp, s, events, times, clocks);
    }
  }
}
