/** What a scan of any bytes keeps. */
module ScanConservation {
  import opened Prelude
  import opened EvlogFile
  import opened EvStats
  import opened StatsConservation
  import opened StatsReplay
  import Payload

  /** A record that stops the scan. */
  predicate Stops(r: RawRecord) {
    (r.ty == 1 || r.ty == 3) && Payload.Aborts(r.ty, r.payload)
  }

  ghost predicate AnyStops(records: seq<RawRecord>) {
    exists i :: 0 <= i < |records| && Stops(records[i])
  }

  lemma {:induction false} RecordsConserve(fp: Floats, s: Stats, records: seq<RawRecord>)
    requires Conserved(s)
    ensures FoldRecords(fp, s, records).None? <==> AnyStops(records)
    ensures FoldRecords(fp, s, records).Some? ==> Conserved(FoldRecords(fp, s, records).value)
    decreases |records|
  {
    hide IngestRecord, Conserved, Payload.Aborts;
    if records != [] {
      var r := records[0];
      RecordConserves(fp, s, r.ty, r.ts, r.payload);
      assert forall i :: 0 < i < |records| ==> records[i] == records[1..][i - 1];
      if !Stops(r) {
        RecordsConserve(fp, IngestRecord(fp, s, r.ty, r.ts, r.payload).value, records[1..]);
        assert forall i :: 0 <= i < |records| - 1 ==> records[1..][i] == records[i + 1];
      }
    }
  }

  /**
    Scanning any bytes at all leaves totals that are the sums over windows, and stops
    short if and only if some framed SIP or call record has a field too long to allocate.
   */
  lemma ScanConserves(fp: Floats, rd: seq<byte>, clock: u64)
    ensures var scan := Scanned(fp, Init(fp), rd, clock);
      && (scan.None? <==> AnyStops(ReadRecords(rd, clock).0))
      && (scan.Some? ==> Conserved(scan.value))
  {
    hide FoldRecords, ReadRecords, Conserved, AnyStops;
    StartConserved(fp, Init(fp));
    RecordsConserve(fp, Init(fp), ReadRecords(rd, clock).0);
    if Scanned(fp, Init(fp), rd, clock).Some? {
      CountConserves(FoldRecords(fp, Init(fp), ReadRecords(rd, clock).0).value, 0, 0);
    }
  }
}
