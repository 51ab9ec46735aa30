# sipmon: a verified model of the monitor's core

sipmon watches SIP signalling and RTP media passively. It frames SIP out of TCP
streams, follows each call through its states, counts loss and jitter per media
stream, charges packets to IP addresses, writes every event to a delta-coded
binary log, and summarises a session either live or from that log. This project
models those parts in Dafny and proves what they keep over every input and run.

Code that updates state in place is a class whose methods are proved against
functions; the laws are lemmas about those functions. Each part:

| file | what it models |
|---|---|
| `MediaStats.dfy` | loss window (a 64-bit bitmap against a set of extended sequence numbers) and RFC 3550 jitter |
| `IpStats.dfy` | per-IP totals and gap-filled rings of time buckets, against a log of observations |
| `TcpReasm.dfy` | Content-Length framing of SIP over TCP |
| `Varint.dfy`, `Codec.dfy`, `Payload.dfy`, `PayloadWriter.dfy`, `Events.dfy`, `Utf8.dfy`, `Net.dfy` | event payloads: field kinds, their bytes, the eight event types |
| `SkipParsers.dfy` | the hand-written walkers over the same bytes |
| `EvlogFile.dfy` | the log file: records, header, writer, reader, truncation, timestamps |
| `WireFormat.dfy` | the bytes of numbers, fields, records and the header, said without the encoders |
| `EvStats.dfy`, `StatsAcc.dfy`, `StatsReplay.dfy`, `StatsConservation.dfy`, `ScanConservation.dfy`, `StreamTotals.dfy` | the statistics accumulator, its two feeds, and its conservation laws |
| `StatsTallies.dfy` | every window, counter and set of the statistics, counted from the event list |
| `Percentile.dfy` | the packet-weighted percentile |
| `Call.dfy`, `CallVerdicts.dfy` | the state machine of one call, and its fields read off the messages |
| `KeyIndex.dfy`, `Registry.dfy`, `RegistryKeeps.dfy`, `Eviction.dfy`, `LiveRegistry.dfy` | calls, streams, reverse indexes, per-IP attribution, eviction |
| `Correlator.dfy`, `CorrelatorKeeps.dfy`, `LiveCorrelator.dfy` | the correlator as a machine of steps |
| `Tickers.dfy`, `History.dfy`, `Activity.dfy`, `CallRecords.dfy` | what whole runs leave in calls, streams and endpoints, read off the inputs; when ticks fire and what they remove |
| `Attribution.dfy`, `LostPackets.dfy` | conservation per address over whole runs, the steps that break it, and runs that reach them |
| `Prelude.dfy`, `Sums.dfy`, `Sip.dfy` | shared types; totals over maps; method names |

`dafny verify dfyconfig.toml` checks everything.

Where a property is false of the code, the exact condition is proved instead:

* A log reads back with its own timestamps if and only if times never go back
  (`EvlogFile.LogTimesExactIff`); otherwise the reader runs ahead by the total
  backward movement (`EvlogFile.ClockDrift`). Live and offline statistics agree
  in the same case and, while the reader's clock does not saturate, in no other
  (`StatsReplay.LiveEqualsOffline`).
* The full decoder replaces ill-formed UTF-8 in a call id while the walkers read
  an empty one, so the call id agrees if and only if its bytes are valid
  (`SkipParsers.SnapParsersAgree`).
* The comments on capacity eviction say terminated calls go first; the code's
  sort puts active calls first (`Eviction.ActiveCallsGoFirst`).
* Per-address totals plus open tails are all that was taken if and only if no step
  since the last clear cut a stream with an open tail at the stream cap or pruned an
  idle address with a count (`Attribution.WholeRun`); a tick that also charges all
  tails cuts none open (`Attribution.ChargingTickCutsNothing`). Both losses happen:
  `LostPackets.CapLosesPacket` and `LostPackets.IdleLosesPacket` give runs.
* Not every record that fails to decode is skipped: strings and blobs allocate the
  length they announce before looking for the bytes, and past 2^63-1 that stops the process
  (`Payload.OverlongNameIsFatal`). Decoding has that third outcome; it never happens
  to a payload that decodes (`Payload.DecodesSafely`), and a scan stops short if and
  only if a framed SIP or call record reaches such a field
  (`ScanConservation.ScanConserves`).
* Post-dial delay kept live differs from the batch metric, for times in order, exactly
  when the first provisional taken had no INVITE before it and none followed at a
  wrapped distance that cuts to zero milliseconds (`Call.PddExactInOrder`;
  `Call.PddExactIff` for times in any order). Such runs: `Call.PddWithoutInvite`,
  `Call.PddOvertaken`, `Call.PddRestamped`.
* A window of an address's packets is the sum over its slots if and only if nothing
  that counts came too late for its own slot (`IpStats.IpStats.Window`).
* Setup delay kept live differs from the batch metric exactly when the first
  answer precedes the first INVITE (`Call.SetupExactIff`); a repeated INVITE after
  an answer makes an answered call look unanswered, and nothing else does
  (`Call.ConsistentIff`).
* Without a restart, received plus lost is the expected-packet count of RFC 3550,
  appendix A.3, exactly when no arrival was a duplicate, too late or below the
  first (`SeqWindow.ExpectedExactIff`); with restarts, exactly when as many pending
  numbers were dropped as arrivals were useless (`SeqWindow.ExpectedOverEpochs`).

## Model

| member | source | states |
|---|---|---|
| MediaStats.MediaStatsAccumulator.ObserveSequence | src/analyze/media_stats.rs:97-156 | after every arrival the 64-bit mask, the loss counter and the restart counter are those of a set of missing extended sequence numbers, through 16-bit wrap-around |
| MediaStats.MediaStatsAccumulator.Advance | src/analyze/media_stats.rs:122-146 | a forward jump books as lost exactly the skipped numbers that leave the 64-number window unfilled and marks the rest pending |
| MediaStats.PendingIsPopcount | src/analyze/media_stats.rs:180-181 | the popcount of the mask is the number of skipped numbers still inside the window |
| MediaStats.JumpRefines | src/analyze/media_stats.rs:127-145 | shifting the mask and setting its low bits moves the set of missing numbers, for every jump up to the restart window |
| MediaStats.LateFill | src/analyze/media_stats.rs:147-154 | clearing bit age-1 removes exactly the late number from the missing set |
| SeqWindow.TameLossExact | src/analyze/media_stats.rs:180-203 | for distinct numbers, lowest first, jumps within the restart window and lateness within 64: received plus lost is highest minus first plus one, the expected count of RFC 3550 appendix A.3 |
| SeqWindow.OrderIndependent | src/analyze/media_stats.rs:97-156 | two such orders of the same numbers give the same loss |
| SeqWindow.ExpectedExactIff | src/analyze/media_stats.rs:180-203 | for arrivals without a restart, received plus lost is never below the span of numbers, and equals it if and only if every arrival was new, not too late and not below the first |
| SeqWindow.ExpectedOverEpochs | src/analyze/media_stats.rs:97-156 | for every arrival order, received plus lost is the sum of the spans between restarts, less the pending numbers restarts dropped, plus the useless arrivals |
| MediaStats.MediaStatsAccumulator.Observe | src/analyze/media_stats.rs:84-95 | one packet counted; payload type and clock fixed by the first, 48000 for dynamic types and 8000 for others; sequence window as its function says; the estimator smoothed as in the next row |
| MediaStats.MediaStatsAccumulator.ObserveJitter | src/analyze/media_stats.rs:158-178 | a sample whose spread from arrival times and timestamps is within one second moves the estimator by a sixteenth of the way to it, any other leaves it; marks and sample counter follow, and the estimator stays between zero and the clock rate |
| MediaStats.JitterSmooths | src/analyze/media_stats.rs:158-178 | the same of the update function: sixteen times the change is spread less estimator, the spread written from the two packets |
| MediaStats.SteadyJitter | src/analyze/media_stats.rs:158-178 | after n samples of one spread d the estimator is d(1 - (15/16)^n) |
| MediaStats.MediaStatsAccumulator.SetClockRate | src/analyze/media_stats.rs:71-82 | a clock change rescales the estimator and leaves reported milliseconds unchanged |
| MediaStats.RescaleKeepsMillis | src/analyze/media_stats.rs:71-82 | rescaling by the ratio of clocks keeps milliseconds and the bound |
| MediaStats.RtpTsDeltaNearest | src/analyze/media_stats.rs:205-209 | the timestamp difference is the nearest representative modulo 2^32 |
| MediaStats.MediaStatsAccumulator.Snapshot | src/analyze/media_stats.rs:180-203 | expected is received plus lost, loss includes pending numbers, jitter is within 0 and 1000 ms |
| IpStats.BucketRing.Add | src/store/ipstats.rs:99-137 | in any arrival order the ring stays a run of consecutive keys no longer than its retention, and books the amount in the slot that its key and the keys before it give |
| IpStats.BucketRing.SumRing | src/store/ipstats.rs:258-273 | the last n buckets sum to what was booked in the newest n slots |
| IpStats.BookedVsObserved | src/store/ipstats.rs:125-136 | booked exceeds observed by exactly what came too late for its own bucket |
| IpStats.IpStats.AddPackets | src/store/ipstats.rs:146-186 | both rings take the amount, and the address's summary moves by the function the registry's totals use; nothing happens for an empty one |
| IpStats.IpStats.AddLost | src/store/ipstats.rs:188-209 | as for packets, but a known last-seen time is kept |
| IpStats.IpStats.Window | src/store/ipstats.rs:248-273 | all-time figures are exact; a span is the total of its slots plus what was folded in late, both read off the capture times, so exact if and only if nothing that counts was folded in |
| TcpReasm.FindDoubleCrlf | src/decode/tcp_reasm.rs:95-97 | the first blank line, or none |
| TcpReasm.AnnouncedLength | src/decode/tcp_reasm.rs:99-110 | the first Content-Length line, long or short form in any case, gives its decimal number, wherever it stands in valid text |
| TcpReasm.NothingAnnounced | src/decode/tcp_reasm.rs:99-110 | a header in valid text none of whose lines names a Content-Length announces zero |
| TcpReasm.UnannouncedMessageFramed | src/decode/tcp_reasm.rs:65-75 | such a message ends at its blank line, whatever follows |
| TcpReasm.WellFormedMessageFramed | src/decode/tcp_reasm.rs:65-75 | a message that announces its own body length is framed as one message, whatever follows |
| TcpReasm.FramesConserve | src/decode/tcp_reasm.rs:65-75 | messages followed by the rest are the input, byte for byte |
| TcpReasm.SegmentationIndependence | src/decode/tcp_reasm.rs:53-85 | any two cuttings of one stream up to the cap give the same messages and rest as one segment |
| TcpReasm.CutsDoNotMatter | src/decode/tcp_reasm.rs:53-85 | the same from any partial buffer, as long as no segment exceeds the cap |
| TcpReasm.FlowsIndependent | src/decode/tcp_reasm.rs:53-85 | interleaved flows give each flow the messages it would give alone |
| TcpReasm.TcpReassembler.Feed | src/decode/tcp_reasm.rs:53-85 | the buffer and output of a flow are those of the framing function; other flows are untouched |
| TcpReasm.TcpReassembler.Prune | src/decode/tcp_reasm.rs:47-51 | exactly the idle flows go |
| Varint.RoundTrip | src/store/evlog.rs:179-211 | every 64-bit number reads back, leaving what follows |
| Varint.CutShort | src/store/evlog.rs:192-211 | a number cut short anywhere reads as end of input |
| Varint.SliceVarint | src/store/evlog.rs:916-935 | the slice reader agrees with the stream reader on every byte string |
| Utf8.LossyIsValid | src/store/evlog.rs:510-515 | lossy decoding yields valid text, and the same text if and only if it was valid |
| Codec.FieldRoundTrip | src/store/evlog.rs:213-312 | every field kind reads back from its own bytes |
| Codec.FieldsRoundTrip | src/store/evlog.rs:314-414 | every list of fields reads back in order |
| Codec.AnyOverlongIff | src/store/evlog.rs:510-533 | reading a field list asks for an impossible buffer if and only if some field is overlong and all before it read |
| Payload.DecodesSafely | src/store/evlog.rs:645-869 | a payload whose fields all read never does |
| Payload.OverlongNameIsFatal | src/store/evlog.rs:510-515 | a first string announcing more than 2^63-1 bytes stops the process, whatever follows |
| Payload.PayloadRoundTrip | src/store/evlog.rs:645-869 | every event of all eight types decodes from its payload, stamped with the reading time |
| Payload.OldSnapDecodes | src/store/evlog.rs:733-813 | a snapshot that stops after its direction decodes with the later fields at their defaults |
| PayloadWriter.EncodeEventPayload | src/store/evlog.rs:314-414 | the reused buffer ends up holding exactly the event's payload, and the type code is the event's |
| SkipParsers.SnapParsersAgree | src/store/evlog.rs:1095-1222 | on any bytes the full decoder accepts, both walkers read the same fields in both layouts; the call id agrees if and only if it is valid UTF-8 |
| SkipParsers.RttParserAgrees | src/store/evlog.rs:1224-1233 | on any bytes the decoder accepts, the walker reads the same sample |
| EvlogFile.ReadsBack | src/store/evlog.rs:478-493 | a written log reads to a clean end if and only if no payload is over the cap, and then gives every record in order |
| EvlogFile.LogRoundTrip | src/store/evlog.rs:1294-1338 | a whole log reads back: same events, same order, no record fatal, clean end |
| EvlogFile.LogTimesExactIff | src/store/evlog.rs:478-493 | record times read back exactly if and only if they never go back |
| EvlogFile.ClockDrift | src/store/evlog.rs:1300-1301 | otherwise each reads as its own time plus all backward movement so far, while that fits 64 bits |
| EvlogFile.TruncationSafe | src/store/evlog.rs:1294-1323 | records of a log cut at any byte are those wholly before the cut, then a clean end |
| EvlogFile.FileTruncationSafe | src/store/evlog.rs:1258-1338 | the same for a whole file, the cut inside its header included |
| EvlogFile.EvlogWriter.Write | src/store/evlog.rs:478-493 | the sink grows by exactly the event's record and always holds the log of all events written |
| EvlogFile.EvlogReader.NextRaw | src/store/evlog.rs:1294-1323 | the next record, a clean end on any shortage, an error on an overlong field |
| EvlogFile.EvlogReader.NextEvent | src/store/evlog.rs:1325-1338 | the next event that decodes, skipping framed records that do not, and ending the process exactly when a fatal record comes first |
| EvlogFile.HeaderReads | src/store/evlog.rs:1258-1285 | header and body are told apart and the recorder's UTC offset read back |
| WireFormat.VarintIs | src/store/evlog.rs:179-190 | a varint is the one shortest run of seven-bit groups, lowest first, with a high bit on all but the last |
| WireFormat.FieldIs | src/store/evlog.rs:213-308 | for each field kind, the bytes are exactly those that the format describes: big-endian words, counted texts, presence flags, address families |
| WireFormat.RecordIs | src/store/evlog.rs:478-493 | a record is exactly time since the last one, type, payload length and the fields one after another |
| WireFormat.HeaderIs | src/store/evlog.rs:457-468 | a header is exactly "SMON", version 2, no flags and the offset |
| WireFormat.SipSample | src/store/evlog.rs:317-329 | the bytes of one SIP record with all fields different |
| WireFormat.TxnSample | src/store/evlog.rs:330-337 | of a transaction record |
| WireFormat.CallSample | src/store/evlog.rs:338-362 | of a call record |
| WireFormat.SnapSample | src/store/evlog.rs:363-387 | of a stream snapshot, tail included |
| WireFormat.RttSample | src/store/evlog.rs:388-394 | of an RTT record |
| WireFormat.HealthSample | src/store/evlog.rs:395-435 | of a health bucket |
| WireFormat.ErrorSample | src/store/evlog.rs:401-405 | of an error record |
| WireFormat.DiagSample | src/store/evlog.rs:406-412 | of a diagnostic record |
| StatsReplay.RecordAgrees | src/store/evstats.rs:461-501 | a written record is taken as the live event is, though snapshots and RTT samples go through walkers and four types are never decoded |
| StatsReplay.LiveEqualsOffline | src/store/evstats.rs:774-795 | scanning a written log gives the live session's statistics when times never go back, and otherwise does not while the reader's clock does not saturate |
| StatsAccumulator.StatsAcc.Ingest | src/store/evstats.rs:338-459 | the accumulator's fields move as the event function says, whose sessions `StatsTallies` counts off the events |
| StatsAccumulator.StatsAcc.IngestRecord | src/store/evstats.rs:461-501 | the raw feed: malformed payloads counted as skipped, fatal ones ending it |
| StatsAccumulator.StatsAcc.IngestStreamSnap | src/store/evstats.rs:503-565 | saturating deltas against the stream's last snapshot into window, totals and both addresses |
| StatsAccumulator.Scan | src/store/evstats.rs:774-795 | the loop over records is the scan function; a framing error ends it and counts once, a fatal record ends the process |
| StatsAccumulator.SessionThenScan | src/store/evstats.rs:753-795 | a session and a scan of the log it wrote end in the same state |
| StatsTallies.WindowIs | src/store/evstats.rs:338-459 | every window starts at a multiple of five minutes; one is there if and only if a SIP message, teardown, snapshot or RTT sample falls into it; each of its counters is what the events that fall into it add up to |
| StatsTallies.CodeClass | src/store/evstats.rs:83-93 | which causes count as not found, busy, timeout, reject or other failure |
| StatsTallies.RollIs | src/store/evstats.rs:338-459 | a call is in a window's or the session's set of calls, or of INVITEs, if and only if some event of it belongs there |
| StatsTallies.TallyIs | src/store/evstats.rs:338-459 | every session counter is the number of events that it names |
| StatsTallies.AddressIs | src/store/evstats.rs:503-565 | an address's packets, loss and bytes are the snapshot deltas of the streams it sends plus those it receives |
| StatsTallies.SpanIs | src/store/evstats.rs:338-459 | delay samples are those of the teardowns in order; the session runs from its first event to its last |
| StatsConservation.RunConserves | src/store/evstats.rs:338-601 | over every session totals are the sums over windows, failed calls are the five classes, every window concludes no more calls than it tore down |
| StatsConservation.RecordConserves | src/store/evstats.rs:461-501 | the same after any raw record that leaves the process running, which all do but SIP and call records with a field too long to allocate |
| ScanConservation.ScanConserves | src/store/evstats.rs:774-795 | a scan of any bytes conserves all totals, and stops short if and only if such a record is framed in them |
| StatsConservation.TotalsAgainstSnaps | src/store/evstats.rs:526-560 | total packets and bytes exceed the last snapshots by exactly what streams fell back by |
| StreamTotals.TotalsEqualIff | src/store/evstats.rs:526-560 | so they are equal if and only if no stream's count ever falls, read off the event list |
| Percentile.WeightedPercentile | src/store/evstats.rs:829-845 | filter, sort and walk compute the element at floor((total-1)*clamp(p)) of the sorted list in which each value stands as often as its weight |
| Percentile.PercentileIsSample | src/store/evstats.rs:829-845 | there is a result if and only if some weight is positive, and it is such a sample |
| Percentile.PercentileMonotone | src/store/evstats.rs:829-845 | the result grows with p |
| Percentile.PercentileSplitsWeight | src/store/evstats.rs:837-843 | the weight below the result is at most the rank, the weight up to it more |
| Call.LiveCall.ApplySip | src/correlate/call.rs:28-211 | the fields of a call move as the transition function says, whose runs `CallVerdicts` reads off the messages |
| Call.RunSound | src/correlate/call.rs:131-211 | in every reachable call Active or Completed implies an answer time and Completed or Failed an end time |
| CallVerdicts.StateSettled | src/correlate/call.rs:28-211 | after any messages the state is what the last deciding one says: initial INVITE (dialing), ringing while unanswered, first answer (active), CANCEL of a call not over or 487 (canceled), refusal while unanswered (failed), or a final response that closes it (completed if it was answered, else failed) |
| CallVerdicts.NeverSettled | src/correlate/call.rs:28-211 | a call that none of them decided is dialing |
| CallVerdicts.CanceledOnlyIf | src/correlate/call.rs:28-211 | canceled only with a CANCEL, or a 487 that is not a BYE's |
| CallVerdicts.OutcomeSettled | src/correlate/call.rs:115-211 | the outcome is that of the last of these: the first answer, a 487, a refusal while unanswered |
| CallVerdicts.NeverOutcome | src/correlate/call.rs:115-211 | without one the call is in progress |
| CallVerdicts.BlameSettled | src/correlate/call.rs:70-211 | who ended a call is what the first message that tells says; a BYE is the caller's if and only if it came from the address of the first initial INVITE |
| CallVerdicts.NeverBlamed | src/correlate/call.rs:70-211 | without one nobody is named |
| CallVerdicts.EndCanceled | src/correlate/call.rs:28-211 | a canceled call ended at its last effective CANCEL |
| CallVerdicts.EndFirst | src/correlate/call.rs:131-211 | any other at its first closing or refusing response |
| CallVerdicts.RecordIs | src/correlate/call.rs:28-211 | first BYE, hangup code and words, last activity, message and byte counts of any run |
| CallVerdicts.RingTime | src/correlate/call.rs:115-140 | ring time runs from the first ringing to the first answer |
| Call.TimesAreFirst | src/correlate/call.rs:49-68 | invite and answer times are those of the first initial INVITE and first answer of the run |
| Call.SetupExactIff | src/analyze/metrics.rs:25-29 | the live setup delay is the batch one if and only if the first answer did not precede the first INVITE |
| Call.PddExactIff | src/analyze/metrics.rs:13-23 | for times in any order, the live post-dial delay is the batch one if and only if no provisional was taken, or the earliest one lies as far behind the first INVITE as the first one taken was seen to |
| Call.PddExactInOrder | src/correlate/call.rs:115-140 | for times in order, if and only if the first provisional taken had an INVITE before it, or one followed at a wrapped distance that cuts to zero milliseconds |
| Call.PddExact | src/analyze/metrics.rs:13-23 | in particular when no provisional precedes the INVITE |
| Call.PddWithoutInvite | src/correlate/call.rs:115-140 | a capture that starts after the INVITE keeps a zero delay where the batch metric has none |
| Call.PddOvertaken | src/correlate/call.rs:115-140 | a provisional captured a millisecond before its INVITE: zero live, a wrapped span in the batch |
| Call.PddRestamped | src/analyze/metrics.rs:13-23 | a 100 stamped before an earlier 180: the live delay is to the first taken, the batch delay to the first stamped |
| Call.ConsistentIff | src/correlate/call.rs:49-68 | at every moment a dialing, ringing or failed call has no answer, if and only if no initial INVITE follows an answer |
| KeyIndex.AddAgrees | src/store/registry.rs:444-450 | noting a stream keeps a reverse index exact: each key once, under its owner, no empty entry |
| KeyIndex.DropAgrees | src/store/registry.rs:455-471 | forgetting a stream keeps it exact |
| Registry.ChargeLands | src/store/registry.rs:608-617 | a stream's tail lands at its source as sent and its destination as received, and nowhere else; in all it is booked once |
| RegistryKeeps.FlushKeeps | src/store/registry.rs:588-618 | a flush moves a tail to its two addresses, changes no address's sum of charges and open tails, and never lowers charged loss below reported loss |
| RegistryKeeps.RemoveCallsKeeps | src/store/registry.rs:620-638 | removing calls takes out those calls and exactly their streams, from every map, charging their tails |
| RegistryKeeps.OpenSane | src/correlate/mod.rs:565-630 | a new stream of a live call keeps all maps agreeing and all packets accounted for |
| Eviction.EvictionExact | src/store/registry.rs:497-532 | no pinned call goes, max(cap, live pinned) calls stay, and of the unpinned ones those that go come first: calls not ended, then by first INVITE, those without one last, then by id |
| Eviction.VictimsUnique | src/store/registry.rs:509-530 | the victims are determined by the calls, the cap and the pins |
| Eviction.ActiveCallsGoFirst | src/store/registry.rs:514-523 | a terminated call goes only after every unpinned active call |
| Eviction.UninvitedGoLast | src/store/registry.rs:515-518 | an unpinned call without an INVITE goes only after every unpinned call of its class that has one |
| Eviction.BytesLessIff | src/store/registry.rs:514-523 | ids are compared byte by byte, a prefix first |
| Eviction.EvictionOrder | src/store/registry.rs:497-546 | both evictions in that order, and streams by the time they were first seen |
| Eviction.EvictIfNeededExact | src/store/registry.rs:497-546 | both caps together: at most the stream cap of streams, all maps agreeing |
| Eviction.EvictStaleExact | src/store/registry.rs:551-577 | exactly the unpinned calls go whose end, BYE or last activity, whichever counts for their state, lies more than the limit back; a zero limit or clock turns it off |
| LiveRegistry.Registry.FlushStreamIpattr | src/store/registry.rs:588-618 | the in-place flush is the flush function |
| LiveRegistry.Registry.RemoveCalls | src/store/registry.rs:620-638 | the nested removal loops are the removal function |
| LiveRegistry.Registry.EvictIfNeeded | src/store/registry.rs:497-546 | the sorting eviction makes an allowed choice and is the eviction function for it; calls that go come before unpinned ones that stay |
| LiveRegistry.Registry.EvictStale | src/store/registry.rs:551-577 | the filtering loop is the stale-eviction function |
| LiveRegistry.ChooseVictims | src/store/registry.rs:501-530 | ranking and taking the excess yields unpinned calls, and every unpinned call left comes after all of them, by state, first INVITE and id |
| CorrelatorKeeps.SipKeeps | src/correlate/mod.rs:337-512 | a SIP message keeps every invariant, its terminal handling included |
| CorrelatorKeeps.TerminalKeeps | src/correlate/mod.rs:922-1043 | retiring a call keeps them, with or without keeping terminated calls |
| CorrelatorKeeps.TeardownOnce | src/correlate/mod.rs:498-512 | a call that ends emits exactly one teardown event with its state, and none again while it stays live |
| CorrelatorKeeps.TickKeeps | src/correlate/mod.rs:152-221 | a tick keeps them |
| CorrelatorKeeps.RtpSane | src/correlate/mod.rs:553-745 | an RTP packet keeps them and counts as taken exactly when its stream or a call of its endpoints is known |
| CorrelatorKeeps.RunKeeps | src/correlate/mod.rs:152-1043 | so does every run, and the packets and bytes taken, in all and at each address, are those the run's inputs say |
| CallRecords.CallsRecord | src/correlate/mod.rs:337-512 | over every run a call is there exactly while it has messages since it was opened, and is the call state machine run over those, apart from what media move |
| Activity.LastActivity | src/correlate/mod.rs:553-793 | over every run a call's last activity is the time of the last input that touched it: its message, a packet of its streams, a report on the first stream of its source |
| Activity.EndpointsAnnounced | src/correlate/mod.rs:337-512 | over every run an address belongs to the call whose SDP last announced it, while that call is there |
| Activity.StreamsTell | src/correlate/mod.rs:553-745 | over every run a stream belongs to the call its source was announced for when it opened, else its destination, and holds exactly its packets: count, bytes, first and last time, loss window |
| Activity.AddressesKnown | src/correlate/mod.rs:565-630 | over every run a call knows the addresses of all its media |
| Activity.TickCalls | src/correlate/mod.rs:184-213 | maintenance removes exactly the cap's victims and the calls past the limit that neither focus nor search protects |
| Activity.StillActiveStays | src/store/registry.rs:551-577 | from the start, a tick within the cap removes a call still up if and only if maintenance is due, the limit set, the call unprotected, and its last touching input further back than the limit |
| Tickers.TickersKeepTime | src/correlate/mod.rs:152-183 | over every run, attribution is due one second and maintenance five seconds of capture time after their last time, counted from the first tick |
| Tickers.IdlePruned | src/correlate/mod.rs:206-213 | maintenance leaves exactly the addresses with a call up or seen within the hour |
| Attribution.WholeRun | src/correlate/mod.rs:152-1043 | from the start: index agreement, bookkeeping within live calls, every live terminal call handled, teardown counters equal to teardown events; at each address and in all, packets and bytes charged plus open tails plus those dropped are those the inputs brought, none missing if and only if no step cut an open tail or pruned a count; charged loss at least reported loss |
| Attribution.StepDrops | src/store/registry.rs:534-546 | a step drops exactly the open tails of the streams it cuts and the totals of the addresses it prunes |
| Attribution.DropIff | src/correlate/mod.rs:208-213 | so it drops something if and only if it meets such a stream or address |
| Attribution.ChargingTickCutsNothing | src/correlate/mod.rs:152-168 | a tick on which the one-second attribution is due cuts no stream with an open tail |
| LostPackets.CapLosesPacket | src/store/registry.rs:534-546 | with terminated calls kept and no stream allowed, a call cancelled after its first packet leaves it charged to nobody, at either end and in all |
| LostPackets.IdleLosesPacket | src/correlate/mod.rs:208-213 | an address outside the signalling is pruned an hour after its packet, and the packet with it |
| CorrelatorKeeps.AgreementMeans | src/store/registry.rs:444-471 | index agreement key by key, both directions |
| CorrelatorKeeps.AttributedExactly | src/correlate/mod.rs:152-168 | right after the one-second tick totals alone, at each address, make up what was taken and not dropped |
| CorrelatorKeeps.MaintainBounds | src/correlate/mod.rs:184-213 | maintenance brings calls to the cap or the pins and streams to the cap, keeping pinned calls |
| LiveCorrelator.Correlator.IngestSip | src/correlate/mod.rs:337-512 | the in-place step is the machine's step and keeps the invariant |
| LiveCorrelator.Correlator.IngestRtp | src/correlate/mod.rs:553-745 | as above, for RTP; `Activity` says what such steps leave over runs |
| LiveCorrelator.Correlator.IngestRtcp | src/correlate/mod.rs:775-793 | as above, for the call activity of an RTCP report |
| LiveCorrelator.Correlator.OnCallTerminal | src/correlate/mod.rs:922-1043 | the teardown event, the counters, retirement and bookkeeping of a call that ended |
| LiveCorrelator.Correlator.MaybePeriodicFlush | src/correlate/mod.rs:152-213 | both tickers as one step of the machine |
| LiveCorrelator.Correlator.Clear | src/correlate/mod.rs:85-96 | everything but the search query is reset |

## Left out

- TcpReasm.TcpReassembler.Feed: a header whose size plus announced length passes 2^64 is an explicit outcome without output, where a release build wraps the sum and a debug build stops.
- Payload.Decode: lengths up to 2^63-1 are taken to allocate; whether they do depends on memory, which is not part of this model. Addresses are 64 bits wide, and a release build aborts on panic (Cargo.toml, lines 49-52).
- EvlogFile.LogTimesExactIff: speaks of record times; a decoded health bucket carries its own bucket time instead.
- StatsReplay.LiveEqualsOffline: the second half needs a reader's clock below the 64-bit limit, since saturated clocks can coincide.
- Percentile.WeightedPercentile: over reals and unbounded weights; rounding, NaN ordering and a 64-bit weight sum that overflows are not modelled.
- MediaStats.MediaStatsAccumulator.ObserveJitter: over reals, so rounding is not modelled.
- Counters are unbounded where the source uses u64 or usize, except where wrap or saturation matters (times, varints, sequence numbers, call delays); interned call numbers are not cut to 32 bits.
- Floating-point sums of the statistics are parameters about which nothing is assumed.
- Field codecs work on byte sequences rather than on a moving cursor; the log reader and writer do move a cursor and a reused buffer.
- The 64-bit mask is 64 booleans, and the OR of disjoint varint groups an addition.
- IPv6 flow information and scope are not kept in addresses, as the log does not keep them.
- The reader's first read of four bytes is taken to return all there are; other I/O errors are not modelled.
- Appending a second session to a log, which writes a second header.
- The registry holds per-IP totals and last-seen times; the bucket rings behind them are `IpStats.IpStats`, and a stream's loss accumulator is represented by the reference window that `MediaStats.MediaStatsAccumulator` refines.
- The in-place call (`Call.LiveCall`) stands alone; the registry holds calls as values in its map and replaces them by the same transition function.
- The order in which hash maps yield their keys is a free choice of each step; ties between streams first seen at the same time are too.
- The matches of a search query are an input, as the filter language is not modelled.
- Caller and callee identities, stored messages, diagnostics, SDP parsing (learned endpoints are an input), codecs, clock rates per payload type, TURN, one-way detection, RTT and MOS formulas.
- Per-call RTP and RTCP packet counters, stream history samples and the emission of snapshot events on a tick.
- The balance of the per-IP concurrent-call counter: every initial INVITE adds one and only one teardown subtracts.
- Heatmap, SIP signalling statistics and snapshot caches.
- The final report that folds the accumulator's maps into percentages and rankings.
- Capture, decoding of frames and SIP headers, user interface, JSON import and export.
