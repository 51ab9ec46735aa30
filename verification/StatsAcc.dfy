/** The accumulator that is updated in place, proved against the functions of `EvStats`. */
module StatsAccumulator {
  import opened Prelude
  import opened Net
  import opened Sip
  import opened Utf8
  import opened Events
  import opened Codec
  import opened Payload
  import opened SkipParsers
  import opened EvlogFile
  import opened S = EvStats
  import StatsReplay

  class StatsAcc {
    const fp: Floats
    var events: EventCounts
    var intern: map<Str, nat>
    var callIds: set<nat>
    var seizureIds: set<nat>
    var calls: CallCounts
    var windows: map<nat, WindowAcc>
    var media: Media
    var sipBytes: nat
    var sipClass: Classes
    var fail: FailSplit
    var timings: Timings
    var answered: nat
    var rttSum: F64
    var rttN: nat
    var startTs: Option<u64>
    var endTs: Option<u64>

    ghost function View(): Stats
      reads this
    {
      Stats(events, intern, callIds, seizureIds, calls, windows, media, sipBytes, sipClass, fail, timings,
            answered, rttSum, rttN, startTs, endTs)
    }

    constructor (fp: Floats)
      ensures View() == Init(fp) && this.fp == fp
    {
      this.fp := fp;
      events := EventCounts(0, 0, 0, 0, 0, 0, 0, 0, 0);
      intern, callIds, seizureIds, windows := map[], {}, {}, map[];
      calls := CallCounts(0, 0, 0, 0, 0, 0);
      media := Media(map[], map[], map[], Counters(0, 0, 0));
      sipBytes, sipClass := 0, [0, 0, 0, 0, 0, 0, 0];
      fail, timings := FailSplit(0, 0, 0, 0, 0), Timings([], fp.zero, 0, fp.zero, 0, fp.zero, 0, map[]);
      answered, rttSum, rttN := 0, fp.zero, 0;
      startTs, endTs := None, None;
    }

    method NoteTs(ts: u64)
      modifies this`startTs, this`endTs
      ensures startTs == Some(old(startTs).GetOr(ts)) && endTs == Some(ts)
    {
      if startTs.None? {
        startTs := Some(ts);
      }
      endTs := Some(ts);
    }

    method Intern(name: Str) returns (id: nat)
      modifies this`intern
      ensures id == Lookup(old(intern), name, |old(intern)|) && intern == old(intern)[name := id]
    {
      if name in intern {
        id := intern[name];
      } else {
        id := |intern|;
        intern := intern[name := id];
      }
    }

    /** The clock, the call's number and the set of calls, at the start of an event of a call. */
    method Admit(ts: u64, name: Str) returns (cid: nat)
      modifies this`startTs, this`endTs, this`intern, this`callIds
      ensures cid == IdOf(old(View()), name) && View() == Admitted(old(View()), ts, name)
    {
      NoteTs(ts);
      cid := Intern(name);
      callIds := callIds + {cid};
    }

    /** `windows.entry(win).or_default()` */
    method Window(win: nat) returns (w: WindowAcc)
      ensures w == Lookup(windows, win, EmptyWindow(fp.zero))
    {
      w := if win in windows then windows[win] else EmptyWindow(fp.zero);
    }

    /** Counts a request by its method. */
    method CountRequest(e: SipMsgEvt, cid: nat) returns (invite: bool)
      modifies this`calls, this`seizureIds
      ensures invite == IsMethod(e, INVITE) && View() == RequestCounted(old(View()), cid, e)
    {
      invite := false;
      if e.isRequest && e.method_.Some? {
        if EqIgnoreCase(e.method_.value, INVITE) {
          calls := calls.(invite := calls.invite + 1);
          seizureIds := seizureIds + {cid};
          invite := true;
        } else if EqIgnoreCase(e.method_.value, BYE) {
          calls := calls.(bye := calls.bye + 1);
        } else if EqIgnoreCase(e.method_.value, CANCEL) {
          calls := calls.(cancel := calls.cancel + 1);
        }
      }
    }

    /** Counts a response by its class. */
    method CountResponse(e: SipMsgEvt)
      modifies this`sipClass
      ensures View() == ResponseCounted(old(View()), e)
    {
      if !e.isRequest && e.status.Some? {
        var cls := e.status.value / 100;
        if 1 <= cls <= 6 {
          sipClass := sipClass[cls := sipClass[cls] + 1];
        }
      }
    }

    method CountSip(e: SipMsgEvt, cid: nat) returns (invite: bool)
      modifies this`events, this`sipBytes, this`calls, this`seizureIds, this`sipClass
      ensures invite == IsMethod(e, INVITE) && View() == SipCounted(old(View()), cid, e)
    {
      hide IsMethod, RequestCounted, ResponseCounted;
      events := events.(sip := events.sip + 1);
      sipBytes := sipBytes + |e.raw|;
      invite := CountRequest(e, cid);
      CountResponse(e);
    }

    method SipWindow(ts: u64, cid: nat, e: SipMsgEvt, invite: bool)
      modifies this`windows
      ensures View() == old(View()).(windows := old(windows)[WindowStart(ts) :=
        SipWindowed(WindowAt(fp, old(View()), ts), cid, e, invite)])
    {
      var win := ts / WINDOW_US * WINDOW_US;
      var w := Window(win);
      w := w.(calls := w.calls + {cid}, sipMsgs := w.sipMsgs + 1, sipBytes := w.sipBytes + |e.raw|);
      if invite {
        w := w.(invites := w.invites + {cid});
      }
      windows := windows[win := w];
    }

    method IngestSip(ts: u64, e: SipMsgEvt)
      modifies this
      ensures View() == S.IngestSip(fp, old(View()), ts, e)
    {
      var cid := Admit(ts, e.callId);
      var invite := CountSip(e, cid);
      SipWindow(ts, cid, e, invite);
    }

    /** A teardown's window. */
    method TeardownWindow(ts: u64, cid: nat, e: CallEvt)
      modifies this`windows
      ensures View() == old(View()).(windows := old(windows)[WindowStart(ts) :=
        TornDown(WindowAt(fp, old(View()), ts), e, cid)])
    {
      hide ClassifyFail;
      var win := ts / WINDOW_US * WINDOW_US;
      var w := Window(win);
      w := w.(teardowns := w.teardowns + 1, calls := w.calls + {cid});
      match e.state {
        case 3 => w := w.(completed := w.completed + 1);
        case 4 => w := w.(fail := w.fail.Bump(ClassifyFail(e.hangupCode)));
        case 5 => w := w.(canceled := w.canceled + 1);
        case _ =>
      }
      if e.answerTs.Some? {
        w := w.(answered := w.answered + 1);
      }
      windows := windows[win := w];
    }

    /** A teardown's counters. */
    method CountTeardown(e: CallEvt)
      modifies this`calls, this`fail, this`answered
      ensures View() == S.CountTeardown(old(View()), e)
    {
      hide ClassifyFail;
      match e.state {
        case 3 => calls := calls.(completed := calls.completed + 1);
        case 4 =>
          calls := calls.(failed := calls.failed + 1);
          fail := fail.Bump(ClassifyFail(e.hangupCode));
        case 5 => calls := calls.(canceled := calls.canceled + 1);
        case _ =>
      }
      if e.answerTs.Some? {
        answered := answered + 1;
      }
    }

    method AddSamples(e: CallEvt)
      modifies this`timings
      ensures timings == S.AddSamples(fp, old(timings), e)
    {
      if e.pddMs.Some? {
        timings := timings.(pddSamples := timings.pddSamples + [e.pddMs.value]);
      }
      if e.setupMs.Some? {
        timings := timings.(setupSum := fp.add(timings.setupSum, fp.ofU32(e.setupMs.value)),
                            setupN := timings.setupN + 1);
      }
      if e.hangupCode.Some? {
        var code := e.hangupCode.value;
        timings := timings.(hangup := timings.hangup[code := Lookup(timings.hangup, code, 0) + 1]);
      }
    }

    method AddSpans(e: CallEvt)
      modifies this`timings
      ensures timings == S.AddSpans(fp, old(timings), e)
    {
      var end := if e.endTs.Some? then e.endTs else e.byeTs;
      if e.answerTs.Some? && end.Some? && end.value >= e.answerTs.value {
        var talk := fp.millis(end.value - e.answerTs.value);
        timings := timings.(talkSum := fp.add(timings.talkSum, talk), talkN := timings.talkN + 1);
      }
      if e.inviteTs.Some? && end.Some? && end.value >= e.inviteTs.value {
        var dur := fp.millis(end.value - e.inviteTs.value);
        timings := timings.(callDurSum := fp.add(timings.callDurSum, dur), callDurN := timings.callDurN + 1);
      }
    }

    method TimeTeardown(e: CallEvt)
      modifies this`timings
      ensures View() == old(View()).(timings := S.TimeTeardown(fp, old(timings), e))
    {
      AddSamples(e);
      AddSpans(e);
    }

    method NoteCall(ts: u64, name: Str) returns (cid: nat)
      modifies this`startTs, this`endTs, this`intern, this`callIds, this`events
      ensures cid == IdOf(old(View()), name) && View() == S.NoteCall(old(View()), ts, name)
    {
      cid := Admit(ts, name);
      events := events.(call := events.call + 1);
    }

    method IngestCall(ts: u64, e: CallEvt)
      modifies this
      ensures View() == S.IngestCall(fp, old(View()), ts, e)
    {
      var cid := NoteCall(ts, e.callId);
      if e.kind != Teardown {
        return;
      }
      hide S.CountTeardown, S.TimeTeardown, TornDown;
      TeardownWindow(ts, cid, e);
      CountTeardown(e);
      TimeTeardown(e);
    }

    /** The snapshot's delta against the stream's last one, kept and added up. */
    method AddSnap(key: StreamId, e: SnapLite) returns (d: Counters)
      modifies this`media
      ensures d == SnapStep(old(media).lastSnap, key, e)
      ensures View() == old(View()).(media := SnapMedia(old(media), key, e, d))
    {
      var m := media;
      var prev := if key in m.lastSnap then m.lastSnap[key] else SnapState(0, 0, 0);
      var pkts := SatSub(e.packets, prev.packets);
      var lost := SatSub(e.lost, prev.lost);
      var bytes := SatSub(e.bytes, prev.bytes);
      m := m.(lastSnap := m.lastSnap[key := SnapState(e.packets, e.lost, e.bytes)]);
      m := m.(lastQuality := m.lastQuality[key := StreamQuality(e.packets, e.mos, e.jitterMs, e.rttAvgMs)]);
      m := m.(all := m.all.Add(pkts, lost, bytes));
      if (pkts > 0 || lost > 0 || bytes > 0) && e.flow.Some? {
        m := m.(ipLoss := AddIp(m.ipLoss, e.flow.value.src.ip, Counters(pkts, lost, bytes)));
        m := m.(ipLoss := AddIp(m.ipLoss, e.flow.value.dst.ip, Counters(pkts, lost, bytes)));
      }
      media := m;
      d := Counters(pkts, lost, bytes);
    }

    method AddSnapWindow(ts: u64, cid: nat, ssrc: u32, d: Counters)
      modifies this`windows
      ensures View() == old(View()).(windows := old(windows)[WindowStart(ts) :=
        SnapWindow(WindowAt(fp, old(View()), ts), cid, ssrc, d)])
    {
      var win := ts / WINDOW_US * WINDOW_US;
      var w := Window(win);
      windows := windows[win := w.(loss := w.loss.Add(d.pkts, d.lost, d.bytes), calls := w.calls + {cid},
                                   streams := w.streams + {(cid, ssrc)})];
    }

    method NoteSnap(ts: u64, name: Str) returns (cid: nat)
      modifies this`startTs, this`endTs, this`intern, this`callIds, this`events
      ensures cid == IdOf(old(View()), name) && View() == S.NoteSnap(old(View()), ts, name)
    {
      cid := Admit(ts, name);
      events := events.(streamSnap := events.streamSnap + 1);
    }

    method IngestStreamSnap(ts: u64, e: SnapLite)
      modifies this
      ensures View() == IngestSnap(fp, old(View()), ts, e)
    {
      var cid := NoteSnap(ts, e.callId);
      var d := AddSnap(StreamId(cid, e.ssrc, e.flow.GetOr(UNKNOWN_FLOW)), e);
      AddSnapWindow(ts, cid, e.ssrc, d);
    }

    method IngestRtcpRtt(ts: u64, rttMs: F64)
      modifies this
      ensures View() == IngestRtt(fp, old(View()), ts, rttMs)
    {
      NoteTs(ts);
      events := events.(rtcpRtt := events.rtcpRtt + 1);
      rttSum := fp.add(rttSum, rttMs);
      rttN := rttN + 1;
      var win := ts / WINDOW_US * WINDOW_US;
      var w := Window(win);
      windows := windows[win := w.(rttSum := fp.add(w.rttSum, rttMs), rttN := w.rttN + 1)];
    }

    method CountOnly(ts: u64, ty: byte)
      modifies this`startTs, this`endTs, this`events
      ensures View() == Count(old(View()), ts, ty)
    {
      NoteTs(ts);
      match ty {
        case 2 => events := events.(txn := events.txn + 1);
        case 6 => events := events.(health := events.health + 1);
        case 8 => events := events.(diag := events.diag + 1);
        case _ => events := events.(error := events.error + 1);
      }
    }

    /** The live feed. */
    method Ingest(ev: Event)
      modifies this
      ensures View() == S.Ingest(fp, old(View()), ev)
    {
      match ev {
        case SipMsg(ts, e) => IngestSip(ts, e);
        case Call(ts, e) => IngestCall(ts, e);
        case StreamSnap(ts, e) =>
          IngestStreamSnap(ts, SnapLite(e.callId, e.ssrc, Some(e.flow), e.packets, e.lost, e.bytes,
                                        e.jitterMs, e.mos, e.rttAvgMs));
        case RtcpRtt(ts, e) => IngestRtcpRtt(ts, e.rttMs);
        case _ => CountOnly(ev.TsUs(), ev.TypeCode());
      }
    }

    method SkipOne()
      modifies this`events
      ensures View() == Skipped(old(View()))
    {
      events := events.(skipped := events.skipped + 1);
    }

    /** The offline feed; not `alive` when decoding stopped the process. */
    method IngestRecord(ty: byte, ts: u64, payload: seq<byte>) returns (alive: bool)
      modifies this
      ensures S.IngestRecord(fp, old(View()), ty, ts, payload) == if alive then Some(View()) else None
      ensures !alive ==> View() == old(View())
    {
      alive := true;
      if ty == 4 {
        var lite := ParseSnapLite(payload);
        if lite.Some? {
          IngestStreamSnap(ts, lite.value);
        } else {
          SkipOne();
        }
      } else if ty == 5 {
        var rtt := ParseRttMs(payload);
        if rtt.Some? {
          IngestRtcpRtt(ts, rtt.value);
        } else {
          SkipOne();
        }
      } else if ty == 1 || ty == 3 {
        match Decode(ty, ts, payload) {
          case Decoded(ev) => Ingest(ev);
          case Malformed => SkipOne();
          case Fatal => alive := false;
        }
      } else {
        CountOnly(ts, ty);
      }
    }
  }

  /** Reads a log to its end into a fresh accumulator; a framing error keeps what came before. */
  method Scan(reader: EvlogReader, fp: Floats) returns (acc: StatsAcc, alive: bool)
    requires reader.Valid()
    modifies reader
    ensures fresh(acc)
    ensures StatsReplay.Scanned(fp, Init(fp), old(reader.Rest()), old(reader.lastTs))
         == if alive then Some(acc.View()) else None
  {
    hide S.IngestRecord, StatsReplay.Scanned, ParseRecord, Init;
    acc := new StatsAcc(fp);
    alive := true;
    while true
      invariant reader.Valid() && fresh(acc) && acc.fp == fp
      invariant StatsReplay.Scanned(fp, acc.View(), reader.Rest(), reader.lastTs)
             == StatsReplay.Scanned(fp, Init(fp), old(reader.Rest()), old(reader.lastTs))
      decreases |reader.Rest()|
    {
      ParseConsumes(reader.Rest(), reader.lastTs);
      ghost var view, rest, clock := acc.View(), reader.Rest(), reader.lastTs;
      var raw := reader.NextRaw();
      if raw.Bad? {
        StatsReplay.ScanStep(fp, view, rest, clock);
        acc.SkipOne();
        break;
      }
      StatsReplay.ScanStep(fp, view, rest, clock);
      if raw.value.None? {
        break;
      }
      alive := acc.IngestRecord(raw.value.value.ty, raw.value.value.ts, raw.value.value.payload);
      if !alive {
        break;
      }
    }
  }

  lemma FoldStep(fp: Floats, s: Stats, events: seq<Event>, i: nat)
    requires i < |events|
    ensures Fold(fp, s, events[i..]) == Fold(fp, S.Ingest(fp, s, events[i]), events[i + 1..])
  {
    assert events[i..][0] == events[i] && events[i..][1..] == events[i + 1..];
  }

  lemma FoldNone(fp: Floats, s: Stats)
    ensures Fold(fp, s, []) == s
  {
  }

  /** One event of a session, to the live statistics and to the log. */
  method Record(live: StatsAcc, writer: EvlogWriter, ev: Event)
    requires writer.Valid()
    modifies live, writer, writer.payloadBuf, writer.recBuf
    ensures live.View() == S.Ingest(live.fp, old(live.View()), ev)
    ensures writer.Valid() && writer.events == old(writer.events) + [ev] && writer.tz == old(writer.tz)
  {
    live.Ingest(ev);
    writer.Write(ev);
  }

  /** Every event to the live statistics and to the log, in turn. */
  method RecordAll(live: StatsAcc, writer: EvlogWriter, events: seq<Event>)
    requires writer.Valid() && writer.events == []
    modifies live, writer, writer.payloadBuf, writer.recBuf
    ensures live.View() == Fold(live.fp, old(live.View()), events)
    ensures writer.Valid() && writer.events == events && writer.tz == old(writer.tz)
  {
    hide StatsAcc.View, EvlogWriter.Valid, Fold, S.Ingest;
    var i := 0;
    assert events[0..] == events;
    while i < |events|
      invariant 0 <= i <= |events|
      invariant writer.Valid() && writer.events == events[..i] && writer.tz == old(writer.tz)
      invariant Fold(live.fp, live.View(), events[i..]) == Fold(live.fp, old(live.View()), events)
    {
      FoldStep(live.fp, live.View(), events, i);
      Record(live, writer, events[i]);
      assert events[..i + 1] == events[..i] + [events[i]];
      i := i + 1;
    }
    assert events[..i] == events && events[i..] == [];
    FoldNone(live.fp, live.View());
  }

  /** A session: every event goes to the live statistics and to the log. */
  method Session(events: seq<Event>, tz: Octets, fp: Floats) returns (live: StatsAcc, log: seq<byte>)
    ensures fresh(live) && live.View() == Fold(fp, Init(fp), events)
    ensures log == Header(tz) + LogBytes(events)
  {
    hide Fold, LogBytes, Init;
    live := new StatsAcc(fp);
    var writer := new EvlogWriter(tz);
    RecordAll(live, writer, events);
    log := writer.sink;
  }

  /** Scanning the log of a session whose times never go back gives the session's own statistics. */
  method SessionThenScan(events: seq<Event>, tz: Octets, fp: Floats) returns (live: StatsAcc, offline: StatsAcc)
    requires AllFit(Items(events, 0)) && NeverBack(TimesOf(events), 0)
    ensures live.View() == offline.View() == Fold(fp, Init(fp), events)
  {
    var log;
    live, log := Session(events, tz, fp);
    HeaderReads(tz, LogBytes(events));
    var reader := new EvlogReader(log);
    var alive;
    offline, alive := Scan(reader, fp);
    StatsReplay.LiveEqualsOffline(fp, events);
  }
}
