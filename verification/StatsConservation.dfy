/** What every run of the accumulator keeps. */
module StatsConservation {
  import opened Prelude
  import opened Sip
  import opened Events
  import opened Utf8
  import opened SkipParsers
  import Payload
  import opened EvStats
  import opened Sums

  // Projections summed over windows and streams.
  function WPkts(w: WindowAcc): nat { w.loss.pkts }
  function WLost(w: WindowAcc): nat { w.loss.lost }
  function WBytes(w: WindowAcc): nat { w.loss.bytes }
  function WCompleted(w: WindowAcc): nat { w.completed }
  function WCanceled(w: WindowAcc): nat { w.canceled }
  function WAnswered(w: WindowAcc): nat { w.answered }
  function WSipMsgs(w: WindowAcc): nat { w.sipMsgs }
  function WSipBytes(w: WindowAcc): nat { w.sipBytes }
  function WRttN(w: WindowAcc): nat { w.rttN }
  function WNotFound(w: WindowAcc): nat { w.fail.notfound }
  function WReject(w: WindowAcc): nat { w.fail.reject }
  function WBusy(w: WindowAcc): nat { w.fail.busy }
  function WTimeout(w: WindowAcc): nat { w.fail.timeout }
  function WFailed(w: WindowAcc): nat { w.fail.fail }

  function SPackets(s: SnapState): nat { s.packets }
  function SBytes(s: SnapState): nat { s.bytes }

  /** No window answers or concludes more calls than it tore down. */
  predicate WindowOk(w: WindowAcc) {
    w.answered <= w.teardowns && w.completed + w.canceled + w.fail.Total() <= w.teardowns
  }

  /** The part of the state that the conservation laws speak of. */
  datatype Totals = Totals(
    windows: map<nat, WindowAcc>, all: Counters, rttN: nat, sip: nat, sipBytes: nat,
    completed: nat, failed: nat, canceled: nat, answered: nat, fail: FailSplit)

  function TotalsOf(s: Stats): Totals {
    Totals(s.windows, s.media.all, s.rttN, s.events.sip, s.sipBytes,
           s.calls.completed, s.calls.failed, s.calls.canceled, s.answered, s.fail)
  }

  ghost predicate MediaConserved(t: Totals) {
    && t.all.pkts == SumMap(t.windows, WPkts)
    && t.all.lost == SumMap(t.windows, WLost)
    && t.all.bytes == SumMap(t.windows, WBytes)
    && t.rttN == SumMap(t.windows, WRttN)
    && t.sip == SumMap(t.windows, WSipMsgs)
    && t.sipBytes == SumMap(t.windows, WSipBytes)
  }

  ghost predicate CallsConserved(t: Totals) {
    && t.failed == t.fail.Total()
    && t.completed == SumMap(t.windows, WCompleted)
    && t.canceled == SumMap(t.windows, WCanceled)
    && t.answered == SumMap(t.windows, WAnswered)
  }

  /** Each failure class is the sum of its windows. */
  ghost predicate FailsConserved(t: Totals) {
    t.fail == FailSplit(SumMap(t.windows, WNotFound), SumMap(t.windows, WReject), SumMap(t.windows, WBusy),
                        SumMap(t.windows, WTimeout), SumMap(t.windows, WFailed))
  }

  ghost predicate WindowsOk(windows: map<nat, WindowAcc>) {
    forall k :: k in windows ==> WindowOk(windows[k])
  }

  ghost predicate AllConserved(t: Totals) {
    MediaConserved(t) && CallsConserved(t) && FailsConserved(t) && WindowsOk(t.windows)
  }

  ghost predicate Conserved(s: Stats) {
    AllConserved(TotalsOf(s))
  }

  /** One window replaced: each total moves by that window's own change. */
  lemma WindowSet(windows: map<nat, WindowAcc>, k: nat, zero: F64, w: WindowAcc, f: WindowAcc -> nat)
    requires f(EmptyWindow(zero)) == 0
    ensures SumMap(windows[k := w], f) + f(Lookup(windows, k, EmptyWindow(zero))) == SumMap(windows, f) + f(w)
  {
    SumSet(windows, f, k, w);
  }

  /** The totals with window `k` going from `o` to `w`, its counters moved along. */
  ghost predicate MediaStep(t: Totals, k: nat, o: WindowAcc, w: WindowAcc, t': Totals) {
    && t'.windows == t.windows[k := w]
    && t'.all.pkts + o.loss.pkts == t.all.pkts + w.loss.pkts
    && t'.all.lost + o.loss.lost == t.all.lost + w.loss.lost
    && t'.all.bytes + o.loss.bytes == t.all.bytes + w.loss.bytes
    && t'.rttN + o.rttN == t.rttN + w.rttN
    && t'.sip + o.sipMsgs == t.sip + w.sipMsgs
    && t'.sipBytes + o.sipBytes == t.sipBytes + w.sipBytes
  }

  ghost predicate CallStep(t: Totals, k: nat, o: WindowAcc, w: WindowAcc, t': Totals) {
    && t'.windows == t.windows[k := w]
    && t'.completed + o.completed == t.completed + w.completed
    && t'.canceled + o.canceled == t.canceled + w.canceled
    && t'.answered + o.answered == t.answered + w.answered
    && t'.failed + o.fail.Total() == t.failed + w.fail.Total()
    && t'.fail.notfound + o.fail.notfound == t.fail.notfound + w.fail.notfound
    && t'.fail.reject + o.fail.reject == t.fail.reject + w.fail.reject
    && t'.fail.busy + o.fail.busy == t.fail.busy + w.fail.busy
    && t'.fail.timeout + o.fail.timeout == t.fail.timeout + w.fail.timeout
    && t'.fail.fail + o.fail.fail == t.fail.fail + w.fail.fail
    && (WindowOk(o) ==> WindowOk(w))
  }

  lemma MediaStepConserves(t: Totals, k: nat, zero: F64, w: WindowAcc, t': Totals)
    requires MediaConserved(t) && MediaStep(t, k, Lookup(t.windows, k, EmptyWindow(zero)), w, t')
    ensures MediaConserved(t')
  {
    WindowSet(t.windows, k, zero, w, WPkts);
    WindowSet(t.windows, k, zero, w, WLost);
    WindowSet(t.windows, k, zero, w, WBytes);
    WindowSet(t.windows, k, zero, w, WRttN);
    WindowSet(t.windows, k, zero, w, WSipMsgs);
    WindowSet(t.windows, k, zero, w, WSipBytes);
  }

  lemma CallStepConserves(t: Totals, k: nat, zero: F64, w: WindowAcc, t': Totals)
    requires CallsConserved(t) && WindowsOk(t.windows)
    requires CallStep(t, k, Lookup(t.windows, k, EmptyWindow(zero)), w, t')
    ensures CallsConserved(t') && WindowsOk(t'.windows)
  {
    WindowSet(t.windows, k, zero, w, WCompleted);
    WindowSet(t.windows, k, zero, w, WCanceled);
    WindowSet(t.windows, k, zero, w, WAnswered);
    assert WindowOk(Lookup(t.windows, k, EmptyWindow(zero)));
  }

  lemma FailStepConserves(t: Totals, k: nat, zero: F64, w: WindowAcc, t': Totals)
    requires FailsConserved(t) && CallStep(t, k, Lookup(t.windows, k, EmptyWindow(zero)), w, t')
    ensures FailsConserved(t')
  {
    hide WindowOk;
    WindowSet(t.windows, k, zero, w, WNotFound);
    WindowSet(t.windows, k, zero, w, WReject);
    WindowSet(t.windows, k, zero, w, WBusy);
    WindowSet(t.windows, k, zero, w, WTimeout);
    WindowSet(t.windows, k, zero, w, WFailed);
  }

  lemma StepConserves(fp: Floats, s: Stats, ts: u64, w: WindowAcc, t': Totals)
    requires Conserved(s)
    requires MediaStep(TotalsOf(s), WindowStart(ts), WindowAt(fp, s, ts), w, t')
    requires CallStep(TotalsOf(s), WindowStart(ts), WindowAt(fp, s, ts), w, t')
    ensures AllConserved(t')
  {
    MediaStepConserves(TotalsOf(s), WindowStart(ts), fp.zero, w, t');
    CallStepConserves(TotalsOf(s), WindowStart(ts), fp.zero, w, t');
    FailStepConserves(TotalsOf(s), WindowStart(ts), fp.zero, w, t');
  }

  lemma AdmittedTotals(s: Stats, ts: u64, name: Str)
    ensures TotalsOf(Admitted(s, ts, name)) == TotalsOf(s)
  {
  }

  lemma SipCountedTotals(s: Stats, cid: nat, e: SipMsgEvt)
    ensures var t := TotalsOf(s);
      TotalsOf(SipCounted(s, cid, e)) == t.(sip := t.sip + 1, sipBytes := t.sipBytes + |e.raw|)
  {
    hide IsMethod, ResponseClass;
  }

  lemma SipSteps(t: Totals, k: nat, o: WindowAcc, cid: nat, e: SipMsgEvt, invite: bool)
    ensures var w := SipWindowed(o, cid, e, invite);
      var t' := t.(windows := t.windows[k := w], sip := t.sip + 1, sipBytes := t.sipBytes + |e.raw|);
      MediaStep(t, k, o, w, t') && CallStep(t, k, o, w, t')
  {
  }

  lemma SipConserves(fp: Floats, s: Stats, ts: u64, e: SipMsgEvt)
    requires Conserved(s)
    ensures Conserved(IngestSip(fp, s, ts, e))
  {
    hide SipCounted, SipWindowed, Admitted, MediaStep, CallStep, AllConserved, IsMethod;
    var cid, invite := IdOf(s, e.callId), IsMethod(e, INVITE);
    var admitted := Admitted(s, ts, e.callId);
    var v := SipCounted(admitted, cid, e);
    AdmittedTotals(s, ts, e.callId);
    SipCountedTotals(admitted, cid, e);
    assert v.windows == TotalsOf(v).windows == s.windows;
    assert WindowAt(fp, v, ts) == WindowAt(fp, s, ts);
    SipSteps(TotalsOf(s), WindowStart(ts), WindowAt(fp, s, ts), cid, e, invite);
    StepConserves(fp, s, ts, SipWindowed(WindowAt(fp, s, ts), cid, e, invite), TotalsOf(IngestSip(fp, s, ts, e)));
  }

  lemma TornDownBalances(w: WindowAcc, e: CallEvt, cid: nat)
    ensures var v := TornDown(w, e, cid);
      && (WindowOk(w) ==> WindowOk(v))
      && v.fail.Total() == w.fail.Total() + One(e.state == 4)
  {
  }

  lemma NotingKeepsTotals(s: Stats, ts: u64, name: Str)
    ensures TotalsOf(NoteCall(s, ts, name)) == TotalsOf(s)
  {
  }

  function TotalsTornDown(t: Totals, k: nat, w: WindowAcc, e: CallEvt): Totals {
    t.(windows := t.windows[k := w], completed := t.completed + One(e.state == 3),
       failed := t.failed + One(e.state == 4), canceled := t.canceled + One(e.state == 5),
       answered := t.answered + One(e.answerTs.Some?),
       fail := if e.state == 4 then t.fail.Bump(ClassifyFail(e.hangupCode)) else t.fail)
  }

  lemma FinishTotals(fp: Floats, s: Stats, k: nat, w: WindowAcc, e: CallEvt)
    ensures TotalsOf(FinishCall(fp, s, k, w, e)) == TotalsTornDown(TotalsOf(s), k, w, e)
  {
  }

  lemma TornDownSteps(t: Totals, k: nat, o: WindowAcc, e: CallEvt, cid: nat)
    ensures var w := TornDown(o, e, cid);
      var t' := TotalsTornDown(t, k, w, e);
      MediaStep(t, k, o, w, t') && CallStep(t, k, o, w, t')
  {
    TornDownBalances(o, e, cid);
  }

  lemma TeardownConserves(fp: Floats, s: Stats, ts: u64, e: CallEvt, cid: nat)
    requires Conserved(s)
    ensures AllConserved(TotalsTornDown(TotalsOf(s), WindowStart(ts), TornDown(WindowAt(fp, s, ts), e, cid), e))
  {
    var k, o := WindowStart(ts), WindowAt(fp, s, ts);
    TornDownSteps(TotalsOf(s), k, o, e, cid);
    StepConserves(fp, s, ts, TornDown(o, e, cid), TotalsTornDown(TotalsOf(s), k, TornDown(o, e, cid), e));
  }

  lemma CallConserves(fp: Floats, s: Stats, ts: u64, e: CallEvt)
    requires Conserved(s)
    ensures Conserved(IngestCall(fp, s, ts, e))
  {
    NotingKeepsTotals(s, ts, e.callId);
    if e.kind == Teardown {
      TeardownConserves(fp, s, ts, e, IdOf(s, e.callId));
      FinishTotals(fp, NoteCall(s, ts, e.callId), WindowStart(ts),
                   TornDown(WindowAt(fp, s, ts), e, IdOf(s, e.callId)), e);
    }
  }

  lemma SnapConserves(fp: Floats, s: Stats, ts: u64, e: SnapLite)
    requires Conserved(s)
    ensures Conserved(IngestSnap(fp, s, ts, e))
  {
    var s' := IngestSnap(fp, s, ts, e);
    StepConserves(fp, s, ts, s'.windows[WindowStart(ts)], TotalsOf(s'));
  }

  lemma RttConserves(fp: Floats, s: Stats, ts: u64, rttMs: F64)
    requires Conserved(s)
    ensures Conserved(IngestRtt(fp, s, ts, rttMs))
  {
    var s' := IngestRtt(fp, s, ts, rttMs);
    StepConserves(fp, s, ts, s'.windows[WindowStart(ts)], TotalsOf(s'));
  }

  lemma CountKeepsTotals(s: Stats, ts: u64, ty: byte)
    ensures TotalsOf(Count(s, ts, ty)) == TotalsOf(s) == TotalsOf(Skipped(s))
  {
  }

  lemma CountConserves(s: Stats, ts: u64, ty: byte)
    requires Conserved(s)
    ensures Conserved(Count(s, ts, ty)) && Conserved(Skipped(s))
  {
    CountKeepsTotals(s, ts, ty);
  }

  /** Totals equal the sums over windows after every live event. */
  lemma IngestConserves(fp: Floats, s: Stats, ev: Event)
    requires Conserved(s)
    ensures Conserved(Ingest(fp, s, ev))
  {
    hide IngestSip, IngestCall, IngestSnap, IngestRtt, Conserved;
    match ev {
      case SipMsg(ts, e) => SipConserves(fp, s, ts, e);
      case Call(ts, e) => CallConserves(fp, s, ts, e);
      case StreamSnap(ts, e) => SnapConserves(fp, s, ts, LiteOf(e, e.callId));
      case RtcpRtt(ts, e) => RttConserves(fp, s, ts, e.rttMs);
      case _ => CountConserves(s, ev.TsUs(), ev.TypeCode());
    }
  }

  /**
    And after every raw record, whatever its bytes, unless it stops the process: that
    takes a SIP or call record with a field too long to allocate.
   */
  lemma RecordConserves(fp: Floats, s: Stats, ty: byte, ts: u64, payload: seq<byte>)
    requires Conserved(s)
    ensures IngestRecord(fp, s, ty, ts, payload).None? <==> (ty == 1 || ty == 3) && Payload.Aborts(ty, payload)
    ensures IngestRecord(fp, s, ty, ts, payload).Some? ==>
      Conserved(IngestRecord(fp, s, ty, ts, payload).value)
  {
    hide IngestSip, IngestCall, IngestSnap, IngestRtt, Conserved, Payload.Aborts, Payload.DecodePayload;
    CountConserves(s, ts, ty);
    if ty == 4 && ParseSnapLite(payload).Some? {
      SnapConserves(fp, s, ts, ParseSnapLite(payload).value);
    } else if ty == 5 && ParseRttMs(payload).Some? {
      RttConserves(fp, s, ts, ParseRttMs(payload).value);
    } else if (ty == 1 || ty == 3) && Payload.Decode(ty, ts, payload).Decoded? {
      IngestConserves(fp, s, Payload.Decode(ty, ts, payload).ev);
    }
  }

  lemma NoWindows(none: map<nat, WindowAcc>, f: WindowAcc -> nat)
    requires none == map[]
    ensures SumMap(none, f) == 0
  {
  }

  lemma EmptyConserved(t: Totals)
    requires t == Totals(map[], Counters(0, 0, 0), 0, 0, 0, 0, 0, 0, 0, FailSplit(0, 0, 0, 0, 0))
    ensures AllConserved(t)
  {
    NoWindows(t.windows, WPkts);
    NoWindows(t.windows, WLost);
    NoWindows(t.windows, WBytes);
    NoWindows(t.windows, WRttN);
    NoWindows(t.windows, WSipMsgs);
    NoWindows(t.windows, WSipBytes);
    NoWindows(t.windows, WCompleted);
    NoWindows(t.windows, WCanceled);
    NoWindows(t.windows, WAnswered);
    NoWindows(t.windows, WNotFound);
    NoWindows(t.windows, WReject);
    NoWindows(t.windows, WBusy);
    NoWindows(t.windows, WTimeout);
    NoWindows(t.windows, WFailed);
  }

  // ----- totals against the last snapshots -----

  /** A stream step: the snapshot and the state it meets. */
  function Fallback(s: Stats, e: SnapLite): Counters {
    var prev := Lookup(s.media.lastSnap, StreamIdOf(s, e), SnapState(0, 0, 0));
    Counters(SatSub(prev.packets, e.packets), SatSub(prev.lost, e.lost), SatSub(prev.bytes, e.bytes))
  }

  /** What the counters of an event's stream fell back by, if anything. */
  function FallbackOf(s: Stats, ev: Event): Counters {
    if ev.StreamSnap? then Fallback(s, LiteOf(ev.snap, ev.snap.callId)) else Counters(0, 0, 0)
  }

  /** Packets and bytes that streams fell back by, over a run. */
  function Fallbacks(fp: Floats, s: Stats, events: seq<Event>): (nat, nat)
    decreases |events|
  {
    if events == [] then (0, 0)
    else
      var n := |events| - 1;
      var (p, b) := Fallbacks(fp, s, events[..n]);
      var d := FallbackOf(Fold(fp, s, events[..n]), events[n]);
      (p + d.pkts, b + d.bytes)
  }

  lemma {:induction false} FoldSnoc(fp: Floats, s: Stats, events: seq<Event>)
    requires events != []
    ensures Fold(fp, s, events) == Ingest(fp, Fold(fp, s, events[..|events| - 1]), events[|events| - 1])
    decreases |events|
  {
    hide Ingest;
    var n := |events| - 1;
    if n == 0 {
      assert events[..n] == [] && events[1..] == [];
    } else {
      assert events[..n][1..] == events[1..][..n - 1];
      FoldSnoc(fp, Ingest(fp, s, events[0]), events[1..]);
    }
  }

  lemma SnapAgainstSnaps(fp: Floats, s: Stats, ts: u64, e: SnapLite)
    ensures var s', d := IngestSnap(fp, s, ts, e), Fallback(s, e);
      && s'.media.all.pkts + SumMap(s.media.lastSnap, SPackets) ==
           s.media.all.pkts + SumMap(s'.media.lastSnap, SPackets) + d.pkts
      && s'.media.all.bytes + SumMap(s.media.lastSnap, SBytes) ==
           s.media.all.bytes + SumMap(s'.media.lastSnap, SBytes) + d.bytes
  {
    var now := SnapState(e.packets, e.lost, e.bytes);
    SumSet(s.media.lastSnap, SPackets, StreamIdOf(s, e), now);
    SumSet(s.media.lastSnap, SBytes, StreamIdOf(s, e), now);
  }

  lemma StepAgainstSnaps(fp: Floats, s: Stats, ev: Event)
    ensures var s', d := Ingest(fp, s, ev), FallbackOf(s, ev);
      && s'.media.all.pkts + SumMap(s.media.lastSnap, SPackets) ==
           s.media.all.pkts + SumMap(s'.media.lastSnap, SPackets) + d.pkts
      && s'.media.all.bytes + SumMap(s.media.lastSnap, SBytes) ==
           s.media.all.bytes + SumMap(s'.media.lastSnap, SBytes) + d.bytes
  {
    if ev.StreamSnap? {
      SnapAgainstSnaps(fp, s, ev.ts, LiteOf(ev.snap, ev.snap.callId));
    }
  }

  /**
    Over any run, total packets and bytes exceed the sum of the last snapshots by
    exactly what streams fell back by.
   */
  lemma {:induction false} TotalsAgainstSnaps(fp: Floats, s: Stats, events: seq<Event>)
    ensures var v, (p, b) := Fold(fp, s, events), Fallbacks(fp, s, events);
      && v.media.all.pkts + SumMap(s.media.lastSnap, SPackets) == s.media.all.pkts + SumMap(v.media.lastSnap, SPackets) + p
      && v.media.all.bytes + SumMap(s.media.lastSnap, SBytes) == s.media.all.bytes + SumMap(v.media.lastSnap, SBytes) + b
    decreases |events|
  {
    hide Ingest, FallbackOf;
    if events != [] {
      var n := |events| - 1;
      TotalsAgainstSnaps(fp, s, events[..n]);
      FoldSnoc(fp, s, events);
      StepAgainstSnaps(fp, Fold(fp, s, events[..n]), events[n]);
    }
  }

  lemma {:induction false} FoldConserves(fp: Floats, s: Stats, events: seq<Event>)
    requires Conserved(s)
    ensures Conserved(Fold(fp, s, events))
    decreases |events|
  {
    hide Ingest, Conserved;
    if events != [] {
      IngestConserves(fp, s, events[0]);
      FoldConserves(fp, Ingest(fp, s, events[0]), events[1..]);
    }
  }

  lemma InitSums(fp: Floats)
    ensures SumMap(Init(fp).media.lastSnap, SPackets) == 0 == SumMap(Init(fp).media.lastSnap, SBytes)
    ensures Init(fp).media.all == Counters(0, 0, 0)
  {
  }

  lemma StartConserved(fp: Floats, s: Stats)
    requires s == Init(fp)
    ensures Conserved(s)
  {
    hide AllConserved;
    EmptyConserved(TotalsOf(s));
  }

  /** A whole session from empty. */
  lemma RunConserves(fp: Floats, events: seq<Event>)
    ensures var v, (p, b) := Fold(fp, Init(fp), events), Fallbacks(fp, Init(fp), events);
      && Conserved(v)
      && v.media.all.pkts == SumMap(v.media.lastSnap, SPackets) + p
      && v.media.all.bytes == SumMap(v.media.lastSnap, SBytes) + b
  {
    hide Fold, Fallbacks, Init, Conserved;
    InitSums(fp);
    assert Conserved(Init(fp)) by {
      StartConserved(fp, Init(fp));
    }
    FoldConserves(fp, Init(fp), events);
    TotalsAgainstSnaps(fp, Init(fp), events);
  }
}
