/** Windows, addresses and session counters, read off the event list. */
module StatsTallies {
  import opened Prelude
  import opened Net
  import opened Sip
  import opened Utf8
  import opened Events
  import opened SkipParsers
  import opened EvStats
  import opened StatsConservation
  import opened StreamTotals

  // ----- what an event is worth -----

  predicate IsTeardown(ev: Event) {
    ev.Call? && ev.call.kind == Teardown
  }

  /** The events that a window counts. */
  predicate Windowed(ev: Event) {
    ev.SipMsg? || IsTeardown(ev) || ev.StreamSnap? || ev.RtcpRtt?
  }

  /** A time in the five minutes from `k` on. */
  predicate Falls(ts: nat, k: nat) {
    k <= ts < k + 300_000_000
  }

  /** What a window counts. */
  datatype Facet =
    | SipMsgs | SipBytes | Teardowns | Completed | Canceled | Answered | FailedAs(kind: FailKind) | Rtts
    | SnapPackets | SnapLost | SnapBytes

  /** Failure codes by class; every other code, and none, is a plain failure. */
  predicate HasCode(code: Option<u32>, kind: FailKind) {
    match kind
    case NotFound => code.Some? && code.value in {404, 410, 484, 485, 604, 1}
    case Busy => code.Some? && code.value in {486, 600, 17}
    case Timeout => code.Some? && code.value in {408, 480, 504, 18, 19}
    case Reject => code.Some? && code.value in {401, 403, 407, 433, 488, 603, 606, 607, 21}
    case Fail =>
      code.None? || code.value !in {404, 410, 484, 485, 604, 1, 486, 600, 17, 408, 480, 504, 18, 19,
                                    401, 403, 407, 433, 488, 603, 606, 607, 21}
  }

  /** What an event adds to a counter; a snapshot adds what it reports beyond the last one of its stream. */
  function Worth(before: seq<Event>, ev: Event, facet: Facet): nat {
    match facet
    case SipMsgs => One(ev.SipMsg?)
    case SipBytes => if ev.SipMsg? then |ev.sip.raw| else 0
    case Teardowns => One(IsTeardown(ev))
    case Completed => One(IsTeardown(ev) && ev.call.state == 3)
    case Canceled => One(IsTeardown(ev) && ev.call.state == 5)
    case Answered => One(IsTeardown(ev) && ev.call.answerTs != None)
    case FailedAs(kind) => One(IsTeardown(ev) && ev.call.state == 4 && HasCode(ev.call.hangupCode, kind))
    case Rtts => One(ev.RtcpRtt?)
    case SnapPackets => if ev.StreamSnap? then SatSub(ev.snap.packets, Latest(before, ev.snap).packets) else 0
    case SnapLost => if ev.StreamSnap? then SatSub(ev.snap.lost, Latest(before, ev.snap).lost) else 0
    case SnapBytes => if ev.StreamSnap? then SatSub(ev.snap.bytes, Latest(before, ev.snap).bytes) else 0
  }

  function FacetOf(w: WindowAcc, facet: Facet): nat {
    match facet
    case SipMsgs => w.sipMsgs
    case SipBytes => w.sipBytes
    case Teardowns => w.teardowns
    case Completed => w.completed
    case Canceled => w.canceled
    case Answered => w.answered
    case FailedAs(NotFound) => w.fail.notfound
    case FailedAs(Reject) => w.fail.reject
    case FailedAs(Busy) => w.fail.busy
    case FailedAs(Timeout) => w.fail.timeout
    case FailedAs(Fail) => w.fail.fail
    case Rtts => w.rttN
    case SnapPackets => w.loss.pkts
    case SnapLost => w.loss.lost
    case SnapBytes => w.loss.bytes
  }

  function InWindow(windows: map<nat, WindowAcc>, k: nat, facet: Facet): nat {
    if k in windows then FacetOf(windows[k], facet) else 0
  }

  /** The events of a list that fall into a window, counted. */
  function CountIn(events: seq<Event>, k: nat, facet: Facet): nat {
    if events == [] then 0
    else
      var n := |events| - 1;
      CountIn(events[..n], k, facet)
      + if Windowed(events[n]) && Falls(events[n].ts, k) then Worth(events[..n], events[n], facet) else 0
  }

  ghost predicate Opened(events: seq<Event>, k: nat) {
    exists n :: 0 <= n < |events| && Windowed(events[n]) && Falls(events[n].ts, k)
  }

  // ----- one event -----

  lemma StartIs(ts: nat, k: nat)
    requires k % 300_000_000 == 0
    ensures WindowStart(ts) == k <==> Falls(ts, k)
    ensures WindowStart(ts) % 300_000_000 == 0
  {
    var q := ts / WINDOW_US;
    assert ts == q * WINDOW_US + ts % WINDOW_US;
    assert k == k / 300_000_000 * 300_000_000;
  }

  /** Window `k` becomes `w`, its counters up by what the event is worth. */
  ghost predicate Books(windows: map<nat, WindowAcc>, after: map<nat, WindowAcc>, before: seq<Event>, ev: Event,
                        facet: Facet)
  {
    if Windowed(ev) then
      var k := WindowStart(ev.ts);
      && k in after && after == windows[k := after[k]]
      && FacetOf(after[k], facet) == InWindow(windows, k, facet) + Worth(before, ev, facet)
    else after == windows
  }

  lemma BooksIf(windows: map<nat, WindowAcc>, after: map<nat, WindowAcc>, before: seq<Event>, ev: Event,
                facet: Facet, zero: F64, w: WindowAcc)
    requires Windowed(ev) && after == windows[WindowStart(ev.ts) := w]
    requires FacetOf(w, facet)
          == FacetOf(Lookup(windows, WindowStart(ev.ts), EmptyWindow(zero)), facet) + Worth(before, ev, facet)
    ensures Books(windows, after, before, ev, facet)
  {
    hide Worth, WindowStart;
  }

  lemma SipLooks(fp: Floats, s: Stats, ts: u64, e: SipMsgEvt)
    ensures IngestSip(fp, s, ts, e).windows
         == s.windows[WindowStart(ts) := SipWindowed(WindowAt(fp, s, ts), IdOf(s, e.callId), e, IsMethod(e, INVITE))]
  {
    hide EqIgnoreCase, IdOf, SipWindowed, WindowStart, IsMethod, ResponseClass;
  }

  lemma SipWindowCounts(w: WindowAcc, cid: nat, invite: bool, before: seq<Event>, ev: Event, facet: Facet)
    requires ev.SipMsg?
    ensures FacetOf(SipWindowed(w, cid, ev.sip, invite), facet) == FacetOf(w, facet) + Worth(before, ev, facet)
  {
  }

  lemma TeardownLooks(fp: Floats, s: Stats, ts: u64, e: CallEvt)
    ensures IngestCall(fp, s, ts, e).windows
         == if e.kind == Teardown
            then s.windows[WindowStart(ts) := TornDown(WindowAt(fp, s, ts), e, IdOf(s, e.callId))] else s.windows
  {
    hide ClassifyFail, TimeTeardown, IdOf, TornDown;
  }

  lemma CodeClass(code: Option<u32>)
    ensures forall kind :: HasCode(code, kind) <==> ClassifyFail(code) == kind
  {
  }

  lemma TornDownCounts(w: WindowAcc, cid: nat, before: seq<Event>, ev: Event, facet: Facet)
    requires IsTeardown(ev)
    ensures FacetOf(TornDown(w, ev.call, cid), facet) == FacetOf(w, facet) + Worth(before, ev, facet)
  {
    CodeClass(ev.call.hangupCode);
    hide ClassifyFail, HasCode;
  }

  lemma SnapLooks(fp: Floats, s: Stats, ts: u64, e: SnapLite)
    ensures var d := SnapStep(s.media.lastSnap, StreamIdOf(s, e), e);
      IngestSnap(fp, s, ts, e).windows
        == s.windows[WindowStart(ts) := SnapWindow(WindowAt(fp, s, ts), IdOf(s, e.callId), e.ssrc, d)]
  {
    hide SnapStep, SnapWindow, IdOf, WindowStart;
  }

  lemma LastSnapIs(s: Stats, before: seq<Event>, e: StreamSnapEvt)
    requires Holds(s, before)
    ensures var prev := Latest(before, e);
      SnapStep(s.media.lastSnap, StreamIdOf(s, LiteOf(e, e.callId)), LiteOf(e, e.callId))
        == Counters(SatSub(e.packets, prev.packets), SatSub(e.lost, prev.lost), SatSub(e.bytes, prev.bytes))
  {
    assert StreamIdOf(s, LiteOf(e, e.callId)) == Key(s.intern, e);
    assert Lookup(s.media.lastSnap, Key(s.intern, e), NO_SNAP) == Latest(before, e);
  }

  lemma SnapWindowCounts(w: WindowAcc, cid: nat, d: Counters, before: seq<Event>, ev: Event, facet: Facet)
    requires ev.StreamSnap?
    requires var prev := Latest(before, ev.snap);
      d == Counters(SatSub(ev.snap.packets, prev.packets), SatSub(ev.snap.lost, prev.lost), SatSub(ev.snap.bytes, prev.bytes))
    ensures FacetOf(SnapWindow(w, cid, ev.snap.ssrc, d), facet) == FacetOf(w, facet) + Worth(before, ev, facet)
  {
    hide Latest;
  }

  lemma RttLooks(fp: Floats, s: Stats, ts: u64, rttMs: F64, facet: Facet, before: seq<Event>, ev: Event)
    requires ev.RtcpRtt?
    ensures var after := IngestRtt(fp, s, ts, rttMs).windows;
      && WindowStart(ts) in after && after == s.windows[WindowStart(ts) := after[WindowStart(ts)]]
      && FacetOf(after[WindowStart(ts)], facet) == FacetOf(WindowAt(fp, s, ts), facet) + Worth(before, ev, facet)
  {
    hide WindowStart;
  }

  /** An event books what it is worth in its own window, and touches no other. */
  lemma EventBooks(fp: Floats, s: Stats, before: seq<Event>, ev: Event, facet: Facet)
    requires Holds(s, before)
    ensures Books(s.windows, Ingest(fp, s, ev).windows, before, ev, facet)
  {
    hide IngestSip, IngestCall, IngestSnap, IngestRtt, Holds, Worth, FacetOf, WindowStart, TornDown, SipWindowed;
    hide SnapWindow, SnapStep, IdOf, StreamIdOf, Latest, Books, IsMethod, Count;
    if ev.SipMsg? {
      var w := SipWindowed(WindowAt(fp, s, ev.ts), IdOf(s, ev.sip.callId), ev.sip, IsMethod(ev.sip, INVITE));
      SipLooks(fp, s, ev.ts, ev.sip);
      SipWindowCounts(WindowAt(fp, s, ev.ts), IdOf(s, ev.sip.callId), IsMethod(ev.sip, INVITE), before, ev, facet);
      BooksIf(s.windows, Ingest(fp, s, ev).windows, before, ev, facet, fp.zero, w);
    } else if IsTeardown(ev) {
      var w := TornDown(WindowAt(fp, s, ev.ts), ev.call, IdOf(s, ev.call.callId));
      TeardownLooks(fp, s, ev.ts, ev.call);
      TornDownCounts(WindowAt(fp, s, ev.ts), IdOf(s, ev.call.callId), before, ev, facet);
      BooksIf(s.windows, Ingest(fp, s, ev).windows, before, ev, facet, fp.zero, w);
    } else if ev.StreamSnap? {
      var lite := LiteOf(ev.snap, ev.snap.callId);
      var d := SnapStep(s.media.lastSnap, StreamIdOf(s, lite), lite);
      SnapLooks(fp, s, ev.ts, lite);
      LastSnapIs(s, before, ev.snap);
      SnapWindowCounts(WindowAt(fp, s, ev.ts), IdOf(s, ev.snap.callId), d, before, ev, facet);
      BooksIf(s.windows, Ingest(fp, s, ev).windows, before, ev, facet, fp.zero,
              SnapWindow(WindowAt(fp, s, ev.ts), IdOf(s, ev.snap.callId), ev.snap.ssrc, d));
    } else if ev.RtcpRtt? {
      RttLooks(fp, s, ev.ts, ev.rtt.rttMs, facet, before, ev);
      var after := Ingest(fp, s, ev).windows;
      BooksIf(s.windows, after, before, ev, facet, fp.zero, after[WindowStart(ev.ts)]);
    } else {
      OthersBookNothing(fp, s, before, ev, facet);
    }
  }

  lemma OthersBookNothing(fp: Floats, s: Stats, before: seq<Event>, ev: Event, facet: Facet)
    requires !Windowed(ev)
    ensures Books(s.windows, Ingest(fp, s, ev).windows, before, ev, facet)
  {
    hide IngestSip, IngestSnap, IngestRtt, IngestCall;
    if ev.Call? {
      TeardownLooks(fp, s, ev.ts, ev.call);
    }
  }

  // ----- whole sessions -----

  lemma OpenedSnoc(events: seq<Event>, n: nat, k: nat)
    requires |events| == n + 1
    ensures Opened(events, k) <==> Opened(events[..n], k) || (Windowed(events[n]) && Falls(events[n].ts, k))
  {
    hide Windowed, Falls;
    assert forall i :: 0 <= i < n ==> events[..n][i] == events[i];
  }

  /**
    Every window starts at a multiple of five minutes; there is one exactly when some
    SIP message, teardown, snapshot or RTT sample falls into it; and each of its
    counters is what those events add up to.
   */
  lemma {:induction false} WindowIs(fp: Floats, events: seq<Event>, k: nat, facet: Facet)
    ensures var windows := Fold(fp, Init(fp), events).windows;
      && (k in windows ==> k % 300_000_000 == 0)
      && (k % 300_000_000 == 0 ==> (k in windows <==> Opened(events, k)))
      && (k % 300_000_000 == 0 ==> InWindow(windows, k, facet) == CountIn(events, k, facet))
    decreases |events|
  {
    hide Ingest, Holds, Worth, Opened;
    if events == [] {
      NothingOpened(k);
    } else {
      var n := |events| - 1;
      var s := Fold(fp, Init(fp), events[..n]);
      WindowIs(fp, events[..n], k, facet);
      FoldSnoc(fp, Init(fp), events);
      RunHolds(fp, events[..n]);
      EventBooks(fp, s, events[..n], events[n], facet);
      OpenedSnoc(events, n, k);
      hide Fold, FacetOf, WindowStart;
      if Windowed(events[n]) {
        StartIs(events[n].ts, WindowStart(events[n].ts));
        if k % 300_000_000 == 0 {
          StartIs(events[n].ts, k);
        }
      }
    }
  }

  lemma NothingOpened(k: nat)
    ensures !Opened([], k)
  {
  }

  // ----- loss per address -----

  /** What the snapshots of a list add at an address: once as source, once as destination. */
  function LossAt(events: seq<Event>, ip: IpAddr): Counters {
    if events == [] then Counters(0, 0, 0)
    else
      var n := |events| - 1;
      var so, ev := LossAt(events[..n], ip), events[n];
      if !ev.StreamSnap? then so
      else
        var prev, ends := Latest(events[..n], ev.snap), One(ev.snap.flow.src.ip == ip) + One(ev.snap.flow.dst.ip == ip);
        Counters(so.pkts + ends * SatSub(ev.snap.packets, prev.packets),
                 so.lost + ends * SatSub(ev.snap.lost, prev.lost),
                 so.bytes + ends * SatSub(ev.snap.bytes, prev.bytes))
  }

  lemma AddIpAt(m: map<IpAddr, Counters>, at: IpAddr, d: Counters, ip: IpAddr)
    ensures Lookup(AddIp(m, at, d), ip, Counters(0, 0, 0)) ==
      var so := Lookup(m, ip, Counters(0, 0, 0));
      if ip == at then Counters(so.pkts + d.pkts, so.lost + d.lost, so.bytes + d.bytes) else so
  {
  }

  lemma SnapLossAt(fp: Floats, s: Stats, ts: u64, e: StreamSnapEvt, ip: IpAddr, d: Counters)
    requires d == SnapStep(s.media.lastSnap, StreamIdOf(s, LiteOf(e, e.callId)), LiteOf(e, e.callId))
    ensures var so, ends := Lookup(s.media.ipLoss, ip, Counters(0, 0, 0)), One(e.flow.src.ip == ip) + One(e.flow.dst.ip == ip);
      Lookup(IngestSnap(fp, s, ts, LiteOf(e, e.callId)).media.ipLoss, ip, Counters(0, 0, 0))
        == Counters(so.pkts + ends * d.pkts, so.lost + ends * d.lost, so.bytes + ends * d.bytes)
  {
    AddIpAt(s.media.ipLoss, e.flow.src.ip, d, ip);
    AddIpAt(AddIp(s.media.ipLoss, e.flow.src.ip, d), e.flow.dst.ip, d, ip);
    hide AddIp, SnapStep, SnapWindow, IdOf, WindowStart, StreamIdOf;
  }

  /** The loss figures of an address are those of the snapshots of streams it sends or receives. */
  lemma {:induction false} AddressIs(fp: Floats, events: seq<Event>, ip: IpAddr)
    ensures Lookup(Fold(fp, Init(fp), events).media.ipLoss, ip, Counters(0, 0, 0)) == LossAt(events, ip)
    decreases |events|
  {
    hide IngestSip, IngestCall, IngestSnap, IngestRtt, Count, Holds, SnapStep, StreamIdOf, Latest;
    if events != [] {
      var n := |events| - 1;
      var s, ev := Fold(fp, Init(fp), events[..n]), events[n];
      AddressIs(fp, events[..n], ip);
      FoldSnoc(fp, Init(fp), events);
      hide Fold;
      if ev.StreamSnap? {
        RunHolds(fp, events[..n]);
        LastSnapIs(s, events[..n], ev.snap);
        var lite := LiteOf(ev.snap, ev.snap.callId);
        SnapLossAt(fp, s, ev.ts, ev.snap, ip, SnapStep(s.media.lastSnap, StreamIdOf(s, lite), lite));
      } else {
        TablesAfter(fp, s, ev);
      }
    }
  }

  // ----- calls by name -----

  /** The sets of calls that are kept: of a window, of its INVITEs, of the session, of its INVITEs. */
  datatype Roll = WindowCalls(k: nat) | WindowInvites(k: nat) | SessionCalls | SessionInvites

  function IdsOf(s: Stats, roll: Roll): set<nat> {
    match roll
    case WindowCalls(k) => if k in s.windows then s.windows[k].calls else {}
    case WindowInvites(k) => if k in s.windows then s.windows[k].invites else {}
    case SessionCalls => s.callIds
    case SessionInvites => s.seizureIds
  }

  predicate IsRequest(ev: Event, name: seq<byte>) {
    ev.SipMsg? && ev.sip.isRequest && ev.sip.method_.Some? && EqIgnoreCase(ev.sip.method_.value, name)
  }

  /** The call an event speaks of. */
  function CallIdOf(ev: Event): Option<Str> {
    match ev
    case SipMsg(_, e) => Some(e.callId)
    case Call(_, e) => Some(e.callId)
    case StreamSnap(_, e) => Some(e.callId)
    case _ => None
  }

  /** Whether an event puts its call on a roll. */
  predicate Enrolls(ev: Event, roll: Roll) {
    match roll
    case WindowCalls(k) => Windowed(ev) && Falls(ev.ts, k)
    case WindowInvites(k) => IsRequest(ev, INVITE) && Falls(ev.ts, k)
    case SessionCalls => true
    case SessionInvites => IsRequest(ev, INVITE)
  }

  ghost predicate OnRoll(events: seq<Event>, roll: Roll, name: Str) {
    exists n :: 0 <= n < |events| && CallIdOf(events[n]) == Some(name) && Enrolls(events[n], roll)
  }

  /** A call's number is in a set. */
  predicate NameIn(intern: map<Str, nat>, ids: set<nat>, name: Str) {
    name in intern && intern[name] in ids
  }

  ghost predicate Below(ids: set<nat>, n: nat) {
    forall id :: id in ids ==> id < n
  }

  /** A set after an event of a call: its number added or not. */
  lemma EnrollStep(intern: map<Str, nat>, last: map<StreamId, SnapState>, ids: set<nat>, who: Str, name: Str, adds: bool)
    requires Named(intern, last) && Below(ids, |intern|)
    ensures var cid := Lookup(intern, who, |intern|);
      var next, now := intern[who := cid], if adds then ids + {cid} else ids;
      Below(now, |next|) && (NameIn(next, now, name) <==> NameIn(intern, ids, name) || (adds && name == who))
  {
    if who !in intern {
      assert |intern[who := |intern|]| == |intern| + 1;
    } else {
      assert intern[who := intern[who]] == intern;
    }
  }

  /** A window roll when one window is replaced. */
  lemma WindowEnrolls(s: Stats, v: Stats, ts: u64, w: WindowAcc, fp: Floats, roll: Roll, cid: nat, adds: bool)
    requires roll.WindowCalls? || roll.WindowInvites?
    requires roll.k % 300_000_000 == 0 && v.windows == s.windows[WindowStart(ts) := w]
    requires w.calls == WindowAt(fp, s, ts).calls + (if adds || roll.WindowInvites? then {cid} else {})
    requires w.invites == WindowAt(fp, s, ts).invites + (if adds && roll.WindowInvites? then {cid} else {}) || roll.WindowCalls?
    ensures IdsOf(v, roll) == IdsOf(s, roll) + if adds && Falls(ts, roll.k) then {cid} else {}
  {
    StartIs(ts, roll.k);
    hide WindowStart, Falls;
  }

  lemma SipEnrolls(fp: Floats, s: Stats, ev: Event, roll: Roll)
    requires ev.SipMsg? && (roll.WindowCalls? || roll.WindowInvites? ==> roll.k % 300_000_000 == 0)
    ensures IdsOf(Ingest(fp, s, ev), roll)
         == IdsOf(s, roll) + if Enrolls(ev, roll) then {IdOf(s, ev.sip.callId)} else {}
  {
    SipLooks(fp, s, ev.ts, ev.sip);
    SipSession(fp, s, ev.ts, ev.sip);
    hide IngestSip, IdOf, WindowStart, WindowAt, Falls, EqIgnoreCase;
    if roll.WindowCalls? || roll.WindowInvites? {
      var cid, invite := IdOf(s, ev.sip.callId), IsMethod(ev.sip, INVITE);
      WindowEnrolls(s, Ingest(fp, s, ev), ev.ts, SipWindowed(WindowAt(fp, s, ev.ts), cid, ev.sip, invite), fp, roll,
                    cid, roll.WindowCalls? || invite);
    }
  }

  lemma SipSession(fp: Floats, s: Stats, ts: u64, e: SipMsgEvt)
    ensures var v := IngestSip(fp, s, ts, e);
      && v.callIds == s.callIds + {IdOf(s, e.callId)}
      && v.seizureIds == s.seizureIds + if IsMethod(e, INVITE) then {IdOf(s, e.callId)} else {}
  {
    hide EqIgnoreCase, SipWindowed, WindowStart, IsMethod, ResponseClass;
  }

  lemma CallEnrolls(fp: Floats, s: Stats, ev: Event, roll: Roll)
    requires ev.Call? && (roll.WindowCalls? || roll.WindowInvites? ==> roll.k % 300_000_000 == 0)
    ensures IdsOf(Ingest(fp, s, ev), roll)
         == IdsOf(s, roll) + if Enrolls(ev, roll) then {IdOf(s, ev.call.callId)} else {}
  {
    hide IngestCall, IdOf, Falls;
    if roll.WindowCalls? || roll.WindowInvites? {
      TeardownEnrolls(fp, s, ev.ts, ev.call, IngestCall(fp, s, ev.ts, ev.call), roll);
    } else {
      CallSession(fp, s, ev.ts, ev.call);
    }
  }

  lemma TeardownEnrolls(fp: Floats, s: Stats, ts: u64, e: CallEvt, v: Stats, roll: Roll)
    requires (roll.WindowCalls? || roll.WindowInvites?) && roll.k % 300_000_000 == 0
    requires v == IngestCall(fp, s, ts, e)
    ensures IdsOf(v, roll) == IdsOf(s, roll)
      + if e.kind == Teardown && roll.WindowCalls? && Falls(ts, roll.k) then {IdOf(s, e.callId)} else {}
  {
    var cid := IdOf(s, e.callId);
    TeardownLooks(fp, s, ts, e);
    TornDownSets(WindowAt(fp, s, ts), e, cid);
    hide IngestCall, IdOf, WindowStart, WindowAt, Falls, TornDown;
    if e.kind == Teardown {
      WindowEnrolls(s, v, ts, TornDown(WindowAt(fp, s, ts), e, cid), fp, roll, cid, roll.WindowCalls?);
    }
  }

  lemma TornDownSets(w: WindowAcc, e: CallEvt, cid: nat)
    ensures TornDown(w, e, cid).calls == w.calls + {cid} && TornDown(w, e, cid).invites == w.invites
  {
    hide ClassifyFail;
  }

  lemma CallSession(fp: Floats, s: Stats, ts: u64, e: CallEvt)
    ensures var v := IngestCall(fp, s, ts, e);
      v.callIds == s.callIds + {IdOf(s, e.callId)} && v.seizureIds == s.seizureIds
  {
    hide ClassifyFail, TimeTeardown, TornDown, WindowStart;
  }

  lemma SnapEnrolls(fp: Floats, s: Stats, ev: Event, roll: Roll)
    requires ev.StreamSnap? && (roll.WindowCalls? || roll.WindowInvites? ==> roll.k % 300_000_000 == 0)
    ensures IdsOf(Ingest(fp, s, ev), roll)
         == IdsOf(s, roll) + if Enrolls(ev, roll) then {IdOf(s, ev.snap.callId)} else {}
  {
    var lite := LiteOf(ev.snap, ev.snap.callId);
    SnapLooks(fp, s, ev.ts, lite);
    SnapSession(fp, s, ev.ts, lite);
    hide IngestSnap, IdOf, WindowStart, WindowAt, Falls, SnapStep, StreamIdOf;
    if roll.WindowCalls? || roll.WindowInvites? {
      var cid, d := IdOf(s, ev.snap.callId), SnapStep(s.media.lastSnap, StreamIdOf(s, lite), lite);
      WindowEnrolls(s, Ingest(fp, s, ev), ev.ts, SnapWindow(WindowAt(fp, s, ev.ts), cid, ev.snap.ssrc, d), fp, roll,
                    cid, roll.WindowCalls?);
    }
  }

  lemma SnapSession(fp: Floats, s: Stats, ts: u64, e: SnapLite)
    ensures var v := IngestSnap(fp, s, ts, e);
      v.callIds == s.callIds + {IdOf(s, e.callId)} && v.seizureIds == s.seizureIds
  {
    hide SnapStep, SnapMedia, SnapWindow, WindowStart;
  }

  lemma OthersEnrollNone(fp: Floats, s: Stats, ev: Event, roll: Roll)
    requires CallIdOf(ev).None?
    ensures IdsOf(Ingest(fp, s, ev), roll) == IdsOf(s, roll) && Ingest(fp, s, ev).intern == s.intern
  {
    hide WindowStart;
  }

  lemma EventEnrolls(fp: Floats, s: Stats, ev: Event, roll: Roll, who: Str)
    requires CallIdOf(ev) == Some(who) && (roll.WindowCalls? || roll.WindowInvites? ==> roll.k % 300_000_000 == 0)
    ensures IdsOf(Ingest(fp, s, ev), roll) == IdsOf(s, roll) + if Enrolls(ev, roll) then {IdOf(s, who)} else {}
    ensures Ingest(fp, s, ev).intern == s.intern[who := IdOf(s, who)]
  {
    TablesAfter(fp, s, ev);
    hide Ingest, IdsOf, Enrolls, IdOf;
    if ev.SipMsg? {
      SipEnrolls(fp, s, ev, roll);
    } else if ev.Call? {
      CallEnrolls(fp, s, ev, roll);
    } else {
      SnapEnrolls(fp, s, ev, roll);
    }
  }

  lemma RollSnoc(events: seq<Event>, n: nat, roll: Roll, name: Str)
    requires |events| == n + 1
    ensures OnRoll(events, roll, name) <==>
      OnRoll(events[..n], roll, name) || (CallIdOf(events[n]) == Some(name) && Enrolls(events[n], roll))
  {
    hide CallIdOf, Enrolls;
    assert forall i :: 0 <= i < n ==> events[..n][i] == events[i];
  }

  /** A call is on a roll exactly when some event of it belongs there, whatever number it was given. */
  lemma {:induction false} RollIs(fp: Floats, events: seq<Event>, roll: Roll, name: Str)
    requires roll.WindowCalls? || roll.WindowInvites? ==> roll.k % 300_000_000 == 0
    ensures var v := Fold(fp, Init(fp), events);
      && Below(IdsOf(v, roll), |v.intern|)
      && (NameIn(v.intern, IdsOf(v, roll), name) <==> OnRoll(events, roll, name))
    decreases |events|
  {
    hide Ingest, Enrolls, CallIdOf, OnRoll, IdOf;
    if events == [] {
      NobodyOnRoll(roll, name);
    } else {
      var n := |events| - 1;
      var s, ev := Fold(fp, Init(fp), events[..n]), events[n];
      RollIs(fp, events[..n], roll, name);
      FoldSnoc(fp, Init(fp), events);
      RunHolds(fp, events[..n]);
      RollSnoc(events, n, roll, name);
      hide Fold, IdsOf, Below, Named;
      if CallIdOf(ev).Some? {
        var who := CallIdOf(ev).value;
        EventEnrolls(fp, s, ev, roll, who);
        EnrollStep(s.intern, s.media.lastSnap, IdsOf(s, roll), who, name, Enrolls(ev, roll));
        NumberOf(s, who);
        assert IdsOf(s, roll) + {} == IdsOf(s, roll);
      } else {
        OthersEnrollNone(fp, s, ev, roll);
      }
    }
  }

  lemma NumberOf(s: Stats, who: Str)
    ensures IdOf(s, who) == Lookup(s.intern, who, |s.intern|)
  {
  }

  lemma NobodyOnRoll(roll: Roll, name: Str)
    ensures !OnRoll([], roll, name)
  {
  }

  // ----- session counters -----

  /** What the session counts besides. */
  datatype Tally =
    | OfType(ty: byte) | Invites | Byes | Cancels | Responses(cls: nat) | Setups | Talks | Durations | Hangups(code: u32)

  function TallyOf(s: Stats, t: Tally): nat {
    match t
    case OfType(1) => s.events.sip
    case OfType(2) => s.events.txn
    case OfType(3) => s.events.call
    case OfType(4) => s.events.streamSnap
    case OfType(5) => s.events.rtcpRtt
    case OfType(6) => s.events.health
    case OfType(7) => s.events.error
    case OfType(8) => s.events.diag
    case Invites => s.calls.invite
    case Byes => s.calls.bye
    case Cancels => s.calls.cancel
    case Responses(cls) => if 1 <= cls <= 6 then s.sipClass[cls] else 0
    case Setups => s.timings.setupN
    case Talks => s.timings.talkN
    case Durations => s.timings.callDurN
    case Hangups(code) => Lookup(s.timings.hangup, code, 0)
    case _ => 0
  }

  /** A teardown's end, or failing that its BYE, no earlier than `from`. */
  predicate Lasts(from: Option<u64>, e: CallEvt) {
    from.Some? && ((e.endTs.Some? && e.endTs.value >= from.value)
                   || (e.endTs.None? && e.byeTs.Some? && e.byeTs.value >= from.value))
  }

  predicate Counts(ev: Event, t: Tally) {
    match t
    case OfType(ty) => 1 <= ty <= 8 && ev.TypeCode() == ty
    case Invites => IsRequest(ev, INVITE)
    case Byes => IsRequest(ev, BYE)
    case Cancels => IsRequest(ev, CANCEL)
    case Responses(cls) =>
      ev.SipMsg? && !ev.sip.isRequest && ev.sip.status.Some? && 1 <= cls <= 6
      && cls * 100 <= ev.sip.status.value < cls * 100 + 100
    case Setups => IsTeardown(ev) && ev.call.setupMs.Some?
    case Talks => IsTeardown(ev) && Lasts(ev.call.answerTs, ev.call)
    case Durations => IsTeardown(ev) && Lasts(ev.call.inviteTs, ev.call)
    case Hangups(code) => IsTeardown(ev) && ev.call.hangupCode == Some(code)
  }

  function Counted(events: seq<Event>, t: Tally): nat {
    if events == [] then 0 else Counted(events[..|events| - 1], t) + One(Counts(events[|events| - 1], t))
  }

  lemma SipTallies(fp: Floats, s: Stats, ev: Event, t: Tally)
    requires ev.SipMsg?
    ensures TallyOf(Ingest(fp, s, ev), t) == TallyOf(s, t) + One(Counts(ev, t))
  {
    hide EqIgnoreCase, IdOf, SipWindowed, WindowStart;
  }

  lemma CallTallies(fp: Floats, s: Stats, ev: Event, t: Tally)
    requires ev.Call?
    ensures TallyOf(Ingest(fp, s, ev), t) == TallyOf(s, t) + One(Counts(ev, t))
  {
    hide ClassifyFail, IdOf, TornDown, WindowStart;
  }

  lemma OtherTallies(fp: Floats, s: Stats, ev: Event, t: Tally)
    requires !ev.SipMsg? && !ev.Call?
    ensures TallyOf(Ingest(fp, s, ev), t) == TallyOf(s, t) + One(Counts(ev, t))
  {
    hide SnapStep, SnapMedia, SnapWindow, IdOf, WindowStart;
  }

  /** Every session counter is the number of events that it names. */
  lemma {:induction false} TallyIs(fp: Floats, events: seq<Event>, t: Tally)
    ensures TallyOf(Fold(fp, Init(fp), events), t) == Counted(events, t)
    decreases |events|
  {
    hide Ingest, Counts;
    if events != [] {
      var n := |events| - 1;
      var s, ev := Fold(fp, Init(fp), events[..n]), events[n];
      TallyIs(fp, events[..n], t);
      FoldSnoc(fp, Init(fp), events);
      hide Fold, TallyOf;
      if ev.SipMsg? {
        SipTallies(fp, s, ev, t);
      } else if ev.Call? {
        CallTallies(fp, s, ev, t);
      } else {
        OtherTallies(fp, s, ev, t);
      }
    }
  }

  /** Post-dial delays of the teardowns, in order. */
  function Delays(events: seq<Event>): seq<u32> {
    if events == [] then []
    else
      var ev := events[|events| - 1];
      Delays(events[..|events| - 1]) + if IsTeardown(ev) && ev.call.pddMs.Some? then [ev.call.pddMs.value] else []
  }

  lemma EventSpan(fp: Floats, s: Stats, ev: Event)
    ensures var v := Ingest(fp, s, ev);
      && v.timings.pddSamples == s.timings.pddSamples
         + (if IsTeardown(ev) && ev.call.pddMs.Some? then [ev.call.pddMs.value] else [])
      && v.startTs == Some(s.startTs.GetOr(ev.TsUs())) && v.endTs == Some(ev.TsUs())
  {
    hide ClassifyFail, IdOf, TornDown, WindowStart, SipWindowed, SnapStep, SnapMedia, SnapWindow;
  }

  /** The delay samples are those of the teardowns; the session runs from its first event to its last. */
  lemma {:induction false} SpanIs(fp: Floats, events: seq<Event>)
    ensures var v := Fold(fp, Init(fp), events);
      && v.timings.pddSamples == Delays(events)
      && v.startTs == (if events == [] then None else Some(events[0].TsUs()))
      && v.endTs == if events == [] then None else Some(events[|events| - 1].TsUs())
    decreases |events|
  {
    hide Ingest;
    if events != [] {
      var n := |events| - 1;
      SpanIs(fp, events[..n]);
      FoldSnoc(fp, Init(fp), events);
      hide Fold;
      EventSpan(fp, Fold(fp, Init(fp), events[..n]), events[n]);
    }
  }
}
