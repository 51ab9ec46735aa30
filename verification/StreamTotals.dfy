/** Session totals against the event list alone: when they equal the last snapshots. */
module StreamTotals {
  import opened Prelude
  import opened Utf8
  import opened Events
  import opened SkipParsers
  import opened EvStats
  import opened StatsConservation
  import opened Sums

  const NO_SNAP := SnapState(0, 0, 0)

  predicate SameStream(a: StreamSnapEvt, b: StreamSnapEvt) {
    a.callId == b.callId && a.ssrc == b.ssrc && a.flow == b.flow
  }

  /** The latest snapshot of a stream in a list of events. */
  function Latest(events: seq<Event>, e: StreamSnapEvt): SnapState
    decreases |events|
  {
    if events == [] then NO_SNAP
    else
      var ev := events[|events| - 1];
      if ev.StreamSnap? && SameStream(ev.snap, e) then SnapState(ev.snap.packets, ev.snap.lost, ev.snap.bytes)
      else Latest(events[..|events| - 1], e)
  }

  /** No snapshot reports fewer packets than the stream's snapshot before it. */
  ghost predicate PacketsNeverFall(events: seq<Event>) {
    forall n :: 0 <= n < |events| && events[n].StreamSnap? ==>
      Latest(events[..n], events[n].snap).packets <= events[n].snap.packets
  }

  ghost predicate BytesNeverFall(events: seq<Event>) {
    forall n :: 0 <= n < |events| && events[n].StreamSnap? ==>
      Latest(events[..n], events[n].snap).bytes <= events[n].snap.bytes
  }

  // ----- the accumulator's table holds the latest snapshots -----

  /** Call ids have their own numbers, and the snapshot table only known ones. */
  ghost predicate Named(intern: map<Str, nat>, last: map<StreamId, SnapState>) {
    && (forall a :: a in intern ==> intern[a] < |intern|)
    && (forall a, b :: a in intern && b in intern && intern[a] == intern[b] ==> a == b)
    && (forall k :: k in last ==> k.callId < |intern|)
  }

  function Key(intern: map<Str, nat>, e: StreamSnapEvt): StreamId {
    StreamId(Lookup(intern, e.callId, |intern|), e.ssrc, e.flow)
  }

  /** Naming a call keeps every stream's entry. */
  lemma NamingKeeps(intern: map<Str, nat>, last: map<StreamId, SnapState>, name: Str)
    requires Named(intern, last)
    ensures var next := intern[name := Lookup(intern, name, |intern|)];
      && Named(next, last)
      && forall e: StreamSnapEvt :: Lookup(last, Key(next, e), NO_SNAP) == Lookup(last, Key(intern, e), NO_SNAP)
  {
    var next := intern[name := Lookup(intern, name, |intern|)];
    if name in intern {
      assert next == intern;
    } else {
      assert |next| == |intern| + 1;
    }
    forall e: StreamSnapEvt
      ensures Lookup(last, Key(next, e), NO_SNAP) == Lookup(last, Key(intern, e), NO_SNAP)
    {
      if e.callId !in intern {
        assert Key(intern, e) !in last && Key(next, e) !in last;
      }
    }
  }

  /** Storing a snapshot changes its own stream's entry and no other. */
  lemma StoringSets(intern: map<Str, nat>, last: map<StreamId, SnapState>, e: StreamSnapEvt, v: SnapState)
    requires Named(intern, last) && e.callId in intern
    ensures var next := last[Key(intern, e) := v];
      && Named(intern, next)
      && forall f: StreamSnapEvt :: Lookup(next, Key(intern, f), NO_SNAP)
           == if SameStream(e, f) then v else Lookup(last, Key(intern, f), NO_SNAP)
  {
  }

  ghost predicate Holds(s: Stats, events: seq<Event>) {
    && Named(s.intern, s.media.lastSnap)
    && forall e: StreamSnapEvt :: Lookup(s.media.lastSnap, Key(s.intern, e), NO_SNAP) == Latest(events, e)
  }

  lemma SipTables(fp: Floats, s: Stats, ts: u64, e: SipMsgEvt)
    ensures var s' := IngestSip(fp, s, ts, e);
      s'.intern == s.intern[e.callId := IdOf(s, e.callId)] && s'.media == s.media
  {
  }

  lemma CallTables(fp: Floats, s: Stats, ts: u64, e: CallEvt)
    ensures var s' := IngestCall(fp, s, ts, e);
      s'.intern == s.intern[e.callId := IdOf(s, e.callId)] && s'.media == s.media
  {
  }

  lemma SnapTables(fp: Floats, s: Stats, ts: u64, e: StreamSnapEvt)
    ensures var s' := IngestSnap(fp, s, ts, LiteOf(e, e.callId));
      && s'.intern == s.intern[e.callId := IdOf(s, e.callId)]
      && s'.media.lastSnap == s.media.lastSnap[Key(s.intern, e) := SnapState(e.packets, e.lost, e.bytes)]
  {
  }

  /** The tables after one event. */
  lemma TablesAfter(fp: Floats, s: Stats, ev: Event)
    ensures var s' := Ingest(fp, s, ev);
      match ev
      case SipMsg(_, e) => s'.intern == s.intern[e.callId := IdOf(s, e.callId)] && s'.media == s.media
      case Call(_, e) => s'.intern == s.intern[e.callId := IdOf(s, e.callId)] && s'.media == s.media
      case StreamSnap(_, e) =>
        && s'.intern == s.intern[e.callId := IdOf(s, e.callId)]
        && s'.media.lastSnap == s.media.lastSnap[Key(s.intern, e) := SnapState(e.packets, e.lost, e.bytes)]
      case _ => s'.intern == s.intern && s'.media == s.media
  {
    hide IngestSip, IngestCall, IngestSnap;
    match ev {
      case SipMsg(ts, e) => SipTables(fp, s, ts, e);
      case Call(ts, e) => CallTables(fp, s, ts, e);
      case StreamSnap(ts, e) => SnapTables(fp, s, ts, e);
      case _ =>
    }
  }

  lemma StepHolds(fp: Floats, s: Stats, events: seq<Event>, ev: Event)
    requires Holds(s, events)
    ensures Holds(Ingest(fp, s, ev), events + [ev])
  {
    var s', all := Ingest(fp, s, ev), events + [ev];
    assert all[..|all| - 1] == events && all[|all| - 1] == ev;
    TablesAfter(fp, s, ev);
    if ev.SipMsg? || ev.Call? || ev.StreamSnap? {
      var name := if ev.SipMsg? then ev.sip.callId else if ev.Call? then ev.call.callId else ev.snap.callId;
      NamingKeeps(s.intern, s.media.lastSnap, name);
      if ev.StreamSnap? {
        var e := ev.snap;
        assert Key(s'.intern, e) == Key(s.intern, e);
        StoringSets(s'.intern, s.media.lastSnap, e, SnapState(e.packets, e.lost, e.bytes));
      }
    }
    forall f: StreamSnapEvt
      ensures Lookup(s'.media.lastSnap, Key(s'.intern, f), NO_SNAP) == Latest(all, f)
    {
      assert Lookup(s.media.lastSnap, Key(s.intern, f), NO_SNAP) == Latest(events, f);
    }
  }

  lemma {:induction false} RunHolds(fp: Floats, events: seq<Event>)
    ensures Holds(Fold(fp, Init(fp), events), events)
    decreases |events|
  {
    hide Ingest;
    if events != [] {
      var n := |events| - 1;
      RunHolds(fp, events[..n]);
      FoldSnoc(fp, Init(fp), events);
      StepHolds(fp, Fold(fp, Init(fp), events[..n]), events[..n], events[n]);
      assert events[..n] + [events[n]] == events;
    }
  }

  /** What an event's stream falls back by, read off the event list. */
  lemma FallbackIs(fp: Floats, events: seq<Event>, ev: Event)
    ensures FallbackOf(Fold(fp, Init(fp), events), ev) ==
      if ev.StreamSnap?
      then
        var prev := Latest(events, ev.snap);
        Counters(SatSub(prev.packets, ev.snap.packets), SatSub(prev.lost, ev.snap.lost),
                 SatSub(prev.bytes, ev.snap.bytes))
      else Counters(0, 0, 0)
  {
    var s := Fold(fp, Init(fp), events);
    RunHolds(fp, events);
    if ev.StreamSnap? {
      assert StreamIdOf(s, LiteOf(ev.snap, ev.snap.callId)) == Key(s.intern, ev.snap);
      assert Lookup(s.media.lastSnap, Key(s.intern, ev.snap), NO_SNAP) == Latest(events, ev.snap);
    }
  }

  lemma PacketsSnoc(events: seq<Event>, n: nat)
    requires |events| == n + 1
    ensures PacketsNeverFall(events) <==> (PacketsNeverFall(events[..n]) &&
      (events[n].StreamSnap? ==> Latest(events[..n], events[n].snap).packets <= events[n].snap.packets))
  {
    forall i | 0 <= i < n
      ensures events[..n][i] == events[i] && events[..n][..i] == events[..i]
    {
    }
    if PacketsNeverFall(events[..n]) && (events[n].StreamSnap? ==>
         Latest(events[..n], events[n].snap).packets <= events[n].snap.packets) {
      forall i | 0 <= i < |events| && events[i].StreamSnap?
        ensures Latest(events[..i], events[i].snap).packets <= events[i].snap.packets
      {
        if i < n {
          assert Latest(events[..n][..i], events[..n][i].snap).packets <= events[..n][i].snap.packets;
        }
      }
    }
  }

  lemma BytesSnoc(events: seq<Event>, n: nat)
    requires |events| == n + 1
    ensures BytesNeverFall(events) <==> (BytesNeverFall(events[..n]) &&
      (events[n].StreamSnap? ==> Latest(events[..n], events[n].snap).bytes <= events[n].snap.bytes))
  {
    forall i | 0 <= i < n
      ensures events[..n][i] == events[i] && events[..n][..i] == events[..i]
    {
    }
    if BytesNeverFall(events[..n]) && (events[n].StreamSnap? ==>
         Latest(events[..n], events[n].snap).bytes <= events[n].snap.bytes) {
      forall i | 0 <= i < |events| && events[i].StreamSnap?
        ensures Latest(events[..i], events[i].snap).bytes <= events[i].snap.bytes
      {
        if i < n {
          assert Latest(events[..n][..i], events[..n][i].snap).bytes <= events[..n][i].snap.bytes;
        }
      }
    }
  }

  lemma {:induction false} FallbacksIff(fp: Floats, events: seq<Event>)
    ensures var (p, b) := Fallbacks(fp, Init(fp), events);
      (p == 0 <==> PacketsNeverFall(events)) && (b == 0 <==> BytesNeverFall(events))
    decreases |events|
  {
    hide Fold, PacketsNeverFall, BytesNeverFall;
    if events == [] {
      NothingFalls();
    } else {
      var n := |events| - 1;
      FallbacksIff(fp, events[..n]);
      FallbackIs(fp, events[..n], events[n]);
      PacketsSnoc(events, n);
      BytesSnoc(events, n);
    }
  }

  lemma NothingFalls()
    ensures PacketsNeverFall([]) && BytesNeverFall([])
  {
  }

  /**
    A session's total packets equal the sum over its streams' last snapshots if and
    only if no stream's packet count ever falls; so for bytes.
   */
  lemma TotalsEqualIff(fp: Floats, events: seq<Event>)
    ensures var v := Fold(fp, Init(fp), events);
      && v.media.all.pkts >= SumMap(v.media.lastSnap, SPackets)
      && v.media.all.bytes >= SumMap(v.media.lastSnap, SBytes)
      && (v.media.all.pkts == SumMap(v.media.lastSnap, SPackets) <==> PacketsNeverFall(events))
      && (v.media.all.bytes == SumMap(v.media.lastSnap, SBytes) <==> BytesNeverFall(events))
  {
    RunConserves(fp, events);
    FallbacksIff(fp, events);
  }
}
