/** What becomes of a call, read off its messages. */
module CallVerdicts {
  import opened Prelude
  import opened Net
  import opened Sip
  import opened Utf8
  import C = Call

  type Msgs = seq<C.SipMsg>

  // ----- messages by their fields -----

  /** An INVITE request outside a dialog. */
  predicate Redials(m: C.SipMsg) {
    m.isRequest && m.method_ == Some(C.Invite) && m.toTag == None
  }

  predicate HangsUp(m: C.SipMsg) {
    m.isRequest && m.method_ == Some(C.Bye)
  }

  predicate Withdraws(m: C.SipMsg) {
    m.isRequest && m.method_ == Some(C.Cancel)
  }

  predicate OfMethod(m: C.SipMsg, name: seq<byte>) {
    m.cseqMethod.Some? && EqIgnoreCase(m.cseqMethod.value, name)
  }

  /** A response with a status from `lo` up to `hi`, `hi` apart. */
  predicate Replies(m: C.SipMsg, lo: nat, hi: nat) {
    !m.isRequest && m.status.Some? && lo <= m.status.value < hi
  }

  predicate Alerts(m: C.SipMsg) {
    Replies(m, 180, 190) && (m.cseqMethod.None? || OfMethod(m, INVITE))
  }

  predicate Accepts(m: C.SipMsg) {
    Replies(m, 200, 300) && !OfMethod(m, BYE)
  }

  /** A final response to a BYE. */
  predicate Closes(m: C.SipMsg) {
    Replies(m, 200, 0x1_0000) && OfMethod(m, BYE)
  }

  /** 487, the answer to an INVITE that was canceled. */
  predicate Aborts(m: C.SipMsg) {
    Replies(m, 487, 488) && !OfMethod(m, BYE)
  }

  predicate Refuses(m: C.SipMsg) {
    Replies(m, 300, 0x1_0000) && !Aborts(m) && !OfMethod(m, BYE)
  }

  predicate Waiting(s: C.CallState) {
    s == C.Dialing || s == C.Ringing
  }

  /** The times of a call and its delays speak of the same messages. */
  lemma SameMessages(c: C.Call, m: C.SipMsg)
    ensures C.InitialInvite(m) <==> Redials(m)
    ensures C.Answer(m) <==> Accepts(m)
    ensures C.Rings(c, m) <==>
      Replies(m, 100, 200) && (m.cseqMethod.None? || OfMethod(m, INVITE)) && Waiting(c.state)
    ensures C.Rings(c, m) && C.IsRinging(m) <==> Alerts(m) && Waiting(c.state)
  {
    hide EqIgnoreCase;
  }

  // ----- messages in their place -----

  predicate Accepted(msgs: Msgs) {
    exists i :: 0 <= i < |msgs| && Accepts(msgs[i])
  }

  /** A CANCEL that finds the call neither completed nor failed. */
  predicate Cancels(msgs: Msgs, j: nat)
    requires j < |msgs|
  {
    Withdraws(msgs[j]) && C.Run(msgs[..j]).state !in {C.Completed, C.Failed}
  }

  /** A refusal that finds the call still waiting for its answer. */
  predicate Rejects(msgs: Msgs, j: nat)
    requires j < |msgs|
  {
    Refuses(msgs[j]) && Waiting(C.Run(msgs[..j]).state)
  }

  /** Whether message `j` decides the state of the call. */
  predicate Settles(msgs: Msgs, j: nat)
    requires j < |msgs|
  {
    var m := msgs[j];
    || Redials(m) || Cancels(msgs, j) || Closes(m) || Aborts(m) || Refuses(m)
    || (Alerts(m) && Waiting(C.Run(msgs[..j]).state))
    || (Accepts(m) && !Accepted(msgs[..j]))
  }

  /** The state such a message decides on. */
  function Verdict(msgs: Msgs, j: nat): C.CallState
    requires j < |msgs|
  {
    var m := msgs[j];
    if Redials(m) then C.Dialing
    else if Alerts(m) then C.Ringing
    else if Accepts(m) then C.Active
    else if Withdraws(m) || Aborts(m) then C.Canceled
    else if !Rejects(msgs, j) && Accepted(msgs[..j]) then C.Completed
    else C.Failed
  }

  lemma {:induction false} AcceptedIff(msgs: Msgs)
    ensures C.Run(msgs).answerTs.Some? <==> Accepted(msgs)
  {
    if msgs != [] {
      var n := |msgs| - 1;
      AcceptedIff(msgs[..n]);
      C.ApplyTimes(C.Run(msgs[..n]), msgs[n]);
      AcceptedSnoc(msgs, n);
    }
  }

  lemma AcceptedSnoc(msgs: Msgs, n: nat)
    requires |msgs| == n + 1
    ensures Accepted(msgs) <==> Accepted(msgs[..n]) || Accepts(msgs[n])
  {
    hide Accepts;
    assert forall i :: 0 <= i < n ==> msgs[..n][i] == msgs[i];
  }

  /** The last message of a run that decides the state does so, and no other changes it. */
  lemma LastState(msgs: Msgs, n: nat)
    requires |msgs| == n + 1
    ensures C.Run(msgs).state == if Settles(msgs, n) then Verdict(msgs, n) else C.Run(msgs[..n]).state
  {
    hide C.Run, Accepted, EqIgnoreCase, C.Ms;
    assert C.Run(msgs) == C.Apply(C.Run(msgs[..n]), msgs[n]) by {
      RunSnoc(msgs, n);
    }
    AcceptedIff(msgs[..n]);
  }

  lemma RunSnoc(msgs: Msgs, n: nat)
    requires |msgs| == n + 1
    ensures C.Run(msgs) == C.Apply(C.Run(msgs[..n]), msgs[n])
  {
  }

  lemma PrefixFacts(msgs: Msgs, n: nat, j: nat)
    requires n <= |msgs| && j < n
    ensures msgs[..n][j] == msgs[j] && msgs[..n][..j] == msgs[..j]
  {
  }

  /** The state of a call is what the last message that decides it says. */
  lemma {:induction false} StateSettled(msgs: Msgs, j: nat)
    requires j < |msgs| && Settles(msgs, j)
    requires forall k :: j < k < |msgs| ==> !Settles(msgs, k)
    ensures C.Run(msgs).state == Verdict(msgs, j)
    decreases |msgs|
  {
    hide Settles, Verdict, C.Run;
    var n := |msgs| - 1;
    LastState(msgs, n);
    if j < n {
      SettlesPrefix(msgs, n, j);
      forall k | j < k < n ensures !Settles(msgs[..n], k) {
        SettlesPrefix(msgs, n, k);
      }
      StateSettled(msgs[..n], j);
    }
  }

  lemma SettlesPrefix(msgs: Msgs, n: nat, j: nat)
    requires n <= |msgs| && j < n
    ensures Settles(msgs[..n], j) == Settles(msgs, j) && Verdict(msgs[..n], j) == Verdict(msgs, j)
  {
    PrefixFacts(msgs, n, j);
    hide C.Run, Accepted, Redials, Closes, Aborts, Refuses, Alerts, Accepts, Withdraws;
  }

  /** And a call that no message decides is still dialing. */
  lemma {:induction false} NeverSettled(msgs: Msgs)
    requires forall j :: 0 <= j < |msgs| ==> !Settles(msgs, j)
    ensures C.Run(msgs).state.Dialing?
    decreases |msgs|
  {
    hide Settles, Verdict;
    if msgs != [] {
      var n := |msgs| - 1;
      LastState(msgs, n);
      forall j | 0 <= j < n ensures !Settles(msgs[..n], j) {
        SettlesPrefix(msgs, n, j);
      }
      NeverSettled(msgs[..n]);
    }
  }

  /** In particular a call is canceled only by a CANCEL or a 487. */
  lemma {:induction false} CanceledOnlyIf(msgs: Msgs)
    requires C.Run(msgs).state.Canceled?
    ensures exists j :: 0 <= j < |msgs| && (Withdraws(msgs[j]) || Aborts(msgs[j]))
    decreases |msgs|
  {
    hide Aborts, Refuses, Closes, Alerts, Accepts;
    if msgs != [] {
      var n := |msgs| - 1;
      LastState(msgs, n);
      if Settles(msgs, n) {
        assert Withdraws(msgs[n]) || Aborts(msgs[n]);
      } else {
        CanceledOnlyIf(msgs[..n]);
        var j :| 0 <= j < n && (Withdraws(msgs[..n][j]) || Aborts(msgs[..n][j]));
        assert msgs[..n][j] == msgs[j];
      }
    }
  }

  // ----- outcome -----

  predicate SetsOutcome(msgs: Msgs, j: nat)
    requires j < |msgs|
  {
    Aborts(msgs[j]) || Rejects(msgs, j) || (Accepts(msgs[j]) && !Accepted(msgs[..j]))
  }

  function OutcomeOf(m: C.SipMsg): C.Outcome {
    if Accepts(m) then C.Answered
    else if Aborts(m) then C.OutCanceled
    else if Replies(m, 400, 500) then C.Rejected
    else C.OutFailed
  }

  lemma LastOutcome(msgs: Msgs, n: nat)
    requires |msgs| == n + 1
    ensures C.Run(msgs).outcome == if SetsOutcome(msgs, n) then OutcomeOf(msgs[n]) else C.Run(msgs[..n]).outcome
  {
    hide C.Run, Accepted, EqIgnoreCase, C.Ms;
    assert C.Run(msgs) == C.Apply(C.Run(msgs[..n]), msgs[n]) by {
      RunSnoc(msgs, n);
    }
    AcceptedIff(msgs[..n]);
  }

  lemma OutcomePrefix(msgs: Msgs, n: nat, j: nat)
    requires n <= |msgs| && j < n
    ensures SetsOutcome(msgs[..n], j) == SetsOutcome(msgs, j)
  {
    PrefixFacts(msgs, n, j);
    hide C.Run, Accepted, Aborts, Refuses, Accepts;
  }

  /** The outcome is what the last message that sets it says: the first answer, a 487, or a refusal while waiting. */
  lemma {:induction false} OutcomeSettled(msgs: Msgs, j: nat)
    requires j < |msgs| && SetsOutcome(msgs, j)
    requires forall k :: j < k < |msgs| ==> !SetsOutcome(msgs, k)
    ensures C.Run(msgs).outcome == OutcomeOf(msgs[j])
    decreases |msgs|
  {
    hide SetsOutcome, OutcomeOf, C.Run;
    var n := |msgs| - 1;
    LastOutcome(msgs, n);
    if j < n {
      forall k | j <= k < n ensures SetsOutcome(msgs[..n], k) == SetsOutcome(msgs, k) {
        OutcomePrefix(msgs, n, k);
      }
      OutcomeSettled(msgs[..n], j);
    }
  }

  lemma {:induction false} NeverOutcome(msgs: Msgs)
    requires forall j :: 0 <= j < |msgs| ==> !SetsOutcome(msgs, j)
    ensures C.Run(msgs).outcome.InProgress?
    decreases |msgs|
  {
    hide SetsOutcome, OutcomeOf;
    if msgs != [] {
      var n := |msgs| - 1;
      LastOutcome(msgs, n);
      forall j | 0 <= j < n ensures !SetsOutcome(msgs[..n], j) {
        OutcomePrefix(msgs, n, j);
      }
      NeverOutcome(msgs[..n]);
    }
  }

  // ----- who hung up -----

  /** The address that the first INVITE came from. */
  function CallerOf(msgs: Msgs): Option<IpAddr> {
    if msgs == [] then None
    else
      var before, m := CallerOf(msgs[..|msgs| - 1]), msgs[|msgs| - 1];
      if before == None && Redials(m) then Some(m.src.ip) else before
  }

  /** Whether message `j` says who ended the call: a BYE of a call whose caller is known, or its withdrawal or refusal. */
  predicate Blames(msgs: Msgs, j: nat)
    requires j < |msgs|
  {
    (HangsUp(msgs[j]) && CallerOf(msgs[..j]).Some?) || Cancels(msgs, j) || Aborts(msgs[j]) || Rejects(msgs, j)
  }

  function BlameOf(msgs: Msgs, j: nat): C.HangupBy
    requires j < |msgs|
  {
    var m := msgs[j];
    if HangsUp(m) then (if CallerOf(msgs[..j]) == Some(m.src.ip) then C.Caller else C.Callee)
    else if Withdraws(m) || Aborts(m) then C.Caller
    else C.Reject
  }

  lemma ApplyKey(c: C.Call, m: C.SipMsg)
    ensures C.Apply(c, m).origin.key == if c.origin.key == None && Redials(m) then Some(m.src.ip) else c.origin.key
  {
    hide C.Ms, EqIgnoreCase;
  }

  lemma {:induction false} KeyIsCaller(msgs: Msgs)
    ensures C.Run(msgs).origin.key == CallerOf(msgs)
  {
    hide Redials, C.Apply;
    if msgs != [] {
      KeyIsCaller(msgs[..|msgs| - 1]);
      ApplyKey(C.Run(msgs[..|msgs| - 1]), msgs[|msgs| - 1]);
    }
  }

  lemma LastBlame(msgs: Msgs, n: nat)
    requires |msgs| == n + 1
    ensures var before := C.Run(msgs[..n]).hangup.who;
      C.Run(msgs).hangup.who == if before.None? && Blames(msgs, n) then Some(BlameOf(msgs, n)) else before
  {
    hide C.Run, CallerOf, EqIgnoreCase, C.Ms;
    assert C.Run(msgs) == C.Apply(C.Run(msgs[..n]), msgs[n]) by {
      RunSnoc(msgs, n);
    }
    KeyIsCaller(msgs[..n]);
  }

  lemma BlamePrefix(msgs: Msgs, n: nat, j: nat)
    requires n <= |msgs| && j < n
    ensures Blames(msgs[..n], j) == Blames(msgs, j) && BlameOf(msgs[..n], j) == BlameOf(msgs, j)
  {
    PrefixFacts(msgs, n, j);
    hide C.Run, CallerOf, HangsUp, Aborts, Refuses, Withdraws;
  }

  lemma {:induction false} NeverBlamed(msgs: Msgs)
    requires forall j :: 0 <= j < |msgs| ==> !Blames(msgs, j)
    ensures C.Run(msgs).hangup.who.None?
    decreases |msgs|
  {
    hide Blames, BlameOf;
    if msgs != [] {
      var n := |msgs| - 1;
      LastBlame(msgs, n);
      forall j | 0 <= j < n ensures !Blames(msgs[..n], j) {
        BlamePrefix(msgs, n, j);
      }
      NeverBlamed(msgs[..n]);
    }
  }

  /** Who ended the call is what the first message that says so says; a BYE is the caller's if it came from where the first INVITE did. */
  lemma {:induction false} BlameSettled(msgs: Msgs, j: nat)
    requires j < |msgs| && Blames(msgs, j)
    requires forall k :: 0 <= k < j ==> !Blames(msgs, k)
    ensures C.Run(msgs).hangup.who == Some(BlameOf(msgs, j))
    decreases |msgs|
  {
    hide Blames, BlameOf, C.Run;
    var n := |msgs| - 1;
    LastBlame(msgs, n);
    forall k | 0 <= k < n ensures Blames(msgs[..n], k) == Blames(msgs, k) && BlameOf(msgs[..n], k) == BlameOf(msgs, k) {
      BlamePrefix(msgs, n, k);
    }
    if j < n {
      BlameSettled(msgs[..n], j);
    } else {
      NeverBlamed(msgs[..n]);
    }
  }

  // ----- when it ended -----

  predicate Ends(m: C.SipMsg) {
    Closes(m) || Refuses(m)
  }

  lemma LastEnd(msgs: Msgs, n: nat)
    requires |msgs| == n + 1
    ensures var before := C.Run(msgs[..n]).endTs;
      C.Run(msgs).endTs == if Cancels(msgs, n) || (before.None? && Ends(msgs[n])) then Some(msgs[n].ts) else before
  {
    hide C.Run, EqIgnoreCase, C.Ms;
    assert C.Run(msgs) == C.Apply(C.Run(msgs[..n]), msgs[n]) by {
      RunSnoc(msgs, n);
    }
  }

  lemma CancelsPrefix(msgs: Msgs, n: nat, j: nat)
    requires n <= |msgs| && j < n
    ensures Cancels(msgs[..n], j) == Cancels(msgs, j)
  {
    PrefixFacts(msgs, n, j);
    hide C.Run, Withdraws;
  }

  /** A call that was canceled ended with the last CANCEL that took effect. */
  lemma {:induction false} EndCanceled(msgs: Msgs, j: nat)
    requires j < |msgs| && Cancels(msgs, j)
    requires forall k :: j < k < |msgs| ==> !Cancels(msgs, k)
    ensures C.Run(msgs).endTs == Some(msgs[j].ts)
    decreases |msgs|
  {
    hide Cancels, Ends, C.Run;
    var n := |msgs| - 1;
    LastEnd(msgs, n);
    if j < n {
      forall k | j <= k < n ensures Cancels(msgs[..n], k) == Cancels(msgs, k) {
        CancelsPrefix(msgs, n, k);
      }
      EndCanceled(msgs[..n], j);
    }
  }

  /** Any other with its first final response that closes or refuses it, a 487 apart. */
  lemma {:induction false} EndFirst(msgs: Msgs)
    requires forall k :: 0 <= k < |msgs| ==> !Cancels(msgs, k)
    ensures forall j :: 0 <= j < |msgs| && Ends(msgs[j]) && (forall k :: 0 <= k < j ==> !Ends(msgs[k])) ==>
      C.Run(msgs).endTs == Some(msgs[j].ts)
    ensures (forall j :: 0 <= j < |msgs| ==> !Ends(msgs[j])) ==> C.Run(msgs).endTs.None?
    ensures (exists j :: 0 <= j < |msgs| && Ends(msgs[j])) ==> C.Run(msgs).endTs.Some?
    decreases |msgs|
  {
    hide Cancels, Ends, C.Apply;
    if msgs != [] {
      var n := |msgs| - 1;
      LastEnd(msgs, n);
      forall k | 0 <= k < n ensures !Cancels(msgs[..n], k) && msgs[..n][k] == msgs[k] {
        CancelsPrefix(msgs, n, k);
      }
      EndFirst(msgs[..n]);
      assert forall k :: 0 <= k < n ==> msgs[k] == msgs[..n][k];
    }
  }

  // ----- the rest of a call's record -----

  function FirstBye(msgs: Msgs): Option<u64> {
    if msgs == [] then None
    else
      var before, m := FirstBye(msgs[..|msgs| - 1]), msgs[|msgs| - 1];
      if before == None && HangsUp(m) then Some(m.ts) else before
  }

  /** The code of the last refusal, close or BYE that gives one. */
  function LastCode(msgs: Msgs): Option<u32> {
    if msgs == [] then None
    else
      var before, m := LastCode(msgs[..|msgs| - 1]), msgs[|msgs| - 1];
      if Replies(m, 300, 0x1_0000) then Some(m.status.value)
      else if HangsUp(m) && m.reason.Some? then Some(m.reason.value.0)
      else before
  }

  /** The last words a BYE gave as its reason. */
  function LastReason(msgs: Msgs): Option<Str> {
    if msgs == [] then None
    else
      var before, m := LastReason(msgs[..|msgs| - 1]), msgs[|msgs| - 1];
      if HangsUp(m) && m.reason.Some? && m.reason.value.1 != [] then Some(m.reason.value.1) else before
  }

  function RawSize(msgs: Msgs): nat {
    if msgs == [] then 0 else RawSize(msgs[..|msgs| - 1]) + msgs[|msgs| - 1].rawLen
  }

  lemma ApplyRecord(c: C.Call, m: C.SipMsg)
    ensures var d := C.Apply(c, m);
      && d.byeTs == (if c.byeTs == None && HangsUp(m) then Some(m.ts) else c.byeTs)
      && d.hangup.code == (if Replies(m, 300, 0x1_0000) then Some(m.status.value)
                           else if HangsUp(m) && m.reason.Some? then Some(m.reason.value.0) else c.hangup.code)
      && d.hangup.reason == (if HangsUp(m) && m.reason.Some? && m.reason.value.1 != []
                             then Some(m.reason.value.1) else c.hangup.reason)
      && d.lastTs == m.ts && d.pktsSip == c.pktsSip + 1 && d.bytes == c.bytes + m.rawLen
  {
    hide C.Ms, EqIgnoreCase;
  }

  /** First BYE, hangup cause, last activity, messages and bytes are those of the run. */
  lemma {:induction false} RecordIs(msgs: Msgs)
    ensures var c := C.Run(msgs);
      && c.byeTs == FirstBye(msgs) && c.hangup.code == LastCode(msgs) && c.hangup.reason == LastReason(msgs)
      && c.pktsSip == |msgs| && c.bytes == RawSize(msgs)
      && c.lastTs == if msgs == [] then 0 else msgs[|msgs| - 1].ts
  {
    hide HangsUp, Replies, C.Apply;
    if msgs != [] {
      RecordIs(msgs[..|msgs| - 1]);
      ApplyRecord(C.Run(msgs[..|msgs| - 1]), msgs[|msgs| - 1]);
    }
  }

  lemma ApplyRing(c: C.Call, m: C.SipMsg)
    ensures C.Apply(c, m).ringMs ==
      if c.answerTs.None? && Accepts(m) && c.ringingTs.Some? then Some(C.Ms(m.ts, c.ringingTs.value)) else c.ringMs
  {
    hide C.Ms, EqIgnoreCase;
  }

  /** The ring time runs from the first ringing taken to the first answer, when the one came before the other. */
  lemma {:induction false} RingTime(msgs: Msgs)
    ensures forall j :: 0 <= j < |msgs| && Accepts(msgs[j]) && !Accepted(msgs[..j]) ==>
      var rang := C.FirstOf(msgs[..j], true);
      C.Run(msgs).ringMs == if rang.None? then None else Some(C.Ms(msgs[j].ts, rang.value))
    ensures !Accepted(msgs) ==> C.Run(msgs).ringMs.None?
    decreases |msgs|
  {
    hide Accepts, C.Apply, C.Ms, C.FirstOf, C.FirstRing;
    if msgs != [] {
      var n := |msgs| - 1;
      RingTime(msgs[..n]);
      AcceptedSnoc(msgs, n);
      AcceptedIff(msgs[..n]);
      C.RingsAreFirst(msgs[..n]);
      ApplyRing(C.Run(msgs[..n]), msgs[n]);
      forall j | 0 <= j < n ensures msgs[..n][j] == msgs[j] && msgs[..n][..j] == msgs[..j] {
      }
      assert forall j :: 0 <= j < n && Accepts(msgs[j]) ==> Accepts(msgs[..n][j]);
    }
  }
}
