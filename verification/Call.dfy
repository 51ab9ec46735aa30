/** The life of one call, message by message. */
module Call {
  import opened Prelude
  import opened Net
  import opened Sip
  import opened Utf8

  datatype CallState = Dialing | Ringing | Active | Completed | Failed | Canceled
  datatype Outcome = InProgress | Answered | Rejected | OutFailed | OutCanceled
  datatype HangupBy = Caller | Callee | Reject
  datatype SipMethod = Invite | Bye | Cancel | Other

  /** What the state machine reads of a SIP message; `reason` is the parsed Reason header. */
  datatype SipMsg = SipMsg(
    ts: u64, src: SocketAddr, dst: SocketAddr, isRequest: bool, method_: Option<SipMethod>,
    status: Option<u16>, callId: Str, cseqMethod: Option<Str>, toTag: Option<Str>, rawLen: nat,
    reason: Option<(u32, Str)>, hasSdp: bool)

  /** What started the ring-back, and whether media came with it. */
  datatype RingBack = RingBack(code: Option<u16>, early: bool)

  datatype Hangup = Hangup(who: Option<HangupBy>, code: Option<u32>, reason: Option<Str>)

  /** Where the call came from, and the addresses it touches. */
  datatype Origin = Origin(
    key: Option<IpAddr>, src: Option<SocketAddr>, ips: seq<IpAddr>, activeIps: seq<IpAddr>)

  datatype Call = Call(
    state: CallState, outcome: Outcome, inviteTs: Option<u64>, tryingTs: Option<u64>,
    ringingTs: Option<u64>, answerTs: Option<u64>, byeTs: Option<u64>, endTs: Option<u64>,
    pddMs: Option<u32>, setupMs: Option<u32>, ringMs: Option<u32>, ring: RingBack, hangup: Hangup,
    origin: Origin, pktsSip: nat, bytes: nat, lastTs: u64)

  const NEW_CALL := Call(
    Dialing, InProgress, None, None, None, None, None, None, None, None, None, RingBack(None, false),
    Hangup(None, None, None), Origin(None, None, [], []), 0, 0, 0)

  // ----- what a message is -----

  predicate InitialInvite(m: SipMsg) {
    m.isRequest && m.method_ == Some(Invite) && m.toTag.None?
  }

  predicate CseqIs(m: SipMsg, name: seq<byte>) {
    m.cseqMethod.Some? && EqIgnoreCase(m.cseqMethod.value, name)
  }

  /** A 1xx response that may belong to the INVITE. */
  predicate Provisional(m: SipMsg) {
    && !m.isRequest && m.status.Some? && 100 <= m.status.value < 200
    && (m.cseqMethod.None? || CseqIs(m, INVITE))
  }

  /** A 2xx response that does not belong to a BYE. */
  predicate Answer(m: SipMsg) {
    !m.isRequest && m.status.Some? && 200 <= m.status.value < 300 && !CseqIs(m, BYE)
  }

  /** 64-bit subtraction as compiled for release: it wraps. */
  function WrapSub(a: u64, b: u64): u64 {
    if a >= b then a - b else a - b + MAX_U64 + 1
  }

  /** Microseconds to milliseconds, cut to 32 bits. */
  function Ms(later: u64, earlier: u64): u32 {
    WrapSub(later, earlier) / 1000 % 0x1_0000_0000
  }

  // ----- the transition -----

  function Invited(o: Origin, m: SipMsg): Origin {
    Origin(Some(o.key.GetOr(m.src.ip)), Some(o.src.GetOr(m.src)), o.ips + [m.src.ip, m.dst.ip],
           if o.activeIps == [] then [m.src.ip, m.dst.ip] else o.activeIps)
  }

  function OnInvite(c: Call, m: SipMsg): Call {
    c.(inviteTs := Some(c.inviteTs.GetOr(m.ts)), origin := Invited(c.origin, m), state := Dialing)
  }

  /** Who sent the BYE, judged by the INVITE's source. */
  function ByeSender(key: Option<IpAddr>, m: SipMsg): Option<HangupBy> {
    match key
    case None => None
    case Some(ip) => Some(if ip == m.src.ip then Caller else Callee)
  }

  function Byed(h: Hangup, key: Option<IpAddr>, m: SipMsg): Hangup {
    Hangup(if h.who.None? then ByeSender(key, m) else h.who,
           if m.reason.Some? then Some(m.reason.value.0) else h.code,
           if m.reason.Some? && m.reason.value.1 != [] then Some(m.reason.value.1) else h.reason)
  }

  function OnBye(c: Call, m: SipMsg): Call {
    c.(byeTs := Some(c.byeTs.GetOr(m.ts)), hangup := Byed(c.hangup, c.origin.key, m))
  }

  /** Blame for the end of the call, unless it is known already. */
  function Blame(h: Hangup, who: HangupBy): Hangup {
    h.(who := Some(h.who.GetOr(who)))
  }

  function OnCancel(c: Call, m: SipMsg): Call {
    if c.state.Completed? || c.state.Failed? then c
    else c.(state := Canceled, endTs := Some(m.ts), hangup := Blame(c.hangup, Caller))
  }

  function OnProvisional(c: Call, m: SipMsg, code: u16): Call {
    var first := c.tryingTs.None? && c.ringingTs.None?;
    var timed := c.(pddMs := if first then Some(Ms(m.ts, c.inviteTs.GetOr(m.ts))) else c.pddMs);
    if 180 <= code < 190 then
      timed.(ringingTs := Some(c.ringingTs.GetOr(m.ts)), state := Ringing,
             ring := RingBack(Some(c.ring.code.GetOr(code)), c.ring.early || (code == 183 && m.hasSdp)))
    else timed.(tryingTs := Some(c.tryingTs.GetOr(m.ts)))
  }

  function OnAnswer(c: Call, m: SipMsg): Call {
    if c.answerTs.Some? then c
    else
      c.(answerTs := Some(m.ts),
         setupMs := if c.inviteTs.Some? then Some(Ms(m.ts, c.inviteTs.value)) else c.setupMs,
         ringMs := if c.ringingTs.Some? then Some(Ms(m.ts, c.ringingTs.value)) else c.ringMs,
         state := Active, outcome := Answered)
  }

  /** The call is over: completed if it was ever answered. */
  function Over(c: Call, ts: u64): Call {
    c.(state := if c.answerTs.Some? then Completed else Failed, endTs := Some(c.endTs.GetOr(ts)))
  }

  function OnRefusal(c0: Call, m: SipMsg, code: u16): Call {
    var c := c0.(hangup := c0.hangup.(code := Some(code)));
    if CseqIs(m, BYE) then Over(c, m.ts)
    else if code == 487 then
      c.(state := Canceled, outcome := OutCanceled, hangup := Blame(c.hangup, Caller))
    else if c.state.Dialing? || c.state.Ringing? then
      c.(state := Failed, outcome := if 400 <= code < 500 then Rejected else OutFailed,
         hangup := Blame(c.hangup, Reject), endTs := Some(c.endTs.GetOr(m.ts)))
    else Over(c, m.ts)
  }

  function OnResponse(c: Call, m: SipMsg, code: u16): Call {
    if Provisional(m) && m.status == Some(code) && (c.state.Dialing? || c.state.Ringing?) then
      OnProvisional(c, m, code)
    else if 200 <= code < 300 then
      if CseqIs(m, BYE) then Over(c, m.ts) else OnAnswer(c, m)
    else if code >= 300 then OnRefusal(c, m, code)
    else c
  }

  /** The message counted and timed, whatever it is. */
  function Touch(c: Call, m: SipMsg): Call {
    c.(pktsSip := c.pktsSip + 1, bytes := c.bytes + m.rawLen, lastTs := m.ts)
  }

  function Apply(c0: Call, m: SipMsg): Call {
    var c := Touch(c0, m);
    if InitialInvite(m) then OnInvite(c, m)
    else if m.isRequest then
      match m.method_
      case Some(Bye) => OnBye(c, m)
      case Some(Cancel) => OnCancel(c, m)
      case _ => c
    else if m.status.Some? then OnResponse(c, m, m.status.value)
    else c
  }

  /** A call after its messages, in order of arrival. */
  function Run(msgs: seq<SipMsg>): Call {
    if msgs == [] then NEW_CALL else Apply(Run(msgs[..|msgs| - 1]), msgs[|msgs| - 1])
  }

  predicate Terminal(s: CallState) {
    s.Completed? || s.Failed? || s.Canceled?
  }

  // ----- the batch metrics -----

  function ComputePdd(c: Call): Option<u32> {
    if c.inviteTs.None? || (c.tryingTs.None? && c.ringingTs.None?) then None
    else
      var first := if c.tryingTs.None? then c.ringingTs.value
                   else if c.ringingTs.None? then c.tryingTs.value
                   else Min(c.tryingTs.value, c.ringingTs.value);
      Some(Ms(first, c.inviteTs.value))
  }

  function ComputeSetup(c: Call): Option<u32> {
    if c.inviteTs.None? || c.answerTs.None? then None else Some(Ms(c.answerTs.value, c.inviteTs.value))
  }

  // ----- every reachable call -----

  /** A call that was up was answered; one that is over has an end. */
  predicate Sound(c: Call) {
    && (c.state.Active? || c.state.Completed? ==> c.answerTs.Some?)
    && (c.state.Completed? || c.state.Failed? ==> c.endTs.Some?)
    && (c.ringMs.Some? ==> c.answerTs.Some?)
    && (c.setupMs.Some? ==> c.setupMs == ComputeSetup(c))
  }

  lemma RefusalSound(c: Call, m: SipMsg, code: u16)
    requires Sound(c)
    ensures Sound(OnRefusal(c, m, code))
  {
  }

  lemma AnswerSound(c: Call, m: SipMsg)
    requires Sound(c)
    ensures Sound(OnAnswer(c, m))
  {
  }

  lemma ResponseSound(c: Call, m: SipMsg, code: u16)
    requires Sound(c)
    ensures Sound(OnResponse(c, m, code))
  {
    hide OnRefusal, OnAnswer, Ms;
    RefusalSound(c, m, code);
    AnswerSound(c, m);
  }

  lemma RequestSound(c: Call, m: SipMsg)
    requires Sound(c)
    ensures Sound(OnInvite(c, m)) && Sound(OnBye(c, m)) && Sound(OnCancel(c, m))
  {
    hide Ms;
  }

  lemma ApplySound(c: Call, m: SipMsg)
    requires Sound(c)
    ensures Sound(Apply(c, m))
  {
    hide OnResponse, OnInvite, OnBye, OnCancel;
    assert Sound(Touch(c, m));
    RequestSound(Touch(c, m), m);
    if m.status.Some? {
      ResponseSound(Touch(c, m), m, m.status.value);
    }
  }

  lemma {:induction false} RunSound(msgs: seq<SipMsg>)
    ensures Sound(Run(msgs))
  {
    if msgs != [] {
      RunSound(msgs[..|msgs| - 1]);
      ApplySound(Run(msgs[..|msgs| - 1]), msgs[|msgs| - 1]);
    }
  }

  // ----- times, read off the messages -----

  /** Time of the first initial INVITE. */
  function FirstInvite(msgs: seq<SipMsg>): Option<u64> {
    if msgs == [] then None
    else
      var before, m := FirstInvite(msgs[..|msgs| - 1]), msgs[|msgs| - 1];
      if before.None? && InitialInvite(m) then Some(m.ts) else before
  }

  /** Time of the first answer. */
  function FirstAnswer(msgs: seq<SipMsg>): Option<u64> {
    if msgs == [] then None
    else
      var before, m := FirstAnswer(msgs[..|msgs| - 1]), msgs[|msgs| - 1];
      if before.None? && Answer(m) then Some(m.ts) else before
  }

  lemma ApplyTimes(c: Call, m: SipMsg)
    ensures Apply(c, m).inviteTs == if c.inviteTs.None? && InitialInvite(m) then Some(m.ts) else c.inviteTs
    ensures Apply(c, m).answerTs == if c.answerTs.None? && Answer(m) then Some(m.ts) else c.answerTs
    ensures Apply(c, m).setupMs ==
      if c.answerTs.None? && Answer(m) && c.inviteTs.Some? then Some(Ms(m.ts, c.inviteTs.value)) else c.setupMs
  {
  }

  lemma {:induction false} TimesAreFirst(msgs: seq<SipMsg>)
    ensures Run(msgs).inviteTs == FirstInvite(msgs) && Run(msgs).answerTs == FirstAnswer(msgs)
  {
    if msgs != [] {
      TimesAreFirst(msgs[..|msgs| - 1]);
      ApplyTimes(Run(msgs[..|msgs| - 1]), msgs[|msgs| - 1]);
    }
  }

  /** Message `j` is the first initial INVITE, and an answer came before it. */
  predicate InvitedLate(msgs: seq<SipMsg>, j: nat)
    requires j < |msgs|
  {
    InitialInvite(msgs[j]) && FirstInvite(msgs[..j]).None? && FirstAnswer(msgs[..j]).Some?
  }

  ghost predicate AnsweredFirst(msgs: seq<SipMsg>) {
    exists j :: 0 <= j < |msgs| && InvitedLate(msgs, j)
  }

  lemma AnsweredFirstSnoc(msgs: seq<SipMsg>, n: nat)
    requires |msgs| == n + 1
    ensures AnsweredFirst(msgs) <==> AnsweredFirst(msgs[..n]) || InvitedLate(msgs, n)
  {
    forall j | 0 <= j < n
      ensures msgs[..n][j] == msgs[j] && msgs[..n][..j] == msgs[..j]
    {
    }
    if AnsweredFirst(msgs[..n]) {
      var j :| 0 <= j < n && InvitedLate(msgs[..n], j);
      assert InvitedLate(msgs, j);
    }
    if j :| 0 <= j < |msgs| && InvitedLate(msgs, j) && j < n {
      assert InvitedLate(msgs[..n], j);
    }
  }

  lemma {:induction false} SetupMissing(msgs: seq<SipMsg>)
    ensures var c := Run(msgs);
      c.setupMs.None? && c.inviteTs.Some? && c.answerTs.Some? <==> AnsweredFirst(msgs)
    ensures Run(msgs).setupMs.Some? ==> Run(msgs).inviteTs.Some? && Run(msgs).answerTs.Some?
  {
    if msgs != [] {
      var n := |msgs| - 1;
      SetupMissing(msgs[..n]);
      ApplyTimes(Run(msgs[..n]), msgs[n]);
      TimesAreFirst(msgs[..n]);
      AnsweredFirstSnoc(msgs, n);
    }
  }

  /** The setup delay kept live is the batch one, unless the first answer came before the first INVITE. */
  lemma SetupExactIff(msgs: seq<SipMsg>)
    ensures Run(msgs).setupMs == ComputeSetup(Run(msgs)) <==> !AnsweredFirst(msgs)
  {
    RunSound(msgs);
    SetupMissing(msgs);
  }

  // ----- post-dial delay -----

  predicate InOrder(msgs: seq<SipMsg>) {
    forall i, j :: 0 <= i <= j < |msgs| ==> msgs[i].ts <= msgs[j].ts
  }

  /** A provisional response that the call takes: it still waits for an answer. */
  predicate Rings(c: Call, m: SipMsg) {
    Provisional(m) && (c.state.Dialing? || c.state.Ringing?)
  }

  /** 180 to 189 ring, any other provisional only tries. */
  predicate IsRinging(m: SipMsg) {
    m.status.Some? && 180 <= m.status.value < 190
  }

  /** Time of the first provisional taken, and of the initial INVITE by then. */
  function FirstRing(msgs: seq<SipMsg>): Option<(u64, Option<u64>)> {
    if msgs == [] then None
    else
      var front, m := msgs[..|msgs| - 1], msgs[|msgs| - 1];
      if FirstRing(front).None? && Rings(Run(front), m) then Some((m.ts, FirstInvite(front))) else FirstRing(front)
  }

  /** Time of the first provisional taken that rings, or of the first that tries. */
  function FirstOf(msgs: seq<SipMsg>, ringing: bool): Option<u64> {
    if msgs == [] then None
    else
      var front, m := msgs[..|msgs| - 1], msgs[|msgs| - 1];
      if FirstOf(front, ringing).None? && Rings(Run(front), m) && IsRinging(m) == ringing then Some(m.ts)
      else FirstOf(front, ringing)
  }

  /** The earlier of the two, by their stamps. */
  function Earliest(msgs: seq<SipMsg>): Option<u64> {
    var t, r := FirstOf(msgs, false), FirstOf(msgs, true);
    if t.None? then r else if r.None? then t else Some(Min(t.value, r.value))
  }

  /** The times that the post-dial delay is made of. */
  predicate SameDelay(c: Call, d: Call) {
    c.pddMs == d.pddMs && c.inviteTs == d.inviteTs && c.tryingTs == d.tryingTs && c.ringingTs == d.ringingTs
  }

  lemma OthersKeepDelay(c: Call, m: SipMsg, code: u16)
    ensures SameDelay(c, OnRefusal(c, m, code)) && SameDelay(c, OnAnswer(c, m)) && SameDelay(c, Over(c, m.ts))
    ensures SameDelay(c, OnBye(c, m)) && SameDelay(c, OnCancel(c, m)) && SameDelay(c, Touch(c, m))
  {
    hide Ms;
  }

  /** What one message does to the delay and its times. */
  lemma ApplyRings(c: Call, m: SipMsg)
    ensures var d, rings := Apply(c, m), Rings(c, m);
      && d.tryingTs == (if c.tryingTs.None? && rings && !IsRinging(m) then Some(m.ts) else c.tryingTs)
      && d.ringingTs == (if c.ringingTs.None? && rings && IsRinging(m) then Some(m.ts) else c.ringingTs)
      && d.pddMs == (if c.tryingTs.None? && c.ringingTs.None? && rings
                     then Some(Ms(m.ts, c.inviteTs.GetOr(m.ts))) else c.pddMs)
  {
    hide OnRefusal, OnAnswer, Over, OnBye, OnCancel, Ms;
    OthersKeepDelay(c, m, m.status.GetOr(0));
    OthersKeepDelay(Touch(c, m), m, m.status.GetOr(0));
  }

  /** The delay and its times, read off the messages. */
  lemma {:induction false} RingsAreFirst(msgs: seq<SipMsg>)
    ensures var c, first := Run(msgs), FirstRing(msgs);
      && c.tryingTs == FirstOf(msgs, false) && c.ringingTs == FirstOf(msgs, true)
      && (first.Some? <==> c.tryingTs.Some? || c.ringingTs.Some?)
      && c.pddMs == if first.None? then None else Some(Ms(first.value.0, first.value.1.GetOr(first.value.0)))
  {
    hide Ms, Rings, Apply;
    if msgs != [] {
      var n := |msgs| - 1;
      RingsAreFirst(msgs[..n]);
      TimesAreFirst(msgs[..n]);
      ApplyRings(Run(msgs[..n]), msgs[n]);
    }
  }

  /** An INVITE seen once stays the first. */
  lemma {:induction false} InviteStays(msgs: seq<SipMsg>)
    ensures FirstRing(msgs).Some? && FirstRing(msgs).value.1.Some? ==> FirstRing(msgs).value.1 == FirstInvite(msgs)
  {
    hide Rings, Run;
    if msgs != [] {
      InviteStays(msgs[..|msgs| - 1]);
    }
  }

  lemma NoDelay(t: u64)
    ensures Ms(t, t) == 0
  {
  }

  /**
    For every run, whatever its times: the live post-dial delay is the batch one if
    and only if no provisional was taken, or an initial INVITE came at some point and
    the delay from it to the earliest provisional is that to the first one taken (none
    at all where the INVITE came later).
   */
  lemma PddExactIff(msgs: seq<SipMsg>)
    ensures var first, invite, e := FirstRing(msgs), FirstInvite(msgs), Earliest(msgs);
      Run(msgs).pddMs == ComputePdd(Run(msgs)) <==>
      (first.Some? ==>
        && invite.Some? && e.Some?
        && Ms(e.value, invite.value) == if first.value.1.Some? then Ms(first.value.0, invite.value) else 0)
  {
    hide Ms, Run;
    RingsAreFirst(msgs);
    TimesAreFirst(msgs);
    InviteStays(msgs);
    if FirstRing(msgs).Some? {
      NoDelay(FirstRing(msgs).value.0);
    }
  }

  /** In order, the earliest provisional is the first taken. */
  lemma {:induction false} FirstIsEarliest(msgs: seq<SipMsg>)
    requires InOrder(msgs)
    ensures FirstRing(msgs).Some? ==> Earliest(msgs) == Some(FirstRing(msgs).value.0)
    ensures FirstRing(msgs).None? ==> Earliest(msgs) == None
    ensures msgs != [] && FirstRing(msgs).Some? ==> FirstRing(msgs).value.0 <= msgs[|msgs| - 1].ts
  {
    hide Rings, Run;
    if msgs != [] {
      var n := |msgs| - 1;
      assert n > 0 ==> msgs[..n][n - 1] == msgs[n - 1];
      FirstIsEarliest(msgs[..n]);
    }
  }

  /**
    With times in order: the live post-dial delay is the batch one if and only if the
    first provisional taken had an initial INVITE before it, or one came later at the
    same cut-off millisecond count.
   */
  lemma PddExactInOrder(msgs: seq<SipMsg>)
    requires InOrder(msgs)
    ensures var first, invite := FirstRing(msgs), FirstInvite(msgs);
      Run(msgs).pddMs == ComputePdd(Run(msgs)) <==>
      (first.Some? && first.value.1.None? ==> invite.Some? && Ms(first.value.0, invite.value) == 0)
  {
    hide Ms, Run;
    PddExactIff(msgs);
    FirstIsEarliest(msgs);
    InviteStays(msgs);
  }

  /** No provisional response comes before the first initial INVITE. */
  predicate InvitedBeforeRinging(msgs: seq<SipMsg>) {
    forall j :: 0 <= j < |msgs| && Provisional(msgs[j]) ==> FirstInvite(msgs[..j]).Some?
  }

  lemma {:induction false} RingsInvited(msgs: seq<SipMsg>)
    requires InvitedBeforeRinging(msgs)
    ensures FirstRing(msgs).Some? ==> FirstRing(msgs).value.1.Some?
  {
    if msgs != [] {
      var n := |msgs| - 1;
      forall j | 0 <= j < n
        ensures msgs[..n][j] == msgs[j] && msgs[..n][..j] == msgs[..j]
      {
      }
      RingsInvited(msgs[..n]);
    }
  }

  /** In particular with times in order and no ringing before the INVITE. */
  lemma PddExact(msgs: seq<SipMsg>)
    requires InOrder(msgs) && InvitedBeforeRinging(msgs)
    ensures Run(msgs).pddMs == ComputePdd(Run(msgs))
  {
    hide Run;
    RingsInvited(msgs);
    PddExactInOrder(msgs);
  }

  lemma RunOne(a: SipMsg)
    ensures Run([a]) == Apply(NEW_CALL, a)
  {
    assert [a][..0] == [];
  }

  lemma RunTwo(a: SipMsg, b: SipMsg)
    ensures Run([a, b]) == Apply(Apply(NEW_CALL, a), b)
  {
    hide Apply;
    RunOne(a);
    assert [a, b][..1] == [a];
  }

  lemma RunThree(a: SipMsg, b: SipMsg, c: SipMsg)
    ensures Run([a, b, c]) == Apply(Apply(Apply(NEW_CALL, a), b), c)
  {
    hide Apply;
    RunTwo(a, b);
    assert [a, b, c][..2] == [a, b];
  }

  /** A run that opens with a provisional takes it. */
  lemma {:induction false} OpensRinging(msgs: seq<SipMsg>)
    requires msgs != [] && Provisional(msgs[0])
    ensures FirstRing(msgs).Some?
  {
    var n := |msgs| - 1;
    if n == 0 {
      assert msgs[..0] == [];
    } else {
      assert msgs[..n][0] == msgs[0];
      OpensRinging(msgs[..n]);
    }
  }

  /** A capture that starts after the INVITE: a zero delay is kept where the batch metric has none. */
  lemma PddWithoutInvite(msgs: seq<SipMsg>)
    requires msgs != [] && (Provisional(msgs[0]) || FirstRing(msgs).Some?) && FirstInvite(msgs).None?
    ensures Run(msgs).pddMs == Some(0) && ComputePdd(Run(msgs)) == None
  {
    hide Ms, Run;
    if Provisional(msgs[0]) {
      OpensRinging(msgs);
    }
    RingsAreFirst(msgs);
    TimesAreFirst(msgs);
    InviteStays(msgs);
    NoDelay(FirstRing(msgs).value.0);
  }

  /** A provisional that overtakes its INVITE by a millisecond: no delay live, a wrapped span in the batch. */
  lemma PddOvertaken(ring: SipMsg, invite: SipMsg)
    requires Provisional(ring) && InitialInvite(invite) && invite.ts == ring.ts + 1000
    ensures var c := Run([ring, invite]);
      c.pddMs == Some(0) && ComputePdd(c) == Some(18446744073709550 % 0x1_0000_0000) != Some(0)
  {
    var one := Apply(NEW_CALL, ring);
    RunTwo(ring, invite);
    ApplyRings(NEW_CALL, ring);
    ApplyTimes(NEW_CALL, ring);
    ApplyRings(one, invite);
    ApplyTimes(one, invite);
    NoDelay(ring.ts);
    assert Ms(ring.ts, invite.ts) == 18446744073709550 % 0x1_0000_0000;
    hide Apply, Ms;
  }

  /** A second provisional stamped before the first, both after the INVITE: the batch metric follows the stamps. */
  lemma PddRestamped(invite: SipMsg, ring: SipMsg, trying: SipMsg)
    requires InitialInvite(invite) && Provisional(ring) && IsRinging(ring) && Provisional(trying) && !IsRinging(trying)
    requires ring.ts == invite.ts + 2000 && trying.ts == invite.ts + 1000
    ensures var c := Run([invite, ring, trying]);
      c.pddMs == Some(2) && ComputePdd(c) == Some(1)
  {
    var one := Apply(NEW_CALL, invite);
    var two := Apply(one, ring);
    RunThree(invite, ring, trying);
    assert one.state.Dialing? && two.state.Ringing?;
    hide Apply;
    ApplyRings(NEW_CALL, invite);
    ApplyTimes(NEW_CALL, invite);
    ApplyRings(one, ring);
    ApplyTimes(one, ring);
    ApplyRings(two, trying);
    ApplyTimes(two, trying);
  }

  // ----- answered calls that look unanswered -----

  predicate Unanswered(c: Call) {
    c.state.Dialing? || c.state.Ringing? || c.state.Failed? ==> c.answerTs.None?
  }

  ghost predicate AlwaysConsistent(msgs: seq<SipMsg>) {
    forall n :: 0 <= n <= |msgs| ==> Unanswered(Run(msgs[..n]))
  }

  /** No initial INVITE after an answer. */
  ghost predicate NoRedial(msgs: seq<SipMsg>) {
    forall j :: 0 <= j < |msgs| && InitialInvite(msgs[j]) ==> FirstAnswer(msgs[..j]).None?
  }

  lemma ApplyUnanswered(c: Call, m: SipMsg)
    requires Unanswered(c)
    ensures Unanswered(Apply(c, m)) <==> !(InitialInvite(m) && c.answerTs.Some?)
  {
  }

  lemma {:induction false} NoRedialConsistent(msgs: seq<SipMsg>)
    requires NoRedial(msgs)
    ensures Unanswered(Run(msgs))
  {
    if msgs != [] {
      var n := |msgs| - 1;
      var front := msgs[..n];
      forall j | 0 <= j < n
        ensures front[j] == msgs[j] && front[..j] == msgs[..j]
      {
      }
      NoRedialConsistent(front);
      TimesAreFirst(front);
      ApplyUnanswered(Run(front), msgs[n]);
    }
  }

  /**
    At every moment of a run a dialing, ringing or failed call has no answer, if and
    only if no initial INVITE ever follows an answer.
   */
  lemma ConsistentIff(msgs: seq<SipMsg>)
    ensures AlwaysConsistent(msgs) <==> NoRedial(msgs)
  {
    if NoRedial(msgs) {
      forall n | 0 <= n <= |msgs|
        ensures Unanswered(Run(msgs[..n]))
      {
        forall j | 0 <= j < n && InitialInvite(msgs[..n][j])
          ensures FirstAnswer(msgs[..n][..j]).None?
        {
          assert msgs[..n][j] == msgs[j] && msgs[..n][..j] == msgs[..j];
        }
        NoRedialConsistent(msgs[..n]);
      }
    }
    if AlwaysConsistent(msgs) {
      forall j | 0 <= j < |msgs| && InitialInvite(msgs[j])
        ensures FirstAnswer(msgs[..j]).None?
      {
        var next := msgs[..j + 1];
        assert next[..j] == msgs[..j] && next[j] == msgs[j];
        assert Unanswered(Run(msgs[..j])) && Unanswered(Run(next));
        TimesAreFirst(msgs[..j]);
        ApplyUnanswered(Run(msgs[..j]), msgs[j]);
      }
    }
  }

  // ----- the call as it is updated in place -----

  class LiveCall {
    var state: CallState
    var outcome: Outcome
    var inviteTs: Option<u64>
    var tryingTs: Option<u64>
    var ringingTs: Option<u64>
    var answerTs: Option<u64>
    var byeTs: Option<u64>
    var endTs: Option<u64>
    var pddMs: Option<u32>
    var setupMs: Option<u32>
    var ringMs: Option<u32>
    var ring: RingBack
    var hangup: Hangup
    var origin: Origin
    var pktsSip: nat
    var bytes: nat
    var lastTs: u64

    ghost function View(): Call
      reads this
    {
      Call(state, outcome, inviteTs, tryingTs, ringingTs, answerTs, byeTs, endTs, pddMs, setupMs, ringMs, ring,
           hangup, origin, pktsSip, bytes, lastTs)
    }

    constructor ()
      ensures View() == Run([])
    {
      state, outcome := Dialing, InProgress;
      inviteTs, tryingTs, ringingTs, answerTs, byeTs, endTs := None, None, None, None, None, None;
      pddMs, setupMs, ringMs, ring := None, None, None, RingBack(None, false);
      hangup, origin := Hangup(None, None, None), Origin(None, None, [], []);
      pktsSip, bytes, lastTs := 0, 0, 0;
    }

    /** The message counted, and an initial INVITE taken whole. */
    method TakeInvite(m: SipMsg)
      modifies this
      ensures View() == OnInvite(old(View()), m)
    {
      inviteTs := Some(inviteTs.GetOr(m.ts));
      var o := origin;
      o := o.(key := Some(o.key.GetOr(m.src.ip)));
      o := o.(src := Some(o.src.GetOr(m.src)));
      if o.activeIps == [] {
        o := o.(activeIps := [m.src.ip, m.dst.ip]);
      }
      origin := o.(ips := o.ips + [m.src.ip, m.dst.ip]);
      state := Dialing;
    }

    method TakeBye(m: SipMsg)
      modifies this`byeTs, this`hangup
      ensures View() == OnBye(old(View()), m)
    {
      byeTs := Some(byeTs.GetOr(m.ts));
      var h := hangup;
      if h.who.None? {
        h := h.(who := if origin.key.None? then None
                      else if origin.key.value == m.src.ip then Some(Caller) else Some(Callee));
      }
      if m.reason.Some? {
        h := h.(code := Some(m.reason.value.0));
        if m.reason.value.1 != [] {
          h := h.(reason := Some(m.reason.value.1));
        }
      }
      hangup := h;
    }

    method TakeCancel(m: SipMsg)
      modifies this`state, this`endTs, this`hangup
      ensures View() == OnCancel(old(View()), m)
    {
      if !state.Completed? && !state.Failed? {
        state := Canceled;
        endTs := Some(m.ts);
        hangup := hangup.(who := Some(hangup.who.GetOr(Caller)));
      }
    }

    method TakeProvisional(m: SipMsg, code: u16)
      modifies this`pddMs, this`ringingTs, this`ring, this`state, this`tryingTs
      ensures View() == OnProvisional(old(View()), m, code)
    {
      if tryingTs.None? && ringingTs.None? {
        pddMs := Some(Ms(m.ts, inviteTs.GetOr(m.ts)));
      }
      if 180 <= code < 190 || code == 183 {
        ringingTs := Some(ringingTs.GetOr(m.ts));
        ring := RingBack(Some(ring.code.GetOr(code)), ring.early || (code == 183 && m.hasSdp));
        state := Ringing;
      } else if tryingTs.None? {
        tryingTs := Some(m.ts);
      }
    }

    method TakeAnswer(m: SipMsg)
      modifies this`answerTs, this`setupMs, this`ringMs, this`state, this`outcome
      ensures View() == OnAnswer(old(View()), m)
    {
      if answerTs.None? {
        answerTs := Some(m.ts);
        setupMs := if inviteTs.Some? then Some(Ms(m.ts, inviteTs.value)) else setupMs;
        ringMs := if ringingTs.Some? then Some(Ms(m.ts, ringingTs.value)) else ringMs;
        state := Active;
        outcome := Answered;
      }
    }

    method TearDown(ts: u64)
      modifies this`endTs, this`state
      ensures View() == Over(old(View()), ts)
    {
      endTs := Some(endTs.GetOr(ts));
      state := if answerTs.Some? then Completed else Failed;
    }

    method TakeRefusal(m: SipMsg, code: u16)
      modifies this`hangup, this`state, this`outcome, this`endTs
      ensures View() == OnRefusal(old(View()), m, code)
    {
      hangup := hangup.(code := Some(code));
      if CseqIs(m, BYE) {
        TearDown(m.ts);
        return;
      }
      if code == 487 {
        state, outcome, hangup := Canceled, OutCanceled, hangup.(who := Some(hangup.who.GetOr(Caller)));
      } else if state.Dialing? || state.Ringing? {
        state, outcome := Failed, if 400 <= code < 500 then Rejected else OutFailed;
        hangup, endTs := hangup.(who := Some(hangup.who.GetOr(Reject))), Some(endTs.GetOr(m.ts));
      } else {
        TearDown(m.ts);
      }
    }

    method TakeResponse(m: SipMsg, code: u16)
      requires !m.isRequest && m.status == Some(code)
      modifies this
      ensures View() == OnResponse(old(View()), m, code)
    {
      if 100 <= code < 200 && (m.cseqMethod.None? || CseqIs(m, INVITE)) && (state.Dialing? || state.Ringing?) {
        TakeProvisional(m, code);
        return;
      }
      if 200 <= code < 300 {
        if CseqIs(m, BYE) {
          TearDown(m.ts);
          return;
        }
        TakeAnswer(m);
        return;
      }
      if code >= 300 {
        TakeRefusal(m, code);
      }
    }

    /** One SIP message of the call. */
    method ApplySip(m: SipMsg)
      modifies this
      ensures View() == Apply(old(View()), m)
    {
      pktsSip := pktsSip + 1;
      bytes := bytes + m.rawLen;
      lastTs := m.ts;
      assert View() == Touch(old(View()), m);
      if m.method_ == Some(Invite) && m.isRequest && m.toTag.None? {
        TakeInvite(m);
        return;
      }
      if m.isRequest {
        if m.method_ == Some(Bye) {
          TakeBye(m);
        } else if m.method_ == Some(Cancel) {
          TakeCancel(m);
        }
        return;
      }
      if m.status.None? {
        return;
      }
      TakeResponse(m, m.status.value);
    }
  }
}
