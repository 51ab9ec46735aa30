/** Calls, streams, their indexes and the per-IP totals derived from them. */
module Registry {
  import opened Prelude
  import opened Net
  import opened Utf8
  import opened Sums
  import opened KeyIndex
  import opened IpStats
  import C = Call
  import W = SeqWindow

  // ----- streams -----

  datatype StreamKey = StreamKey(flow: Flow5Tuple, ssrc: u32)

  /** `window` is the loss accumulator; the `ip*` watermarks are what per-IP totals have seen. */
  datatype Stream = Stream(
    callId: Str, flow: Flow5Tuple, firstTs: Option<u64>, lastTs: Option<u64>, packets: nat, bytes: nat,
    window: Option<W.Window>, ipPkts: nat, ipBytes: nat, ipLost: nat)

  function NewStream(callId: Str, flow: Flow5Tuple): Stream {
    Stream(callId, flow, None, None, 0, 0, None, 0, 0, 0)
  }

  /** Loss as a snapshot reports it: booked and pending. */
  function LossOf(s: Stream): nat {
    if s.window.None? then 0 else W.Lost(s.window.value)
  }

  /** One RTP packet. */
  function Observed(s: Stream, ts: u64, seq16: u16, len: nat): Stream {
    s.(firstTs := Some(s.firstTs.GetOr(ts)), lastTs := Some(ts),
       packets := s.packets + 1, bytes := s.bytes + len,
       window := Some(if s.window.None? then W.Start(seq16) else W.Observe(s.window.value, seq16)))
  }

  /** What the per-IP totals have not seen of a stream. */
  function Tail(s: Stream, f: Field): nat {
    match f
    case Pkts(_) => SatSub(s.packets, s.ipPkts)
    case Bytes(_) => SatSub(s.bytes, s.ipBytes)
    case Lost(_) => SatSub(LossOf(s), s.ipLost)
  }

  /** All watermarks raised. */
  function Settled(s: Stream): Stream {
    s.(ipPkts := s.packets, ipBytes := s.bytes, ipLost := LossOf(s))
  }

  // ----- per-IP totals -----

  type Ips = map<IpAddr, IpEntry>

  function EntryOf(ips: Ips, ip: IpAddr): IpEntry {
    if ip in ips then ips[ip] else NEW_IP
  }

  function AddPackets(ips: Ips, ip: IpAddr, ts: u64, count: nat, bytes: nat, dir: Dir): Ips {
    ips[ip := EntryOf(ips, ip).WithPackets(ts, count, bytes, dir)]
  }

  function AddLost(ips: Ips, ip: IpAddr, ts: u64, lost: nat, dir: Dir): Ips {
    ips[ip := EntryOf(ips, ip).WithLost(ts, lost, dir)]
  }

  /** The concurrent-call counter of an address. */
  function AddActive(ips: Ips, ip: IpAddr, up: bool): Ips {
    ips[ip := EntryOf(ips, ip).WithCall(up)]
  }

  /** Packets sent by the source of a flow and received by its destination. */
  function ChargePackets(ips: Ips, flow: Flow5Tuple, ts: u64, p: nat, b: nat): Ips {
    if p > 0 || b > 0
    then AddPackets(AddPackets(ips, flow.src.ip, ts, p, b, Tx), flow.dst.ip, ts, p, b, Rx)
    else ips
  }

  function ChargeLost(ips: Ips, flow: Flow5Tuple, ts: u64, l: nat): Ips {
    if l > 0 then AddLost(AddLost(ips, flow.src.ip, ts, l, Tx), flow.dst.ip, ts, l, Rx) else ips
  }

  /** A stream's tail, charged to both ends at the time of its last packet. */
  function Charge(ips: Ips, s: Stream): Ips {
    var ts := s.lastTs.GetOr(0);
    ChargeLost(ChargePackets(ips, s.flow, ts, Tail(s, Pkts(Tx)), Tail(s, Bytes(Tx))), s.flow, ts, Tail(s, Lost(Tx)))
  }

  ghost function GetOf(f: Field): IpEntry -> nat {
    (e: IpEntry) => e.totals.Get(f)
  }

  /** All counters of all addresses. */
  ghost function SumOf(ips: Ips): Bucket {
    Bucket(SumMap(ips, GetOf(Pkts(Tx))), SumMap(ips, GetOf(Pkts(Rx))), SumMap(ips, GetOf(Lost(Tx))),
           SumMap(ips, GetOf(Lost(Rx))), SumMap(ips, GetOf(Bytes(Tx))), SumMap(ips, GetOf(Bytes(Rx))))
  }

  // ----- amounts, everywhere or at one address -----

  /** Every address together, or one of them. */
  datatype Scope = Everywhere | At(ip: IpAddr)

  /** Whether an address is the end of a flow that a counter speaks of: its source sends, its destination receives. */
  predicate IsEnd(flow: Flow5Tuple, f: Field, ip: IpAddr) {
    match f.dir
    case Tx => ip == flow.src.ip
    case Rx => ip == flow.dst.ip
  }

  predicate Covers(at: Scope, flow: Flow5Tuple, f: Field) {
    at.Everywhere? || IsEnd(flow, f, at.ip)
  }

  ghost function Booked(ips: Ips, at: Scope, f: Field): nat {
    match at
    case Everywhere => SumMap(ips, GetOf(f))
    case At(ip) => EntryOf(ips, ip).totals.Get(f)
  }

  type Parts = map<IpAddr, Bucket>

  function PartOf(m: Parts, ip: IpAddr): Bucket {
    if ip in m then m[ip] else EMPTY
  }

  function AddPart(m: Parts, ip: IpAddr, b: Bucket): Parts {
    m[ip := PartOf(m, ip).Plus(b)]
  }

  /** A history of amounts, in all and by address. */
  datatype Account = Account(all: Bucket, each: Parts) {
    function Get(at: Scope, f: Field): nat {
      match at
      case Everywhere => all.Get(f)
      case At(ip) => PartOf(each, ip).Get(f)
    }

    /** Amounts of one flow: what was sent belongs to its source, what was received to its destination. */
    function Credit(flow: Flow5Tuple, b: Bucket): (r: Account)
      ensures forall at, f :: r.Get(at, f) == Get(at, f) + if Covers(at, flow, f) then b.Get(f) else 0
    {
      var sent := b.(pktsRx := 0, lostRx := 0, bytesRx := 0);
      var received := b.(pktsTx := 0, lostTx := 0, bytesTx := 0);
      Account(all.Plus(b), AddPart(AddPart(each, flow.src.ip, sent), flow.dst.ip, received))
    }

    /** Whole addresses. */
    ghost function CreditIps(ips: Ips): (r: Account)
      ensures forall at, f :: r.Get(at, f) == Get(at, f) + Booked(ips, at, f)
    {
      var parts := map ip | ip in each.Keys + ips.Keys :: PartOf(each, ip).Plus(EntryOf(ips, ip).totals);
      Account(all.Plus(SumOf(ips)), parts)
    }
  }

  const NOTHING := Account(EMPTY, map[])

  /** One packet of `len` bytes, as sent and as received. */
  function PacketBothWays(len: nat): Bucket {
    PacketsOf(1, len, Tx).Plus(PacketsOf(1, len, Rx))
  }

  /** A stream's tail, and the loss already charged for it, both ways. */
  function TailBothWays(s: Stream): Bucket {
    PacketsOf(Tail(s, Pkts(Tx)), Tail(s, Bytes(Tx)), Tx).Plus(PacketsOf(Tail(s, Pkts(Rx)), Tail(s, Bytes(Rx)), Rx))
  }

  function LossBothWays(s: Stream): Bucket {
    LostOf(s.ipLost, Tx).Plus(LostOf(s.ipLost, Rx))
  }

  // ----- the registry -----

  /**
    History since the last clear: packets and bytes taken into streams, what left
    without being charged to an IP or left with its IP, and the loss already charged
    for streams that are gone.
   */
  datatype Ledger = Ledger(taken: Account, capped: Account, idle: Account, gone: Account)

  datatype Reg = Reg(
    calls: map<Str, C.Call>, order: seq<Str>, streams: map<StreamKey, Stream>,
    streamIndex: map<Str, seq<StreamKey>>, ssrcIndex: map<u32, seq<StreamKey>>,
    endpointCall: map<SocketAddr, Str>, removed: seq<Str>, ips: Ips, ledger: Ledger)

  const NO_HISTORY := Ledger(NOTHING, NOTHING, NOTHING, NOTHING)
  const EMPTY_REG := Reg(map[], [], map[], map[], map[], map[], [], map[], NO_HISTORY)

  function GetOrCreateCall(r: Reg, id: Str): Reg {
    if id in r.calls then r else r.(calls := r.calls[id := C.NEW_CALL], order := r.order + [id])
  }

  function NoteStream(r: Reg, id: Str, key: StreamKey): Reg {
    r.(streamIndex := AddTo(r.streamIndex, id, key), ssrcIndex := AddTo(r.ssrcIndex, key.ssrc, key))
  }

  function ForgetStream(r: Reg, key: StreamKey): Reg {
    r.(streamIndex := if key in r.streams then Unindex(r.streamIndex, r.streams[key].callId, key) else r.streamIndex,
       ssrcIndex := Unindex(r.ssrcIndex, key.ssrc, key))
  }

  /** Folds a stream's tail into the per-IP totals. */
  function FlushIpattr(r: Reg, key: StreamKey): Reg {
    if key !in r.streams then r
    else r.(ips := Charge(r.ips, r.streams[key]), streams := r.streams[key := Settled(r.streams[key])])
  }

  function GoneWith(r: Reg, key: StreamKey): Account {
    if key in r.streams then r.ledger.gone.Credit(r.streams[key].flow, LossBothWays(r.streams[key])) else r.ledger.gone
  }

  /** A stream of a removed call: its tail charged, then out of every index. */
  function RemoveStream(r0: Reg, key: StreamKey): Reg {
    var r := FlushIpattr(r0, key);
    ForgetStream(r, key).(streams := r.streams - {key}, ledger := r.ledger.(gone := GoneWith(r, key)))
  }

  function RemoveStreams(r: Reg, keys: seq<StreamKey>): Reg
    decreases |keys|
  {
    if keys == [] then r else RemoveStreams(RemoveStream(r, keys[0]), keys[1..])
  }

  function KeysOf(r: Reg, id: Str): seq<StreamKey> {
    ListOf(r.streamIndex, id)
  }

  /** A call off the call map and the per-call index, its streams still there. */
  function Detached(r: Reg, id: Str): Reg {
    r.(calls := r.calls - {id}, removed := r.removed + [id], streamIndex := r.streamIndex - {id})
  }

  function RemoveOne(r: Reg, id: Str): Reg {
    RemoveStreams(Detached(r, id), KeysOf(r, id))
  }

  function RemoveEach(r: Reg, ids: seq<Str>): Reg
    decreases |ids|
  {
    if ids == [] then r else RemoveEach(RemoveOne(r, ids[0]), ids[1..])
  }

  function RemoveCalls(r: Reg, ids: seq<Str>): Reg {
    if ids == [] then r
    else
      var v := RemoveEach(r, ids);
      v.(order := Keep(v.order, SetOf(ids)),
         endpointCall := map a | a in v.endpointCall && v.endpointCall[a] !in SetOf(ids) :: v.endpointCall[a])
  }

  /** A stream over the cap: out of every index, its tail lost. */
  function CutStream(r: Reg, key: StreamKey): Reg {
    var capped := if key in r.streams
                  then r.ledger.capped.Credit(r.streams[key].flow, TailBothWays(r.streams[key]))
                  else r.ledger.capped;
    ForgetStream(r, key).(streams := r.streams - {key},
                          ledger := r.ledger.(capped := capped, gone := GoneWith(r, key)))
  }

  function CutStreams(r: Reg, keys: seq<StreamKey>): Reg
    decreases |keys|
  {
    if keys == [] then r else CutStreams(CutStream(r, keys[0]), keys[1..])
  }

  /** Every stream flushed, in the order the map gives them. */
  function FlushAll(r: Reg, keys: seq<StreamKey>): Reg
    decreases |keys|
  {
    if keys == [] then r else FlushAll(FlushIpattr(r, keys[0]), keys[1..])
  }

  /** A stream that is there takes one more packet. */
  function ObservePacket(r: Reg, key: StreamKey, ts: u64, seq16: u16, len: nat): Reg
    requires key in r.streams
  {
    r.(streams := r.streams[key := Observed(r.streams[key], ts, seq16, len)],
       ledger := r.ledger.(taken := r.ledger.taken.Credit(key.flow, PacketBothWays(len))))
  }

  /** The first packet of a new stream of a call. */
  function OpenStream(r: Reg, key: StreamKey, id: Str, ts: u64, seq16: u16, len: nat): Reg {
    NoteStream(ObservePacket(r.(streams := r.streams[key := NewStream(id, key.flow)]), key, ts, seq16, len), id, key)
  }

  /** A call replaced by its next state. */
  function SetCall(r: Reg, id: Str, c: C.Call): Reg {
    r.(calls := r.calls[id := c])
  }

  /** Media endpoints learned from a session description, later ones winning. */
  function Learn(r: Reg, eps: seq<SocketAddr>, id: Str): Reg
    decreases |eps|
  {
    if eps == [] then r else Learn(r.(endpointCall := r.endpointCall[eps[0] := id]), eps[1..], id)
  }

  /** The concurrent-call counters of some addresses, all up or all down. */
  function CountActive(r: Reg, addrs: seq<IpAddr>, up: bool): Reg
    decreases |addrs|
  {
    if addrs == [] then r else CountActive(r.(ips := AddActive(r.ips, addrs[0], up)), addrs[1..], up)
  }

  predicate InUse(e: IpEntry, cutoff: u64) {
    e.active > 0 || e.lastSeen.GetOr(0) >= cutoff
  }

  function IdleIps(ips: Ips, cutoff: u64): Ips {
    map ip | ip in ips && !InUse(ips[ip], cutoff) :: ips[ip]
  }

  function BusyIps(ips: Ips, cutoff: u64): Ips {
    map ip | ip in ips && InUse(ips[ip], cutoff) :: ips[ip]
  }

  /** Addresses without calls or recent packets are dropped with their totals. */
  ghost function PruneIdle(r: Reg, cutoff: u64): Reg {
    r.(ips := BusyIps(r.ips, cutoff),
       ledger := r.ledger.(idle := r.ledger.idle.CreditIps(IdleIps(r.ips, cutoff))))
  }

  // ----- agreement -----

  function Owners(streams: map<StreamKey, Stream>): map<StreamKey, Str> {
    map k | k in streams :: streams[k].callId
  }

  function Ssrcs(streams: map<StreamKey, Stream>): map<StreamKey, u32> {
    map k | k in streams :: k.ssrc
  }

  /** Both stream indexes list exactly the streams. */
  ghost predicate Indexed(r: Reg) {
    Agrees(r.streamIndex, Owners(r.streams)) && Agrees(r.ssrcIndex, Ssrcs(r.streams))
  }

  /** Every map speaks of the same calls and streams. */
  ghost predicate Agreement(r: Reg) {
    && Indexed(r)
    && (forall k :: k in r.streams ==> r.streams[k].callId in r.calls)
    && NoDup(r.order) && (forall id :: id in r.order <==> id in r.calls)
    && (forall a :: a in r.endpointCall ==> r.endpointCall[a] in r.calls)
  }

  /** No watermark is ahead of its stream. */
  ghost predicate Marked(s: Stream) {
    s.ipPkts <= s.packets && s.ipBytes <= s.bytes
  }

  /** Every stream is marked, and has the flow of its key. */
  ghost predicate Sound(streams: map<StreamKey, Stream>) {
    forall k :: k in streams ==> Marked(streams[k]) && streams[k].flow == k.flow
  }

  // ----- conservation -----

  /** The tail of a stream, as far as it belongs to a scope. */
  function TailAt(s: Stream, at: Scope, f: Field): nat {
    if Covers(at, s.flow, f) then Tail(s, f) else 0
  }

  ghost function TailIn(at: Scope, f: Field): Stream -> nat {
    (s: Stream) => TailAt(s, at, f)
  }

  ghost function ChargedIn(at: Scope, dir: Dir): Stream -> nat {
    (s: Stream) => if Covers(at, s.flow, Lost(dir)) then s.ipLost else 0
  }

  /** Charged to the addresses of a scope, and still in the tails of its live streams. */
  ghost function Balance(r: Reg, at: Scope, f: Field): nat {
    Booked(r.ips, at, f) + SumMap(r.streams, TailIn(at, f))
  }

  /** Loss charged to a scope beyond what its live and gone streams last reported. */
  ghost function LossSlack(r: Reg, at: Scope, dir: Dir): int {
    Booked(r.ips, at, Lost(dir)) + r.ledger.idle.Get(at, Lost(dir))
    - SumMap(r.streams, ChargedIn(at, dir)) - r.ledger.gone.Get(at, Lost(dir))
  }

  /** What was dropped: tails of streams over the cap, totals of idle addresses. */
  function DroppedIn(l: Ledger, at: Scope, f: Field): nat {
    l.capped.Get(at, f) + l.idle.Get(at, f)
  }

  /**
    At every address and in all, everything taken is charged, in a tail, or was
    dropped; charged loss is at least the loss of the streams at their last flush.
   */
  ghost predicate Conserved(r: Reg) {
    && (forall at: Scope, f: Field :: !f.Lost? ==>
          Balance(r, at, f) + DroppedIn(r.ledger, at, f) == r.ledger.taken.Get(at, f))
    && (forall at: Scope, dir: Dir :: LossSlack(r, at, dir) >= 0)
  }

  /** Everything the registry keeps at all times. */
  ghost predicate Sane(r: Reg) {
    Agreement(r) && Sound(r.streams) && Conserved(r)
  }

  lemma AddPacketsBooked(ips: Ips, ip: IpAddr, ts: u64, count: nat, bytes: nat, dir: Dir, at: Scope, f: Field)
    ensures Booked(AddPackets(ips, ip, ts, count, bytes, dir), at, f)
         == Booked(ips, at, f) + if at.Everywhere? || at.ip == ip then PacketsOf(count, bytes, dir).Get(f) else 0
  {
    SumSet(ips, GetOf(f), ip, AddPackets(ips, ip, ts, count, bytes, dir)[ip]);
  }

  lemma AddLostBooked(ips: Ips, ip: IpAddr, ts: u64, lost: nat, dir: Dir, at: Scope, f: Field)
    ensures Booked(AddLost(ips, ip, ts, lost, dir), at, f)
         == Booked(ips, at, f) + if at.Everywhere? || at.ip == ip then LostOf(lost, dir).Get(f) else 0
  {
    SumSet(ips, GetOf(f), ip, AddLost(ips, ip, ts, lost, dir)[ip]);
  }

  lemma AddActiveBooked(ips: Ips, ip: IpAddr, up: bool, at: Scope, f: Field)
    ensures Booked(AddActive(ips, ip, up), at, f) == Booked(ips, at, f)
  {
    SumSet(ips, GetOf(f), ip, AddActive(ips, ip, up)[ip]);
  }

  lemma ChargePacketsBooks(ips: Ips, flow: Flow5Tuple, ts: u64, p: nat, b: nat, at: Scope, f: Field)
    ensures Booked(ChargePackets(ips, flow, ts, p, b), at, f)
         == Booked(ips, at, f) + if !Covers(at, flow, f) then 0 else if f.Pkts? then p else if f.Bytes? then b else 0
  {
    hide Booked, AddPackets;
    AddPacketsBooked(ips, flow.src.ip, ts, p, b, Tx, at, f);
    AddPacketsBooked(AddPackets(ips, flow.src.ip, ts, p, b, Tx), flow.dst.ip, ts, p, b, Rx, at, f);
  }

  lemma ChargeLostBooks(ips: Ips, flow: Flow5Tuple, ts: u64, l: nat, at: Scope, f: Field)
    ensures Booked(ChargeLost(ips, flow, ts, l), at, f)
         == Booked(ips, at, f) + if Covers(at, flow, f) && f.Lost? then l else 0
  {
    hide Booked, AddLost;
    AddLostBooked(ips, flow.src.ip, ts, l, Tx, at, f);
    AddLostBooked(AddLost(ips, flow.src.ip, ts, l, Tx), flow.dst.ip, ts, l, Rx, at, f);
  }

  /**
    A tail lands at the sending and the receiving address, each under its own
    direction, and nowhere else; in all it is booked once under every counter.
   */
  lemma ChargeLands(ips: Ips, s: Stream, at: Scope, f: Field)
    ensures Booked(Charge(ips, s), at, f) == Booked(ips, at, f) + TailAt(s, at, f)
  {
    hide Booked, ChargePackets, ChargeLost, LossOf;
    var ts := s.lastTs.GetOr(0);
    var p, b, l := Tail(s, Pkts(Tx)), Tail(s, Bytes(Tx)), Tail(s, Lost(Tx));
    ChargePacketsBooks(ips, s.flow, ts, p, b, at, f);
    ChargeLostBooks(ChargePackets(ips, s.flow, ts, p, b), s.flow, ts, l, at, f);
  }
}
