// The microchan core as a machine over values: one endpoint, one transition function
// per API call. The reliable window and the rings are plain sequences here; the class
// in microchan_endpoint.dfy keeps them in fixed buffers with 16-bit cursors.
module MicrochanMachine {
  import opened Bytes

  const MTU := 546
  const HDR := 8
  const REC := 6
  const MAXMSG := MTU - HDR - REC
  const WINDOW := 8
  const RECVQ := WINDOW
  const UNREL_TXQ := 4
  const MAX_CHAN := 2

  const PKT_SYN := 1
  const PKT_SYNACK := 2
  const PKT_ACK := 3
  const PKT_DATA := 4
  const PKT_FIN := 5
  const MT_UNREL := 0
  const MT_REL := 1

  const RT_MS := 120
  const RT_ATTEMPTS := 12
  const CONNECT_RETRY_MS := 250
  const CONNECT_RETRIES := 240
  const KEEPALIVE_MS := 1000
  const IDLE_MS := 10000

  const MC_OK := 0
  const MC_ERR := -1
  const MC_ERR_AGAIN := -3
  const MC_ERR_CLOSED := -4
  const MC_ERR_TOOBIG := -5
  const MC_ERR_PROTO := -6

  datatype ConnState = Closed | Connecting | Connected | Closing
  datatype Kind = Reliable | Unreliable
  datatype ChanSlot = Unused | Open(kind: Kind)
  datatype Msg = Msg(chan: byte, data: bytes)
  datatype Rec = Rec(chan: byte, mt: byte, seqno: u16, data: bytes)

  // Connection setup: who we are, who the peer is, and which control packets are owed.
  datatype Handshake = Handshake(
    server: bool,
    localId: u32,
    state: ConnState,
    remoteId: u32,
    sendSyn: bool,
    sendSynack: bool,
    sendAck: bool,
    timer: u32,
    attempts: u16)

  datatype Clock = Clock(now: u32, lastRecv: u32, lastSend: u32)

  // The reliable send window.
  datatype Tx = Tx(
    base: u16,              // number of the oldest unacknowledged message
    window: seq<Msg>,       // every message from base up to the next to assign
    sent: nat,              // how many of them are on the wire already
    timer: u32,
    attempts: u16)

  // The reliable receiver and the per-channel delivery rings.
  datatype Rx = Rx(next: u16, ackPending: bool, rings: seq<seq<bytes>>)

  datatype Ep = Ep(
    hs: Handshake,
    clk: Clock,
    tx: Tx,
    rx: Rx,
    unrel: seq<Msg>,
    layout: seq<ChanSlot>)

  // A connection just opened.
  function Fresh(server: bool, id: u32, layout: seq<ChanSlot>): Ep {
    Ep(Handshake(server, id, Closed, 0, false, false, false, 0, 0), Clock(0, 0, 0),
       Tx(0, [], 0, 0, 0), Rx(0, false, [[], []]), [], layout)
  }

  predicate MsgOk(m: Msg) {
    |m.data| <= MAXMSG
  }

  predicate AllOk(ms: seq<Msg>) {
    forall i :: 0 <= i < |ms| ==> MsgOk(ms[i])
  }

  ghost predicate TxValid(t: Tx) {
    t.sent <= |t.window| <= WINDOW && AllOk(t.window)
  }

  ghost predicate RxValid(r: Rx) {
    |r.rings| == MAX_CHAN && (forall c :: 0 <= c < MAX_CHAN ==> |r.rings[c]| <= RECVQ)
  }

  ghost predicate Valid(e: Ep) {
    && TxValid(e.tx)
    && RxValid(e.rx)
    && |e.unrel| <= UNREL_TXQ && AllOk(e.unrel)
    && |e.layout| == MAX_CHAN
  }

  // ----- serial numbers -----

  function ToInt16(x: u16): int {
    if x < 0x8000 then x else x - 0x1_0000
  }

  predicate SeqAfter(a: u16, b: u16) {
    ToInt16(Dist(a, b)) > 0
  }

  // Serial comparison is comparison of the unbounded numbers exactly while they are less
  // than half the number space apart; the two families outside that are answered wrongly.
  lemma SeqAfterLogical(x: int, y: int)
    ensures -0x8000 <= x - y < 0x8000 ==>
              (SeqAfter(x % 0x1_0000, y % 0x1_0000) <==> x > y)
    ensures 0x8000 <= x - y <= 0x1_0000 ==> !SeqAfter(x % 0x1_0000, y % 0x1_0000)
    ensures -0x1_0000 < x - y < -0x8000 ==> SeqAfter(x % 0x1_0000, y % 0x1_0000)
  {
    DistLogical(x, y);
  }

  lemma DistLogical(x: int, y: int)
    ensures Dist(x % 0x1_0000, y % 0x1_0000) == (x - y) % 0x1_0000
  {
    var q := x / 0x1_0000 - y / 0x1_0000;
    assert x - y == x % 0x1_0000 - y % 0x1_0000 + 0x1_0000 * q;
  }

  // ----- record codec -----

  function Len16(data: bytes): u16 {
    if |data| < 0x1_0000 then |data| else |data| % 0x1_0000
  }

  function EncodeRec(r: Rec): (b: bytes)
    ensures |b| == REC + |r.data|
  {
    [r.chan, r.mt] + Wr16(r.seqno) + Wr16(Len16(r.data)) + r.data
  }

  ghost predicate Encodable(rs: seq<Rec>) {
    forall i :: 0 <= i < |rs| ==> |rs[i].data| < 0x1_0000
  }

  function EncodeRecs(rs: seq<Rec>): bytes {
    if rs == [] then [] else EncodeRec(rs[0]) + EncodeRecs(rs[1..])
  }

  // The record loop of mc_feed: stops at a short header or a record that runs off the end.
  function ParseRecs(b: bytes): seq<Rec> {
    if |b| < REC then []
    else
      var dlen := Rd16(b, 4);
      if REC + dlen > |b| then []
      else [Rec(b[0], b[1], Rd16(b, 2), b[REC..REC + dlen])] + ParseRecs(b[REC + dlen..])
  }

  // One turn of the record loop, at offset q of a packet body.
  lemma ParseStep(b: bytes, q: nat)
    requires q <= |b|
    ensures |b| < q + REC ==> ParseRecs(b[q..]) == []
    ensures q + REC <= |b| < q + REC + Rd16(b, q + 4) ==> ParseRecs(b[q..]) == []
    ensures q + REC <= |b| && q + REC + Rd16(b, q + 4) <= |b| ==>
              var next := q + REC + Rd16(b, q + 4);
              ParseRecs(b[q..])
              == [Rec(b[q], b[q + 1], Rd16(b, q + 2), b[q + REC..next])] + ParseRecs(b[next..])
  {
    var rest := b[q..];
    if q + REC <= |b| {
      assert Rd16(rest, 4) == Rd16(b, q + 4) && Rd16(rest, 2) == Rd16(b, q + 2);
      var next := q + REC + Rd16(b, q + 4);
      if next <= |b| {
        assert rest[REC..next - q] == b[q + REC..next];
        assert rest[next - q..] == b[next..];
      }
    }
  }

  lemma {:induction false} RecordRoundTrip(rs: seq<Rec>)
    requires Encodable(rs)
    ensures ParseRecs(EncodeRecs(rs)) == rs
  {
    if rs == [] {
    } else {
      var r, b := rs[0], EncodeRecs(rs);
      var h := EncodeRec(r);
      assert b[..|h|] == h && b[|h|..] == EncodeRecs(rs[1..]);
      assert b[2..4] == h[2..4] == Wr16(r.seqno);
      assert b[4..6] == h[4..6] == Wr16(|r.data|);
      ReadBack16(b, 2, r.seqno);
      ReadBack16(b, 4, |r.data|);
      assert b[REC..REC + |r.data|] == h[REC..] == r.data;
      RecordRoundTrip(rs[1..]);
    }
  }

  lemma {:induction false} EncodeConcat(a: seq<Rec>, b: seq<Rec>)
    ensures EncodeRecs(a + b) == EncodeRecs(a) + EncodeRecs(b)
  {
    if a == [] {
      assert a + b == b;
    } else {
      assert (a + b)[1..] == a[1..] + b;
      EncodeConcat(a[1..], b);
    }
  }

  function Header(id: u32, ptype: byte, ack: u16): (b: bytes)
    ensures |b| == HDR
  {
    Wr32(id) + [ptype, 0] + Wr16(ack)
  }

  // ----- application calls -----

  function Write(e: Ep, ch: nat, data: bytes): (Ep, int)
    requires Valid(e)
  {
    if ch >= MAX_CHAN || e.layout[ch].Unused? then (e, MC_ERR)
    else if e.hs.state != Connected then (e, MC_ERR_CLOSED)
    else if |data| > MAXMSG then (e, MC_ERR_TOOBIG)
    else if e.layout[ch].kind.Reliable? then
      if |e.tx.window| >= WINDOW then (e, MC_ERR_AGAIN)
      else (e.(tx := Assign(e.tx, Msg(ch, data))), |data|)
    else (e.(unrel := Enqueue(e.unrel, Msg(ch, data))), |data|)
  }

  function Assign(t: Tx, m: Msg): Tx {
    t.(window := t.window + [m])
  }

  // A full unreliable queue drops its oldest message.
  function Enqueue(q: seq<Msg>, m: Msg): seq<Msg> {
    (if |q| >= UNREL_TXQ then q[1..] else q) + [m]
  }

  datatype ReadResult = Nothing | TooBig | Got(data: bytes)

  function Read(r: Rx, ch: nat, buflen: nat): (Rx, ReadResult)
    requires RxValid(r)
  {
    if ch >= MAX_CHAN || r.rings[ch] == [] then (r, Nothing)
    else if |r.rings[ch][0]| > buflen then (r, TooBig)
    else (r.(rings := r.rings[ch := r.rings[ch][1..]]), Got(r.rings[ch][0]))
  }

  function Connect(h: Handshake, now: u32): Handshake {
    h.(state := Connecting, sendSyn := true,
       timer := Plus32(now, CONNECT_RETRY_MS), attempts := 0)
  }

  // ----- receive path -----

  // How many window slots a cumulative acknowledgement releases.
  function AckCount(t: Tx, ack: u16): nat {
    if SeqAfter(ack, t.base) then Min(Dist(ack, t.base), |t.window|) else 0
  }

  function ProcessAck(t: Tx, now: u32, ack: u16): Tx
    requires TxValid(t)
  {
    var k := AckCount(t, ack);
    if k == 0 then t
    else
      Tx(Plus16(t.base, k), t.window[k..], if t.sent < k then 0 else t.sent - k,
         if k == |t.window| then 0 else Plus32(now, RT_MS), 0)
  }

  function Truncate(data: bytes): bytes {
    if |data| > MAXMSG then data[..MAXMSG] else data
  }

  function Push(r: Rx, ch: nat, data: bytes): Rx
    requires RxValid(r) && ch < MAX_CHAN
  {
    if |r.rings[ch]| >= RECVQ then r
    else r.(rings := r.rings[ch := r.rings[ch] + [Truncate(data)]])
  }

  predicate IsOpen(layout: seq<ChanSlot>, ch: nat) {
    ch < MAX_CHAN && ch < |layout| && layout[ch].Open?
  }

  function Deliver(r: Rx, layout: seq<ChanSlot>, p: Rec): (r': Rx)
    requires RxValid(r)
    ensures RxValid(r')
  {
    if p.mt == MT_REL then
      if p.seqno != r.next then r.(ackPending := true)
      else if !IsOpen(layout, p.chan) then r.(next := Next16(r.next), ackPending := true)
      else if |r.rings[p.chan]| >= RECVQ then r.(ackPending := true)
      else Push(r, p.chan, p.data).(next := Next16(r.next), ackPending := true)
    else if IsOpen(layout, p.chan) then Push(r, p.chan, p.data)
    else r
  }

  function DeliverAll(r: Rx, layout: seq<ChanSlot>, ps: seq<Rec>): (r': Rx)
    requires RxValid(r)
    ensures RxValid(r')
    decreases |ps|
  {
    if ps == [] then r else DeliverAll(Deliver(r, layout, ps[0]), layout, ps[1..])
  }

  // A handshake packet; the flag says whether it was one this side may receive.
  function FeedSyn(h: Handshake, now: u32, pkt: bytes): (Handshake, int)
    requires |pkt| >= HDR
  {
    if !h.server || |pkt| < HDR + 4 then (h, MC_ERR_PROTO)
    else
      var h1 := if h.state == Closed
                then h.(remoteId := Rd32(pkt, HDR), state := Connecting,
                        timer := Plus32(now, CONNECT_RETRY_MS), attempts := 0)
                else h;
      (if h1.state == Connecting then h1.(sendSynack := true) else h1, MC_OK)
  }

  function FeedSynack(h: Handshake, pkt: bytes): (Handshake, int)
    requires |pkt| >= HDR
  {
    if h.server || Rd32(pkt, 0) != h.localId || |pkt| < HDR + 4 then (h, MC_ERR_PROTO)
    else (h.(remoteId := Rd32(pkt, HDR), sendAck := true,
             state := if h.state == Connecting then Connected else h.state), MC_OK)
  }

  function FeedAck(h: Handshake, pkt: bytes): (Handshake, int)
    requires |pkt| >= HDR
  {
    if !h.server || Rd32(pkt, 0) != h.localId then (h, MC_ERR_PROTO)
    else (h.(state := if h.state == Connecting then Connected else h.state), MC_OK)
  }

  function FeedFin(h: Handshake, pkt: bytes): (Handshake, int)
    requires |pkt| >= HDR
  {
    if Rd32(pkt, 0) != h.localId then (h, MC_ERR_PROTO) else (h.(state := Closed), MC_OK)
  }

  // Data reaching a server that never saw the handshake's last packet implies it.
  function Woken(h: Handshake): Handshake {
    if h.server && h.state == Connecting then h.(state := Connected) else h
  }

  function FeedData(e: Ep, pkt: bytes): (Ep, int)
    requires Valid(e) && |pkt| >= HDR
  {
    if Rd32(pkt, 0) != e.hs.localId then (e, MC_ERR_PROTO)
    else if Woken(e.hs).state != Connected then (e.(hs := Woken(e.hs)), MC_OK)
    else (e.(hs := Woken(e.hs),
             tx := ProcessAck(e.tx, e.clk.now, Rd16(pkt, 6)),
             rx := DeliverAll(e.rx, e.layout, ParseRecs(pkt[HDR..]))), MC_OK)
  }

  function FeedControl(h: Handshake, now: u32, pkt: bytes): (Handshake, int)
    requires |pkt| >= HDR
  {
    if pkt[4] == PKT_SYN then FeedSyn(h, now, pkt)
    else if pkt[4] == PKT_SYNACK then FeedSynack(h, pkt)
    else if pkt[4] == PKT_ACK then FeedAck(h, pkt)
    else if pkt[4] == PKT_FIN then FeedFin(h, pkt)
    else (h, MC_ERR_PROTO)
  }

  function Feed(e: Ep, pkt: bytes): (Ep, int)
    requires Valid(e)
  {
    if |pkt| < HDR then (e, MC_ERR_PROTO)
    else
      var e0 := e.(clk := e.clk.(lastRecv := e.clk.now));
      if pkt[4] == PKT_DATA then FeedData(e0, pkt)
      else
        var (h, rc) := FeedControl(e.hs, e.clk.now, pkt);
        (e0.(hs := h), rc)
  }

  // ----- transmit path -----

  // How many of the messages go, in order, into a packet with this much room left.
  function Fits(room: int, ms: seq<Msg>): (k: nat)
    ensures k <= |ms|
    decreases |ms|
  {
    if ms == [] || REC + |ms[0].data| > room then 0
    else 1 + Fits(room - REC - |ms[0].data|, ms[1..])
  }

  // The bytes these messages take as records.
  function Load(ms: seq<Msg>): nat {
    if ms == [] then 0 else Load(ms[..|ms| - 1]) + REC + |ms[|ms| - 1].data|
  }

  lemma {:induction false} LoadCons(ms: seq<Msg>)
    requires ms != []
    ensures Load(ms) == REC + |ms[0].data| + Load(ms[1..])
  {
    if |ms| > 1 {
      var front := ms[..|ms| - 1];
      LoadCons(front);
      assert front[1..] == ms[1..][..|ms| - 2];
    }
  }

  // The greedy count is the longest prefix whose records fit.
  lemma {:induction false} FitsIsLongest(room: int, ms: seq<Msg>, k: nat)
    requires k < |ms| && k <= Fits(room, ms)
    ensures Load(ms[..k + 1]) == Load(ms[..k]) + REC + |ms[k].data|
    ensures k < Fits(room, ms) <==> Load(ms[..k + 1]) <= room
    decreases k
  {
    assert ms[..k + 1][..k] == ms[..k];
    if k > 0 {
      FitsIsLongest(room - REC - |ms[0].data|, ms[1..], k - 1);
      LoadCons(ms[..k + 1]);
      assert ms[..k + 1][1..] == ms[1..][..k];
    } else {
      assert ms[..1][..0] == [];
    }
  }

  // Messages as records, numbered from first on.
  function RelRecs(first: u16, ms: seq<Msg>): seq<Rec>
    decreases |ms|
  {
    if ms == [] then []
    else [Rec(ms[0].chan, MT_REL, first, ms[0].data)] + RelRecs(Next16(first), ms[1..])
  }

  function UnrelRecs(ms: seq<Msg>): seq<Rec> {
    if ms == [] then []
    else [Rec(ms[0].chan, MT_UNREL, 0, ms[0].data)] + UnrelRecs(ms[1..])
  }

  lemma {:induction false} RelAppend(first: u16, ms: seq<Msg>, m: Msg)
    requires |ms| < WINDOW
    ensures RelRecs(first, ms + [m])
         == RelRecs(first, ms) + [Rec(m.chan, MT_REL, Plus16(first, |ms|), m.data)]
    decreases |ms|
  {
    if ms != [] {
      RelAppend(Next16(first), ms[1..], m);
      assert (ms + [m])[1..] == ms[1..] + [m];
    } else {
      assert RelRecs(first, [m]) == [Rec(m.chan, MT_REL, first, m.data)] + RelRecs(Next16(first), []);
    }
  }

  lemma {:induction false} UnrelAppend(ms: seq<Msg>, m: Msg)
    ensures UnrelRecs(ms + [m]) == UnrelRecs(ms) + [Rec(m.chan, MT_UNREL, 0, m.data)]
  {
    if ms != [] {
      UnrelAppend(ms[1..], m);
      assert (ms + [m])[1..] == ms[1..] + [m];
    } else {
      assert UnrelRecs([m]) == [Rec(m.chan, MT_UNREL, 0, m.data)] + UnrelRecs([]);
    }
  }

  lemma {:induction false} RelLoad(first: u16, ms: seq<Msg>)
    ensures |EncodeRecs(RelRecs(first, ms))| == Load(ms)
    decreases |ms|
  {
    if ms != [] {
      RelLoad(Next16(first), ms[1..]);
      LoadCons(ms);
      assert RelRecs(first, ms)[1..] == RelRecs(Next16(first), ms[1..]);
    }
  }

  lemma {:induction false} UnrelLoad(ms: seq<Msg>)
    ensures |EncodeRecs(UnrelRecs(ms))| == Load(ms)
    decreases |ms|
  {
    if ms != [] {
      UnrelLoad(ms[1..]);
      LoadCons(ms);
      assert UnrelRecs(ms)[1..] == UnrelRecs(ms[1..]);
    }
  }

  // The reliable messages the next data packet carries.
  function RelOut(t: Tx, cap: nat): seq<Msg>
    requires TxValid(t)
  {
    t.window[t.sent..][..Fits(cap - HDR, t.window[t.sent..])]
  }

  function RelOutRecs(t: Tx, cap: nat): seq<Rec>
    requires TxValid(t)
  {
    RelRecs(Plus16(t.base, t.sent), RelOut(t, cap))
  }

  function UnrelOut(t: Tx, unrel: seq<Msg>, cap: nat): (j: nat)
    requires TxValid(t)
    ensures j <= |unrel|
  {
    Fits(cap - HDR - Load(RelOut(t, cap)), unrel)
  }

  // Sending starts the retransmit timer if it is not running.
  function Armed(t: Tx, now: u32): Tx {
    if t.window != [] && t.timer == 0 then t.(timer := Plus32(now, RT_MS)) else t
  }

  function TxSend(t: Tx, now: u32, cap: nat): Tx
    requires TxValid(t)
  {
    Armed(t.(sent := t.sent + |RelOut(t, cap)|), now)
  }

  function DataRecs(e: Ep, cap: nat): seq<Rec>
    requires Valid(e)
  {
    RelOutRecs(e.tx, cap) + UnrelRecs(e.unrel[..UnrelOut(e.tx, e.unrel, cap)])
  }

  function DataPacket(e: Ep, cap: nat): bytes
    requires Valid(e)
  {
    Header(e.hs.remoteId, PKT_DATA, e.rx.next) + EncodeRecs(DataRecs(e, cap))
  }

  function AfterData(e: Ep, cap: nat): Ep
    requires Valid(e)
  {
    Ep(e.hs, e.clk.(lastSend := e.clk.now), TxSend(e.tx, e.clk.now, cap),
       e.rx.(ackPending := false), e.unrel[UnrelOut(e.tx, e.unrel, cap)..], e.layout)
  }

  predicate Quiet(e: Ep) {
    e.hs.state != Connected
    || (e.tx.sent == |e.tx.window| && e.unrel == [] && !e.rx.ackPending)
  }

  predicate ControlDue(h: Handshake) {
    h.sendSynack || h.sendAck || h.sendSyn
  }

  function SendControl(h: Handshake): (Handshake, bytes)
    requires ControlDue(h)
  {
    if h.sendSynack then
      (h.(sendSynack := false), Header(h.remoteId, PKT_SYNACK, 0) + Wr32(h.localId))
    else if h.sendAck then (h.(sendAck := false), Header(h.remoteId, PKT_ACK, 0))
    else (h.(sendSyn := false), Header(0, PKT_SYN, 0) + Wr32(h.localId))
  }

  function SendNext(e: Ep, buflen: nat): (Ep, bytes)
    requires Valid(e)
  {
    if buflen < HDR then (e, [])
    else if ControlDue(e.hs) then
      var (h, pkt) := SendControl(e.hs);
      (e.(hs := h, clk := e.clk.(lastSend := e.clk.now)), pkt)
    else if Quiet(e) then (e, [])
    else (AfterData(e, Min(buflen, MTU)), DataPacket(e, Min(buflen, MTU)))
  }

  // ----- timers -----

  function Backoff(attempts: nat): u32 {
    if attempts == 0 then 120 else if attempts == 1 then 240
    else if attempts == 2 then 480 else 960
  }

  function ServiceHandshake(h: Handshake, now: u32): (Handshake, int) {
    if now < h.timer then (h, CONNECT_RETRY_MS)
    else
      var n := Next16(h.attempts);
      if n > CONNECT_RETRIES then (h.(attempts := n, state := Closed), MC_ERR)
      else
        (h.(attempts := n, timer := Plus32(now, CONNECT_RETRY_MS),
            sendSynack := h.sendSynack || h.server, sendSyn := h.sendSyn || !h.server),
         CONNECT_RETRY_MS)
  }

  // Unacknowledged data whose deadline has passed.
  predicate Due(t: Tx, now: u32) {
    t.window != [] && t.timer != 0 && now >= t.timer
  }

  // A passed deadline puts the whole window back to unsent.
  function Retransmit(t: Tx, now: u32): Tx {
    if !Due(t, now) then t
    else
      var n := Next16(t.attempts);
      if n > RT_ATTEMPTS then t.(attempts := n)
      else t.(attempts := n, sent := 0, timer := Plus32(now, Backoff(n)))
  }

  function ServiceSession(e: Ep): (Ep, int) {
    if Minus32(e.clk.now, e.clk.lastRecv) > IDLE_MS
    then (e.(hs := e.hs.(state := Closed)), MC_ERR)
    else
      var t := Retransmit(e.tx, e.clk.now);
      if t.attempts > RT_ATTEMPTS && Due(e.tx, e.clk.now)
      then (e.(tx := t, hs := e.hs.(state := Closed)), MC_ERR)
      else
        var quiet := Minus32(e.clk.now, e.clk.lastSend) > KEEPALIVE_MS;
        (e.(tx := t, rx := e.rx.(ackPending := e.rx.ackPending || quiet)), RT_MS)
  }

  function Service(e: Ep, now: u32): (Ep, int) {
    var e0 := e.(clk := e.clk.(now := now));
    if e.hs.state == Connecting then
      var (h, rc) := ServiceHandshake(e.hs, now);
      (e0.(hs := h), rc)
    else if e.hs.state == Connected then ServiceSession(e0)
    else (e0, MC_ERR)
  }

  // ----- what every call keeps -----

  lemma SendNextKeepsValid(e: Ep, buflen: nat)
    requires Valid(e)
    ensures Valid(SendNext(e, buflen).0)
  {
  }

  lemma ServiceKeepsValid(e: Ep, now: u32)
    requires Valid(e)
    ensures Valid(Service(e, now).0)
  {
  }

  // ----- draining -----

  // What is left to say: every non-empty packet says some of it.
  function Backlog(e: Ep): nat
    requires Valid(e)
  {
    Flag(e.hs.sendSyn) + Flag(e.hs.sendSynack) + Flag(e.hs.sendAck)
    + (|e.tx.window| - e.tx.sent) + |e.unrel| + Flag(e.rx.ackPending)
  }

  // Pulling packets with a full-size buffer ends: each packet lowers the backlog.
  lemma SendNextLowersBacklog(e: Ep, buflen: nat)
    requires Valid(e) && buflen >= MTU && SendNext(e, buflen).1 != []
    ensures Valid(SendNext(e, buflen).0)
    ensures Backlog(SendNext(e, buflen).0) < Backlog(e)
  {
    SendNextKeepsValid(e, buflen);
    if !ControlDue(e.hs) {
      if e.tx.sent < |e.tx.window| {
        assert e.tx.window[e.tx.sent..][0] == e.tx.window[e.tx.sent];
        assert |RelOut(e.tx, MTU)| >= 1;
      } else {
        assert e.tx.window[e.tx.sent..] == [];
        assert Load(RelOut(e.tx, MTU)) == 0;
        assert e.unrel != [] ==> UnrelOut(e.tx, e.unrel, MTU) >= 1;
      }
    }
  }

  lemma RecordsFit(e: Ep, cap: nat)
    requires Valid(e) && cap >= HDR
    ensures |EncodeRecs(DataRecs(e, cap))| <= cap - HDR
  {
    hide EncodeRecs, Load, Fits, RelRecs, UnrelRecs;
    var rel, un := RelOut(e.tx, cap), e.unrel[..UnrelOut(e.tx, e.unrel, cap)];
    EncodeConcat(RelOutRecs(e.tx, cap), UnrelRecs(un));
    RelLoad(Plus16(e.tx.base, e.tx.sent), rel);
    UnrelLoad(un);
    LoadFits(cap - HDR, e.tx.window[e.tx.sent..]);
    LoadFits(cap - HDR - Load(rel), e.unrel);
  }

  // The next packet is one of the twelve-byte control packets.
  predicate TwelveDue(h: Handshake) {
    h.sendSynack || (!h.sendAck && h.sendSyn)
  }

  // A packet is no longer than the buffer offered, except exactly when a twelve-byte control
  // packet is due and the buffer has 8 to 11: the length checked for is that of the header.
  lemma PacketFitsIff(e: Ep, buflen: nat)
    requires Valid(e)
    ensures |SendNext(e, buflen).1| <= MTU
    ensures |SendNext(e, buflen).1| <= buflen <==> !(TwelveDue(e.hs) && HDR <= buflen < HDR + 4)
  {
    hide DataPacket, AfterData;
    if buflen >= HDR && !ControlDue(e.hs) && !Quiet(e) {
      DataFits(e, Min(buflen, MTU));
    }
  }

  lemma DataFits(e: Ep, cap: nat)
    requires Valid(e) && cap >= HDR
    ensures |DataPacket(e, cap)| <= cap
  {
    RecordsFit(e, cap);
  }

  // It happens to every client that connects and offers a buffer of 8 bytes.
  lemma SynOverruns(id: u32, layout: seq<ChanSlot>, now: u32)
    requires |layout| == MAX_CHAN
    ensures var e := Fresh(false, id, layout);
            |SendNext(e.(hs := Connect(e.hs, now)), 8).1| == 12
  {
    var e := Fresh(false, id, layout);
    PacketFitsIff(e.(hs := Connect(e.hs, now)), 8);
  }

  lemma {:induction false} LoadFits(room: int, ms: seq<Msg>)
    requires room >= 0
    ensures Load(ms[..Fits(room, ms)]) <= room
    decreases |ms|
  {
    var k := Fits(room, ms);
    if k > 0 {
      LoadFits(room - REC - |ms[0].data|, ms[1..]);
      LoadCons(ms[..k]);
      assert ms[..k][1..] == ms[1..][..k - 1];
    }
  }

  // What the peer reads out of a data packet is what was packed into it.
  lemma DataPacketReads(e: Ep, cap: nat)
    requires Valid(e)
    ensures var p := DataPacket(e, cap);
            && |p| >= HDR && p[4] == PKT_DATA
            && Rd32(p, 0) == e.hs.remoteId && Rd16(p, 6) == e.rx.next
            && ParseRecs(p[HDR..]) == DataRecs(e, cap)
  {
    var p, h := DataPacket(e, cap), Header(e.hs.remoteId, PKT_DATA, e.rx.next);
    assert p[HDR..] == EncodeRecs(DataRecs(e, cap));
    assert p[0..4] == h[0..4] == Wr32(e.hs.remoteId) && p[6..8] == h[6..8] == Wr16(e.rx.next);
    ReadBack32(p, 0, e.hs.remoteId);
    ReadBack16(p, 6, e.rx.next);
    DataRecsEncodable(e, cap);
    RecordRoundTrip(DataRecs(e, cap));
  }

  lemma DataRecsEncodable(e: Ep, cap: nat)
    requires Valid(e)
    ensures Encodable(DataRecs(e, cap))
  {
    RelEncodable(Plus16(e.tx.base, e.tx.sent), RelOut(e.tx, cap));
    UnrelEncodable(e.unrel[..UnrelOut(e.tx, e.unrel, cap)]);
  }

  lemma {:induction false} RelEncodable(first: u16, ms: seq<Msg>)
    requires AllOk(ms)
    ensures Encodable(RelRecs(first, ms))
    decreases |ms|
  {
    if ms != [] {
      RelEncodable(Next16(first), ms[1..]);
    }
  }

  lemma {:induction false} UnrelEncodable(ms: seq<Msg>)
    requires AllOk(ms)
    ensures Encodable(UnrelRecs(ms))
  {
    if ms != [] {
      UnrelEncodable(ms[1..]);
    }
  }
}
