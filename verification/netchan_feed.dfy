// Feeding a connection: parsing a packet into frames and acting on each, whatever the bytes.
module NetchanFeed {
  import opened Bytes
  import opened NetchanPool
  import opened NetchanFrag
  import opened NetchanRecv
  import opened NetchanData
  import opened NetchanOverrun
  import opened NetchanSend
  import opened NetchanConn

  const VERSION := 1
  const HDR_INIT := 5
  const HDR_FULL := 7
  const CTRL_SIZE := 1024

  const F_PADDING: byte := 0
  const F_INIT: byte := 1
  const F_ACCEPT: byte := 2
  const F_REDIRECT: byte := 3
  const F_DISCONNECT: byte := 4
  const F_PING: byte := 5
  const F_PONG: byte := 6
  const F_OPEN: byte := 7
  const F_CLOSE: byte := 8
  const F_DATA: byte := 9
  const F_ACK: byte := 10
  const F_WINDOW: byte := 11

  // ----- frames on the wire -----

  function DataBytes(id: byte, f: Frame): bytes
    requires f.idx < 0x100 && f.total < 0x100 && |f.data| < 0x1_0000
  {
    [F_DATA, id] + Wr16(f.seqno) + Wr16(|f.data|) + [f.idx, f.total] + f.data
  }

  function AckBytes(id: byte, acked: u16): bytes {
    [F_ACK, id] + Wr16(acked)
  }

  function WindowBytes(id: byte, window: u32): bytes {
    [F_WINDOW, id] + Wr32(window)
  }

  function CloseBytes(id: byte, error: u16): bytes {
    [F_CLOSE, id] + Wr16(error)
  }

  // The DATA frame at the front, if it is all there.
  predicate DataWhole(d: bytes) {
    |d| >= 8 && |d| >= 8 + Rd16(d, 4)
  }

  function DataFrame(d: bytes): Frame
    requires DataWhole(d)
  {
    Frame(Rd16(d, 2), d[6], d[7], d[8..8 + Rd16(d, 4)])
  }

  // What the sender encodes, the receiver reads, whatever follows it in the packet.
  lemma DataReadsBack(id: byte, f: Frame, tail: bytes)
    requires f.idx < 0x100 && f.total < 0x100 && |f.data| < 0x1_0000
    ensures var d := DataBytes(id, f) + tail;
            && d[0] == F_DATA && DataWhole(d) && d[1] == id && DataFrame(d) == f
            && d[8 + Rd16(d, 4)..] == tail
  {
    hide Wr16, Rd16;
    var d := DataBytes(id, f) + tail;
    assert d[2..4] == Wr16(f.seqno) && d[4..6] == Wr16(|f.data|);
    ReadBack16(d, 2, f.seqno);
    ReadBack16(d, 4, |f.data|);
    assert d[8..8 + |f.data|] == f.data;
  }

  // ----- acting on a frame -----

  // Queue a control frame, if there is room for it.
  function Control(c: Conn, frame: bytes): Conn {
    if |c.ctrl| + |frame| > CTRL_SIZE then c else c.(ctrl := c.ctrl + frame)
  }

  function SetChan(c: Conn, k: nat, ch: Chan): Conn
    requires k < |c.slots|
  {
    Stored(c, k, c.pool, ch)
  }

  function OnData(c: Conn, fp: nat, id: byte, f: Frame): Conn
    requires fp >= 64 && ConnOk(c, fp)
  {
    var k := c.ids[id];
    if k == -1 then c
    else
      ChanHolds(c, fp, k);
      ChanDataKept(c.pool, c.slots[k].ch, fp, f);
      var (p, ch) := ChanData(c.pool, c.slots[k].ch, fp, f);
      Stored(c, k, p, ch)
  }

  function OnAck(c: Conn, fp: nat, id: byte, acked: u16): Conn
    requires fp >= 64 && ConnOk(c, fp)
  {
    var k := c.ids[id];
    if k == -1 then c
    else
      var (p, ch) := ChanAck(c.pool, c.slots[k].ch, fp, acked);
      Stored(c, k, p, ch)
  }

  function OnWindow(c: Conn, fp: nat, id: byte, window: u32): Conn
    requires fp >= 64 && ConnOk(c, fp)
  {
    var k := c.ids[id];
    if k == -1 then c else SetChan(c, k, ChanWindow(c.slots[k].ch, window))
  }

  function WithStatus(ch: Chan, s: Status): Chan {
    ch.(info := ch.info.(status := s))
  }

  function OnClose(c: Conn, fp: nat, id: byte): Conn
    requires fp >= 64 && ConnOk(c, fp)
  {
    var k := c.ids[id];
    if k == -1 then c else SetChan(c, k, WithStatus(c.slots[k].ch, Dead))
  }

  function KindOf(code: byte): Kind {
    if code == 0 then Reliable else if code == 1 then Unreliable else Other
  }

  // The peer opens a channel: it sends exactly when we receive.
  function OnOpen(c: Conn, fp: nat, id: byte, code: byte, dir: byte, limit: u32): Conn
    requires fp >= 64 && ConnOk(c, fp)
  {
    if c.ids[id] != -1 || FindVacant(c.slots, 0) == -1 then Control(c, CloseBytes(id, 1))
    else
      var c1 := AddChan(c, Info(id, KindOf(code), dir != 0, Open, 0), limit);
      if dir != 0 then c1 else Control(c1, WindowBytes(id, limit))
  }

  function Disconnected(s: State): State {
    if s == Connecting || s == Connected || s == Leaving then Ended else s
  }

  datatype Outcome1 = Bad | Took(n: nat, c: Conn)

  // Frames about the session rather than a channel.
  function SessionFrame(c: Conn, d: bytes, newId: u32): Outcome1
    requires d != []
  {
    if d[0] == F_PADDING then Took(1, c)
    else if d[0] == F_INIT then
      if |d| < 6 || !c.peer.server || d[5] != VERSION then Bad
      else if c.peer.state == New then Took(6, c.(peer := c.peer.(remoteId := Rd32(d, 1), localId := newId, state := Connecting)))
      else Took(6, c.(peer := c.peer.(remoteId := Rd32(d, 1))))
    else if d[0] == F_ACCEPT then
      if |d| < 10 || c.peer.server then Bad
      else Took(10, c.(peer := c.peer.(remoteId := Rd32(d, 1), state := Connected)))
    else if d[0] == F_REDIRECT then
      if |d| < 12 then Bad
      else if d[5] == 4 then Took(12, c)
      else if d[5] == 6 && |d| >= 24 then Took(24, c)
      else Bad
    else if d[0] == F_DISCONNECT then
      if |d| < 3 then Bad else Took(3, c.(peer := c.peer.(state := Disconnected(c.peer.state))))
    else if d[0] == F_PING then
      if |d| < 5 then Bad else Took(5, Control(c, [F_PONG] + d[1..5]))
    else if |d| < 5 then Bad else Took(5, c)
  }

  function ChanFrame(c: Conn, d: bytes, fp: nat, limit: u32): Outcome1
    requires fp >= 64 && ConnOk(c, fp) && d != []
  {
    if d[0] == F_OPEN then
      if |d| < 5 || |d| < 5 + d[4] as int then Bad
      else Took(5 + d[4] as int, OnOpen(c, fp, d[1], d[2], d[3], limit))
    else if d[0] == F_CLOSE then
      if |d| < 4 then Bad else Took(4, OnClose(c, fp, d[1]))
    else if d[0] == F_DATA then
      if !DataWhole(d) then Bad else Took(8 + Rd16(d, 4), OnData(c, fp, d[1], DataFrame(d)))
    else if d[0] == F_ACK then
      if |d| < 4 then Bad else Took(4, OnAck(c, fp, d[1], Rd16(d, 2)))
    else if d[0] == F_WINDOW then
      if |d| < 6 then Bad else Took(6, OnWindow(c, fp, d[1], Rd32(d, 2)))
    else Bad
  }

  function FrameStep(c: Conn, d: bytes, fp: nat, limit: u32, newId: u32): (r: Outcome1)
    requires fp >= 64 && ConnOk(c, fp) && d != []
    ensures r.Took? ==> 0 < r.n <= |d|
  {
    if d[0] <= F_PONG then SessionFrame(c, d, newId) else ChanFrame(c, d, fp, limit)
  }

  // ----- every frame keeps the pool partitioned -----

  lemma SessionKeeps(c: Conn, c': Conn, fp: nat)
    requires fp > 0 && ConnOk(c, fp) && c'.pool == c.pool && c'.slots == c.slots && c'.ids == c.ids
    ensures ConnOk(c', fp)
  {
  }

  lemma InfoKeeps(c: Conn, fp: nat, k: nat, ch: Chan)
    requires fp > 0 && ConnOk(c, fp) && k < MAX_CHAN && c.slots[k].Used?
    requires ch == c.slots[k].ch.(info := ch.info, notes := ch.notes)
    requires ch.info.id == c.slots[k].ch.info.id && ch.info.kind == c.slots[k].ch.info.kind
    ensures ConnOk(SetChan(c, k, ch), fp)
  {
    hide OutOk, RxOk, Windowed, Whole, AllHeld, Bufs, Held, ActiveLen;
    ChanStepKeeps(c, fp, k, c.pool, ch);
  }

  // A DATA frame for channel id overfills one of its assemblies.
  ghost predicate ConnOverfills(c: Conn, fp: nat, id: byte, f: Frame)
    requires fp > 0 && ConnOk(c, fp)
  {
    c.ids[id] != -1 && ChanOverfills(c.slots[c.ids[id]].ch, fp, f)
  }

  lemma OnDataKeeps(c: Conn, fp: nat, id: byte, f: Frame)
    requires fp >= 64 && ConnOk(c, fp)
    ensures OnData(c, fp, id, f).pool.spilled <==> ConnOverfills(c, fp, id, f)
    ensures !OnData(c, fp, id, f).pool.spilled ==> ConnOk(OnData(c, fp, id, f), fp)
  {
    hide ChanOverfills, ChanOk, ChanHeld, Whole, AllHeld, ChanData, Single;
    var k := c.ids[id];
    if k != -1 {
      ChanHolds(c, fp, k);
      ChanDataKept(c.pool, c.slots[k].ch, fp, f);
      var (p, ch) := ChanData(c.pool, c.slots[k].ch, fp, f);
      if !p.spilled {
        ChanStepKeeps(c, fp, k, p, ch);
      }
    }
  }

  lemma OnAckKeeps(c: Conn, fp: nat, id: byte, acked: u16)
    requires fp >= 64 && ConnOk(c, fp)
    ensures ConnOk(OnAck(c, fp, id, acked), fp)
  {
    hide ChanHeld, Whole, AllHeld, ChanAck, Single, RxOk, Windowed;
    var k := c.ids[id];
    if k != -1 {
      ChanHolds(c, fp, k);
      ChanAckKept(c.pool, c.slots[k].ch, fp, acked);
      var (p, ch) := ChanAck(c.pool, c.slots[k].ch, fp, acked);
      ChanStepKeeps(c, fp, k, p, ch);
    }
  }

  lemma OnOpenKeeps(c: Conn, fp: nat, id: byte, code: byte, dir: byte, limit: u32)
    requires fp >= 64 && ConnOk(c, fp)
    ensures ConnOk(OnOpen(c, fp, id, code, dir, limit), fp)
  {
    hide ConnOk, AddChan;
    ConnTables(c, fp);
    if c.ids[id] != -1 || FindVacant(c.slots, 0) == -1 {
      SessionKeeps(c, OnOpen(c, fp, id, code, dir, limit), fp);
    } else {
      var info := Info(id, KindOf(code), dir != 0, Open, 0);
      AddChanKeeps(c, info, limit, fp);
      SessionKeeps(AddChan(c, info, limit), OnOpen(c, fp, id, code, dir, limit), fp);
    }
  }

  // The frame at the front is a DATA frame that overfills an assembly.
  ghost predicate FrameOverfills(c: Conn, d: bytes, fp: nat)
    requires fp > 0 && ConnOk(c, fp)
  {
    d != [] && d[0] == F_DATA && DataWhole(d) && ConnOverfills(c, fp, d[1], DataFrame(d))
  }

  // Every frame keeps the pool partitioned and every channel in order, except that one which
  // overfills an assembly, and no other, runs past the end of a buffer.
  lemma FrameKeeps(c: Conn, d: bytes, fp: nat, limit: u32, newId: u32)
    requires fp >= 64 && ConnOk(c, fp) && d != []
    ensures var r := FrameStep(c, d, fp, limit, newId);
            r.Took? ==> (r.c.pool.spilled <==> FrameOverfills(c, d, fp)) && (!r.c.pool.spilled ==> ConnOk(r.c, fp))
  {
    hide ConnOverfills, ConnOk, OnOpen, OnData, OnAck, Rd16, Rd32;
    ConnTables(c, fp);
    ConnClean(c, fp);
    var r := FrameStep(c, d, fp, limit, newId);
    if r.Took? {
      if d[0] <= F_PONG {
        SessionKeeps(c, r.c, fp);
      } else if d[0] == F_OPEN {
        OnOpenKeeps(c, fp, d[1], d[2], d[3], limit);
        ConnClean(r.c, fp);
      } else if d[0] == F_DATA {
        OnDataKeeps(c, fp, d[1], DataFrame(d));
      } else if d[0] == F_ACK {
        OnAckKeeps(c, fp, d[1], Rd16(d, 2));
        ConnClean(r.c, fp);
      } else if c.ids[d[1]] != -1 {
        var k := c.ids[d[1]];
        if d[0] == F_CLOSE {
          InfoKeeps(c, fp, k, WithStatus(c.slots[k].ch, Dead));
        } else {
          InfoKeeps(c, fp, k, ChanWindow(c.slots[k].ch, Rd32(d, 2)));
        }
      }
    }
  }

  lemma ConnClean(c: Conn, fp: nat)
    requires fp > 0 && ConnOk(c, fp)
    ensures !c.pool.spilled
  {
  }

  // All frames of a packet, until one is malformed; what came before it stays done. Past a
  // write outside its buffer the model does not follow.
  function Frames(c: Conn, d: bytes, fp: nat, limit: u32, newId: u32): (Conn, bool)
    requires fp >= 64 && ConnOk(c, fp)
    decreases |d|
  {
    if d == [] then (c, true)
    else
      FrameKeeps(c, d, fp, limit, newId);
      match FrameStep(c, d, fp, limit, newId)
      case Bad => (c, false)
      case Took(n, c1) => if c1.pool.spilled then (c1, false) else Frames(c1, d[n..], fp, limit, newId)
  }

  function Feed(c: Conn, pkt: bytes, fp: nat, limit: u32, newId: u32): (Conn, bool)
    requires fp >= 64 && ConnOk(c, fp)
  {
    if |pkt| < HDR_INIT then (c, false)
    else if pkt[0] % 2 == 1 then Frames(c, pkt[HDR_INIT..], fp, limit, newId)
    else if |pkt| < HDR_FULL || Rd32(pkt, 1) != c.peer.localId then (c, false)
    else Frames(c, pkt[HDR_FULL..], fp, limit, newId)
  }

  lemma {:induction false} FramesKeep(c: Conn, d: bytes, fp: nat, limit: u32, newId: u32)
    requires fp >= 64 && ConnOk(c, fp)
    ensures var c' := Frames(c, d, fp, limit, newId).0; c'.pool.spilled || ConnOk(c', fp)
    decreases |d|
  {
    hide ConnOk, FrameStep;
    if d != [] {
      FrameKeeps(c, d, fp, limit, newId);
      match FrameStep(c, d, fp, limit, newId)
      case Bad =>
      case Took(n, c1) =>
        if !c1.pool.spilled {
          FramesKeep(c1, d[n..], fp, limit, newId);
        }
    }
  }

  // Any bytes at all leave the pool partitioned and every channel in order, unless a frame
  // among them overfilled an assembly.
  lemma FeedKeeps(c: Conn, pkt: bytes, fp: nat, limit: u32, newId: u32)
    requires fp >= 64 && ConnOk(c, fp)
    ensures var c' := Feed(c, pkt, fp, limit, newId).0; c'.pool.spilled || ConnOk(c', fp)
  {
    hide ConnOk, Frames, Rd32;
    if |pkt| >= HDR_INIT {
      FramesKeep(c, pkt[HDR_INIT..], fp, limit, newId);
      if |pkt| >= HDR_FULL {
        FramesKeep(c, pkt[HDR_FULL..], fp, limit, newId);
      }
    }
  }
}
