// The connection object: fields changed in place by the calls above, loop by loop.
module NetchanObject {
  import opened Bytes
  import opened NetchanPool
  import opened NetchanFrag
  import opened NetchanRecv
  import opened NetchanRead
  import opened NetchanData
  import opened NetchanSend
  import opened NetchanConn
  import opened NetchanFeed
  import opened NetchanOutput
  import opened NetchanApi

  // ----- the receiving loops -----

  // Hand up every waiting message whose turn has come.
  method DeliverReordered(p0: Pool, r0: Rx) returns (p: Pool, r: Rx)
    requires QueueOk(r0.queue) && ReorderOk(r0.pend.reorder) && Holds(p0, Held(r0))
    ensures (p, r) == DeliverRun(p0, r0)
  {
    hide Bufs, Queued, Run, Single, DeliverOne;
    p, r := p0, r0;
    while TurnCome(r)
      invariant QueueOk(r.queue) && ReorderOk(r.pend.reorder) && Holds(p, Held(r))
      invariant DeliverRun(p, r) == DeliverRun(p0, r0)
      decreases |Bufs(r.pend.reorder)|
    {
      DeliverOneAlone(p, r);
      p, r := DeliverOne(p, r).0, DeliverOne(p, r).1;
    }
  }

  method ScanFrags(frags: seq<FragCell>, seqno: u16) returns (k: int)
    ensures k == FindFrag(frags, seqno, 0)
  {
    var i := 0;
    while i < |frags|
      invariant i <= |frags| && FindFrag(frags, seqno, i) == FindFrag(frags, seqno, 0)
    {
      if frags[i].meta.active && frags[i].meta.seqno == seqno {
        return i;
      }
      i := i + 1;
    }
    k := -1;
  }

  method ScanIdle(frags: seq<FragCell>) returns (k: int)
    ensures k == FindIdle(frags, 0)
  {
    var i := 0;
    while i < |frags|
      invariant i <= |frags| && FindIdle(frags, i) == FindIdle(frags, 0)
    {
      if !frags[i].meta.active {
        return i;
      }
      i := i + 1;
    }
    k := -1;
  }

  // Move the pieces of an assembly together, first to last.
  method Compact(buf0: bytes, sizes: seq<nat>, fp: nat, total: nat) returns (r: Compacted)
    requires total <= |sizes|
    ensures r == CompactFrom(buf0, sizes, fp, 0, total, 0)
  {
    hide MoveDown;
    var buf, pos: nat := buf0, 0;
    var i := 0;
    while i < total
      invariant i <= total && pos <= |buf|
      invariant CompactFrom(buf, sizes, fp, i, total, pos) == CompactFrom(buf0, sizes, fp, 0, total, 0)
    {
      if i * fp + sizes[i] > |buf| || pos + sizes[i] > |buf| {
        return Overrun;
      }
      if pos != i * fp {
        buf := MoveDown(buf, pos, i * fp, sizes[i]);
      }
      pos := pos + sizes[i];
      i := i + 1;
    }
    return Moved(buf, pos);
  }

  method TakeWhole(p0: Pool, r0: Rx, ordered: bool, seqno: u16, data: bytes) returns (p: Pool, r: Rx)
    requires Fine(p0, r0)
    ensures (p, r) == FeedWhole(p0, r0, ordered, seqno, data)
  {
    hide Bufs, Queued, Run, Single, Windowed, DeliverRun, Stash, Enqueue;
    if !ordered {
      var (p1, q1) := Enqueue(p0, r0.queue, data);
      p, r := p1, r0.(queue := q1);
    } else if seqno == r0.seqno {
      AcceptHolds(p0, r0, data);
      var (p1, q1) := Enqueue(p0, r0.queue, data);
      p, r := DeliverReordered(p1, Rx(Next16(r0.seqno), q1, r0.pend));
    } else {
      var (p1, d1) := Stash(p0, r0.pend, r0.seqno, seqno, data);
      p, r := p1, r0.(pend := d1);
    }
  }

  method FinishAssembly(p0: Pool, r0: Rx, ordered: bool, fp: nat, k: nat) returns (p: Pool, r: Rx)
    requires Fine(p0, r0) && k < FRAG_SLOTS && r0.pend.frags[k].meta.active
    ensures (p, r) == Finish(p0, r0, ordered, fp, k)
  {
    hide Bufs, Windowed, Single, FeedWhole, CompactFrom, Held;
    var c := r0.pend.frags[k];
    var packed := Compact(NetchanData.Slot(p0, c.buf), c.meta.sizes, fp, c.meta.total);
    if packed.Overrun? {
      return p0.(spilled := true), r0;
    }
    var buf, msg := packed.buf, packed.buf[..packed.pos];
    SlotSized(p0, r0, k);
    var p1 := Write(p0, c.buf, 0, buf);
    RewriteFine(p0, r0, k, 0, buf);
    var p2, r2 := TakeWhole(p1, r0, ordered, c.meta.seqno, msg);
    FeedWholeFine(p1, r0, ordered, c.meta.seqno, msg);
    var (p3, frags3) := FreeFrag(p2, r2.pend.frags, k);
    p, r := p3, WithFrags(r2, frags3);
  }

  lemma StoredActive(p: Pool, frags: seq<FragCell>, k: nat, fp: nat, idx: nat, data: bytes)
    requires k < |frags| && idx < |frags[k].meta.sizes|
    ensures var frags' := StorePiece(p, frags, k, fp, idx, data).1;
            |frags'| == |frags| && frags'[k].meta.active == frags[k].meta.active
  {
  }

  method TakePiece(p0: Pool, r0: Rx, ordered: bool, fp: nat, f: Frame) returns (p: Pool, r: Rx)
    requires Fine(p0, r0)
    ensures (p, r) == FeedPiece(p0, r0, ordered, fp, f.seqno, f.idx, f.total, f.data)
  {
    hide Bufs, Windowed, Single, Finish, FindFrag, FindIdle, Held, StorePiece;
    ClaimFine(p0, r0, f.seqno, f.total);
    var k := ScanFrags(r0.pend.frags, f.seqno);
    p, r := p0, r0;
    if k == -1 {
      var j := ScanIdle(r0.pend.frags);
      var (p1, b) := Get(p0);
      if f.total > MAX_FRAGS || j == -1 || b == NOBUF {
        assert WithFrags(r0, r0.pend.frags) == r0;
        return;
      }
      p, r, k := p1, WithFrags(r0, r0.pend.frags[j := Cell(b, 0, Fresh(f.seqno, f.total, true))]), j;
    }
    assert r == WithFrags(r0, r.pend.frags);
    if Wanted(r.pend.frags[k].meta, fp, f.idx, f.data) {
      StorePieceFine(p, r, k, fp, f.idx, f.data);
      ghost var p1, r1 := p, r;
      var (p2, frags2) := StorePiece(p, r.pend.frags, k, fp, f.idx, f.data);
      p, r := p2, WithFrags(r, frags2);
      if Complete(frags2[k].meta) {
        StoredActive(p1, r1.pend.frags, k, fp, f.idx, f.data);
        p, r := FinishAssembly(p, r, ordered, fp, k);
      }
    }
  }

  // ----- the sending loops -----

  // Free every slot the acknowledgement covers.
  method ReleaseCovered(p0: Pool, cells0: seq<OutCell>, n0: u32, acked: u16) returns (p: Pool, cells: seq<OutCell>, n: u32)
    requires CellsOk(cells0)
    ensures (p, cells, n) == AckFrom(p0, cells0, n0, acked, 0)
  {
    hide Covered;
    p, cells, n := p0, cells0, n0;
    var i := 0;
    while i < |cells|
      invariant i <= |cells| == |cells0| && CellsOk(cells)
      invariant AckFrom(p, cells, n, acked, i) == AckFrom(p0, cells0, n0, acked, 0)
    {
      if Acked(cells[i], acked) {
        p, n, cells := Put(p, cells[i].buf), Minus32(n, cells[i].len), cells[i := Released(cells[i])];
      }
      i := i + 1;
    }
  }

  method SkipFree(cells: seq<OutCell>, head0: nat, tail: nat) returns (head: nat)
    requires |cells| == OUTGOING_SLOTS && head0 < OUTGOING_SLOTS && tail < OUTGOING_SLOTS
    ensures head == Advance(cells, head0, tail)
  {
    head := head0;
    while head != tail && !cells[head].meta.active
      invariant head < OUTGOING_SLOTS && Advance(cells, head, tail) == Advance(cells, head0, tail)
      decreases Ahead(tail, head)
    {
      head := NextIx(head);
    }
  }

  method ScanSendable(o: Out) returns (k: int)
    requires |o.cells| == OUTGOING_SLOTS && o.head < OUTGOING_SLOTS && o.tail < OUTGOING_SLOTS
    ensures k == NextOf(o)
  {
    var i: nat := o.head;
    while i != o.tail
      invariant i < OUTGOING_SLOTS && NextSendable(o.cells, i, o.tail) == NextOf(o)
      decreases Ahead(o.tail, i)
    {
      if Sendable1(o.cells[i]) {
        return i;
      }
      i := NextIx(i);
    }
    k := -1;
  }

  method Rearm(cells0: seq<OutCell>, rt: u32, now: u32) returns (cells: seq<OutCell>, dead: bool)
    ensures (cells, dead) == Retransmit(cells0, rt, now, 0)
  {
    hide Timeout;
    cells, dead := cells0, false;
    var i := 0;
    while i < |cells|
      invariant i <= |cells|
      invariant Retransmit(cells, rt, now, i) == Retransmit(cells0, rt, now, 0)
    {
      var m := cells[i].meta;
      if m.active && m.sentMs != 0 && Minus32(now, m.sentMs) >= Timeout(rt, m.attempts) {
        if m.attempts >= MAX_RT_ATTEMPTS {
          dead := true;
          return;
        }
        cells := cells[i := cells[i].(meta := m.(sent := 0, sentMs := now, attempts := m.attempts + 1))];
      }
      i := i + 1;
    }
  }

  method PutBack<T>(p0: Pool, cells: seq<Cell<T>>) returns (p: Pool)
    ensures p == PutAll(p0, cells, |cells|)
  {
    p := p0;
    for i := 0 to |cells|
      invariant p == PutAll(p0, cells, i)
    {
      p := Put(p, cells[i].buf);
    }
  }

  // ----- the object -----

  class Connection {
    const cfg: Config
    var free: seq<int>
    var store: seq<bytes>
    var spilled: bool // not a field of the source: a write has left its buffer, see Pool
    var slots: seq<Slot>
    var ids: seq<int>
    var ctrl: bytes
    var peer: Peer

    ghost function Abs(): Conn
      reads this
    {
      Conn(Pool(free, store, spilled), slots, ids, ctrl, peer)
    }

    // No write has left its buffer, every pool buffer is free or in one slot of one channel,
    // and every channel is in order.
    ghost predicate Valid()
      reads this
    {
      ConfigOk(cfg) && ConnOk(Abs(), Share(cfg))
    }

    constructor (server: bool, cfg: Config)
      requires ConfigOk(cfg)
      ensures Valid() && Abs() == Start(server) && this.cfg == cfg
    {
      hide ConnOk, Start;
      var c := Start(server);
      this.cfg := cfg;
      free, store, spilled := c.pool.free, c.pool.store, c.pool.spilled;
      slots, ids, ctrl, peer := c.slots, c.ids, c.ctrl, c.peer;
      StartOk(server, Share(cfg));
    }

    // Replace a channel and the pool it drew on.
    method Keep(k: nat, p: Pool, ch: Chan)
      requires Valid() && k < |slots| && ConnOk(Stored(Abs(), k, p, ch), Share(cfg))
      modifies this`free, this`store, this`slots
      ensures Valid() && Abs() == Stored(old(Abs()), k, p, ch)
    {
      free, store := p.free, p.store;
      slots := slots[k := Used(ch)];
    }

    method QueueControl(frame: bytes)
      requires Valid()
      modifies this`ctrl
      ensures Valid() && Abs() == Control(old(Abs()), frame)
    {
      hide ConnOk;
      ghost var was := Abs();
      if |ctrl| + |frame| <= CTRL_SIZE {
        ctrl := ctrl + frame;
      }
      SessionKeeps(was, Abs(), Share(cfg));
    }

    // Unless the frame overfills an assembly, the object stays valid.
    method ProcessData(id: byte, f: Frame)
      requires Valid()
      modifies this
      ensures Abs() == OnData(old(Abs()), Share(cfg), id, f)
      ensures spilled <==> old(ConnOverfills(Abs(), Share(cfg), id, f))
      ensures !spilled ==> Valid()
    {
      hide ConnOverfills, ConnOk, FeedWhole, FeedPiece, Fine, ChanHeld, ChanOk;
      ConnTables(Abs(), Share(cfg));
      OnDataKeeps(Abs(), Share(cfg), id, f);
      var k := ids[id];
      if k != -1 {
        var ch := slots[k].ch;
        if ch.info.sends {
          assert slots[k := Used(ch)] == slots;
          return;
        }
        ChanInOrder(Abs(), Share(cfg), k);
        ChanDataKept(Pool(free, store, spilled), ch, Share(cfg), f);
        var ordered := ch.info.kind != Unreliable;
        var p, r;
        if f.total <= 1 {
          p, r := TakeWhole(Pool(free, store, spilled), ch.rx, ordered, f.seqno, f.data);
        } else {
          p, r := TakePiece(Pool(free, store, spilled), ch.rx, ordered, Share(cfg), f);
        }
        var notes := ch.notes;
        if ordered {
          notes := notes.(ack := true, acked := Owed(r.seqno));
        }
        if p.spilled {
          free, store, spilled := p.free, p.store, true;
          slots := slots[k := Used(ch.(rx := r, notes := notes))];
        } else {
          Keep(k, p, ch.(rx := r, notes := notes));
        }
      }
    }

    method ProcessAck(id: byte, acked: u16)
      requires Valid()
      modifies this
      ensures Valid() && Abs() == OnAck(old(Abs()), Share(cfg), id, acked)
    {
      hide ConnOk, AckFrom, Advance, ChanHeld, RxOk, SlotOk, Windowed;
      ConnTables(Abs(), Share(cfg));
      OnAckKeeps(Abs(), Share(cfg), id, acked);
      var k := ids[id];
      if k != -1 {
        var ch := slots[k].ch;
        if !ch.info.sends {
          assert slots[k := Used(ch)] == slots;
          return;
        }
        ChanInOrder(Abs(), Share(cfg), k);
        var o := ch.out;
        SlotsSized(o, Share(cfg));
        AckFromShape(Pool(free, store, spilled), o.cells, o.inFlight, acked, 0);
        var p, cells, n := ReleaseCovered(Pool(free, store, spilled), o.cells, o.inFlight, acked);
        var head := SkipFree(cells, o.head, o.tail);
        Keep(k, p, ch.(out := o.(cells := cells, inFlight := n, head := head)));
      }
    }

    method Write(id: byte, data: bytes) returns (r: WriteResult)
      requires Valid()
      modifies this
      ensures Valid() && (Abs(), r) == WriteChan(old(Abs()), Share(cfg), id, data)
    {
      hide ConnOk, FragTotal, ChanHeld, RxOk, SlotOk, Windowed, Single, Poke;
      ConnTables(Abs(), Share(cfg));
      WriteKeeps(Abs(), Share(cfg), id, data);
      var k := ids[id];
      if k == -1 {
        return Refused;
      }
      ChanInOrder(Abs(), Share(cfg), k);
      var ch := slots[k].ch;
      assert slots[k := Used(ch)] == slots;
      if !ch.info.sends { return Refused; }
      var o, reliable := ch.out, ch.info.kind == Reliable;
      if ch.info.status == Dead { return Done(Closed); }
      if data == [] { return Done(Written(0)); }
      if |data| > MAX_MSG { return Done(TooBig); }
      if reliable && ch.info.status == Open && o.inFlight + |data| > ch.info.window { return Done(NoWindow); }
      if NextIx(o.tail) == o.head { return Done(Again); }
      if free == [] { return Done(NoMemory); }
      TopIsReal(Pool(free, store, spilled), ChanHeld(ch));
      var b := free[|free| - 1];
      free := free[..|free| - 1];
      store := store[b := Poke(store[b], 0, data)];
      var total := FragTotal(|data|, Share(cfg));
      var seqno := o.seqno;
      o := o.(seqno := Next16(seqno));
      if total > MAX_FRAGS {
        free := free + [b];
        o := o.(cells := o.cells[o.tail := Cell(NOBUF, 0, OutMeta(0, 0, 0, false, 0, 0))]);
        r := Done(TooBig);
      } else {
        o := o.(cells := o.cells[o.tail := Cell(b, |data|, OutMeta(seqno, total, 0, true, 0, 0))], tail := NextIx(o.tail));
        if reliable {
          o := o.(inFlight := Plus32(o.inFlight, |data|));
        }
        r := Done(Written(|data|));
      }
      slots := slots[k := Used(ch.(out := o))];
    }

    method Read(id: byte, room: nat) returns (data: bytes)
      requires Valid()
      modifies this
      ensures Valid() && (Abs(), data) == ReadChan(old(Abs()), Share(cfg), id, room)
    {
      hide ConnOk, ChanHeld, SlotOk, Windowed, Single;
      ConnTables(Abs(), Share(cfg));
      ReadKeeps(Abs(), Share(cfg), id, room);
      var k := ids[id];
      if k == -1 {
        return [];
      }
      ChanInOrder(Abs(), Share(cfg), k);
      var ch := slots[k].ch;
      assert slots[k := Used(ch)] == slots;
      var q := ch.rx.queue;
      if ch.info.sends || q.head == q.tail { return []; }
      var c := q.cells[q.head];
      FrontIsReal(Pool(free, store, spilled), ch);
      var n := Min(c.len, room);
      data := store[c.buf][..n];
      free := free + [c.buf];
      q := q.(cells := q.cells[q.head := Cell(NOBUF, 0, ())], head := NextIx(q.head), buffered := Minus32(q.buffered, n));
      slots := slots[k := Used(ch.(rx := ch.rx.(queue := q), notes := ch.notes.(update := true)))];
    }

    method FirstVacant() returns (k: int)
      requires Valid()
      ensures k == FindVacant(slots, 0)
    {
      var i := 0;
      while i < |slots|
        invariant i <= |slots| && FindVacant(slots, i) == FindVacant(slots, 0)
      {
        if slots[i].Vacant? {
          return i;
        }
        i := i + 1;
      }
      k := -1;
    }

    // A new channel, if a slot is left.
    method Add(info: Info) returns (ok: bool)
      requires Valid() && ids[info.id] == -1
      modifies this`slots, this`ids
      ensures Valid() && Abs() == AddChan(old(Abs()), info, cfg.limit)
      ensures ok <==> FindVacant(old(slots), 0) != -1
    {
      hide ConnOk, NewChan, FindVacant;
      ConnTables(Abs(), Share(cfg));
      AddChanKeeps(Abs(), info, cfg.limit, Share(cfg));
      var k := FirstVacant();
      ok := k != -1;
      if ok {
        slots := slots[k := Used(NewChan(info, cfg.limit))];
        ids := ids[info.id := k];
      }
    }

    method ProcessOpen(id: byte, code: byte, dir: byte)
      requires Valid()
      modifies this
      ensures Valid() && Abs() == OnOpen(old(Abs()), Share(cfg), id, code, dir, cfg.limit)
    {
      hide ConnOk, AddChan, FindVacant;
      ConnTables(Abs(), Share(cfg));
      if ids[id] != -1 {
        QueueControl(CloseBytes(id, 1));
        return;
      }
      ghost var was := Abs();
      var info := Info(id, KindOf(code), dir != 0, Open, 0);
      var ok := Add(info);
      if !ok {
        NoneAdded(was, info, cfg.limit);
        QueueControl(CloseBytes(id, 1));
      } else if dir == 0 {
        QueueControl(WindowBytes(id, cfg.limit));
      }
    }

    method SetInfo(k: nat, info: Info)
      requires Valid() && k < MAX_CHAN && slots[k].Used?
      requires info.id == slots[k].ch.info.id && info.kind == slots[k].ch.info.kind
      modifies this`slots
      ensures Valid() && Abs() == SetChan(old(Abs()), k, old(slots)[k].ch.(info := info))
    {
      hide ConnOk;
      ConnTables(Abs(), Share(cfg));
      InfoKeeps(Abs(), Share(cfg), k, slots[k].ch.(info := info));
      slots := slots[k := Used(slots[k].ch.(info := info))];
    }

    // One frame at the front of d; its length, or -1 if it is malformed.
    method ProcessFrame(d: bytes, newId: u32) returns (n: int)
      requires Valid() && d != []
      modifies this
      ensures !spilled ==> Valid()
      ensures match FrameStep(old(Abs()), d, Share(cfg), cfg.limit, newId)
              case Bad => n == -1 && Abs() == old(Abs())
              case Took(m, c) => n == m && Abs() == c
    {
      hide ConnOk, OnData, OnAck, OnOpen, Rd16, Rd32, Wr32;
      ghost var was := Abs();
      ConnTables(was, Share(cfg));
      FrameKeeps(was, d, Share(cfg), cfg.limit, newId);
      if d[0] <= F_PONG {
        n := ProcessSession(d, newId);
      } else if d[0] == F_OPEN {
        if |d| < 5 || |d| < 5 + d[4] as int { return -1; }
        ProcessOpen(d[1], d[2], d[3]);
        n := 5 + d[4] as int;
      } else if d[0] == F_CLOSE {
        if |d| < 4 { return -1; }
        var k := ids[d[1]];
        if k != -1 { SetInfo(k, slots[k].ch.info.(status := Dead)); }
        n := 4;
      } else if d[0] == F_DATA {
        if !DataWhole(d) { return -1; }
        ProcessData(d[1], DataFrame(d));
        n := 8 + Rd16(d, 4);
      } else if d[0] == F_ACK {
        if |d| < 4 { return -1; }
        ProcessAck(d[1], Rd16(d, 2));
        n := 4;
      } else if d[0] == F_WINDOW {
        if |d| < 6 { return -1; }
        var k := ids[d[1]];
        if k != -1 { ProcessWindow(k, Rd32(d, 2)); }
        n := 6;
      } else {
        n := -1;
      }
    }

    method ProcessWindow(k: nat, window: u32)
      requires Valid() && k < MAX_CHAN && slots[k].Used?
      modifies this`slots
      ensures Valid() && Abs() == SetChan(old(Abs()), k, ChanWindow(old(slots)[k].ch, window))
    {
      hide ConnOk;
      ConnTables(Abs(), Share(cfg));
      var info := slots[k].ch.info;
      if info.sends {
        info := info.(window := window);
        if info.status == Opening {
          info := info.(status := Open);
        }
      }
      SetInfo(k, info);
    }

    method ProcessSession(d: bytes, newId: u32) returns (n: int)
      requires Valid() && d != [] && d[0] <= F_PONG
      modifies this`peer, this`ctrl
      ensures Valid()
      ensures match SessionFrame(old(Abs()), d, newId)
              case Bad => n == -1 && Abs() == old(Abs())
              case Took(m, c) => n == m && Abs() == c
    {
      hide ConnOk, Rd32, Wr32;
      ghost var was := Abs();
      if d[0] == F_PADDING {
        n := 1;
      } else if d[0] == F_INIT {
        if |d| < 6 || !peer.server || d[5] != VERSION { return -1; }
        peer := peer.(remoteId := Rd32(d, 1));
        if peer.state == New {
          peer := peer.(localId := newId, state := Connecting);
        }
        n := 6;
      } else if d[0] == F_ACCEPT {
        if |d| < 10 || peer.server { return -1; }
        peer := peer.(remoteId := Rd32(d, 1), state := Connected);
        n := 10;
      } else if d[0] == F_REDIRECT {
        if |d| < 12 { return -1; }
        if d[5] == 4 { return 12; }
        if d[5] == 6 && |d| >= 24 { return 24; }
        n := -1;
      } else if d[0] == F_DISCONNECT {
        if |d| < 3 { return -1; }
        peer := peer.(state := Disconnected(peer.state));
        n := 3;
      } else {
        if |d| < 5 { return -1; }
        if d[0] == F_PING {
          QueueControl([F_PONG] + d[1..5]);
        }
        n := 5;
      }
      SessionKeeps(was, Abs(), Share(cfg));
    }

    method Feed(pkt: bytes, newId: u32) returns (ok: bool)
      requires Valid()
      modifies this
      ensures (Abs(), ok) == NetchanFeed.Feed(old(Abs()), pkt, Share(cfg), cfg.limit, newId)
      ensures !spilled ==> Valid()
    {
      hide ConnOk, FrameStep, Rd32;
      if |pkt| < HDR_INIT { return false; }
      var hdr := HDR_INIT;
      if pkt[0] % 2 != 1 {
        if |pkt| < HDR_FULL || Rd32(pkt, 1) != peer.localId { return false; }
        hdr := HDR_FULL;
      }
      var d := pkt[hdr..];
      while d != []
        invariant Valid()
        invariant Frames(Abs(), d, Share(cfg), cfg.limit, newId) == Frames(old(Abs()), pkt[hdr..], Share(cfg), cfg.limit, newId)
        decreases |d|
      {
        var n := ProcessFrame(d, newId);
        if n == -1 || spilled { return false; }
        d := d[n..];
      }
      ok := true;
    }

    // ----- sending -----

    method AnythingDue() returns (due: bool)
      requires Valid()
      ensures due <==> HasData(Abs(), Share(cfg))
    {
      hide ConnOk, SlotOk, RxOk, ActiveLen, Windowed;
      ConnTables(Abs(), Share(cfg));
      if ctrl != [] { return true; }
      for i := 0 to MAX_IDS
        invariant forall j :: 0 <= j < i ==> !DueAt(Abs(), j, Share(cfg))
      {
        if ids[i] != -1 {
          var ch := slots[ids[i]].ch;
          ChanInOrder(Abs(), Share(cfg), ids[i]);
          if Owes(ch) { assert DueAt(Abs(), i, Share(cfg)); return true; }
          if ch.info.sends && ch.info.status == Open {
            var k := ScanSendable(ch.out);
            if k != -1 { assert DueAt(Abs(), i, Share(cfg)); return true; }
          }
        }
      }
      due := false;
    }

    method FlushNotes(out0: bytes, m: nat) returns (out: bytes)
      requires Valid()
      modifies this`slots
      ensures Valid() && (Abs(), out) == NotesFrom(old(Abs()), 0, out0, m, Share(cfg))
    {
      hide ConnOk, Wr16, Wr32;
      out := out0;
      var i := 0;
      while i < MAX_IDS && |out| + 6 <= m
        invariant i <= MAX_IDS && Valid()
        invariant NotesFrom(Abs(), i, out, m, Share(cfg)) == NotesFrom(old(Abs()), 0, out0, m, Share(cfg))
      {
        ConnTables(Abs(), Share(cfg));
        var k := ids[i];
        if k != -1 {
          var (ch, out1) := NoteOut(slots[k].ch, out, m);
          InfoKeeps(Abs(), Share(cfg), k, ch);
          slots := slots[k := Used(ch)];
          out := out1;
        }
        i := i + 1;
      }
    }

    method FlushData(out0: bytes, m: nat, now: u32) returns (out: bytes)
      requires Valid()
      modifies this`free, this`store, this`slots
      ensures Valid() && (Abs(), out) == DataFrom(old(Abs()), 0, out0, m, Share(cfg), now)
    {
      hide ConnOk, Emit, SlotOk, RxOk, ActiveLen, Windowed, ChanHeld, Holds, PoolOk, Wr16;
      out := out0;
      var i := 0;
      while i < MAX_IDS && |out| + 9 <= m
        invariant i <= MAX_IDS && Valid()
        invariant DataFrom(Abs(), i, out, m, Share(cfg), now) == DataFrom(old(Abs()), 0, out0, m, Share(cfg), now)
      {
        ConnTables(Abs(), Share(cfg));
        var k := ids[i];
        if k != -1 && slots[k].ch.info.sends && slots[k].ch.info.status == Open {
          ChanInOrder(Abs(), Share(cfg), k);
          var s := ScanSendable(slots[k].ch.out);
          if s != -1 {
            var (p, ch, f) := ChanEmit(Pool(free, store, spilled), slots[k].ch, Share(cfg), s, now);
            if |f.data| > m - |out| - 8 { return; }
            EmitKeeps(Abs(), Share(cfg), k, now);
            FrameFits(Abs(), Share(cfg), k, now);
            out := out + DataBytes(ch.info.id, f);
            Keep(k, p, ch);
          }
        }
        i := i + 1;
      }
    }

    method SendNext(room: nat, now: u32) returns (pkt: bytes)
      requires Valid()
      modifies this
      ensures Valid() && (Abs(), pkt) == NetchanOutput.SendNext(old(Abs()), room, cfg.mtu, Share(cfg), now)
    {
      hide ConnOk, NotesFrom, DataFrom, HasData, Wr16, Wr32;
      ghost var was := Abs();
      var due := AnythingDue();
      var hdr := if peer.state == Connecting && !peer.server then [1] + Wr32(peer.localId)
                 else [2] + Wr32(peer.remoteId) + Wr16(peer.packet);
      assert hdr == Header(was);
      if !due || room < |hdr| { return []; }
      if !(peer.state == Connecting && !peer.server) {
        peer := peer.(packet := Next16(peer.packet));
      }
      var m := Min(cfg.mtu, room);
      var n := Min(|ctrl|, m - |hdr|);
      pkt := hdr + ctrl[..n];
      ctrl := ctrl[n..];
      SessionKeeps(was, Abs(), Share(cfg));
      pkt := FlushNotes(pkt, m);
      pkt := FlushData(pkt, m, now);
    }

    // Every call for a packet until none is left; the work left shrinks with each.
    method SendAll(now: u32) returns (pkts: seq<bytes>)
      requires Valid()
      modifies this
      ensures Valid() && !HasData(Abs(), Share(cfg))
      ensures |pkts| <= old(Work(Abs()))
    {
      hide ConnOk, NetchanOutput.SendNext, HasData, Work;
      pkts := [];
      while true
        invariant Valid() && |pkts| + Work(Abs()) <= old(Work(Abs()))
        decreases Work(Abs())
      {
        SendNextLowersWork(Abs(), cfg.mtu, cfg.mtu, Share(cfg), now);
        var pkt := SendNext(cfg.mtu, now);
        if pkt == [] { return; }
        pkts := pkts + [pkt];
      }
    }

    method Service(now: u32)
      requires Valid()
      modifies this
      ensures Valid() && Abs() == ServiceFrom(old(Abs()), 0, Share(cfg), cfg.rt, now)
    {
      hide ConnOk, Retransmit;
      var i := 0;
      while i < MAX_IDS
        invariant i <= MAX_IDS && Valid()
        invariant ServiceFrom(Abs(), i, Share(cfg), cfg.rt, now) == ServiceFrom(old(Abs()), 0, Share(cfg), cfg.rt, now)
      {
        ConnTables(Abs(), Share(cfg));
        var k := ids[i];
        if k != -1 {
          var ch := slots[k].ch;
          ServiceKeeps(Abs(), Share(cfg), k, cfg.rt, now);
          if ch.info.sends && ch.info.kind == Reliable {
            var cells, dead := Rearm(ch.out.cells, cfg.rt, now);
            ch := ch.(out := ch.out.(cells := cells));
            if dead {
              ch := ch.(info := ch.info.(status := Dead));
            }
          }
          slots := slots[k := Used(ch)];
        }
        i := i + 1;
      }
    }

    method OpenChannel(code: byte, dir: byte, ct: bytes) returns (ok: bool)
      requires Valid() && |ct| < 64
      modifies this
      ensures Valid() && Abs() == OpenChan(old(Abs()), code, dir, ct, cfg.limit)
    {
      hide ConnOk, AddChan, FindVacant, Wr32;
      ConnTables(Abs(), Share(cfg));
      ghost var was := Abs();
      var id := peer.nextId;
      if peer.state != Connected || ids[id] != -1 { return false; }
      peer := peer.(nextId := TwoOn(id));
      SessionKeeps(was, Abs(), Share(cfg));
      ghost var spent := Abs();
      var info := Info(id, KindOf(code), dir == 0, if dir == 0 then Opening else Open, 0);
      ok := Add(info);
      if !ok {
        NoneAdded(spent, info, cfg.limit);
        return;
      }
      QueueControl(OpenBytes(id, code, dir, ct));
      if dir != 0 {
        QueueControl(WindowBytes(id, cfg.limit));
      }
    }

    method FreeChannel(id: byte)
      requires Valid()
      modifies this`free, this`store, this`slots, this`ids
      ensures Valid() && Abs() == DropChan(old(Abs()), id)
    {
      hide ChanHeld, FreeBag, AllHeld;
      ConnTables(Abs(), Share(cfg));
      DropChanKeeps(Abs(), Share(cfg), id);
      var k := ids[id];
      if k != -1 {
        var ch := slots[k].ch;
        FreeChanReturns(Pool(free, store, spilled), ch);
        var p := PutBack(Pool(free, store, spilled), ch.out.cells);
        p := PutBack(p, ch.rx.queue.cells);
        p := PutBack(p, ch.rx.pend.reorder);
        p := PutBack(p, ch.rx.pend.frags);
        free, store := p.free, p.store;
        slots := slots[k := Vacant];
        ids := ids[id := -1];
      }
    }

    // Free every channel: the whole pool is free again.
    method Close()
      requires Valid()
      modifies this
      ensures Valid() && Whole(multiset(free))
    {
      hide ConnOk, DropChan, Whole;
      CloseReturnsAll(Abs(), Share(cfg));
      var i := 0;
      while i < MAX_IDS
        invariant i <= MAX_IDS && Valid()
        invariant CloseFrom(Abs(), i, Share(cfg)) == CloseFrom(old(Abs()), 0, Share(cfg))
      {
        ConnTables(Abs(), Share(cfg));
        DropChanKeeps(Abs(), Share(cfg), i);
        FreeChannel(i);
        i := i + 1;
      }
    }
  }

  lemma NoneAdded(c: Conn, info: Info, limit: u32)
    requires info.id < |c.ids| && FindVacant(c.slots, 0) == -1
    ensures AddChan(c, info, limit) == c
  {
  }

  // A channel of a connection in order is in order and holds its buffers.
  lemma ChanInOrder(c: Conn, fp: nat, k: nat)
    requires fp > 0 && ConnOk(c, fp) && k < MAX_CHAN && c.slots[k].Used?
    ensures ChanOk(c.slots[k].ch, fp) && PoolOk(c.pool) && Holds(c.pool, ChanHeld(c.slots[k].ch))
  {
    hide ChanHeld, AllHeld, ChanOk, Whole, Single;
    ChanHolds(c, fp, k);
  }

  // The buffer on top of the free stack is one of the pool.
  lemma TopIsReal(p: Pool, held: multiset<int>)
    requires Holds(p, held) && p.free != []
    ensures 0 <= p.free[|p.free| - 1] < POOL_BUFS
  {
    GetMoves(p, held);
    FreeIsReal(p, held);
  }

  // And so is that of the oldest queued message.
  lemma FrontIsReal(p: Pool, ch: Chan)
    requires QueueOk(ch.rx.queue) && ch.rx.queue.head != ch.rx.queue.tail && Holds(p, ChanHeld(ch))
    ensures 0 <= ch.rx.queue.cells[ch.rx.queue.head].buf < POOL_BUFS
  {
    var q := ch.rx.queue;
    BufsMember(q.cells, q.head);
    assert (FreeBag(p) + ChanHeld(ch))[q.cells[q.head].buf] >= 1;
  }
}
