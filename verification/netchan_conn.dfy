// A netchan connection: up to sixteen channels drawing on one pool of sixty-four buffers.
module NetchanConn {
  import opened Bytes
  import opened NetchanPool
  import opened NetchanFrag
  import opened NetchanRecv
  import opened NetchanRead
  import opened NetchanData
  import opened NetchanOverrun
  import opened NetchanSend

  const MAX_CHAN := 16
  const MAX_IDS := 256

  // ----- one channel -----

  datatype Kind = Unreliable | Reliable | Other

  datatype Info = Info(id: byte, kind: Kind, sends: bool, status: Status, window: u32)

  // What the receiving side owes its peer: an acknowledgement, a window update.
  datatype Notes = Notes(ack: bool, acked: u16, update: bool, limit: u32)

  datatype Chan = Chan(info: Info, out: Out, rx: Rx, notes: Notes)

  ghost predicate ChanOk(ch: Chan, fp: nat)
    requires fp > 0
  {
    && OutOk(ch.out, fp) && RxOk(ch.rx) && Windowed(ch.rx.pend.reorder, ch.rx.seqno, 1)
    && Laid(ch.rx.pend.frags, fp)
    && (ch.info.kind == Reliable ==> Accounted(ch.out))
  }

  ghost function ChanHeld(ch: Chan): multiset<int> {
    Bufs(ch.out.cells) + Held(ch.rx)
  }

  // A channel operation keeps the channel in order, loses and shares no buffer, and leaves
  // the buffers of other channels unwritten.
  ghost predicate ChanKept(p: Pool, ch: Chan, p': Pool, ch': Chan, fp: nat)
    requires fp > 0
  {
    ChanOk(ch', fp) && ch'.info.id == ch.info.id && Kept(p, ChanHeld(ch), p', ChanHeld(ch'))
  }

  lemma OutSideKept(p: Pool, ch: Chan, p': Pool, o: Out)
    requires Kept(p, Bufs(ch.out.cells), p', Bufs(o.cells))
    ensures Kept(p, ChanHeld(ch), p', ChanHeld(ch.(out := o)))
  {
    hide Bufs, Held;
    KeptMore(p, Bufs(ch.out.cells), p', Bufs(o.cells), Held(ch.rx));
  }

  lemma RxSideKept(p: Pool, ch: Chan, p': Pool, r: Rx)
    requires Kept(p, Held(ch.rx), p', Held(r))
    ensures Kept(p, ChanHeld(ch), p', ChanHeld(ch.(rx := r)))
  {
    hide Bufs, Held;
    KeptMore(p, Held(ch.rx), p', Held(r), Bufs(ch.out.cells));
    assert Held(ch.rx) + Bufs(ch.out.cells) == ChanHeld(ch);
    assert Held(r) + Bufs(ch.out.cells) == ChanHeld(ch.(rx := r));
  }

  lemma SideHolds(p: Pool, ch: Chan)
    requires Holds(p, ChanHeld(ch))
    ensures Holds(p, Bufs(ch.out.cells)) && Holds(p, Held(ch.rx))
    ensures Bufs(ch.out.cells) + multiset{} == Bufs(ch.out.cells) && Held(ch.rx) + multiset{} == Held(ch.rx)
  {
    hide Bufs, Held, Single;
    HoldsLess(p, Bufs(ch.out.cells), Held(ch.rx));
    assert ChanHeld(ch) == Held(ch.rx) + Bufs(ch.out.cells);
    HoldsLess(p, Held(ch.rx), Bufs(ch.out.cells));
  }

  datatype WriteResult = Refused | Done(outcome: Outcome)

  function ChanWrite(p: Pool, ch: Chan, fp: nat, data: bytes): (Pool, Chan, WriteResult)
    requires fp > 0 && ch.out.tail < |ch.out.cells|
  {
    if !ch.info.sends then (p, ch, Refused)
    else
      var g := Gate(ch.info.kind == Reliable, ch.info.status, ch.info.window);
      var (p', o, out) := Write1(p, ch.out, g, fp, data);
      (p', ch.(out := o), Done(out))
  }

  function ChanRead(p: Pool, ch: Chan, room: nat): (Pool, Chan, bytes)
    requires PoolOk(p) && QueueOk(ch.rx.queue)
  {
    if ch.info.sends || ch.rx.queue.head == ch.rx.queue.tail then (p, ch, [])
    else
      var (p', q, data) := Dequeue(p, ch.rx.queue, room);
      (p', ch.(rx := ch.rx.(queue := q), notes := ch.notes.(update := true)), data)
  }

  function ChanData(p: Pool, ch: Chan, fp: nat, f: Frame): (Pool, Chan)
    requires Fine(p, ch.rx)
  {
    if ch.info.sends then (p, ch)
    else
      var (p', r) := FeedData(p, ch.rx, ch.info.kind != Unreliable, fp, f.seqno, f.idx, f.total, f.data);
      var n := if ch.info.kind == Unreliable then ch.notes
               else ch.notes.(ack := true, acked := Owed(r.seqno));
      (p', ch.(rx := r, notes := n))
  }

  // The number a receiver acknowledges that wants this one next.
  function Owed(next: u16): u16 {
    if next > 0 then next - 1 else 0
  }

  function ChanAck(p: Pool, ch: Chan, fp: nat, acked: u16): (Pool, Chan)
    requires fp > 0 && OutOk(ch.out, fp)
  {
    if !ch.info.sends then (p, ch)
    else
      var (p', o) := Ack(p, ch.out, acked, fp);
      (p', ch.(out := o))
  }

  function ChanWindow(ch: Chan, window: u32): Chan {
    if !ch.info.sends then ch
    else ch.(info := ch.info.(window := window, status := if ch.info.status == Opening then Open else ch.info.status))
  }

  function ChanService(ch: Chan, rt: u32, now: u32): Chan {
    if !ch.info.sends || ch.info.kind != Reliable then ch
    else
      var (cells, dead) := Retransmit(ch.out.cells, rt, now, 0);
      ch.(out := ch.out.(cells := cells), info := ch.info.(status := if dead then Dead else ch.info.status))
  }

  function ChanEmit(p: Pool, ch: Chan, fp: nat, k: nat, now: u32): (Pool, Chan, Frame)
    requires fp > 0 && OutOk(ch.out, fp) && k < OUTGOING_SLOTS
  {
    var (p', o, f) := Emit(p, ch.out, ch.info.kind != Unreliable, fp, k, now);
    (p', ch.(out := o), f)
  }

  lemma ChanWriteKept(p: Pool, ch: Chan, fp: nat, data: bytes)
    requires fp >= 64 && ChanOk(ch, fp) && Holds(p, ChanHeld(ch))
    ensures var (p', ch', r) := ChanWrite(p, ch, fp, data); ChanKept(p, ch, p', ch', fp)
  {
    hide Write1, Bufs, Held, Single, RxOk, Windowed, SlotOk, ActiveLen;
    SideHolds(p, ch);
    var (p', ch', r) := ChanWrite(p, ch, fp, data);
    if ch.info.sends {
      var g := Gate(ch.info.kind == Reliable, ch.info.status, ch.info.window);
      WriteKept(p, ch.out, g, fp, data, multiset{});
      if g.reliable { WriteAccounted(p, ch.out, g, fp, data, multiset{}); }
      assert Bufs(ch'.out.cells) + multiset{} == Bufs(ch'.out.cells);
      OutSideKept(p, ch, p', ch'.out);
    }
  }

  lemma ChanReadKept(p: Pool, ch: Chan, fp: nat, room: nat)
    requires fp >= 64 && ChanOk(ch, fp) && Holds(p, ChanHeld(ch))
    ensures var (p', ch', data) := ChanRead(p, ch, room); ChanKept(p, ch, p', ch', fp)
  {
    hide Dequeue, Bufs, Single, Windowed, OutOk, Queued;
    SideHolds(p, ch);
    var (p', ch', data) := ChanRead(p, ch, room);
    if !(ch.info.sends || ch.rx.queue.head == ch.rx.queue.tail) {
      DequeueKept(p, ch.rx.queue, room, PendHeld(ch.rx.pend));
      RxSideKept(p, ch, p', ch'.rx);
    }
  }

  // A DATA frame overfills an assembly of the channel.
  ghost predicate ChanOverfills(ch: Chan, fp: nat, f: Frame)
    requires RxOk(ch.rx)
  {
    !ch.info.sends && Overfills(ch.rx.pend.frags, fp, f)
  }

  // A DATA frame keeps the channel in order and the others apart, except that one which
  // overfills an assembly runs past the end of a buffer.
  lemma ChanDataKept(p: Pool, ch: Chan, fp: nat, f: Frame)
    requires fp >= 64 && ChanOk(ch, fp) && Holds(p, ChanHeld(ch))
    ensures Fine(p, ch.rx)
    ensures var (p', ch') := ChanData(p, ch, fp, f);
            && (p'.spilled <==> ChanOverfills(ch, fp, f))
            && (!p'.spilled ==> ChanKept(p, ch, p', ch', fp))
            && (!p'.spilled && Snug(ch.rx.pend.frags, fp) && WithinShare(f, fp) ==> Snug(ch'.rx.pend.frags, fp))
  {
    hide FeedData, Bufs, Held, Single, RxOk, Windowed, OutOk, Laid, Snug, Overfills;
    SideHolds(p, ch);
    var (p', ch') := ChanData(p, ch, fp, f);
    if !ch.info.sends {
      FrameSpillsIff(p, ch.rx, ch.info.kind != Unreliable, fp, f);
      FeedDataKept(p, ch.rx, ch.info.kind != Unreliable, fp, f.seqno, f.idx, f.total, f.data, multiset{});
      assert Held(ch'.rx) + multiset{} == Held(ch'.rx);
      if !p'.spilled {
        RxSideKept(p, ch, p', ch'.rx);
      }
    }
  }

  lemma ChanAckKept(p: Pool, ch: Chan, fp: nat, acked: u16)
    requires fp >= 64 && ChanOk(ch, fp) && Holds(p, ChanHeld(ch))
    ensures var (p', ch') := ChanAck(p, ch, fp, acked); ChanKept(p, ch, p', ch', fp)
  {
    hide Ack, Bufs, Held, Single, RxOk, Windowed, SlotOk, ActiveLen, AckedTo;
    SideHolds(p, ch);
    var (p', ch') := ChanAck(p, ch, fp, acked);
    if ch.info.sends {
      AckKept(p, ch.out, acked, fp, multiset{});
      assert Bufs(ch'.out.cells) + multiset{} == Bufs(ch'.out.cells);
      OutSideKept(p, ch, p', ch'.out);
    }
  }

  lemma ChanServiceKept(p: Pool, ch: Chan, fp: nat, rt: u32, now: u32)
    requires fp >= 64 && ChanOk(ch, fp) && Holds(p, ChanHeld(ch))
    ensures ChanKept(p, ch, p, ChanService(ch, rt, now), fp)
  {
    hide Retransmit, Bufs, Held, Single, RxOk, Windowed, SlotOk, ActiveLen;
    if ch.info.sends && ch.info.kind == Reliable {
      var cells := Retransmit(ch.out.cells, rt, now, 0).0;
      RetransmitSame(ch.out.cells, rt, now, 0);
      SameLoadSums(ch.out.cells, cells);
      SameLoadOk(ch.out, cells, fp);
    }
  }

  lemma ChanEmitKept(p: Pool, ch: Chan, fp: nat, k: nat, now: u32)
    requires fp >= 64 && ChanOk(ch, fp) && Holds(p, ChanHeld(ch)) && k < OUTGOING_SLOTS && Sendable1(ch.out.cells[k])
    ensures var (p', ch', f) := ChanEmit(p, ch, fp, k, now); ChanKept(p, ch, p', ch', fp)
  {
    hide Emit, Bufs, Held, Single, RxOk, Windowed, SlotOk, ActiveLen;
    SideHolds(p, ch);
    var (p', ch', f) := ChanEmit(p, ch, fp, k, now);
    EmitKept(p, ch.out, ch.info.kind != Unreliable, fp, k, now, multiset{});
    assert Bufs(ch'.out.cells) + multiset{} == Bufs(ch'.out.cells);
    OutSideKept(p, ch, p', ch'.out);
  }

  // ----- all channels -----

  datatype Slot = Vacant | Used(ch: Chan)

  datatype State = New | Connecting | Connected | Leaving | Ended

  datatype Peer = Peer(server: bool, state: State, localId: u32, remoteId: u32, nextId: byte, packet: u16)

  // The channel slots and which slot each channel id refers to, -1 for none; control frames
  // waiting to be sent; and the state of the session.
  datatype Conn = Conn(pool: Pool, slots: seq<Slot>, ids: seq<int>, ctrl: bytes, peer: Peer)

  ghost function SlotHeld(s: Slot): multiset<int> {
    if s.Vacant? then multiset{} else ChanHeld(s.ch)
  }

  ghost function AllHeld(slots: seq<Slot>): multiset<int> {
    if slots == [] then multiset{} else AllHeld(slots[..|slots| - 1]) + SlotHeld(slots[|slots| - 1])
  }

  ghost predicate TablesOk(c: Conn) {
    && |c.slots| == MAX_CHAN && |c.ids| == MAX_IDS
    && (forall i :: 0 <= i < MAX_IDS && c.ids[i] != -1 ==>
          0 <= c.ids[i] < MAX_CHAN && c.slots[c.ids[i]].Used? && c.slots[c.ids[i]].ch.info.id == i)
    && (forall k :: 0 <= k < MAX_CHAN && c.slots[k].Used? ==> c.ids[c.slots[k].ch.info.id] == k)
  }

  ghost predicate ChansOk(slots: seq<Slot>, fp: nat)
    requires fp > 0
  {
    forall k :: 0 <= k < |slots| && slots[k].Used? ==> ChanOk(slots[k].ch, fp)
  }

  // The pool is partitioned: every buffer is free or in exactly one slot of one channel.
  ghost predicate ConnOk(c: Conn, fp: nat)
    requires fp > 0
  {
    && TablesOk(c) && ChansOk(c.slots, fp)
    && PoolOk(c.pool) && Whole(FreeBag(c.pool) + AllHeld(c.slots))
  }

  lemma {:induction false} AllHeldUpdate(slots: seq<Slot>, k: nat, s: Slot)
    requires k < |slots|
    ensures AllHeld(slots[k := s]) + SlotHeld(slots[k]) == AllHeld(slots) + SlotHeld(s)
  {
    hide SlotHeld;
    var n := |slots| - 1;
    if k < n {
      AllHeldUpdate(slots[..n], k, s);
      assert slots[k := s][..n] == slots[..n][k := s];
      AddBoth(AllHeld(slots[..n][k := s]), SlotHeld(slots[k]), AllHeld(slots[..n]), SlotHeld(s), SlotHeld(slots[n]));
    } else {
      assert slots[k := s][..n] == slots[..n];
    }
  }

  // What one channel holds, and what the rest of the connection holds.
  lemma OneAndRest(slots: seq<Slot>, k: nat)
    requires k < |slots|
    ensures AllHeld(slots) == SlotHeld(slots[k]) + AllHeld(slots[k := Vacant])
  {
    hide AllHeld;
    AllHeldUpdate(slots, k, Vacant);
    assert AllHeld(slots) + SlotHeld(Vacant) == AllHeld(slots);
  }

  lemma ChanHolds(c: Conn, fp: nat, k: nat)
    requires fp > 0 && ConnOk(c, fp) && k < MAX_CHAN && c.slots[k].Used?
    ensures Holds(c.pool, ChanHeld(c.slots[k].ch))
    ensures Holds(c.pool, ChanHeld(c.slots[k].ch) + AllHeld(c.slots[k := Vacant]))
  {
    hide ChanHeld, AllHeld, ChansOk;
    OneAndRest(c.slots, k);
    HoldsLess(c.pool, ChanHeld(c.slots[k].ch), AllHeld(c.slots[k := Vacant]));
  }

  // Putting a changed channel back.
  function Stored(c: Conn, k: nat, p: Pool, ch: Chan): Conn
    requires k < |c.slots|
  {
    c.(pool := p, slots := c.slots[k := Used(ch)])
  }

  // Whatever one channel does, the pool stays partitioned among all of them.
  lemma ChanStepKeeps(c: Conn, fp: nat, k: nat, p: Pool, ch: Chan)
    requires fp > 0 && ConnOk(c, fp) && k < MAX_CHAN && c.slots[k].Used?
    requires ChanKept(c.pool, c.slots[k].ch, p, ch, fp)
    ensures ConnOk(Stored(c, k, p, ch), fp)
  {
    hide ChanHeld, AllHeld, ChanOk;
    var held, held', rest := ChanHeld(c.slots[k].ch), ChanHeld(ch), AllHeld(c.slots[k := Vacant]);
    KeptMore(c.pool, held, p, held', rest);
    OneAndRest(c.slots, k);
    OneAndRest(c.slots[k := Used(ch)], k);
    assert c.slots[k := Used(ch)][k := Vacant] == c.slots[k := Vacant];
  }

  // And it writes into no buffer of another channel. ChanKept is what every channel operation
  // ensures; for a DATA frame it holds unless the frame overfills an assembly.
  lemma ChanStepApart(c: Conn, fp: nat, k: nat, p: Pool, ch: Chan, j: nat)
    requires fp > 0 && ConnOk(c, fp) && k < MAX_CHAN && c.slots[k].Used?
    requires ChanKept(c.pool, c.slots[k].ch, p, ch, fp)
    requires j < MAX_CHAN && j != k && c.slots[j].Used?
    ensures Spared(c.pool, p, ChanHeld(c.slots[j].ch)) && Holds(p, ChanHeld(c.slots[j].ch))
  {
    hide ChanHeld, AllHeld, ChanOk;
    var held, other := ChanHeld(c.slots[k].ch), ChanHeld(c.slots[j].ch);
    var rest := AllHeld(c.slots[k := Vacant]);
    OneAndRest(c.slots, k);
    OneAndRest(c.slots[k := Vacant], j);
    assert other <= rest;
    ChanStepKeeps(c, fp, k, p, ch);
    var c' := Stored(c, k, p, ch);
    assert c'.slots[j] == c.slots[j];
    ChanHolds(c', fp, j);
    forall b | 0 <= b < POOL_BUFS && b in other ensures b !in FreeBag(c.pool) + held {
      assert b in rest;
      assert (FreeBag(c.pool) + (held + rest))[b] == 1;
    }
  }

  // ----- opening -----

  const BLANK_ENTRY := Cell(NOBUF, 0, ())
  const BLANK_WAITING := Cell(NOBUF, 0, ReoMeta(0, false))
  const BLANK_ASSEMBLY := Cell(NOBUF, 0, Fresh(0, 0, false))

  function NewRx(): Rx {
    Rx(0, Queue(Repeat(RECV_QUEUE, BLANK_ENTRY), 0, 0, 0),
       Pending(Repeat(REORDER_SLOTS, BLANK_WAITING), Repeat(FRAG_SLOTS, BLANK_ASSEMBLY)))
  }

  lemma NewRxEmpty()
    ensures Empty(NewRx())
  {
    RepeatAll(RECV_QUEUE, BLANK_ENTRY);
    RepeatAll(REORDER_SLOTS, BLANK_WAITING);
    RepeatAll(FRAG_SLOTS, BLANK_ASSEMBLY);
  }

  lemma EmptyLaid(r: Rx, fp: nat)
    requires Empty(r)
    ensures Laid(r.pend.frags, fp) && Snug(r.pend.frags, fp)
  {
  }

  function NewChan(info: Info, limit: u32): Chan {
    Chan(info, NewOut(), NewRx(), Notes(false, 0, false, limit))
  }

  // The first vacant channel slot from k on.
  function FindVacant(slots: seq<Slot>, k: nat): (r: int)
    ensures r == -1 || (k <= r < |slots| && slots[r].Vacant?)
    ensures r == -1 ==> forall j :: k <= j < |slots| ==> slots[j].Used?
    decreases |slots| - k
  {
    if k >= |slots| then -1 else if slots[k].Vacant? then k else FindVacant(slots, k + 1)
  }

  // A new channel under an id not in use, if a slot is left for it.
  function AddChan(c: Conn, info: Info, limit: u32): Conn
    requires info.id < |c.ids|
  {
    var k := FindVacant(c.slots, 0);
    if k == -1 then c
    else c.(slots := c.slots[k := Used(NewChan(info, limit))], ids := c.ids[info.id := k])
  }

  lemma NewChanOk(info: Info, limit: u32, fp: nat)
    requires fp > 0
    ensures ChanOk(NewChan(info, limit), fp) && ChanHeld(NewChan(info, limit)) == multiset{}
  {
    hide OutOk, RxOk, Windowed, Idle, Empty, NewOut, NewRx, Bufs, Held, ActiveLen, Laid;
    NewOutIdle();
    NewRxEmpty();
    IdleOk(NewOut(), fp);
    EmptyOk(Pool([], [], false), NewRx());
    EmptyLaid(NewRx(), fp);
  }

  lemma AddChanKeeps(c: Conn, info: Info, limit: u32, fp: nat)
    requires fp > 0 && ConnOk(c, fp) && c.ids[info.id] == -1
    ensures ConnOk(AddChan(c, info, limit), fp)
  {
    hide ChanOk, ChanHeld, AllHeld, NewChan, FindVacant;
    var k := FindVacant(c.slots, 0);
    if k != -1 {
      NewChanOk(info, limit, fp);
      assert NewChan(info, limit).info == info by { NewChanInfo(info, limit); }
      AllHeldUpdate(c.slots, k, Used(NewChan(info, limit)));
      var slots := c.slots[k := Used(NewChan(info, limit))];
      assert AllHeld(slots) + multiset{} == AllHeld(slots) && AllHeld(c.slots) + multiset{} == AllHeld(c.slots);
    }
  }

  lemma NewChanInfo(info: Info, limit: u32)
    ensures NewChan(info, limit).info == info
  {
  }

  // ----- closing -----

  // Give back the buffers of the first n slots, in order.
  function PutAll<T>(p: Pool, cells: seq<Cell<T>>, n: nat): Pool
    requires n <= |cells|
  {
    if n == 0 then p else Put(PutAll(p, cells, n - 1), cells[n - 1].buf)
  }

  lemma {:induction false} PutAllReturns<T>(p: Pool, cells: seq<Cell<T>>, n: nat)
    requires n <= |cells|
    ensures FreeBag(PutAll(p, cells, n)) == FreeBag(p) + Bufs(cells[..n])
  {
    if n > 0 {
      PutAllReturns(p, cells, n - 1);
      assert cells[..n][..n - 1] == cells[..n - 1];
    } else {
      assert cells[..0] == [];
    }
  }

  lemma {:induction false} PutAllStore<T>(p: Pool, cells: seq<Cell<T>>, n: nat)
    requires n <= |cells|
    ensures PutAll(p, cells, n).store == p.store && PutAll(p, cells, n).spilled == p.spilled
  {
    if n > 0 {
      PutAllStore(p, cells, n - 1);
    }
  }

  function FreeChan(p: Pool, ch: Chan): Pool {
    var p1 := PutAll(p, ch.out.cells, |ch.out.cells|);
    var p2 := PutAll(p1, ch.rx.queue.cells, |ch.rx.queue.cells|);
    var p3 := PutAll(p2, ch.rx.pend.reorder, |ch.rx.pend.reorder|);
    PutAll(p3, ch.rx.pend.frags, |ch.rx.pend.frags|)
  }

  lemma WholeCells<T>(cells: seq<Cell<T>>)
    ensures cells[..|cells|] == cells
  {
  }

  // A channel given up returns exactly what it held.
  lemma FreeChanReturns(p: Pool, ch: Chan)
    ensures FreeBag(FreeChan(p, ch)) == FreeBag(p) + ChanHeld(ch)
    ensures FreeChan(p, ch).store == p.store && FreeChan(p, ch).spilled == p.spilled
  {
    hide Bufs, PutAll, FreeBag;
    var p1 := PutAll(p, ch.out.cells, |ch.out.cells|);
    var p2 := PutAll(p1, ch.rx.queue.cells, |ch.rx.queue.cells|);
    var p3 := PutAll(p2, ch.rx.pend.reorder, |ch.rx.pend.reorder|);
    PutAllReturns(p, ch.out.cells, |ch.out.cells|);
    PutAllReturns(p1, ch.rx.queue.cells, |ch.rx.queue.cells|);
    PutAllReturns(p2, ch.rx.pend.reorder, |ch.rx.pend.reorder|);
    PutAllReturns(p3, ch.rx.pend.frags, |ch.rx.pend.frags|);
    PutAllStore(p, ch.out.cells, |ch.out.cells|);
    PutAllStore(p1, ch.rx.queue.cells, |ch.rx.queue.cells|);
    PutAllStore(p2, ch.rx.pend.reorder, |ch.rx.pend.reorder|);
    PutAllStore(p3, ch.rx.pend.frags, |ch.rx.pend.frags|);
    WholeCells(ch.out.cells);
    WholeCells(ch.rx.queue.cells);
    WholeCells(ch.rx.pend.reorder);
    WholeCells(ch.rx.pend.frags);
  }

  function DropChan(c: Conn, id: nat): Conn
    requires id < |c.ids| && -1 <= c.ids[id] < |c.slots|
  {
    if c.ids[id] == -1 || c.slots[c.ids[id]].Vacant? then c
    else
      c.(pool := FreeChan(c.pool, c.slots[c.ids[id]].ch), slots := c.slots[c.ids[id] := Vacant], ids := c.ids[id := -1])
  }

  lemma DropChanKeeps(c: Conn, fp: nat, id: nat)
    requires fp > 0 && ConnOk(c, fp) && id < MAX_IDS
    ensures ConnOk(DropChan(c, id), fp) && DropChan(c, id).ids == c.ids[id := -1]
  {
    hide ChanOk, ChanHeld, AllHeld, FreeChan, FreeBag;
    if c.ids[id] != -1 {
      var k := c.ids[id];
      FreeChanReturns(c.pool, c.slots[k].ch);
      OneAndRest(c.slots, k);
      assert FreeBag(c.pool) + AllHeld(c.slots) == FreeBag(DropChan(c, id).pool) + AllHeld(c.slots[k := Vacant]);
    }
  }

  // Close every channel from id i on.
  function CloseFrom(c: Conn, i: nat, fp: nat): Conn
    requires fp > 0 && ConnOk(c, fp)
    decreases MAX_IDS - i
  {
    if i >= MAX_IDS then c
    else
      DropChanKeeps(c, fp, i);
      CloseFrom(DropChan(c, i), i + 1, fp)
  }

  lemma {:induction false} AllVacant(slots: seq<Slot>)
    requires forall k :: 0 <= k < |slots| ==> slots[k].Vacant?
    ensures AllHeld(slots) == multiset{}
  {
    if slots != [] {
      AllVacant(slots[..|slots| - 1]);
    }
  }

  lemma {:induction false} CloseFromClears(c: Conn, i: nat, fp: nat)
    requires fp > 0 && ConnOk(c, fp) && i <= MAX_IDS
    requires forall j :: 0 <= j < i ==> c.ids[j] == -1
    ensures var c' := CloseFrom(c, i, fp);
            ConnOk(c', fp) && forall j :: 0 <= j < MAX_IDS ==> c'.ids[j] == -1
    decreases MAX_IDS - i
  {
    hide ConnOk, DropChan;
    if i < MAX_IDS {
      ConnTables(c, fp);
      DropChanKeeps(c, fp, i);
      CloseFromClears(DropChan(c, i), i + 1, fp);
    }
  }

  lemma ConnTables(c: Conn, fp: nat)
    requires fp > 0 && ConnOk(c, fp)
    ensures TablesOk(c)
  {
  }

  // Closing the connection returns all sixty-four buffers, each once.
  lemma CloseReturnsAll(c: Conn, fp: nat)
    requires fp > 0 && ConnOk(c, fp)
    ensures Whole(FreeBag(CloseFrom(c, 0, fp).pool))
  {
    hide ChansOk, CloseFrom, AllHeld, FreeBag, Whole;
    CloseFromClears(c, 0, fp);
    var c' := CloseFrom(c, 0, fp);
    AllVacant(c'.slots);
    assert FreeBag(c'.pool) + multiset{} == FreeBag(c'.pool);
  }
}
