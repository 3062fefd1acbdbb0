// When a sender gives a message up: the number a receiver puts on the wire is the one it owes,
// and an owed number, but for 0 owed before anything is consumed, releases consumed messages
// only.
module NetchanRelease {
  import opened Bytes
  import opened Wrappers
  import opened NetchanPool
  import opened NetchanFrag
  import opened NetchanRecv
  import opened NetchanRead
  import opened NetchanData
  import opened NetchanDeliver
  import NetchanOverrun
  import opened NetchanSend
  import opened NetchanConn
  import opened NetchanFeed
  import opened NetchanOutput
  import opened NetchanWire
  import opened NetchanAck
  import opened NetchanHonest
  import opened NetchanSession
  import A = NetchanApi

  // ----- what is owed stays what is owed -----

  // A channel about to acknowledge does so for what it has consumed so far.
  predicate OwesRight(ch: Chan) {
    ch.notes.ack ==> Acks(ch.info) && ch.notes.acked == Owed(ch.rx.seqno)
  }

  ghost predicate AllOweRight(slots: seq<Slot>) {
    forall k :: 0 <= k < |slots| && slots[k].Used? ==> OwesRight(slots[k].ch)
  }

  lemma DataOwes(p: Pool, ch: Chan, fp: nat, f: Frame)
    requires Fine(p, ch.rx) && OwesRight(ch)
    ensures OwesRight(ChanData(p, ch, fp, f).1)
  {
    hide FeedData, Fine;
  }

  lemma ReadOwes(p: Pool, ch: Chan, room: nat)
    requires PoolOk(p) && QueueOk(ch.rx.queue) && OwesRight(ch)
    ensures OwesRight(ChanRead(p, ch, room).1)
  {
    hide Dequeue, PoolOk, QueueOk;
  }

  // A message read makes a window update due; nothing read makes nothing due.
  lemma ReadOwesWindow(p: Pool, ch: Chan, room: nat)
    requires PoolOk(p) && QueueOk(ch.rx.queue)
    ensures var ch' := ChanRead(p, ch, room).1;
            && ch'.notes == ch.notes.(update := ch'.notes.update)
            && (ch'.notes.update <==> ch.notes.update || (!ch.info.sends && Queued(p, ch.rx.queue) != []))
  {
    hide Dequeue, PoolOk;
  }

  lemma FrameOwes(c: Conn, d: bytes, fp: nat, limit: u32, newId: u32)
    requires fp >= 64 && ConnOk(c, fp) && d != [] && AllOweRight(c.slots)
    ensures var r := FrameStep(c, d, fp, limit, newId); r.Took? ==> AllOweRight(r.c.slots)
  {
    hide ConnOk, OwesRight, ChanData, ChanAck, ChanWindow, Rd16, Rd32, NewChan, Fine;
    ConnTables(c, fp);
    var r := FrameStep(c, d, fp, limit, newId);
    if r.Took? && d[0] > F_PONG {
      var k := c.ids[d[1]];
      if k != -1 {
        var ch := c.slots[k].ch;
        assert OwesRight(ch);
        if d[0] == F_DATA {
          ChanHolds(c, fp, k);
          IsFine(c, fp, k, DataFrame(d));
          DataOwes(c.pool, ch, fp, DataFrame(d));
        } else if d[0] == F_ACK {
          RingsOk(c, fp, k);
          AckOwes(c.pool, ch, fp, Rd16(d, 2));
        } else if d[0] == F_WINDOW {
          WindowOwes(ch, Rd32(d, 2));
        } else if d[0] == F_CLOSE {
          StatusOwes(ch, Dead);
        }
      } else if d[0] == F_OPEN {
        NewOwes(Info(d[1], KindOf(d[2]), d[3] != 0, Open, 0), limit);
      }
    }
  }

  lemma IsFine(c: Conn, fp: nat, k: nat, f: Frame)
    requires fp >= 64 && ConnOk(c, fp) && k < MAX_CHAN && c.slots[k].Used?
    ensures Fine(c.pool, c.slots[k].ch.rx)
  {
    hide ChanHeld, AllHeld, Whole, Single, ChanData, Fine, ChanOverfills, NetchanOverrun.Snug;
    ChanHolds(c, fp, k);
    ChanDataKept(c.pool, c.slots[k].ch, fp, f);
  }

  lemma AckOwes(p: Pool, ch: Chan, fp: nat, acked: u16)
    requires fp > 0 && OutOk(ch.out, fp) && OwesRight(ch)
    ensures OwesRight(ChanAck(p, ch, fp, acked).1)
  {
    hide Ack, OutOk;
  }

  lemma WindowOwes(ch: Chan, window: u32)
    requires OwesRight(ch)
    ensures OwesRight(ChanWindow(ch, window))
  {
  }

  lemma StatusOwes(ch: Chan, s: Status)
    requires OwesRight(ch)
    ensures OwesRight(WithStatus(ch, s))
  {
  }

  lemma NewOwes(info: Info, limit: u32)
    ensures OwesRight(NewChan(info, limit))
  {
    hide NewRx, NewOut;
  }

  lemma {:induction false} FramesOwe(c: Conn, d: bytes, fp: nat, limit: u32, newId: u32)
    requires fp >= 64 && ConnOk(c, fp) && AllOweRight(c.slots)
    ensures AllOweRight(Frames(c, d, fp, limit, newId).0.slots)
    decreases |d|
  {
    hide ConnOk, FrameStep, AllOweRight;
    if d != [] {
      FrameKeeps(c, d, fp, limit, newId);
      FrameOwes(c, d, fp, limit, newId);
      match FrameStep(c, d, fp, limit, newId)
      case Bad =>
      case Took(n, c1) => if !c1.pool.spilled { FramesOwe(c1, d[n..], fp, limit, newId); }
    }
  }

  lemma FeedOwes(c: Conn, pkt: bytes, fp: nat, limit: u32, newId: u32)
    requires fp >= 64 && ConnOk(c, fp) && AllOweRight(c.slots)
    ensures AllOweRight(Feed(c, pkt, fp, limit, newId).0.slots)
  {
    hide ConnOk, Frames, Rd32, AllOweRight;
    if |pkt| >= HDR_INIT {
      FramesOwe(c, pkt[HDR_INIT..], fp, limit, newId);
      if |pkt| >= HDR_FULL { FramesOwe(c, pkt[HDR_FULL..], fp, limit, newId); }
    }
  }

  lemma SendOwes(c: Conn, room: nat, mtu: nat, fp: nat, now: u32)
    requires fp >= 64 && ConnOk(c, fp) && mtu >= HDR_FULL && AllOweRight(c.slots)
    ensures AllOweRight(SendNext(c, room, mtu, fp, now).0.slots)
  {
    hide ConnOk, SendNext, HasData, Said, Wire, AllOweRight;
    if HasData(c, fp) && room >= |Header(c)| {
      var n, c2 := PacketSays(c, room, mtu, fp, now);
      GivenOwes(c.slots, Packeted(c, n), c2, SendNext(c, room, mtu, fp, now).0);
    } else {
      Silent(c, room, mtu, fp, now);
    }
  }

  lemma Silent(c: Conn, room: nat, mtu: nat, fp: nat, now: u32)
    requires fp >= 64 && ConnOk(c, fp) && mtu >= HDR_FULL && (!HasData(c, fp) || room < |Header(c)|)
    ensures SendNext(c, room, mtu, fp, now) == (c, [])
  {
    hide NotesFrom, DataFrom, HasData;
  }

  lemma GivenOwes(slots: seq<Slot>, c1: Conn, c2: Conn, c3: Conn)
    requires AllOweRight(slots) && c1.slots == slots && OnlyNotes(c1, c2) && OnlyRings(c2, c3)
    ensures AllOweRight(c3.slots)
  {
  }

  lemma {:induction false} ServiceOwes(c: Conn, i: nat, fp: nat, rt: u32, now: u32)
    requires fp >= 64 && ConnOk(c, fp) && AllOweRight(c.slots)
    ensures AllOweRight(A.ServiceFrom(c, i, fp, rt, now).slots)
    decreases MAX_IDS - i
  {
    hide ConnOk, ChanService, OwesRight;
    ConnTables(c, fp);
    if i < MAX_IDS {
      var k := c.ids[i];
      if k == -1 {
        ServiceOwes(c, i + 1, fp, rt, now);
      } else {
        A.ServiceKeeps(c, fp, k, rt, now);
        ServedOwes(c.slots[k].ch, rt, now);
        ServiceOwes(SetChan(c, k, ChanService(c.slots[k].ch, rt, now)), i + 1, fp, rt, now);
      }
    }
  }

  lemma ServedOwes(ch: Chan, rt: u32, now: u32)
    requires OwesRight(ch)
    ensures OwesRight(ChanService(ch, rt, now))
  {
    hide Retransmit;
  }

  lemma CallOwes(c: Conn, cfg: A.Config, call: A.Call)
    requires A.ConfigOk(cfg) && ConnOk(c, A.Share(cfg)) && AllOweRight(c.slots)
    ensures AllOweRight(A.Do(c, cfg, call).slots)
  {
    hide ConnOk, Feed, SendNext, A.ServiceFrom, OwesRight, ChanWrite, ChanRead, NewChan;
    var fp := A.Share(cfg);
    ConnTables(c, fp);
    match call
    case CallOpen(code, dir, ct) =>
      NewOwes(Info(c.peer.nextId, KindOf(code), dir == 0, if dir == 0 then Opening else Open, 0), cfg.limit);
    case CallClose(id) => if c.ids[id] != -1 { StatusOwes(c.slots[c.ids[id]].ch, Closing); }
    case CallWrite(id, data) =>
      if c.ids[id] != -1 { RingsOk(c, fp, c.ids[id]); WriteOwes(c.pool, c.slots[c.ids[id]].ch, fp, data); }
    case CallRead(id, room) =>
      if c.ids[id] != -1 { QueuesOk(c, fp, c.ids[id]); ReadOwes(c.pool, c.slots[c.ids[id]].ch, room); }
    case CallFeed(pkt, newId) => FeedOwes(c, pkt, fp, cfg.limit, newId);
    case CallSend(room, now) => SendOwes(c, room, cfg.mtu, fp, now);
    case CallService(now) => ServiceOwes(c, 0, fp, cfg.rt, now);
    case _ =>
  }

  lemma QueuesOk(c: Conn, fp: nat, k: nat)
    requires fp >= 64 && ConnOk(c, fp) && k < MAX_CHAN && c.slots[k].Used?
    ensures PoolOk(c.pool) && QueueOk(c.slots[k].ch.rx.queue)
  {
  }

  lemma WriteOwes(p: Pool, ch: Chan, fp: nat, data: bytes)
    requires fp > 0 && ch.out.tail < |ch.out.cells| && OwesRight(ch)
    ensures OwesRight(ChanWrite(p, ch, fp, data).1)
  {
    hide Write1;
  }

  lemma {:induction false} CallsOwe(c: Conn, cfg: A.Config, calls: seq<A.Call>)
    requires A.ConfigOk(cfg) && ConnOk(c, A.Share(cfg)) && AllOweRight(c.slots)
    ensures AllOweRight(A.DoAll(c, cfg, calls).slots)
    decreases |calls|
  {
    hide ConnOk, A.Do, AllOweRight;
    if calls != [] {
      A.DoKeeps(c, cfg, calls[0]);
      CallOwes(c, cfg, calls[0]);
      if !A.Do(c, cfg, calls[0]).pool.spilled { CallsOwe(A.Do(c, cfg, calls[0]), cfg, calls[1..]); }
    }
  }

  // Every acknowledgement among what is said is one owed, under the id of the channel that
  // owes it, by a channel that receives.
  lemma {:induction false} SaidIsOwed(c: Conn, c': Conn, i: nat, x: Item)
    requires TablesOk(c) && |c'.slots| == |c.slots| && AllOweRight(c.slots) && x in NotesSaid(c, c', i) && x.AckItem?
    ensures c.ids[x.id] != -1
    ensures var ch := c.slots[c.ids[x.id]].ch; ch.info.id == x.id && Acks(ch.info) && x.acked == Owed(ch.rx.seqno)
    decreases MAX_IDS - i
  {
    if i < MAX_IDS {
      var k := c.ids[i];
      if k != -1 && c'.slots[k].Used? && x in NoteItems(i, c.slots[k].ch, c'.slots[k].ch) {
        assert OwesRight(c.slots[k].ch);
      } else {
        SaidIsOwed(c, c', i + 1, x);
      }
    }
  }

  // Main result: after any calls and packets, what a packet acknowledges is what is owed.
  lemma PacketsOwe(server: bool, cfg: A.Config, calls: seq<A.Call>, n: nat, c2: Conn, c3: Conn, pkt: bytes, x: Item)
    requires A.ConfigOk(cfg) && ConnOk(A.Start(server), A.Share(cfg)) && !A.DoAll(A.Start(server), cfg, calls).pool.spilled
    requires var c := A.DoAll(A.Start(server), cfg, calls);
             Says(c, n, c2, c3, pkt, A.Share(cfg)) && TablesOk(c) && x in Said(c, c2, c3, A.Share(cfg)) && x.AckItem?
    ensures var c := A.DoAll(A.Start(server), cfg, calls);
            && |c.ids| == MAX_IDS && 0 <= c.ids[x.id] < |c.slots| && c.slots[c.ids[x.id]].Used?
            && var ch := c.slots[c.ids[x.id]].ch; Acks(ch.info) && x.acked == Owed(ch.rx.seqno)
  {
    hide A.Start, A.DoAll, Wire, NotesSaid, DataSaid;
    StartOwes(server);
    CallsOwe(A.Start(server), cfg, calls);
    var c := A.DoAll(A.Start(server), cfg, calls);
    NotData(c2.pool.store, c2, c3, 0, A.Share(cfg), x);
    SaidIsOwed(c, c2, 0, x);
  }

  lemma StartOwes(server: bool)
    ensures AllOweRight(A.Start(server).slots)
  {
    hide A.Upto, A.BlankStore;
    RepeatAll(MAX_CHAN, Vacant);
  }

  lemma {:induction false} NotData(store: seq<bytes>, c: Conn, c': Conn, i: nat, fp: nat, x: Item)
    requires TablesOk(c) && |c'.slots| == |c.slots| && !x.DataItem?
    ensures x !in DataSaid(store, c, c', i, fp)
    decreases MAX_IDS - i
  {
    if i < MAX_IDS {
      NotData(store, c, c', i + 1, fp, x);
    }
  }

  // ----- no message is given up that was not consumed -----

  // Every message the receiver has not consumed is still in the sender's ring.
  ghost predicate Unconsumed(o: Out, next: u16, w: seq<bytes>) {
    forall n :: next <= n < |w| ==> InRing(o.cells, n)
  }

  ghost predicate InRing(cells: seq<OutCell>, n: int) {
    exists i :: 0 <= i < |cells| && cells[i].meta.active && cells[i].meta.seqno == n
  }

  // The number acknowledged is one that was owed at an earlier point of the run, when
  // something had been consumed.
  ghost predicate WasOwed(run: seq<NetchanSession.Sys>, i: nat, acked: u16) {
    exists j :: 0 <= j <= i < |run| && run[j].rcv.rx.seqno > 0 && acked == Owed(run[j].rcv.rx.seqno)
  }

  lemma AckKeepsUnconsumed(p: Pool, o: Out, acked: u16, fp: nat, next: u16, w: seq<bytes>)
    requires fp >= 64 && OutOk(o, fp) && Holds(p, Bufs(o.cells)) && |w| < 0x8000
    requires Unconsumed(o, next, w) && acked < next
    ensures Unconsumed(Ack(p, o, acked, fp).1, next, w)
  {
    hide Ack, Bufs, FragTotal;
    assert Bufs(o.cells) + multiset{} == Bufs(o.cells);
    AckKept(p, o, acked, fp, multiset{});
    var o' := Ack(p, o, acked, fp).1;
    forall n | next <= n < |w| ensures InRing(o'.cells, n) {
      assert InRing(o.cells, n);
      var i :| 0 <= i < |o.cells| && o.cells[i].meta.active && o.cells[i].meta.seqno == n;
      assert !Covered(n, acked);
      assert o'.cells[i] == o.cells[i];
    }
  }

  lemma WriteKeepsUnconsumed(p: Pool, o: Out, g: Gate, fp: nat, data: bytes, next: u16, w: seq<bytes>)
    requires fp >= 64 && SenderTrue(p, o, w, fp) && |w| + 1 < 0x8000 && Unconsumed(o, next, w)
    ensures var (p', o', out) := Write1(p, o, g, fp, data);
            Unconsumed(o', next, if NetchanSend.Took(out) then w + [data] else w)
  {
    hide Write1, Bufs, FragTotal, LoadTrue, Accounted;
    WriteShape(p, o, g, fp, data);
    var (p', o', out) := Write1(p, o, g, fp, data);
    if NetchanSend.Took(out) {
      TailIdle(o, fp);
      forall n | next <= n < |w| + 1 ensures InRing(o'.cells, n) {
        if n < |w| {
          assert InRing(o.cells, n);
          var i :| 0 <= i < |o.cells| && o.cells[i].meta.active && o.cells[i].meta.seqno == n;
          assert o'.cells[i] == o.cells[i];
        } else {
          assert o'.cells[o.tail].meta.active && o'.cells[o.tail].meta.seqno == n;
        }
      }
    }
  }

  lemma EmitKeepsUnconsumed(p: Pool, o: Out, fp: nat, k: nat, now: u32, next: u16, w: seq<bytes>)
    requires |o.cells| == OUTGOING_SLOTS && o.head < OUTGOING_SLOTS && o.tail < OUTGOING_SLOTS && k < OUTGOING_SLOTS
    requires Unconsumed(o, next, w)
    ensures Unconsumed(Emit(p, o, true, fp, k, now).1, next, w)
  {
    hide Piece;
    var o' := Emit(p, o, true, fp, k, now).1;
    forall n | next <= n < |w| ensures InRing(o'.cells, n) {
      assert InRing(o.cells, n);
      var i :| 0 <= i < |o.cells| && o.cells[i].meta.active && o.cells[i].meta.seqno == n;
      assert o'.cells[i].meta.active && o'.cells[i].meta.seqno == n;
    }
  }

  lemma ServiceKeepsUnconsumed(o: Out, rt: u32, now: u32, next: u16, w: seq<bytes>)
    requires Unconsumed(o, next, w)
    ensures Unconsumed(o.(cells := Retransmit(o.cells, rt, now, 0).0), next, w)
  {
    hide Retransmit;
    RetransmitSame(o.cells, rt, now, 0);
    var cells := Retransmit(o.cells, rt, now, 0).0;
    forall n | next <= n < |w| ensures InRing(cells, n) {
      assert InRing(o.cells, n);
      var i :| 0 <= i < |o.cells| && o.cells[i].meta.active && o.cells[i].meta.seqno == n;
      assert SameSlot(o.cells[i], cells[i]);
    }
  }

  // What has been consumed stays so.
  lemma FeedAdvances(p: Pool, r: Rx, w: seq<bytes>, log: seq<bytes>, fp: nat, f: Frame)
    requires fp >= 64 && True(p, r, w, log, fp) && HonestFrame(f, w, fp) && |w| < 0x8000
    ensures var (p', r') := FeedData(p, r, true, fp, f.seqno, f.idx, f.total, f.data);
            True(p', r', w, log, fp) && r.seqno <= r'.seqno <= |w|
  {
    hide FeedData, HonestFrame, HandsUp, Queued, Run, Bufs, Single;
    HonestFrameKeepsTrue(p, r, w, log, fp, f);
    FrameQueues(p, r, fp, f);
  }

  lemma StepKeepsUnconsumed(s: NetchanSession.Sys, l: Label, s': NetchanSession.Sys, fp: nat)
    requires fp >= 64 && Inv(s, fp) && Next(s, l, s', fp) && Unconsumed(s.snd.out, s.rcv.rx.seqno, s.w)
    requires l.DoAck? ==> l.acked < s.rcv.rx.seqno
    ensures Unconsumed(s'.snd.out, s'.rcv.rx.seqno, s'.w) && s.rcv.rx.seqno <= s'.rcv.rx.seqno
  {
    hide Write1, Ack, Retransmit, FeedData, Emit, HonestFrame, LoadTrue, Dequeue, Queued, True, InRing, Bufs, Single;
    match l
    case DoWrite(gate, data) => WriteKeepsUnconsumed(s.snd.pool, s.snd.out, gate, fp, data, s.rcv.rx.seqno, s.w);
    case DoEmit(now) =>
      var k := NextSendable(s.snd.out.cells, s.snd.out.head, s.snd.out.tail);
      if k != -1 { EmitKeepsUnconsumed(s.snd.pool, s.snd.out, fp, k, now, s.rcv.rx.seqno, s.w); }
    case DoAck(acked) =>
      AckKeepsUnconsumed(s.snd.pool, s.snd.out, acked, fp, s.rcv.rx.seqno, s.w);
    case DoService(rt, now) => ServiceKeepsUnconsumed(s.snd.out, rt, now, s.rcv.rx.seqno, s.w);
    case DoFeed(f) => FeedAdvances(s.rcv.pool, s.rcv.rx, s.w, s.log, fp, f);
    case DoRead(room) =>
    case SenderPool(p) =>
    case ReceiverPool(p) =>
  }

  // Main result: if every acknowledgement that reaches the sender was owed by the receiver at
  // some time before, with something consumed, then in every state of the run every message
  // not yet consumed is still in the sender's ring, to be sent again.
  lemma {:induction false} RunsKeepUnconsumed(run: seq<NetchanSession.Sys>, steps: seq<Label>, fp: nat, i: nat)
    requires fp >= 64 && IsRun(run, steps, fp) && i < |run|
    requires forall k :: 0 <= k < i && steps[k].DoAck? ==> WasOwed(run, k, steps[k].acked)
    ensures Unconsumed(run[i].snd.out, run[i].rcv.rx.seqno, run[i].w)
    ensures forall j :: 0 <= j <= i ==> run[j].rcv.rx.seqno <= run[i].rcv.rx.seqno
  {
    hide Unconsumed, Inv, Next;
    if i == 0 {
      assert Unconsumed(run[0].snd.out, run[0].rcv.rx.seqno, run[0].w) by { NoneWritten(run[0], fp); }
    } else {
      RunsKeepUnconsumed(run, steps, fp, i - 1);
      RunKeepsInv(run, steps, fp, i - 1);
      StepKeepsUnconsumed(run[i - 1], steps[i - 1], run[i], fp);
    }
  }

  lemma NoneWritten(s: NetchanSession.Sys, fp: nat)
    requires fp >= 64 && NetchanSession.Init(s, fp)
    ensures Unconsumed(s.snd.out, s.rcv.rx.seqno, s.w)
  {
  }
}
