// Two ends of a reliable netchan channel over a network that loses, repeats and reorders.
// Each end sits in a connection whose other channels use the same pool as they please.
module NetchanSession {
  import opened Bytes
  import opened NetchanPool
  import opened NetchanFrag
  import opened NetchanRecv
  import opened NetchanRead
  import opened NetchanData
  import opened NetchanSend
  import opened NetchanHonest

  // The sending end, the receiving end, every frame ever sent, what was written, what was
  // taken off the receiving queue, and the bytes the reader was handed for each.
  datatype Sender = Sender(pool: Pool, out: Out)
  datatype Receiver = Receiver(pool: Pool, rx: Rx)
  datatype Sys = Sys(snd: Sender, rcv: Receiver, net: set<Frame>, w: seq<bytes>, log: seq<bytes>, handed: seq<bytes>)

  datatype Label =
    | DoWrite(gate: Gate, data: bytes)
    | DoEmit(now: u32)
    | DoAck(acked: u16)
    | DoService(rt: u32, now: u32)
    | DoFeed(f: Frame)
    | DoRead(room: nat)
    | SenderPool(p: Pool)
    | ReceiverPool(p: Pool)

  // What other channels do to the pool: anything that leaves this channel's buffers alone.
  ghost predicate Elsewhere(p: Pool, p': Pool, held: multiset<int>) {
    Holds(p', held) && Spared(p, p', held)
  }

  // Acknowledgements may be any number at any time; frames may be fed again, late or never.
  ghost predicate Next(s: Sys, l: Label, s': Sys, fp: nat)
    requires fp >= 64
  {
    match l
    case DoWrite(gate, data) =>
      && |s.snd.out.cells| == OUTGOING_SLOTS && s.snd.out.tail < OUTGOING_SLOTS
      && gate.reliable && |s.w| + 1 < 0x8000
      && s' == AfterWrite(s, gate, data, fp)
    case DoEmit(now) =>
      && OutOk(s.snd.out, fp)
      && s' == AfterEmit(s, now, fp)
    case DoAck(acked) =>
      && OutOk(s.snd.out, fp)
      && s' == s.(snd := SenderOf(Ack(s.snd.pool, s.snd.out, acked, fp)))
    case DoService(rt, now) =>
      s' == s.(snd := s.snd.(out := s.snd.out.(cells := Retransmit(s.snd.out.cells, rt, now, 0).0)))
    case DoFeed(f) =>
      && f in s.net && Fine(s.rcv.pool, s.rcv.rx)
      && s' == s.(rcv := ReceiverOf(FeedData(s.rcv.pool, s.rcv.rx, true, fp, f.seqno, f.idx, f.total, f.data)))
    case DoRead(room) =>
      && PoolOk(s.rcv.pool) && QueueOk(s.rcv.rx.queue)
      && s' == AfterRead(s, room)
    case SenderPool(p) =>
      Elsewhere(s.snd.pool, p, Bufs(s.snd.out.cells)) && s' == s.(snd := s.snd.(pool := p))
    case ReceiverPool(p) =>
      Elsewhere(s.rcv.pool, p, Held(s.rcv.rx)) && s' == s.(rcv := s.rcv.(pool := p))
  }

  function SenderOf(x: (Pool, Out)): Sender {
    Sender(x.0, x.1)
  }

  function ReceiverOf(x: (Pool, Rx)): Receiver {
    Receiver(x.0, x.1)
  }

  function AfterWrite(s: Sys, gate: Gate, data: bytes, fp: nat): Sys
    requires fp > 0 && s.snd.out.tail < |s.snd.out.cells|
  {
    var (p, o, out) := Write1(s.snd.pool, s.snd.out, gate, fp, data);
    s.(snd := Sender(p, o), w := if Took(out) then s.w + [data] else s.w)
  }

  function AfterEmit(s: Sys, now: u32, fp: nat): Sys
    requires |s.snd.out.cells| == OUTGOING_SLOTS
    requires s.snd.out.head < OUTGOING_SLOTS && s.snd.out.tail < OUTGOING_SLOTS
  {
    var k := NextSendable(s.snd.out.cells, s.snd.out.head, s.snd.out.tail);
    if k == -1 then s
    else
      var (p, o, f) := Emit(s.snd.pool, s.snd.out, true, fp, k, now);
      s.(snd := Sender(p, o), net := s.net + {f})
  }

  ghost function AfterRead(s: Sys, room: nat): Sys
    requires PoolOk(s.rcv.pool) && QueueOk(s.rcv.rx.queue)
  {
    var q := s.rcv.rx.queue;
    var (p, q', data) := Dequeue(s.rcv.pool, q, room);
    if q.head == q.tail || Queued(s.rcv.pool, q) == [] then s
    else
      s.(rcv := Receiver(p, s.rcv.rx.(queue := q')),
         log := s.log + [Queued(s.rcv.pool, q)[0]], handed := s.handed + [data])
  }

  // ----- the invariant -----

  // Every message still in the ring is the one written under its number.
  ghost predicate LoadTrue(p: Pool, cells: seq<OutCell>, w: seq<bytes>) {
    forall i :: 0 <= i < |cells| && cells[i].meta.active ==> CarriesTrue(p, cells[i], w)
  }

  ghost predicate CarriesTrue(p: Pool, c: OutCell, w: seq<bytes>) {
    && c.meta.seqno < |w| && |w[c.meta.seqno]| == c.len && View(p, c) == w[c.meta.seqno]
    && 0 <= c.buf < |p.store| && c.len <= |p.store[c.buf]|
  }

  ghost predicate SenderTrue(p: Pool, o: Out, w: seq<bytes>, fp: nat)
    requires fp >= 64
  {
    && Sendable(w) && o.seqno == |w| && OutOk(o, fp) && Holds(p, Bufs(o.cells))
    && LoadTrue(p, o.cells, w) && Accounted(o)
  }

  ghost predicate HonestNet(net: set<Frame>, w: seq<bytes>, fp: nat)
    requires fp >= 64
  {
    forall f :: f in net ==> HonestFrame(f, w, fp)
  }

  // The reader was handed each message it took, or the front part it had room for.
  ghost predicate HandedMatch(handed: seq<bytes>, log: seq<bytes>) {
    |handed| == |log| && forall i :: 0 <= i < |log| ==> handed[i] <= log[i]
  }

  ghost predicate Inv(s: Sys, fp: nat)
    requires fp >= 64
  {
    && SenderTrue(s.snd.pool, s.snd.out, s.w, fp)
    && True(s.rcv.pool, s.rcv.rx, s.w, s.log, fp)
    && HonestNet(s.net, s.w, fp)
    && HandedMatch(s.handed, s.log)
  }

  // ----- sender steps -----

  lemma LoadSpared(p: Pool, p': Pool, cells: seq<OutCell>, w: seq<bytes>)
    requires CellsOk(cells) && Spared(p, p', Bufs(cells)) && LoadTrue(p, cells, w)
    ensures LoadTrue(p', cells, w)
  {
    hide Bufs;
    forall i | 0 <= i < |cells| && cells[i].meta.active ensures CarriesTrue(p', cells[i], w) {
      assert CarriesTrue(p, cells[i], w);
      BufsMember(cells, i);
    }
  }

  lemma CarriesMore(p: Pool, c: OutCell, w: seq<bytes>, x: bytes)
    requires CarriesTrue(p, c, w)
    ensures CarriesTrue(p, c, w + [x])
  {
  }

  lemma WriteTrue(p: Pool, o: Out, w: seq<bytes>, fp: nat, g: Gate, data: bytes)
    requires fp >= 64 && SenderTrue(p, o, w, fp) && g.reliable && |w| + 1 < 0x8000
    ensures var (p', o', out) := Write1(p, o, g, fp, data);
            SenderTrue(p', o', if Took(out) then w + [data] else w, fp)
  {
    hide Write1, Bufs, ActiveLen, SlotOk, FragTotal, View, Spared, Single, CarriesTrue;
    assert Bufs(o.cells) + multiset{} == Bufs(o.cells);
    WriteShape(p, o, g, fp, data);
    WriteKept(p, o, g, fp, data, multiset{});
    WriteAccounted(p, o, g, fp, data, multiset{});
    var (p', o', out) := Write1(p, o, g, fp, data);
    assert Bufs(o'.cells) + multiset{} == Bufs(o'.cells);
    KeptHolds(p, Bufs(o.cells), p', Bufs(o'.cells));
    if Took(out) {
      SlotsSized(o, fp);
      LoadSpared(p, p', o.cells, w);
      AppendTrue(p', o, w, o'.cells[o.tail], data) by {
        FilledInPool(p', o', fp, o.tail);
      }
    }
  }

  lemma FilledInPool(p: Pool, o: Out, fp: nat, i: nat)
    requires fp > 0 && OutOk(o, fp) && Holds(p, Bufs(o.cells)) && i < OUTGOING_SLOTS && o.cells[i].meta.active
    ensures 0 <= o.cells[i].buf < |p.store| && o.cells[i].len <= |p.store[o.cells[i].buf]|
  {
    hide Bufs, FragTotal;
    assert SlotOk(o, i, fp);
    BufsMember(o.cells, i);
    assert (FreeBag(p) + Bufs(o.cells))[o.cells[i].buf] >= 1;
  }

  lemma AppendTrue(p: Pool, o: Out, w: seq<bytes>, c: OutCell, data: bytes)
    requires o.tail < |o.cells| && LoadTrue(p, o.cells, w) && o.seqno == |w|
    requires c.meta.seqno == o.seqno && c.len == |data| && View(p, c) == data
    requires 0 <= c.buf < |p.store| && c.len <= |p.store[c.buf]|
    ensures LoadTrue(p, o.cells[o.tail := c], w + [data])
  {
    var cells := o.cells[o.tail := c];
    forall i | 0 <= i < |cells| && cells[i].meta.active ensures CarriesTrue(p, cells[i], w + [data]) {
      if i != o.tail { CarriesMore(p, cells[i], w, data); }
    }
  }

  // Whatever else is written later, what an honest sender sent stays honest.
  lemma HonestMore(f: Frame, w: seq<bytes>, fp: nat, x: bytes)
    requires fp >= 64 && HonestFrame(f, w, fp)
    ensures HonestFrame(f, w + [x], fp)
  {
  }

  lemma AckTrue(p: Pool, o: Out, w: seq<bytes>, fp: nat, acked: u16)
    requires fp >= 64 && SenderTrue(p, o, w, fp)
    ensures var (p', o') := Ack(p, o, acked, fp); SenderTrue(p', o', w, fp)
  {
    hide Ack, Bufs, ActiveLen, SlotOk, FragTotal, View, Single, CarriesTrue, Covered;
    assert Bufs(o.cells) + multiset{} == Bufs(o.cells);
    AckKept(p, o, acked, fp, multiset{});
    var (p', o') := Ack(p, o, acked, fp);
    assert Bufs(o'.cells) + multiset{} == Bufs(o'.cells);
    KeptHolds(p, Bufs(o.cells), p', Bufs(o'.cells));
    forall i | 0 <= i < |o'.cells| && o'.cells[i].meta.active ensures CarriesTrue(p', o'.cells[i], w) {
      assert o'.cells[i] == o.cells[i];
      CarriesSame(p, p', o.cells[i], o.cells[i], w);
    }
  }

  lemma CarriesSame(p: Pool, p': Pool, c: OutCell, c': OutCell, w: seq<bytes>)
    requires CarriesTrue(p, c, w) && p'.store == p.store
    requires c'.buf == c.buf && c'.len == c.len && c'.meta.seqno == c.meta.seqno
    ensures CarriesTrue(p', c', w)
  {
  }

  // A fragment put out is a fragment of the message written under its number.
  lemma EmitTrue(p: Pool, o: Out, w: seq<bytes>, fp: nat, k: nat, now: u32)
    requires fp >= 64 && SenderTrue(p, o, w, fp) && k < OUTGOING_SLOTS && Sendable1(o.cells[k])
    ensures var (p', o', f) := Emit(p, o, true, fp, k, now);
            SenderTrue(p', o', w, fp) && HonestFrame(f, w, fp)
  {
    hide Bufs, ActiveLen, FragTotal, View, Single, CarriesTrue, Frag;
    assert Bufs(o.cells) + multiset{} == Bufs(o.cells);
    EmitKept(p, o, true, fp, k, now, multiset{});
    var (p', o', f) := Emit(p, o, true, fp, k, now);
    assert Bufs(o'.cells) + multiset{} == Bufs(o'.cells);
    KeptHolds(p, Bufs(o.cells), p', Bufs(o'.cells));
    PieceHonest(p, o, w, fp, k);
    forall i | 0 <= i < |o'.cells| && o'.cells[i].meta.active ensures CarriesTrue(p', o'.cells[i], w) {
      CarriesSame(p, p', o.cells[i], o'.cells[i], w);
    }
  }

  lemma PieceHonest(p: Pool, o: Out, w: seq<bytes>, fp: nat, k: nat)
    requires fp >= 64 && OutOk(o, fp) && k < OUTGOING_SLOTS && Sendable1(o.cells[k]) && CarriesTrue(p, o.cells[k], w)
    ensures var c := o.cells[k]; HonestFrame(Frame(c.meta.seqno, c.meta.sent, c.meta.total, Piece(p, c, fp)), w, fp)
  {
    hide FragTotal, Frag;
    assert SlotOk(o, k, fp);
  }

  lemma ServiceTrue(p: Pool, o: Out, w: seq<bytes>, fp: nat, rt: u32, now: u32)
    requires fp >= 64 && SenderTrue(p, o, w, fp)
    ensures SenderTrue(p, o.(cells := Retransmit(o.cells, rt, now, 0).0), w, fp)
  {
    hide Retransmit, Bufs, ActiveLen, FragTotal, View, Single, CarriesTrue, SlotOk;
    var cells := Retransmit(o.cells, rt, now, 0).0;
    RetransmitSame(o.cells, rt, now, 0);
    SameLoadSums(o.cells, cells);
    SameLoadOk(o, cells, fp);
    forall i | 0 <= i < |cells| && cells[i].meta.active ensures CarriesTrue(p, cells[i], w) {
      assert SameSlot(o.cells[i], cells[i]);
      CarriesSame(p, p, o.cells[i], cells[i], w);
    }
  }

  // ----- receiver steps -----

  lemma LogMore(p: Pool, n: u16, q: Queue, w: seq<bytes>, log: seq<bytes>, x: bytes)
    requires QueueOk(q) && LogTrue(p, n, q, w, log) && |w| + 1 < 0x8000
    ensures LogTrue(p, n, q, w + [x], log)
  {
    assert (w + [x])[..n] == w[..n];
  }

  lemma AssemblingMore(p: Pool, c: FragCell, w: seq<bytes>, fp: nat, x: bytes)
    requires fp >= 64 && Assembling(p, c, w, fp)
    ensures Assembling(p, c, w + [x], fp)
  {
  }

  // Writing more does not make what was received any less true.
  lemma ReceiverMore(p: Pool, r: Rx, w: seq<bytes>, log: seq<bytes>, fp: nat, x: bytes)
    requires fp >= 64 && True(p, r, w, log, fp) && 1 <= |x| <= MAX_MSG && |w| + 1 < 0x8000
    ensures True(p, r, w + [x], log, fp)
  {
    hide Assembling, LogTrue, Windowed, Queued, Run, Bufs, Single, FragsOk;
    LogMore(p, r.seqno, r.queue, w, log, x);
    forall i | 0 <= i < |r.pend.frags| ensures Assembling(p, r.pend.frags[i], w + [x], fp) {
      AssemblingMore(p, r.pend.frags[i], w, fp, x);
    }
  }

  lemma FragsSpared(p: Pool, p': Pool, frags: seq<FragCell>, w: seq<bytes>, fp: nat)
    requires fp >= 64 && FragsOk(frags) && Spared(p, p', Bufs(frags)) && FragsTrue(p, frags, w, fp)
    ensures FragsTrue(p', frags, w, fp)
  {
    hide Assembling, Bufs;
    forall i | 0 <= i < |frags| ensures Assembling(p', frags[i], w, fp) {
      if frags[i].meta.active { BufsMember(frags, i); }
      AssemblingSpared(p, p', frags[i], w, fp);
    }
  }

  lemma ElsewhereTrue(p: Pool, p': Pool, r: Rx, w: seq<bytes>, log: seq<bytes>, fp: nat)
    requires fp >= 64 && True(p, r, w, log, fp) && Elsewhere(p, p', Held(r))
    ensures True(p', r, w, log, fp)
  {
    hide Assembling, LogTrue, ReorderTrue, Windowed, Queued, Run, Bufs, Single, FragsOk, FragsTrue;
    RestSpared(p, p', r, w, log);
    FragsSpared(p, p', r.pend.frags, w, fp);
  }

  // Reading moves a message from the queue to the log.
  lemma ReadKeepsTrue(p: Pool, r: Rx, room: nat, w: seq<bytes>, log: seq<bytes>, fp: nat)
    requires fp >= 64 && True(p, r, w, log, fp) && r.queue.head != r.queue.tail
    ensures Queued(p, r.queue) != []
    ensures var (p', q', data) := Dequeue(p, r.queue, room);
            && True(p', r.(queue := q'), w, log + [Queued(p, r.queue)[0]], fp)
            && data <= Queued(p, r.queue)[0]
  {
    hide Assembling, LogTrue, ReorderTrue, Windowed, Queued, Run, Bufs, Single, FragsOk, FragsTrue, Dequeue;
    var (p', q', data) := Dequeue(p, r.queue, room);
    DequeueKept(p, r.queue, room, PendHeld(r.pend));
    ReadTrue(p, r, room, w, log);
    KeptHolds(p, Bufs(r.queue.cells) + PendHeld(r.pend), p', Bufs(q'.cells) + PendHeld(r.pend));
    SameStoreTrue(p, p', r.pend, w, fp);
  }

  lemma SameStoreTrue(p: Pool, p': Pool, d: Pending, w: seq<bytes>, fp: nat)
    requires fp >= 64 && p'.store == p.store && ReorderTrue(p, d.reorder, w) && FragsTrue(p, d.frags, w, fp)
    ensures ReorderTrue(p', d.reorder, w) && FragsTrue(p', d.frags, w, fp)
  {
    hide Assembling;
    forall i | 0 <= i < |d.frags| ensures Assembling(p', d.frags[i], w, fp) {
      AssemblingSpared(p, p', d.frags[i], w, fp);
    }
  }

  // ----- every step, every run -----

  lemma WriteStep(s: Sys, gate: Gate, data: bytes, fp: nat)
    requires fp >= 64 && Inv(s, fp) && gate.reliable && |s.w| + 1 < 0x8000
    ensures Inv(AfterWrite(s, gate, data, fp), fp)
  {
    hide LoadTrue, SlotOk, Single, ActiveLen, Bufs, True, HonestFrame, Write1;
    var (p, o, out) := Write1(s.snd.pool, s.snd.out, gate, fp, data);
    WriteTrue(s.snd.pool, s.snd.out, s.w, fp, gate, data);
    if Took(out) {
      TakenFits(s, gate, data, fp);
      ReceiverMore(s.rcv.pool, s.rcv.rx, s.w, s.log, fp, data);
      forall f | f in s.net ensures HonestFrame(f, s.w + [data], fp) {
        HonestMore(f, s.w, fp, data);
      }
    }
  }

  lemma TakenFits(s: Sys, gate: Gate, data: bytes, fp: nat)
    requires fp >= 64 && SenderTrue(s.snd.pool, s.snd.out, s.w, fp)
    requires Took(Write1(s.snd.pool, s.snd.out, gate, fp, data).2)
    ensures 1 <= |data| <= MAX_MSG
  {
    WriteShape(s.snd.pool, s.snd.out, gate, fp, data);
  }

  lemma EmitStep(s: Sys, now: u32, fp: nat)
    requires fp >= 64 && Inv(s, fp)
    ensures s.snd.out.head < OUTGOING_SLOTS && s.snd.out.tail < OUTGOING_SLOTS && |s.snd.out.cells| == OUTGOING_SLOTS
    ensures Inv(AfterEmit(s, now, fp), fp)
  {
    hide True, HonestFrame, Emit;
    var k := NextSendable(s.snd.out.cells, s.snd.out.head, s.snd.out.tail);
    if k != -1 {
      EmitTrue(s.snd.pool, s.snd.out, s.w, fp, k, now);
    }
  }

  lemma ReadStep(s: Sys, room: nat, fp: nat)
    requires fp >= 64 && Inv(s, fp)
    ensures PoolOk(s.rcv.pool) && QueueOk(s.rcv.rx.queue) && Inv(AfterRead(s, room), fp)
  {
    hide SenderTrue, HonestFrame, Dequeue, LogTrue, ReorderTrue, FragsTrue, Windowed, Bufs, Run;
    if s.rcv.rx.queue.head != s.rcv.rx.queue.tail {
      ReadKeepsTrue(s.rcv.pool, s.rcv.rx, room, s.w, s.log, fp);
    }
  }

  lemma StepKeepsInv(s: Sys, l: Label, s': Sys, fp: nat)
    requires fp >= 64 && Inv(s, fp) && Next(s, l, s', fp)
    ensures Inv(s', fp)
  {
    hide SenderTrue, True, HonestFrame, Write1, AfterWrite, AfterEmit, AfterRead, Ack, Retransmit, FeedData;
    match l
    case DoWrite(gate, data) => WriteStep(s, gate, data, fp);
    case DoEmit(now) => EmitStep(s, now, fp);
    case DoAck(acked) => AckTrue(s.snd.pool, s.snd.out, s.w, fp, acked);
    case DoService(rt, now) => ServiceTrue(s.snd.pool, s.snd.out, s.w, fp, rt, now);
    case DoFeed(f) => HonestFrameKeepsTrue(s.rcv.pool, s.rcv.rx, s.w, s.log, fp, f);
    case DoRead(room) => ReadStep(s, room, fp);
    case SenderPool(p) => SenderElsewhere(s.snd.pool, p, s.snd.out, s.w, fp);
    case ReceiverPool(p) => ElsewhereTrue(s.rcv.pool, p, s.rcv.rx, s.w, s.log, fp);
  }

  lemma SenderElsewhere(p: Pool, p': Pool, o: Out, w: seq<bytes>, fp: nat)
    requires fp >= 64 && SenderTrue(p, o, w, fp) && Elsewhere(p, p', Bufs(o.cells))
    ensures SenderTrue(p', o, w, fp)
  {
    hide LoadTrue, SlotOk, FragTotal, Bufs, Single;
    SlotsSized(o, fp);
    LoadSpared(p, p', o.cells, w);
  }

  ghost predicate Init(s: Sys, fp: nat)
    requires fp >= 64
  {
    && s.net == {} && s.w == s.log == s.handed == []
    && Idle(s.snd.out) && PoolOk(s.snd.pool) && Single(FreeBag(s.snd.pool))
    && Empty(s.rcv.rx) && PoolOk(s.rcv.pool) && Single(FreeBag(s.rcv.pool))
  }

  lemma InitHolds(s: Sys, fp: nat)
    requires fp >= 64 && Init(s, fp)
    ensures Inv(s, fp)
  {
    hide Bufs, SlotOk, FragTotal, ActiveLen, Run, Queued;
    IdleOk(s.snd.out, fp);
    EmptyOk(s.rcv.pool, s.rcv.rx);
    assert FreeBag(s.snd.pool) + multiset{} == FreeBag(s.snd.pool);
    assert FreeBag(s.rcv.pool) + multiset{} == FreeBag(s.rcv.pool);
  }

  ghost predicate IsRun(run: seq<Sys>, steps: seq<Label>, fp: nat)
    requires fp >= 64
  {
    && |run| == |steps| + 1 && Init(run[0], fp)
    && forall i :: 0 <= i < |steps| ==> Next(run[i], steps[i], run[i + 1], fp)
  }

  lemma {:induction false} RunKeepsInv(run: seq<Sys>, steps: seq<Label>, fp: nat, i: nat)
    requires fp >= 64 && IsRun(run, steps, fp) && i < |run|
    ensures Inv(run[i], fp)
  {
    hide Inv, Next, Init;
    if i == 0 {
      InitHolds(run[0], fp);
    } else {
      RunKeepsInv(run, steps, fp, i - 1);
      StepKeepsInv(run[i - 1], steps[i - 1], run[i], fp);
    }
  }

  // Main result. In every run the receiver has consumed a prefix of what was written; what
  // was read, followed by what is queued, is an ordered part of that prefix with nothing
  // twice; and each read handed over the message, or as much of it as the reader had room for.
  lemma RunsReadInOrder(run: seq<Sys>, steps: seq<Label>, fp: nat, i: nat)
    requires fp >= 64 && IsRun(run, steps, fp) && i < |run|
    ensures var s := run[i]; var r := s.rcv.rx;
            && QueueOk(r.queue) && r.seqno <= |s.w|
            && Subseq(s.log + Queued(s.rcv.pool, r.queue), s.w[..r.seqno])
            && HandedMatch(s.handed, s.log)
            && Windowed(r.pend.reorder, r.seqno, 1)
  {
    hide SenderTrue, IsRun, HonestNet;
    RunKeepsInv(run, steps, fp, i);
  }

  // The in-flight count of a reliable sender is the total of its active slots, in every run.
  lemma RunsAccount(run: seq<Sys>, steps: seq<Label>, fp: nat, i: nat)
    requires fp >= 64 && IsRun(run, steps, fp) && i < |run|
    ensures run[i].snd.out.inFlight == ActiveLen(run[i].snd.out.cells)
    ensures run[i].snd.out.seqno == |run[i].w|
  {
    hide True, IsRun, HonestNet;
    RunKeepsInv(run, steps, fp, i);
  }
}
