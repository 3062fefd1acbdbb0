// What an acknowledgement is worth: which messages it covers, which of them were consumed, and
// which of those were queued for the reader.
module NetchanAck {
  import opened Bytes
  import opened Wrappers
  import opened NetchanPool
  import opened NetchanFrag
  import opened NetchanRecv
  import opened NetchanRead
  import opened NetchanData
  import opened NetchanOverrun
  import opened NetchanDeliver
  import opened NetchanSend
  import opened NetchanConn

  // A channel that acknowledges what it receives.
  predicate Acks(info: Info) {
    !info.sends && info.kind != Unreliable
  }

  // ----- the number -----

  // The sender takes as acknowledged the 2^15 numbers before the next one wanted, and none of
  // those from it on, except that with 0 as the next one wanted it takes 0 too.
  lemma OwedCovers(next: u16, k: nat)
    ensures k < 0x7fff ==> (Covered(Plus16(next, k), Owed(next)) <==> next == 0 && k == 0)
    ensures 1 <= k <= 0x8000 ==> Covered(Dist(next, k), Owed(next))
  {
  }

  // An acknowledgement covers consumed messages only, if and only if the next number wanted is
  // not 0, as it is before the first message and each time the numbers have come round.
  lemma AckMeansConsumedIff(p: Pool, ch: Chan, fp: nat, f: Frame)
    requires fp >= 64 && ChanOk(ch, fp) && Fine(p, ch.rx) && Acks(ch.info)
    ensures var ch' := ChanData(p, ch, fp, f).1; var next := ch'.rx.seqno;
            && ch'.notes.ack && ch'.notes.acked == Owed(next)
            && ((forall k :: 0 <= k < 0x7fff ==> !Covered(Plus16(next, k), ch'.notes.acked)) <==> next != 0)
            && (forall k :: 1 <= k <= 0x8000 ==> Covered(Dist(next, k), ch'.notes.acked))
  {
    hide FeedData, ChanOk, Fine, Covered, Owed;
    var next := ChanData(p, ch, fp, f).1.rx.seqno;
    forall k | 0 <= k <= 0x8000
      ensures k < 0x7fff ==> (Covered(Plus16(next, k), Owed(next)) <==> next == 0 && k == 0)
      ensures 1 <= k ==> Covered(Dist(next, k), Owed(next)) {
      OwedCovers(next, k);
    }
    if next == 0 {
      assert Covered(Plus16(next, 0), Owed(next));
    }
  }

  // So it fails: a receiver that has consumed nothing and gets message 1 first acknowledges
  // message 0, which it has not seen.
  lemma AckBeforeDelivery(p: Pool, ch: Chan, fp: nat, data: bytes)
    requires Fine(p, ch.rx) && ch.rx.seqno == 0 && Acks(ch.info)
    ensures var ch' := ChanData(p, ch, fp, Frame(1, 0, 1, data)).1;
            ch'.notes.ack && ch'.rx.seqno == 0 && Covered(0, ch'.notes.acked)
  {
    hide Fine, Stash;
  }

  // And one that consumes message 65535 acknowledges the next message, number 0 again.
  lemma AckAfterWrap(p: Pool, ch: Chan, fp: nat, data: bytes)
    requires Fine(p, ch.rx) && ch.rx.seqno == 0xffff && Acks(ch.info) && Following(ch.rx) == 0
    ensures var ch' := ChanData(p, ch, fp, Frame(0xffff, 0, 1, data)).1;
            ch'.notes.ack && ch'.rx.seqno == 0 && Covered(0, ch'.notes.acked)
  {
    hide Fine, Accept, Following;
    AcceptQueues(p, ch.rx, data);
  }

  // ----- the messages -----

  // Main result: what one DATA frame does to a channel that acknowledges, in full. A frame that
  // completes the message wanted makes that one and those waiting behind it consumed, so
  // acknowledged; all of them are queued if and only if there is room for them, and if not,
  // exactly those that fit. Any other frame makes nothing consumed and nothing queued.
  lemma ConsumedQueuedIff(p: Pool, ch: Chan, fp: nat, f: Frame)
    requires fp >= 64 && ChanOk(ch, fp) && Fine(p, ch.rx) && Acks(ch.info) && !ChanOverfills(ch, fp, f)
    ensures var (p', ch') := ChanData(p, ch, fp, f); var r, r', n := ch.rx, ch'.rx, Following(ch.rx);
            var ms := Msgs(p, r.pend.reorder, Next16(r.seqno), n);
            && QueueOk(r'.queue)
            && match HandsUp(p, r, fp, f)
               case Some(data) =>
                 if f.seqno == r.seqno then
                   && r'.seqno == Plus16(Next16(r.seqno), n)
                   && Queued(p', r'.queue) == Queued(p, r.queue) + InTurn(data, ms, Places(r.queue), |p.free|)
                   && (Queued(p', r'.queue) == Queued(p, r.queue) + ([data] + ms)
                       <==> RoomFor(data, n, Places(r.queue), |p.free|))
                 else r'.seqno == r.seqno && Queued(p', r'.queue) == Queued(p, r.queue)
               case None => r'.seqno == r.seqno && Queued(p', r'.queue) == Queued(p, r.queue)
  {
    hide FeedData, HandsUp, Overfills, Following, Msgs, InTurn, RoomFor, Queued, Places, Laid, OutOk, Bufs, Windowed, Single;
    FrameQueues(p, ch.rx, fp, f);
    FrameSpillsIff(p, ch.rx, true, fp, f);
    var r, n := ch.rx, Following(ch.rx);
    var ms := Msgs(p, r.pend.reorder, Next16(r.seqno), n);
    match HandsUp(p, r, fp, f)
    case None =>
    case Some(data) =>
      InTurnIff(data, ms, Places(r.queue), |p.free|);
      SameTail(Queued(p, r.queue), InTurn(data, ms, Places(r.queue), |p.free|), [data] + ms);
  }

  // So it fails at a full ring: the message is consumed and acknowledged, and gone.
  lemma FullRingLoses(p: Pool, ch: Chan, fp: nat, data: bytes)
    requires Fine(p, ch.rx) && Acks(ch.info) && NextIx(ch.rx.queue.tail) == ch.rx.queue.head && Following(ch.rx) == 0
    ensures Lost(p, ch, ChanData(p, ch, fp, Frame(ch.rx.seqno, 0, 1, data)))
  {
    hide Bufs, Windowed, Single, Queued;
    NothingFollows(p, ch.rx, data);
    OwedCovers(Next16(ch.rx.seqno), 1);
  }

  // And with no buffer free.
  lemma EmptyPoolLoses(p: Pool, ch: Chan, fp: nat, data: bytes)
    requires Fine(p, ch.rx) && Acks(ch.info) && p.free == [] && Following(ch.rx) == 0
    ensures Lost(p, ch, ChanData(p, ch, fp, Frame(ch.rx.seqno, 0, 1, data)))
  {
    hide Bufs, Windowed, Single, Queued;
    NothingFollows(p, ch.rx, data);
    OwedCovers(Next16(ch.rx.seqno), 1);
  }

  // The message wanted is acknowledged, and neither the pool nor the queue has changed.
  ghost predicate Lost(p: Pool, ch: Chan, r: (Pool, Chan)) {
    && r.0 == p && r.1.rx.queue == ch.rx.queue && r.1.rx.pend == ch.rx.pend
    && r.1.rx.seqno == Next16(ch.rx.seqno)
    && r.1.notes.ack && Covered(ch.rx.seqno, r.1.notes.acked)
  }

  // With nothing waiting behind it, accepting a message is queueing it.
  lemma NothingFollows(p: Pool, r: Rx, data: bytes)
    requires Fine(p, r) && Following(r) == 0
    ensures var (p1, q1) := Enqueue(p, r.queue, data);
            && QueueOk(q1) && Accept(p, r, data) == (p1, Rx(Next16(r.seqno), q1, r.pend))
            && if Takes(p, r.queue, data)
               then Queued(p1, q1) == Queued(p, r.queue) + [data] && |p1.free| == |p.free| - 1
               else p1 == p && q1 == r.queue
  {
    hide Bufs, Windowed, Single, Queued, Enqueue;
    AcceptHolds(p, r, data);
    EnqueueKept(p, r.queue, data, PendHeld(r.pend));
    FollowingIs(r);
  }

  // ----- from the start -----

  // Frames fed to one channel, up to a write outside its buffer.
  function ChanFeeds(p: Pool, ch: Chan, fp: nat, fs: seq<Frame>): (Pool, Chan)
    requires fp >= 64 && ChanOk(ch, fp) && Holds(p, ChanHeld(ch))
    decreases |fs|
  {
    if fs == [] then (p, ch)
    else
      FedOk(p, ch, fp, fs[0]);
      var (p1, ch1) := ChanData(p, ch, fp, fs[0]);
      if p1.spilled then (p1, ch1) else ChanFeeds(p1, ch1, fp, fs[1..])
  }

  lemma FedOk(p: Pool, ch: Chan, fp: nat, f: Frame)
    requires fp >= 64 && ChanOk(ch, fp) && Holds(p, ChanHeld(ch))
    ensures Fine(p, ch.rx)
    ensures var (p', ch') := ChanData(p, ch, fp, f); p'.spilled || (ChanOk(ch', fp) && Holds(p', ChanHeld(ch')))
  {
    hide ChanData, ChanOk, ChanHeld, Fine;
    ChanDataKept(p, ch, fp, f);
    var (p', ch') := ChanData(p, ch, fp, f);
    if !p'.spilled {
      KeptHolds(p, ChanHeld(ch), p', ChanHeld(ch'));
    }
  }

  // Nothing waits out of turn.
  ghost predicate NoneWaits(cells: seq<Cell<ReoMeta>>) {
    forall i :: 0 <= i < |cells| ==> !cells[i].meta.valid
  }

  // One frame each for the messages from number first on.
  ghost predicate InOrder(fs: seq<Frame>, first: nat) {
    forall i :: 0 <= i < |fs| ==> fs[i].seqno == first + i && fs[i].total <= 1 && |fs[i].data| <= MAX_MSG
  }

  ghost function DataOf(fs: seq<Frame>): (ms: seq<bytes>)
    ensures |ms| == |fs|
  {
    if fs == [] then [] else [fs[0].data] + DataOf(fs[1..])
  }

  // These messages joined the queue, one buffer each, and nothing waits.
  ghost predicate TakenIn(p: Pool, ch: Chan, p': Pool, ch': Chan, ms: seq<bytes>, fp: nat)
    requires fp > 0 && QueueOk(ch.rx.queue)
  {
    && ChanOk(ch', fp) && Holds(p', ChanHeld(ch')) && ch'.info == ch.info && NoneWaits(ch'.rx.pend.reorder)
    && ch'.rx.seqno == ch.rx.seqno + |ms|
    && Queued(p', ch'.rx.queue) == Queued(p, ch.rx.queue) + ms
    && Places(ch'.rx.queue) == Places(ch.rx.queue) - |ms| && |p'.free| == |p.free| - |ms|
  }

  // Whole messages in order fill the ring one by one.
  lemma {:induction false} RingFills(p: Pool, ch: Chan, fp: nat, fs: seq<Frame>)
    requires fp >= 64 && ChanOk(ch, fp) && Holds(p, ChanHeld(ch)) && Acks(ch.info) && NoneWaits(ch.rx.pend.reorder)
    requires InOrder(fs, ch.rx.seqno) && ch.rx.seqno + |fs| <= 0xffff
    requires QueueOk(ch.rx.queue) && |fs| <= Places(ch.rx.queue) && |fs| <= |p.free|
    ensures var (p', ch') := ChanFeeds(p, ch, fp, fs); TakenIn(p, ch, p', ch', DataOf(fs), fp)
    decreases |fs|
  {
    hide ChanData, ChanOk, ChanHeld, Holds, Queued, QueueOk, Places, InOrder, NoneWaits, Acks, Fine, TakenIn;
    if fs == [] {
      TakenInNone(p, ch, fp);
    } else {
      FedOk(p, ch, fp, fs[0]);
      var (p1, ch1) := ChanData(p, ch, fp, fs[0]);
      RestInOrder(fs, ch.rx.seqno);
      OneFits(p, ch, fp, fs[0]);
      TakenInParts(p, ch, p1, ch1, [fs[0].data], fp);
      RingFills(p1, ch1, fp, fs[1..]);
      var (p2, ch2) := ChanFeeds(p1, ch1, fp, fs[1..]);
      TakenInThen(p, ch, p1, ch1, [fs[0].data], p2, ch2, DataOf(fs[1..]), fp);
    }
  }

  lemma TakenInNone(p: Pool, ch: Chan, fp: nat)
    requires fp > 0 && ChanOk(ch, fp) && Holds(p, ChanHeld(ch)) && NoneWaits(ch.rx.pend.reorder)
    ensures TakenIn(p, ch, p, ch, [], fp)
  {
    hide ChanHeld, OutOk, Laid, Windowed, Queued;
  }

  lemma TakenInParts(p: Pool, ch: Chan, p': Pool, ch': Chan, ms: seq<bytes>, fp: nat)
    requires fp > 0 && QueueOk(ch.rx.queue) && TakenIn(p, ch, p', ch', ms, fp)
    ensures ChanOk(ch', fp) && Holds(p', ChanHeld(ch')) && ch'.info == ch.info && NoneWaits(ch'.rx.pend.reorder)
    ensures QueueOk(ch'.rx.queue) && ch'.rx.seqno == ch.rx.seqno + |ms| && !p'.spilled
    ensures Places(ch'.rx.queue) == Places(ch.rx.queue) - |ms| && |p'.free| == |p.free| - |ms|
    ensures Queued(p', ch'.rx.queue) == Queued(p, ch.rx.queue) + ms
  {
    hide ChanHeld, OutOk, Laid, Windowed, Queued;
  }

  lemma TakenInThen(p: Pool, ch: Chan, p1: Pool, ch1: Chan, ms: seq<bytes>, p2: Pool, ch2: Chan, ns: seq<bytes>, fp: nat)
    requires fp > 0 && QueueOk(ch.rx.queue) && TakenIn(p, ch, p1, ch1, ms, fp)
    requires QueueOk(ch1.rx.queue) && TakenIn(p1, ch1, p2, ch2, ns, fp)
    ensures TakenIn(p, ch, p2, ch2, ms + ns, fp)
  {
    hide ChanOk, ChanHeld, Holds, Queued, QueueOk, Places, NoneWaits;
    assert Queued(p, ch.rx.queue) + ms + ns == Queued(p, ch.rx.queue) + (ms + ns);
  }

  lemma RestInOrder(fs: seq<Frame>, first: nat)
    requires fs != [] && InOrder(fs, first)
    ensures fs[0].seqno == first && fs[0].total <= 1 && |fs[0].data| <= MAX_MSG && InOrder(fs[1..], first + 1)
  {
  }

  lemma QueueInOrder(ch: Chan, fp: nat)
    requires fp > 0 && ChanOk(ch, fp)
    ensures QueueOk(ch.rx.queue)
  {
  }

  lemma OneFits(p: Pool, ch: Chan, fp: nat, f: Frame)
    requires fp >= 64 && ChanOk(ch, fp) && Holds(p, ChanHeld(ch)) && Fine(p, ch.rx) && Acks(ch.info)
    requires NoneWaits(ch.rx.pend.reorder) && f.seqno == ch.rx.seqno < 0xffff && f.total <= 1 && |f.data| <= MAX_MSG
    requires Places(ch.rx.queue) > 0 && p.free != []
    ensures var (p', ch') := ChanData(p, ch, fp, f); TakenIn(p, ch, p', ch', [f.data], fp) && !p'.spilled
  {
    hide Queued, Places, Accept, OutOk, Laid, Bufs, Windowed, Single, Enqueue, ChanHeld, Holds;
    PlacesLeft(p, ch.rx.queue);
    NothingFollows(p, ch.rx, f.data);
    FedOk(p, ch, fp, f);
    var (p', ch') := ChanData(p, ch, fp, f);
    FeedWholeFine(p, ch.rx, true, f.seqno, f.data);
    FineOk(p', ch'.rx);
    PlacesLeft(p', ch'.rx.queue);
  }

  // From the start: a new channel with the whole pool to itself is sent 64 messages before its
  // reader takes any. It acknowledges all of them and holds the first 63.
  lemma SixtyFourthLost(p: Pool, info: Info, limit: u32, fp: nat, fs: seq<Frame>)
    requires fp >= 64 && Acks(info) && Holds(p, multiset{}) && |p.free| == POOL_BUFS
    requires |fs| == 64 && InOrder(fs, 0)
    ensures ChanOk(NewChan(info, limit), fp) && Holds(p, ChanHeld(NewChan(info, limit)))
    ensures var (p', ch') := ChanFeeds(p, NewChan(info, limit), fp, fs);
            && QueueOk(ch'.rx.queue) && Queued(p', ch'.rx.queue) == DataOf(fs)[..63]
            && ch'.rx.seqno == 64 && ch'.notes.ack && ch'.notes.acked == 63
            && forall i :: 0 <= i < 64 ==> Covered(fs[i].seqno, ch'.notes.acked)
  {
    hide ChanData, ChanOk, ChanHeld, Holds, Queued, QueueOk, Places, ChanFeeds, DataOf, InOrder, TakenIn;
    var ch, front := NewChan(info, limit), fs[..63];
    NewChanOk(info, limit, fp);
    FreshRoom(p, info, limit);
    FrontInOrder(fs);
    RingFills(p, ch, fp, front);
    var (p1, ch1) := ChanFeeds(p, ch, fp, front);
    TakenInParts(p, ch, p1, ch1, DataOf(front), fp);
    FeedsThenOne(p, ch, fp, front, fs[63]);
    assert front + [fs[63]] == fs;
    QueueInOrder(ch1, fp);
    FedOk(p1, ch1, fp, fs[63]);
    PlacesLeft(p1, ch1.rx.queue);
    LastLost(p1, ch1, fp, fs[63]);
    DataFront(fs, 63);
  }

  lemma FreshRoom(p: Pool, info: Info, limit: u32)
    ensures var ch := NewChan(info, limit);
            && ch.info == info && ch.rx.seqno == 0 && NoneWaits(ch.rx.pend.reorder)
            && QueueOk(ch.rx.queue) && Queued(p, ch.rx.queue) == [] && Places(ch.rx.queue) == 63
  {
    hide Bufs, NewRx;
    NewRxEmpty();
    EmptyOk(p, NewRx());
  }

  lemma FrontInOrder(fs: seq<Frame>)
    requires |fs| == 64 && InOrder(fs, 0)
    ensures InOrder(fs[..63], 0) && fs[63].seqno == 63 && fs[63].total <= 1
    ensures forall i :: 0 <= i < 64 ==> fs[i].seqno == i
  {
  }

  lemma {:induction false} DataFront(fs: seq<Frame>, n: nat)
    requires n <= |fs|
    ensures DataOf(fs[..n]) == DataOf(fs)[..n]
    decreases n
  {
    if n > 0 {
      DataFront(fs[1..], n - 1);
      assert fs[..n][1..] == fs[1..][..n - 1];
    }
  }

  lemma {:induction false} FeedsThenOne(p: Pool, ch: Chan, fp: nat, fs: seq<Frame>, f: Frame)
    requires fp >= 64 && ChanOk(ch, fp) && Holds(p, ChanHeld(ch))
    requires var (p1, ch1) := ChanFeeds(p, ch, fp, fs); ChanOk(ch1, fp) && Holds(p1, ChanHeld(ch1))
    ensures var (p1, ch1) := ChanFeeds(p, ch, fp, fs);
            Fine(p1, ch1.rx) && ChanFeeds(p, ch, fp, fs + [f]) == ChanData(p1, ch1, fp, f)
    decreases |fs|
  {
    hide ChanData, ChanOk, ChanHeld, Holds, Fine;
    var (p1, ch1) := ChanFeeds(p, ch, fp, fs);
    FedOk(p1, ch1, fp, f);
    if fs == [] {
      assert fs + [f] == [f] && [f][1..] == [];
    } else {
      FedOk(p, ch, fp, fs[0]);
      assert (fs + [f])[1..] == fs[1..] + [f];
      var (p0, ch0) := ChanData(p, ch, fp, fs[0]);
      assert !p0.spilled by { HoldsClean(p1, ChanHeld(ch1)); }
      FeedsThenOne(p0, ch0, fp, fs[1..], f);
    }
  }

  lemma HoldsClean(p: Pool, held: multiset<int>)
    requires Holds(p, held)
    ensures !p.spilled
  {
  }

  lemma LastLost(p: Pool, ch: Chan, fp: nat, f: Frame)
    requires Fine(p, ch.rx) && Acks(ch.info) && NoneWaits(ch.rx.pend.reorder)
    requires f.seqno == ch.rx.seqno == 63 && f.total <= 1 && Places(ch.rx.queue) == 0
    ensures var (p', ch') := ChanData(p, ch, fp, f);
            && p' == p && ch'.rx.queue == ch.rx.queue && ch'.rx.seqno == 64 && ch'.notes.ack && ch'.notes.acked == 63
    ensures forall i: u16 :: i < 64 ==> Covered(i, 63)
  {
    hide Queued, Accept, Bufs, Windowed, Single, Enqueue;
    PlacesLeft(p, ch.rx.queue);
    NothingFollows(p, ch.rx, f.data);
  }

  // ----- the byte count of an unreliable sender -----

  // From the start: a new unreliable channel takes one message of n bytes, and an
  // acknowledgement of message 0 makes it count 2^32 - n bytes in flight.
  lemma UnreliableCountWraps(p: Pool, info: Info, limit: u32, fp: nat, data: bytes)
    requires fp >= 64 && info.sends && info.kind == Unreliable && info.status != Dead
    requires Holds(p, multiset{}) && p.free != [] && 1 <= |data| <= MAX_MSG
    ensures var (p1, ch1, out) := ChanWrite(p, NewChan(info, limit), fp, data);
            && out == Done(Written(|data|)) && OutOk(ch1.out, fp)
            && ChanAck(p1, ch1, fp, 0).1.out.inFlight == 0x1_0000_0000 - |data|
  {
    hide NewOut, NewRx, Write1, Ack, Bufs, ActiveLen, FragTotal, Single, SlotOk;
    NewOutIdle();
    var o, g := NewOut(), Gate(false, info.status, info.window);
    IdleOk(o, fp);
    assert Bufs(o.cells) + multiset{} == multiset{};
    FreeIsReal(p, multiset{}) by { assert Holds(p, multiset{}); }
    TotalBounded(|data|, fp);
    FirstTaken(p, o, g, fp, data);
    var (p1, o1, out) := Write1(p, o, g, fp, data);
    WriteKept(p, o, g, fp, data, multiset{});
    KeptHolds(p, Bufs(o.cells) + multiset{}, p1, Bufs(o1.cells) + multiset{});
    AckReleasesAll(p1, o1, fp);
  }

  lemma FirstTaken(p: Pool, o: Out, g: Gate, fp: nat, data: bytes)
    requires fp >= 64 && Idle(o) && !g.reliable && g.status != Dead && 1 <= |data| <= MAX_MSG
    requires Get(p).1 != NOBUF && FragTotal(|data|, fp) <= MAX_FRAGS
    ensures var (p', o', out) := Write1(p, o, g, fp, data);
            && out == Written(|data|) && o'.inFlight == 0 && ActiveLen(o'.cells) == |data|
            && forall i :: 0 <= i < |o'.cells| && o'.cells[i].meta.active ==> o'.cells[i].meta.seqno == 0
  {
    hide FragTotal, ActiveLen;
    NothingActive(o.cells);
    ActiveLenUpdate(o.cells, 0, Filled(o, Get(p).1, fp, data));
  }

  lemma AckReleasesAll(p: Pool, o: Out, fp: nat)
    requires fp > 0 && OutOk(o, fp) && Holds(p, Bufs(o.cells) + multiset{}) && o.inFlight == 0 && ActiveLen(o.cells) > 0
    requires forall i :: 0 <= i < |o.cells| && o.cells[i].meta.active ==> o.cells[i].meta.seqno == 0
    ensures Ack(p, o, 0, fp).1.inFlight == 0x1_0000_0000 - ActiveLen(o.cells)
  {
    hide ActiveLen, AckFrom, Bufs, FragTotal, SlotOk;
    SlotsSized(o, fp);
    InFlightBounded(o, fp);
    AckFromCount(p, o.cells, 0, 0, 0);
    AckFromKept(p, o.cells, 0, 0, 0, multiset{});
    NothingActive(AckFrom(p, o.cells, 0, 0, 0).1);
  }
}
