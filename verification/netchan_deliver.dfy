// What becomes of a message whose turn has come, and of those that waited for it. All are
// consumed; which of them are queued depends on the places in the ring and the free buffers.
module NetchanDeliver {
  import opened Bytes
  import opened Wrappers
  import opened NetchanPool
  import opened NetchanFrag
  import opened NetchanRecv
  import opened NetchanRead
  import opened NetchanData

  // ----- room -----

  // Places left in the ring, which never fills its last one.
  ghost function Places(q: Queue): nat
    requires QueueOk(q)
  {
    RECV_QUEUE - 1 - Ahead(q.tail, q.head)
  }

  lemma PlacesLeft(p: Pool, q: Queue)
    requires QueueOk(q)
    ensures |Queued(p, q)| + Places(q) == RECV_QUEUE - 1
    ensures Places(q) == 0 <==> NextIx(q.tail) == q.head
  {
    RunLength(p, q.cells, q.head, Ahead(q.tail, q.head));
  }

  // A message joins the queue exactly when the ring has a place, it is no longer than a buffer,
  // and a buffer is free.
  lemma QueuedIff(p: Pool, q: Queue, data: bytes, rest: multiset<int>)
    requires QueueOk(q) && Holds(p, Bufs(q.cells) + rest)
    ensures var (p', q') := Enqueue(p, q, data);
            && QueueOk(q')
            && (Queued(p', q') == Queued(p, q) + [data] <==> Takes(p, q, data))
            && (Queued(p', q') == Queued(p, q) <==> !Takes(p, q, data))
  {
    hide Bufs, Queued, Single;
    EnqueueKept(p, q, data, rest);
    assert |Queued(p, q) + [data]| != |Queued(p, q)|;
  }

  // A message out of turn waits exactly when it is one of the 63 after the next one wanted, its
  // slot is empty, it is no longer than a buffer, and one is free; otherwise nothing changes.
  lemma StashedIff(p: Pool, d: Pending, next: u16, seqno: u16, data: bytes, rest: multiset<int>)
    requires ReorderOk(d.reorder) && Holds(p, Bufs(d.reorder) + rest)
    ensures var (p', d') := Stash(p, d, next, seqno, data); var i := seqno % REORDER_SLOTS;
            if 1 <= Dist(seqno, next) <= 63 && !d.reorder[i].meta.valid && |data| <= MAX_MSG && p.free != []
            then d'.reorder[i].meta == ReoMeta(seqno, true) && View(p', d'.reorder[i]) == data && d'.frags == d.frags
                 && d'.reorder == d.reorder[i := d'.reorder[i]]
            else (p', d') == (p, d)
  {
    hide Bufs, Single;
    var held := Bufs(d.reorder) + rest;
    FreeIsBuffer(p, held);
    if p.free != [] && |data| <= MAX_MSG { GetFilled(p, held, data); }
  }

  lemma FreeIsBuffer(p: Pool, held: multiset<int>)
    requires Holds(p, held)
    ensures p.free != [] ==> p.free[|p.free| - 1] != NOBUF
  {
    if p.free != [] {
      var b := p.free[|p.free| - 1];
      assert b in FreeBag(p) + held;
    }
  }

  // ----- messages waiting one behind the other -----

  predicate Waiting(cells: seq<Cell<ReoMeta>>, s: u16)
    requires |cells| == REORDER_SLOTS
  {
    cells[s % REORDER_SLOTS].meta.valid && cells[s % REORDER_SLOTS].meta.seqno == s
  }

  // Exactly n messages wait without a gap from this number on.
  ghost predicate Consecutive(cells: seq<Cell<ReoMeta>>, next: u16, n: nat)
    requires |cells| == REORDER_SLOTS
  {
    && n <= REORDER_SLOTS
    && (forall j :: 0 <= j < n ==> Waiting(cells, Plus16(next, j)))
    && !Waiting(cells, Plus16(next, n))
  }

  function Chain(cells: seq<Cell<ReoMeta>>, next: u16, j: nat): (n: nat)
    requires |cells| == REORDER_SLOTS && j <= REORDER_SLOTS
    ensures j <= n <= REORDER_SLOTS
    decreases REORDER_SLOTS - j
  {
    if j < REORDER_SLOTS && Waiting(cells, Plus16(next, j)) then Chain(cells, next, j + 1) else j
  }

  lemma {:induction false} ChainFrom(cells: seq<Cell<ReoMeta>>, next: u16, j: nat)
    requires |cells| == REORDER_SLOTS && Windowed(cells, next, 0) && j <= REORDER_SLOTS
    requires forall i :: 0 <= i < j ==> Waiting(cells, Plus16(next, i))
    ensures Consecutive(cells, next, Chain(cells, next, j))
    decreases REORDER_SLOTS - j
  {
    if j < REORDER_SLOTS && Waiting(cells, Plus16(next, j)) {
      ChainFrom(cells, next, j + 1);
    } else if j == REORDER_SLOTS {
      assert Dist(Plus16(next, j), next) == REORDER_SLOTS;
    }
  }

  // How many messages wait right behind the one wanted now.
  function Following(r: Rx): (n: nat)
    requires |r.pend.reorder| == REORDER_SLOTS
    ensures n <= REORDER_SLOTS
  {
    Chain(r.pend.reorder, Next16(r.seqno), 0)
  }

  lemma FollowingIs(r: Rx)
    requires |r.pend.reorder| == REORDER_SLOTS && Windowed(r.pend.reorder, r.seqno, 1)
    ensures Consecutive(r.pend.reorder, Next16(r.seqno), Following(r))
  {
    hide Windowed, Chain;
    WindowAdvances(r.pend.reorder, r.seqno);
    ChainFrom(r.pend.reorder, Next16(r.seqno), 0);
  }

  // The messages of n consecutive numbers, as they wait in their slots.
  ghost function Msgs(p: Pool, cells: seq<Cell<ReoMeta>>, next: u16, n: nat): (ms: seq<bytes>)
    requires |cells| == REORDER_SLOTS
    ensures |ms| == n
    decreases n
  {
    if n == 0 then [] else [View(p, cells[next % REORDER_SLOTS])] + Msgs(p, cells, Next16(next), n - 1)
  }

  lemma PlusNext(a: u16, j: nat)
    requires j < 0x1_0000
    ensures Plus16(Next16(a), j) == Plus16(a, j + 1)
    ensures j + 1 < 0x1_0000 ==> Plus16(a, j + 1) != a
  {
  }

  // The waiting messages are the same whatever happened to slots that no longer wait.
  lemma {:induction false} MsgsSame(p: Pool, cells: seq<Cell<ReoMeta>>, p': Pool, cells': seq<Cell<ReoMeta>>,
                                    next: u16, n: nat)
    requires |cells| == |cells'| == REORDER_SLOTS && n <= REORDER_SLOTS
    requires forall j :: 0 <= j < n ==> Waiting(cells', Plus16(next, j))
    requires forall k :: 0 <= k < REORDER_SLOTS && cells'[k].meta.valid ==> View(p', cells'[k]) == View(p, cells[k])
    ensures Msgs(p', cells', next, n) == Msgs(p, cells, next, n)
    decreases n
  {
    hide View;
    if n > 0 {
      assert Waiting(cells', Plus16(next, 0));
      forall j | 0 <= j < n - 1 ensures Waiting(cells', Plus16(Next16(next), j)) {
        PlusNext(next, j);
        assert Waiting(cells', Plus16(next, j + 1));
      }
      MsgsSame(p, cells, p', cells', Next16(next), n - 1);
    }
  }

  // The slot delivered was the only one for its number.
  lemma ConsecutiveRest(cells: seq<Cell<ReoMeta>>, next: u16, n: nat, c: Cell<ReoMeta>)
    requires |cells| == REORDER_SLOTS && n > 0 && Consecutive(cells, next, n) && !c.meta.valid
    ensures Consecutive(cells[next % REORDER_SLOTS := c], Next16(next), n - 1)
  {
    var cells' := cells[next % REORDER_SLOTS := c];
    assert Waiting(cells, Plus16(next, 0));
    forall j | 0 <= j <= n - 1 ensures Waiting(cells', Plus16(Next16(next), j)) <==> Waiting(cells, Plus16(next, j + 1)) {
      PlusNext(next, j);
    }
  }

  // ----- which of a run are queued -----

  // Messages delivered one after the other, each giving its own buffer back after it was
  // copied: with no buffer free the first is lost and frees one, and then as many are queued
  // as there are places.
  function Fitted(ms: seq<bytes>, places: nat, free: nat): seq<bytes> {
    var rest := if free == 0 && ms != [] then ms[1..] else ms;
    rest[..Min(places, |rest|)]
  }

  // A message that comes with no buffer of its own, and those that waited for it.
  function InTurn(data: bytes, ms: seq<bytes>, places: nat, free: nat): seq<bytes> {
    if |data| <= MAX_MSG && places > 0 && free > 0 then [data] + Fitted(ms, places - 1, free - 1)
    else Fitted(ms, places, free)
  }

  // There is room for the message and the n that waited for it.
  predicate RoomFor(data: bytes, n: nat, places: nat, free: nat) {
    |data| <= MAX_MSG && 1 + n <= places && free >= if n == 0 then 1 else 2
  }

  lemma FittedStep(m: bytes, ms: seq<bytes>, places: nat, free: nat)
    ensures Fitted([m] + ms, places, free)
         == if places > 0 && free > 0 then [m] + Fitted(ms, places - 1, free) else Fitted(ms, places, free + 1)
  {
    assert ([m] + ms)[1..] == ms;
    if places > 0 && free > 0 {
      var k := Min(places - 1, |ms|);
      assert ([m] + ms)[..k + 1] == [m] + ms[..k];
    }
  }

  // A run is queued whole exactly when it is empty, or a buffer is free and every message has
  // a place.
  lemma FittedIff(ms: seq<bytes>, places: nat, free: nat)
    ensures Fitted(ms, places, free) == ms <==> ms == [] || (free > 0 && |ms| <= places)
    ensures |Fitted(ms, places, free)| == |ms| <==> ms == [] || (free > 0 && |ms| <= places)
    ensures |Fitted(ms, places, free)| <= |ms|
  {
  }

  lemma InTurnIff(data: bytes, ms: seq<bytes>, places: nat, free: nat)
    ensures InTurn(data, ms, places, free) == [data] + ms <==> RoomFor(data, |ms|, places, free)
    ensures |InTurn(data, ms, places, free)| == 1 + |ms| <==> RoomFor(data, |ms|, places, free)
    ensures |InTurn(data, ms, places, free)| <= 1 + |ms|
  {
    hide Fitted;
    FittedIff(ms, places, free);
    if |data| <= MAX_MSG && places > 0 && free > 0 {
      FittedIff(ms, places - 1, free - 1);
    }
  }

  // ----- the waiting messages -----

  lemma DeliverOneMsgs(p: Pool, r: Rx, n: nat)
    requires QueueOk(r.queue) && ReorderOk(r.pend.reorder) && TurnCome(r) && Holds(p, Held(r))
    requires n > 0 && Consecutive(r.pend.reorder, r.seqno, n)
    ensures var (p1, r1) := DeliverOne(p, r);
            && QueueOk(r1.queue) && ReorderOk(r1.pend.reorder) && Holds(p1, Held(r1))
            && r1.seqno == Next16(r.seqno) && Consecutive(r1.pend.reorder, r1.seqno, n - 1)
            && Msgs(p1, r1.pend.reorder, r1.seqno, n - 1) == Msgs(p, r.pend.reorder, r1.seqno, n - 1)
  {
    hide Bufs, Consecutive, Msgs, Single, Queued, Enqueue, View;
    var (p1, r1) := DeliverOne(p, r);
    DeliverOneAlone(p, r);
    assert Held(r) + multiset{} == Held(r);
    DeliverOneKept(p, r, multiset{});
    var c := r1.pend.reorder[r.seqno % REORDER_SLOTS];
    ConsecutiveRest(r.pend.reorder, r.seqno, n, c);
    forall k | 0 <= k < REORDER_SLOTS && r1.pend.reorder[k].meta.valid
      ensures View(p1, r1.pend.reorder[k]) == View(p, r.pend.reorder[k]) {
      BufsMember(r1.pend.reorder, k);
      ViewSpared(p, p1, r.pend.reorder[k]);
    }
    assert Consecutive(r1.pend.reorder, r1.seqno, n - 1);
    AllWaiting(r1.pend.reorder, r1.seqno, n - 1);
    MsgsSame(p, r.pend.reorder, p1, r1.pend.reorder, r1.seqno, n - 1);
  }

  lemma AllWaiting(cells: seq<Cell<ReoMeta>>, next: u16, n: nat)
    requires |cells| == REORDER_SLOTS && Consecutive(cells, next, n)
    ensures n <= REORDER_SLOTS && forall j :: 0 <= j < n ==> Waiting(cells, Plus16(next, j))
    ensures n > 0 <==> Waiting(cells, next)
  {
    assert Plus16(next, 0) == next;
  }

  lemma ViewSpared<T>(p: Pool, p': Pool, c: Cell<T>)
    requires 0 <= c.buf < |p.store| == |p'.store| ==> p'.store[c.buf] == p.store[c.buf]
    requires |p'.store| == |p.store|
    ensures View(p', c) == View(p, c)
  {
  }

  lemma ViewFits<T>(p: Pool, c: Cell<T>)
    requires PoolOk(p)
    ensures |View(p, c)| <= MAX_MSG
  {
  }

  lemma TakesWaiting(p: Pool, r: Rx)
    requires QueueOk(r.queue) && |r.pend.reorder| == REORDER_SLOTS && PoolOk(p)
    ensures Takes(p, r.queue, View(p, WaitingAt(r))) <==> Places(r.queue) > 0 && |p.free| > 0
  {
    hide View;
    ViewFits(p, WaitingAt(r));
  }

  // Main result for a run of waiting messages: all are consumed, and queued are exactly those
  // that fit.
  lemma {:induction false} DeliverRunQueues(p: Pool, r: Rx, n: nat)
    requires QueueOk(r.queue) && ReorderOk(r.pend.reorder) && Holds(p, Held(r))
    requires Consecutive(r.pend.reorder, r.seqno, n)
    ensures var (p', r') := DeliverRun(p, r);
            && QueueOk(r'.queue) && r'.seqno == Plus16(r.seqno, n)
            && Queued(p', r'.queue)
               == Queued(p, r.queue) + Fitted(Msgs(p, r.pend.reorder, r.seqno, n), Places(r.queue), |p.free|)
    decreases n
  {
    hide Bufs, Consecutive, Queued, Single, View, Fitted, Places, DeliverOne, Takes, PoolOk;
    AllWaiting(r.pend.reorder, r.seqno, n);
    var ms := Msgs(p, r.pend.reorder, r.seqno, n);
    PlacesLeft(p, r.queue);
    if n == 0 {
      FittedIff(ms, Places(r.queue), |p.free|);
    } else {
      var (p1, r1) := DeliverOne(p, r);
      var m, rest := View(p, WaitingAt(r)), Msgs(p, r.pend.reorder, Next16(r.seqno), n - 1);
      DeliverOneMsgs(p, r, n);
      DeliverOneAlone(p, r);
      assert Held(r) + multiset{} == Held(r);
      DeliverOneKept(p, r, multiset{});
      PlacesLeft(p1, r1.queue);
      TakesWaiting(p, r);
      FittedStep(m, rest, Places(r.queue), |p.free|);
      DeliverRunQueues(p1, r1, n - 1);
      PlusNext(r.seqno, n - 1);
      assert ms == [m] + rest;
    }
  }

  // The queue grows by all n that waited exactly when there is none, or a buffer is free and
  // the ring has a place for each.
  lemma DeliverRunAllIff(p: Pool, r: Rx, n: nat)
    requires QueueOk(r.queue) && ReorderOk(r.pend.reorder) && Holds(p, Held(r))
    requires Consecutive(r.pend.reorder, r.seqno, n)
    ensures var (p', r') := DeliverRun(p, r);
            && QueueOk(r'.queue)
            && (Queued(p', r'.queue) == Queued(p, r.queue) + Msgs(p, r.pend.reorder, r.seqno, n)
                <==> n == 0 || (p.free != [] && n <= Places(r.queue)))
  {
    hide Bufs, Consecutive, Queued, Single, Msgs, Fitted, Places, DeliverRun;
    var ms := Msgs(p, r.pend.reorder, r.seqno, n);
    DeliverRunQueues(p, r, n);
    FittedIff(ms, Places(r.queue), |p.free|);
    SameTail(Queued(p, r.queue), Fitted(ms, Places(r.queue), |p.free|), ms);
  }

  lemma SameTail(a: seq<bytes>, b: seq<bytes>, c: seq<bytes>)
    ensures a + b == a + c <==> b == c
  {
    if a + b == a + c {
      assert b == (a + b)[|a|..] == (a + c)[|a|..] == c;
    }
  }

  // ----- a message in turn -----

  // Where the message wanted leaves the number wanted and the queue, with so many buffers free
  // when its turn comes: it and those that waited for it are all consumed, and queued are
  // exactly those that fit.
  ghost function Outcome(p: Pool, r: Rx, data: bytes, free: nat): (u16, seq<bytes>)
    requires QueueOk(r.queue) && |r.pend.reorder| == REORDER_SLOTS
  {
    var n := Following(r);
    (Plus16(Next16(r.seqno), n),
     Queued(p, r.queue) + InTurn(data, Msgs(p, r.pend.reorder, Next16(r.seqno), n), Places(r.queue), free))
  }

  // The number wanted moves on, and does not come round.
  lemma OutcomeLater(p: Pool, r: Rx, data: bytes, free: nat)
    requires QueueOk(r.queue) && |r.pend.reorder| == REORDER_SLOTS && r.seqno < 0x8000
    ensures Outcome(p, r, data, free).0 == r.seqno + 1 + Following(r) > r.seqno
  {
    hide Following, Msgs, Queued;
  }

  // Main result for a message in turn.
  lemma AcceptQueues(p: Pool, r: Rx, data: bytes)
    requires Fine(p, r)
    ensures var (p', r') := Accept(p, r, data);
            QueueOk(r'.queue) && (r'.seqno, Queued(p', r'.queue)) == Outcome(p, r, data, |p.free|)
  {
    hide Bufs, Consecutive, Queued, Single, View, Fitted, Places, DeliverRun, Following, Msgs, Windowed, Enqueue;
    var n := Following(r);
    var (p1, q1) := Enqueue(p, r.queue, data);
    FollowingIs(r);
    AcceptHolds(p, r, data);
    EnqueueKept(p, r.queue, data, PendHeld(r.pend));
    EnqueueMsgs(p, r, data, Next16(r.seqno), n);
    PlacesLeft(p, r.queue);
    PlacesLeft(p1, q1);
    DeliverRunQueues(p1, Rx(Next16(r.seqno), q1, r.pend), n);
    if Takes(p, r.queue, data) {
      var rest := Fitted(Msgs(p, r.pend.reorder, Next16(r.seqno), n), Places(q1), |p1.free|);
      assert Queued(p, r.queue) + [data] + rest == Queued(p, r.queue) + ([data] + rest);
    }
  }

  // Queueing a message leaves those that wait as they are.
  lemma EnqueueMsgs(p: Pool, r: Rx, data: bytes, next: u16, n: nat)
    requires QueueOk(r.queue) && ReorderOk(r.pend.reorder) && Holds(p, Held(r)) && Consecutive(r.pend.reorder, next, n)
    ensures Msgs(Enqueue(p, r.queue, data).0, r.pend.reorder, next, n) == Msgs(p, r.pend.reorder, next, n)
  {
    hide Bufs, Consecutive, Queued, Single, View, Msgs, Enqueue;
    var p1 := Enqueue(p, r.queue, data).0;
    EnqueueKept(p, r.queue, data, PendHeld(r.pend));
    AllWaiting(r.pend.reorder, next, n);
    forall k | 0 <= k < REORDER_SLOTS && r.pend.reorder[k].meta.valid
      ensures View(p1, r.pend.reorder[k]) == View(p, r.pend.reorder[k]) {
      BufsMember(r.pend.reorder, k);
      ViewSpared(p, p1, r.pend.reorder[k]);
    }
    MsgsSame(p, r.pend.reorder, p1, r.pend.reorder, next, n);
  }

  // ----- any frame -----

  // The message a frame completes: its own data, or what the assembly it fills makes.
  ghost function HandsUp(p: Pool, r: Rx, fp: nat, f: Frame): Option<bytes>
    requires Fine(p, r)
  {
    var k := FindFrag(r.pend.frags, f.seqno, 0);
    if f.total <= 1 then Some(f.data)
    else if k == -1 || !Wanted(r.pend.frags[k].meta, fp, f.idx, f.data)
            || |r.pend.frags[k].meta.got| + 1 != r.pend.frags[k].meta.total
    then None
    else
      var (p2, frags2) := StorePiece(p, r.pend.frags, k, fp, f.idx, f.data);
      match Packed(p2, frags2[k], fp)
      case Overrun => None
      case Moved(buf, pos) => Some(buf[..pos])
  }

  // What handing a message to an ordered channel does to the queue and the number wanted.
  ghost predicate Handed(p: Pool, r: Rx, p': Pool, r': Rx, seqno: u16, data: bytes)
    requires QueueOk(r.queue) && QueueOk(r'.queue) && |r.pend.reorder| == REORDER_SLOTS
  {
    if seqno == r.seqno then (r'.seqno, Queued(p', r'.queue)) == Outcome(p, r, data, |p.free|)
    else r'.seqno == r.seqno && Queued(p', r'.queue) == Queued(p, r.queue)
  }

  lemma FeedWholeQueues(p: Pool, r: Rx, seqno: u16, data: bytes)
    requires Fine(p, r)
    ensures var (p', r') := FeedWhole(p, r, true, seqno, data);
            QueueOk(r'.queue) && Handed(p, r, p', r', seqno, data)
  {
    hide Bufs, Queued, Single, View, Places, Following, Msgs, Windowed, Accept, InTurn;
    if seqno == r.seqno {
      AcceptQueues(p, r, data);
    } else {
      var others := Bufs(r.queue.cells) + Bufs(r.pend.frags);
      assert Held(r) == Bufs(r.pend.reorder) + others;
      StashKept(p, r.pend, r.seqno, seqno, data, others);
      QueuedSpared(p, Stash(p, r.pend, r.seqno, seqno, data).0, r.queue);
    }
  }

  lemma QueuedSpared(p: Pool, p': Pool, q: Queue)
    requires QueueOk(q) && PoolOk(p) && Spared(p, p', Bufs(q.cells))
    ensures Queued(p', q) == Queued(p, q)
  {
    RunSpared(p, p', q.cells, q.head, Ahead(q.tail, q.head));
  }

  // Nothing that is queued or waits was touched.
  ghost predicate Untouched(p: Pool, r: Rx, p': Pool, r': Rx)
    requires QueueOk(r.queue) && |r.pend.reorder| == REORDER_SLOTS
  {
    && r'.queue == r.queue && r'.seqno == r.seqno && r'.pend.reorder == r.pend.reorder
    && Queued(p', r.queue) == Queued(p, r.queue)
    && forall k :: 0 <= k < REORDER_SLOTS && r.pend.reorder[k].meta.valid ==>
         View(p', r.pend.reorder[k]) == View(p, r.pend.reorder[k])
  }

  lemma SparedUntouched(p: Pool, r: Rx, p': Pool, r': Rx)
    requires QueueOk(r.queue) && ReorderOk(r.pend.reorder) && PoolOk(p)
    requires r'.queue == r.queue && r'.seqno == r.seqno && r'.pend.reorder == r.pend.reorder
    requires Spared(p, p', Bufs(r.queue.cells) + Bufs(r.pend.reorder))
    ensures Untouched(p, r, p', r')
  {
    hide Bufs, View, Queued;
    QueuedSpared(p, p', r.queue);
    forall k | 0 <= k < REORDER_SLOTS && r.pend.reorder[k].meta.valid
      ensures View(p', r.pend.reorder[k]) == View(p, r.pend.reorder[k]) {
      BufsMember(r.pend.reorder, k);
      ViewSpared(p, p', r.pend.reorder[k]);
    }
  }

  lemma UntouchedQueue(p: Pool, r: Rx, p': Pool, r': Rx)
    requires QueueOk(r.queue) && |r.pend.reorder| == REORDER_SLOTS && Untouched(p, r, p', r')
    ensures r'.queue == r.queue && Queued(p', r.queue) == Queued(p, r.queue)
  {
  }

  // So the outcome of a message in turn is the same as before.
  lemma OutcomeSame(p: Pool, r: Rx, p': Pool, r': Rx, data: bytes, free: nat)
    requires QueueOk(r.queue) && |r.pend.reorder| == REORDER_SLOTS && Windowed(r.pend.reorder, r.seqno, 1)
    requires Untouched(p, r, p', r')
    ensures Outcome(p', r', data, free) == Outcome(p, r, data, free)
  {
    hide Queued, View, Places, Windowed, InTurn, Following, QueueOk, Consecutive;
    FollowingIs(r);
    SameFollowing(r, r');
    AllWaiting(r.pend.reorder, Next16(r.seqno), Following(r));
    MsgsSame(p, r.pend.reorder, p', r.pend.reorder, Next16(r.seqno), Following(r));
  }

  lemma HandedAfter(p: Pool, r: Rx, p1: Pool, r1: Rx, p': Pool, r': Rx, seqno: u16, data: bytes)
    requires QueueOk(r.queue) && QueueOk(r'.queue) && |r.pend.reorder| == REORDER_SLOTS && Windowed(r.pend.reorder, r.seqno, 1)
    requires Untouched(p, r, p1, r1) && |p1.free| == |p.free| && Handed(p1, r1, p', r', seqno, data)
    ensures Handed(p, r, p', r', seqno, data)
  {
    hide Queued, View, Windowed, Outcome, QueueOk;
    OutcomeSame(p, r, p1, r1, data, |p.free|);
  }

  lemma SameFollowing(r: Rx, r': Rx)
    requires |r.pend.reorder| == REORDER_SLOTS && r'.pend.reorder == r.pend.reorder && r'.seqno == r.seqno
    ensures Following(r') == Following(r)
  {
  }

  lemma WriteUntouched(p: Pool, r: Rx, k: nat, at: nat, data: bytes, frags: seq<FragCell>)
    requires Fine(p, r) && k < FRAG_SLOTS && r.pend.frags[k].meta.active && at + |data| <= MAX_MSG
    ensures var p' := Write(p, r.pend.frags[k].buf, at, data);
            Untouched(p, r, p', WithFrags(r, frags)) && p'.free == p.free
  {
    hide Bufs, Windowed, Single, Untouched;
    SplitHeld(r, multiset{});
    WriteSlot(p, r.pend.frags, k, at, data, Others(r, multiset{}));
    SparedUntouched(p, r, Write(p, r.pend.frags[k].buf, at, data), WithFrags(r, frags));
  }

  lemma FinishQueues(p: Pool, r: Rx, fp: nat, k: nat)
    requires Fine(p, r) && k < FRAG_SLOTS && r.pend.frags[k].meta.active && Packed(p, r.pend.frags[k], fp).Moved?
    ensures var (p', r') := Finish(p, r, true, fp, k); var packed := Packed(p, r.pend.frags[k], fp);
            QueueOk(r'.queue) && Handed(p, r, p', r', r.pend.frags[k].meta.seqno, packed.buf[..packed.pos])
  {
    hide Fine, Bufs, FeedWhole, CompactFrom, Handed, Untouched;
    FineOk(p, r);
    var c := r.pend.frags[k];
    var packed := Packed(p, c, fp);
    var p1, msg := Write(p, c.buf, 0, packed.buf), packed.buf[..packed.pos];
    SlotSized(p, r, k);
    RewriteFine(p, r, k, 0, packed.buf);
    WriteUntouched(p, r, k, 0, packed.buf, r.pend.frags);
    FeedWholeFine(p1, r, true, c.meta.seqno, msg);
    FeedWholeQueues(p1, r, c.meta.seqno, msg);
    var (p2, r2) := FeedWhole(p1, r, true, c.meta.seqno, msg);
    FineOk(p2, r2);
    assert WithFrags(r, r.pend.frags) == r;
    HandedAfter(p, r, p1, r, p2, r2, c.meta.seqno, msg);
    var (p3, frags3) := FreeFrag(p2, r2.pend.frags, k);
    SameStoreQueued(p2, p3, r2.queue);
    HandedSame(p, r, p2, r2, p3, WithFrags(r2, frags3), c.meta.seqno, msg);
  }

  lemma FineOk(p: Pool, r: Rx)
    requires Fine(p, r)
    ensures RxOk(r) && PoolOk(p) && Windowed(r.pend.reorder, r.seqno, 1) && !p.spilled
  {
  }

  lemma HandedSame(p: Pool, r: Rx, p1: Pool, r1: Rx, p2: Pool, r2: Rx, seqno: u16, data: bytes)
    requires QueueOk(r.queue) && QueueOk(r1.queue) && |r.pend.reorder| == REORDER_SLOTS
    requires Handed(p, r, p1, r1, seqno, data)
    requires r2.queue == r1.queue && r2.seqno == r1.seqno && Queued(p2, r1.queue) == Queued(p1, r1.queue)
    ensures Handed(p, r, p2, r2, seqno, data)
  {
  }

  // Main result: what any frame does to the queue of an ordered channel. If it completes the
  // message wanted, that message and those waiting behind it are consumed, and queued are
  // exactly those that fit; otherwise nothing is consumed or queued.
  lemma FrameQueues(p: Pool, r: Rx, fp: nat, f: Frame)
    requires Fine(p, r)
    ensures var (p', r') := FeedData(p, r, true, fp, f.seqno, f.idx, f.total, f.data);
            !p'.spilled ==>
              QueueOk(r'.queue)
              && match HandsUp(p, r, fp, f)
                 case Some(data) => Handed(p, r, p', r', f.seqno, data)
                 case None => r'.seqno == r.seqno && Queued(p', r'.queue) == Queued(p, r.queue)
  {
    hide Fine, FeedWhole, FeedPiece, Handed;
    FineOk(p, r);
    if f.total <= 1 {
      FeedWholeQueues(p, r, f.seqno, f.data);
    } else {
      PieceQueues(p, r, fp, f);
    }
  }

  lemma ClaimKnown(p: Pool, frags: seq<FragCell>, seqno: u16, total: nat)
    ensures var (p1, frags1, k) := Claim(p, frags, seqno, total); var j := FindFrag(frags, seqno, 0);
            && p1.store == p.store
            && (j != -1 ==> p1 == p && frags1 == frags && k == j)
            && (j == -1 && k != -1 ==> 0 <= k < |frags1| && frags1[k].meta == Fresh(seqno, total, true))
  {
  }

  lemma PieceQueues(p: Pool, r: Rx, fp: nat, f: Frame)
    requires Fine(p, r) && f.total > 1
    ensures var (p', r') := FeedPiece(p, r, true, fp, f.seqno, f.idx, f.total, f.data);
            !p'.spilled ==>
              QueueOk(r'.queue)
              && match HandsUp(p, r, fp, f)
                 case Some(data) => Handed(p, r, p', r', f.seqno, data)
                 case None => r'.seqno == r.seqno && Queued(p', r'.queue) == Queued(p, r.queue)
  {
    hide Fine, Claim, StorePiece, Packed, Finish, Handed, FindFrag, QueueOk, ReorderOk, Queued, Untouched;
    FineOk(p, r);
    var (p1, frags1, k) := Claim(p, r.pend.frags, f.seqno, f.total);
    ClaimFine(p, r, f.seqno, f.total);
    ClaimKnown(p, r.pend.frags, f.seqno, f.total);
    var r1 := WithFrags(r, frags1);
    SameStoreQueued(p, p1, r.queue);
    if k != -1 && Wanted(frags1[k].meta, fp, f.idx, f.data) {
      FineOk(p1, r1);
      StoredQueues(p1, r1, fp, k, f);
      if FindFrag(r.pend.frags, f.seqno, 0) != -1 {
        assert r1 == r;
      }
    }
  }

  lemma StoredQueues(p: Pool, r: Rx, fp: nat, k: nat, f: Frame)
    requires Fine(p, r) && k < FRAG_SLOTS && Wanted(r.pend.frags[k].meta, fp, f.idx, f.data)
    ensures var (p2, frags2) := StorePiece(p, r.pend.frags, k, fp, f.idx, f.data); var r2 := WithFrags(r, frags2);
            && Fine(p2, r2) && frags2[k].meta.active && frags2[k].meta.seqno == r.pend.frags[k].meta.seqno
            && |frags2[k].meta.got| == |r.pend.frags[k].meta.got| + 1 && frags2[k].meta.total == r.pend.frags[k].meta.total
            && Queued(p2, r2.queue) == Queued(p, r.queue)
            && (Packed(p2, frags2[k], fp).Moved? ==>
                  var (p', r') := Finish(p2, r2, true, fp, k); var packed := Packed(p2, frags2[k], fp);
                  QueueOk(r'.queue) && Handed(p, r, p', r', r.pend.frags[k].meta.seqno, packed.buf[..packed.pos]))
            && (Packed(p2, frags2[k], fp).Overrun? ==> Finish(p2, r2, true, fp, k).0.spilled)
  {
    hide Fine, CompactFrom, Handed, FindFrag, QueueOk, Queued, FeedWhole, Untouched;
    FineOk(p, r);
    var (p2, frags2) := StorePiece(p, r.pend.frags, k, fp, f.idx, f.data);
    var r2 := WithFrags(r, frags2);
    StorePieceFine(p, r, k, fp, f.idx, f.data);
    WriteUntouched(p, r, k, f.idx * fp, f.data, frags2);
    FineOk(p2, r2);
    UntouchedQueue(p, r, p2, r2);
    if Packed(p2, frags2[k], fp).Moved? {
      FinishQueues(p2, r2, fp, k);
      var (p', r') := Finish(p2, r2, true, fp, k);
      var packed := Packed(p2, frags2[k], fp);
      HandedAfter(p, r, p2, r2, p', r', r.pend.frags[k].meta.seqno, packed.buf[..packed.pos]);
    }
  }
}
