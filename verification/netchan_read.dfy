// Reading from a receiving channel, and the byte count its advertised window rests on.
module NetchanRead {
  import opened Bytes
  import opened NetchanPool
  import opened NetchanRecv

  // The oldest queued message, cut to what the reader has room for; its buffer goes back.
  function Dequeue(p: Pool, q: Queue, room: nat): (Pool, Queue, bytes)
    requires PoolOk(p) && QueueOk(q)
  {
    if q.head == q.tail then (p, q, [])
    else
      var c := q.cells[q.head];
      var n := Min(c.len, room);
      (Put(p, c.buf),
       Queue(q.cells[q.head := Cell(NOBUF, 0, ())], NextIx(q.head), q.tail, Minus32(q.buffered, n)),
       if 0 <= c.buf < POOL_BUFS then p.store[c.buf][..n] else [])
  }

  lemma PopOk(q: Queue, buffered: u32)
    requires QueueOk(q) && q.head != q.tail
    ensures QueueOk(Queue(q.cells[q.head := Cell(NOBUF, 0, ())], NextIx(q.head), q.tail, buffered))
    ensures Ahead(q.tail, q.head) == Ahead(q.tail, NextIx(q.head)) + 1
    ensures q.cells[q.head].buf != NOBUF
  {
  }

  // A run that starts after position j does not see a change there.
  lemma {:induction false} RunAfter(p: Pool, cells: seq<Cell<()>>, i: nat, n: nat, j: nat, c: Cell<()>)
    requires |cells| == RECV_QUEUE && i < RECV_QUEUE && j < RECV_QUEUE
    requires n <= Ahead(j, i)
    ensures Run(p, cells[j := c], i, n) == Run(p, cells, i, n)
    decreases n
  {
    if n > 0 {
      RunAfter(p, cells, NextIx(i), n - 1, j, c);
    }
  }

  lemma DequeueBufs(p: Pool, q: Queue, room: nat, rest: multiset<int>)
    requires QueueOk(q) && Holds(p, Bufs(q.cells) + rest) && q.head != q.tail
    ensures var (p', q', data) := Dequeue(p, q, room);
            && QueueOk(q') && p'.store == p.store
            && Kept(p, Bufs(q.cells) + rest, p', Bufs(q'.cells) + rest)
            && 0 <= q.cells[q.head].buf < POOL_BUFS
  {
    hide Bufs;
    var (p', q', data) := Dequeue(p, q, room);
    var c := q.cells[q.head];
    PopOk(q, q'.buffered);
    SlotGiven(q.cells, q.head, Cell(NOBUF, 0, ()), rest);
    PutKept(p, c.buf, Bufs(q'.cells) + rest);
    assert 0 <= c.buf < POOL_BUFS by {
      assert (FreeBag(p) + (Bufs(q.cells) + rest))[c.buf] >= 1;
    }
  }

  lemma DequeueFront(p: Pool, q: Queue, room: nat)
    requires QueueOk(q) && PoolOk(p) && q.head != q.tail && 0 <= q.cells[q.head].buf < POOL_BUFS
    ensures var (p', q', data) := Dequeue(p, q, room);
            && QueueOk(q')
            && Queued(p, q) != []
            && Queued(p', q') == Queued(p, q)[1..]
            && data == Queued(p, q)[0][..Min(|Queued(p, q)[0]|, room)]
  {
    var (p', q', data) := Dequeue(p, q, room);
    PopOk(q, q'.buffered);
    RunAfter(p', q.cells, q'.head, Ahead(q'.tail, q'.head), q.head, Cell(NOBUF, 0, ()));
    SameStoreQueued(p, p', q);
  }

  // A read takes the front of the ring and nothing else.
  lemma DequeueKept(p: Pool, q: Queue, room: nat, rest: multiset<int>)
    requires QueueOk(q) && Holds(p, Bufs(q.cells) + rest) && q.head != q.tail
    ensures var (p', q', data) := Dequeue(p, q, room);
            && QueueOk(q') && p'.store == p.store
            && Kept(p, Bufs(q.cells) + rest, p', Bufs(q'.cells) + rest)
            && Queued(p, q) != []
            && Queued(p', q') == Queued(p, q)[1..]
            && data == Queued(p, q)[0][..Min(|Queued(p, q)[0]|, room)]
  {
    hide Bufs, Queued, Dequeue, Single, Kept;
    DequeueBufs(p, q, room, rest);
    DequeueFront(p, q, room);
  }

  // What the reader takes leaves the queue for the log, whatever room it gave.
  lemma ReadTrue(p: Pool, r: Rx, room: nat, w: seq<bytes>, log: seq<bytes>)
    requires QueueOk(r.queue) && Holds(p, Held(r)) && r.queue.head != r.queue.tail
    requires LogTrue(p, r.seqno, r.queue, w, log)
    ensures Queued(p, r.queue) != []
    ensures var (p', q', data) := Dequeue(p, r.queue, room);
            QueueOk(q') && LogTrue(p', r.seqno, q', w, log + [Queued(p, r.queue)[0]])
  {
    hide Run, Queued, Bufs, Subseq;
    DequeueKept(p, r.queue, room, PendHeld(r.pend));
    var (p', q', data) := Dequeue(p, r.queue, room);
    var queued := Queued(p, r.queue);
    assert log + queued == log + [queued[0]] + queued[1..];
  }

  // ----- the byte count -----

  ghost function Total(ms: seq<bytes>): nat {
    if ms == [] then 0 else |ms[0]| + Total(ms[1..])
  }

  lemma {:induction false} TotalAppend(ms: seq<bytes>, m: bytes)
    ensures Total(ms + [m]) == Total(ms) + |m|
  {
    if ms == [] {
      assert ms + [m] == [m] && [m][1..] == [];
    } else {
      assert (ms + [m])[1..] == ms[1..] + [m];
      TotalAppend(ms[1..], m);
    }
  }

  lemma {:induction false} RunBounded(p: Pool, cells: seq<Cell<()>>, i: nat, n: nat)
    requires |cells| == RECV_QUEUE && i < RECV_QUEUE && PoolOk(p)
    ensures Total(Run(p, cells, i, n)) <= n * MAX_MSG
    decreases n
  {
    if n > 0 {
      RunBounded(p, cells, NextIx(i), n - 1);
      assert Run(p, cells, i, n)[1..] == Run(p, cells, NextIx(i), n - 1);
    }
  }

  // The count says how many bytes wait in the ring.
  ghost predicate Counted(p: Pool, q: Queue)
    requires QueueOk(q)
  {
    q.buffered == Total(Queued(p, q))
  }

  lemma EnqueueCounted(p: Pool, q: Queue, data: bytes, rest: multiset<int>)
    requires QueueOk(q) && Holds(p, Bufs(q.cells) + rest) && Counted(p, q)
    ensures var (p', q') := Enqueue(p, q, data); QueueOk(q') && Counted(p', q')
  {
    hide Run, Queued;
    EnqueueKept(p, q, data, rest);
    var (p', q') := Enqueue(p, q, data);
    TotalAppend(Queued(p, q), data);
    assert Total(Queued(p, q)) <= 63 * MAX_MSG by {
      CountBounded(p, q);
    }
    EnqueueLength(p, q, data, rest);
  }

  lemma CountBounded(p: Pool, q: Queue)
    requires QueueOk(q) && PoolOk(p)
    ensures Total(Queued(p, q)) <= 63 * MAX_MSG
  {
    RunBounded(p, q.cells, q.head, Ahead(q.tail, q.head));
  }

  lemma {:induction false} RunLength(p: Pool, cells: seq<Cell<()>>, i: nat, n: nat)
    requires |cells| == RECV_QUEUE && i < RECV_QUEUE
    ensures |Run(p, cells, i, n)| == n
    decreases n
  {
    if n > 0 {
      RunLength(p, cells, NextIx(i), n - 1);
    }
  }

  // The ring grows by one exactly when the message was taken.
  lemma EnqueueLength(p: Pool, q: Queue, data: bytes, rest: multiset<int>)
    requires QueueOk(q) && Holds(p, Bufs(q.cells) + rest)
    ensures var (p', q') := Enqueue(p, q, data);
            && QueueOk(q')
            && |Queued(p', q')| == |Queued(p, q)| + if q' == q then 0 else 1
  {
    EnqueueKept(p, q, data, rest);
    var (p', q') := Enqueue(p, q, data);
    RunLength(p, q.cells, q.head, Ahead(q.tail, q.head));
    RunLength(p', q'.cells, q'.head, Ahead(q'.tail, q'.head));
    if q' != q {
      PushOk(q, Cell(Get(p).1, |data|, ()), q'.buffered);
    }
  }

  // The count stays right exactly when the reader had room for the whole message: a cut-off
  // read takes only the part handed over off the count.
  lemma CountKeptIff(p: Pool, q: Queue, room: nat, rest: multiset<int>)
    requires QueueOk(q) && Holds(p, Bufs(q.cells) + rest) && q.head != q.tail && Counted(p, q)
    ensures var (p', q', data) := Dequeue(p, q, room);
            && QueueOk(q')
            && (Counted(p', q') <==> q.cells[q.head].len <= room)
  {
    hide Run, Queued;
    DequeueKept(p, q, room, rest);
    CountBounded(p, q);
    FrontLength(p, q, rest);
  }

  lemma FrontLength(p: Pool, q: Queue, rest: multiset<int>)
    requires QueueOk(q) && Holds(p, Bufs(q.cells) + rest) && q.head != q.tail
    ensures Queued(p, q) != [] && |Queued(p, q)[0]| == q.cells[q.head].len
  {
    BufsMember(q.cells, q.head);
    assert (FreeBag(p) + (Bufs(q.cells) + rest))[q.cells[q.head].buf] >= 1;
  }

  // It happens: one message queued on a new channel and read with too little room leaves the
  // queue empty and the rest of it counted.
  lemma CutReadMiscounts(p: Pool, r: Rx, data: bytes, room: nat)
    requires Empty(r) && Holds(p, multiset{}) && p.free != [] && room < |data| <= MAX_MSG
    ensures var (p1, q1) := Enqueue(p, r.queue, data);
            && PoolOk(p1) && QueueOk(q1)
            && var (p2, q2, got) := Dequeue(p1, q1, room);
               QueueOk(q2) && Queued(p2, q2) == [] && got == data[..room] && q2.buffered == |data| - room > 0
  {
    hide Queued, Single;
    EmptyOk(p, r);
    assert Bufs(r.queue.cells) == multiset{} by { BufsNone(r.queue.cells); }
    assert Bufs(r.queue.cells) + multiset{} == multiset{};
    EnqueueKept(p, r.queue, data, multiset{});
    var (p1, q1) := Enqueue(p, r.queue, data);
    KeptHolds(p, Bufs(r.queue.cells) + multiset{}, p1, Bufs(q1.cells) + multiset{});
    assert Queued(p1, q1) == [data];
    DequeueKept(p1, q1, room, multiset{});
  }
}
