// The receiving half of a netchan channel: the delivery ring, the reorder window and the
// fragment assemblies, all over buffers borrowed from the shared pool.
module NetchanRecv {
  import opened Bytes
  import opened NetchanPool
  import opened NetchanFrag

  const RECV_QUEUE := 64
  const REORDER_SLOTS := 64
  const FRAG_SLOTS := 4

  datatype Queue = Queue(cells: seq<Cell<()>>, head: nat, tail: nat, buffered: u32)
  datatype ReoMeta = ReoMeta(seqno: u16, valid: bool)
  datatype FragMeta = FragMeta(seqno: u16, total: nat, got: set<nat>, sizes: seq<nat>, active: bool)

  // Everything that arrives out of turn.
  datatype Pending = Pending(reorder: seq<Cell<ReoMeta>>, frags: seq<Cell<FragMeta>>)

  datatype Rx = Rx(seqno: u16, queue: Queue, pend: Pending)

  function NextIx(i: nat): nat {
    if i + 1 == RECV_QUEUE then 0 else i + 1
  }

  // How many ring positions i lies past head.
  function Ahead(i: int, head: int): int {
    if i >= head then i - head else i - head + RECV_QUEUE
  }

  ghost predicate QueueOk(q: Queue) {
    && |q.cells| == RECV_QUEUE && q.head < RECV_QUEUE && q.tail < RECV_QUEUE
    && forall i :: 0 <= i < RECV_QUEUE ==>
         && (q.cells[i].buf != NOBUF <==> Ahead(i, q.head) < Ahead(q.tail, q.head))
         && q.cells[i].len <= MAX_MSG
  }

  ghost predicate ReorderOk(cells: seq<Cell<ReoMeta>>) {
    && |cells| == REORDER_SLOTS
    && forall i :: 0 <= i < REORDER_SLOTS ==> (cells[i].buf != NOBUF <==> cells[i].meta.valid)
  }

  ghost predicate FragsOk(cells: seq<Cell<FragMeta>>) {
    && |cells| == FRAG_SLOTS
    && forall i :: 0 <= i < FRAG_SLOTS ==>
         && (cells[i].buf != NOBUF <==> cells[i].meta.active)
         && |cells[i].meta.sizes| == MAX_FRAGS
         && (cells[i].meta.active ==> cells[i].meta.total <= MAX_FRAGS)
  }

  ghost predicate RxOk(r: Rx) {
    QueueOk(r.queue) && ReorderOk(r.pend.reorder) && FragsOk(r.pend.frags)
  }

  ghost function PendHeld(d: Pending): multiset<int> {
    Bufs(d.reorder) + Bufs(d.frags)
  }

  ghost function Held(r: Rx): multiset<int> {
    Bufs(r.queue.cells) + PendHeld(r.pend)
  }

  // ----- the delivery ring -----

  // Hand a message up: dropped when the ring is full, the message too big, or no buffer free.
  function Enqueue(p: Pool, q: Queue, data: bytes): (Pool, Queue)
    requires q.tail < |q.cells|
  {
    var (p1, b) := Get(p);
    if NextIx(q.tail) == q.head || |data| > MAX_MSG || b == NOBUF then (p, q)
    else (Write(p1, b, 0, data),
          Queue(q.cells[q.tail := Cell(b, |data|, ())], q.head, NextIx(q.tail), Plus32(q.buffered, |data|)))
  }

  // The queued messages from ring position i on, n of them.
  ghost function Run(p: Pool, cells: seq<Cell<()>>, i: nat, n: nat): seq<bytes>
    requires |cells| == RECV_QUEUE && i < RECV_QUEUE
    decreases n
  {
    if n == 0 then [] else [View(p, cells[i])] + Run(p, cells, NextIx(i), n - 1)
  }

  ghost function Queued(p: Pool, q: Queue): seq<bytes>
    requires QueueOk(q)
  {
    Run(p, q.cells, q.head, Ahead(q.tail, q.head))
  }

  lemma {:induction false} RunSpared(p: Pool, p': Pool, cells: seq<Cell<()>>, i: nat, n: nat)
    requires |cells| == RECV_QUEUE && i < RECV_QUEUE && PoolOk(p) && Spared(p, p', Bufs(cells))
    ensures Run(p', cells, i, n) == Run(p, cells, i, n)
    decreases n
  {
    if n > 0 {
      if cells[i].buf != NOBUF { BufsMember(cells, i); }
      RunSpared(p, p', cells, NextIx(i), n - 1);
    }
  }

  // A run that ends before position j does not see a change there; one that reaches it is
  // extended by it.
  lemma {:induction false} RunAppend(p: Pool, cells: seq<Cell<()>>, i: nat, n: nat, j: nat, c: Cell<()>)
    requires |cells| == RECV_QUEUE && i < RECV_QUEUE && j < RECV_QUEUE
    requires n == Ahead(j, i)
    ensures Run(p, cells[j := c], i, n + 1) == Run(p, cells, i, n) + [View(p, c)]
    decreases n
  {
    if n == 0 {
      assert Run(p, cells[j := c], NextIx(i), 0) == [];
    } else {
      RunAppend(p, cells, NextIx(i), n - 1, j, c);
    }
  }

  lemma PushOk(q: Queue, c: Cell<()>, buffered: u32)
    requires QueueOk(q) && NextIx(q.tail) != q.head && c.buf != NOBUF && c.len <= MAX_MSG
    ensures QueueOk(Queue(q.cells[q.tail := c], q.head, NextIx(q.tail), buffered))
    ensures Ahead(NextIx(q.tail), q.head) == Ahead(q.tail, q.head) + 1
    ensures Bufs(q.cells[q.tail := c]) == Bufs(q.cells) + One(c.buf)
  {
    hide Bufs;
    assert q.cells[q.tail].buf == NOBUF;
    BufsUpdate(q.cells, q.tail, c);
    assert Bufs(q.cells[q.tail := c]) + One(NOBUF) == Bufs(q.cells[q.tail := c]);
  }

  lemma PushQueued(p: Pool, p': Pool, q: Queue, c: Cell<()>, buffered: u32)
    requires QueueOk(q) && NextIx(q.tail) != q.head && c.buf != NOBUF && c.len <= MAX_MSG && PoolOk(p)
    requires Spared(p, p', Bufs(q.cells))
    ensures var q' := Queue(q.cells[q.tail := c], q.head, NextIx(q.tail), buffered);
            QueueOk(q') && Queued(p', q') == Queued(p, q) + [View(p', c)]
  {
    PushOk(q, c, buffered);
    RunAppend(p', q.cells, q.head, Ahead(q.tail, q.head), q.tail, c);
    RunSpared(p, p', q.cells, q.head, Ahead(q.tail, q.head));
  }

  // There is a place in the ring, the message is no longer than a buffer, and one is free.
  predicate Takes(p: Pool, q: Queue, data: bytes) {
    NextIx(q.tail) != q.head && |data| <= MAX_MSG && p.free != []
  }

  lemma FreeIsReal(p: Pool, held: multiset<int>)
    requires Holds(p, held) && p.free != []
    ensures Get(p).1 != NOBUF
  {
    assert Get(p).1 in FreeBag(p);
    assert (FreeBag(p) + held)[NOBUF] == 0;
  }

  // The message becomes the last of the ring exactly when it is taken, and otherwise nothing
  // happens; no buffer goes astray.
  lemma EnqueueKept(p: Pool, q: Queue, data: bytes, rest: multiset<int>)
    requires QueueOk(q) && Holds(p, Bufs(q.cells) + rest)
    ensures var (p', q') := Enqueue(p, q, data);
            && QueueOk(q')
            && Kept(p, Bufs(q.cells) + rest, p', Bufs(q'.cells) + rest)
            && Spared(p, p', Bufs(q.cells) + rest)
            && if Takes(p, q, data) then Queued(p', q') == Queued(p, q) + [data] && |p'.free| == |p.free| - 1
               else p' == p && q' == q
  {
    var held := Bufs(q.cells) + rest;
    var (p', q') := Enqueue(p, q, data);
    if Takes(p, q, data) {
      FreeIsReal(p, held);
      var c := Cell(Get(p).1, |data|, ());
      GetFilled(p, held, data);
      PushOk(q, c, q'.buffered);
      PushQueued(p, p', q, c, q'.buffered);
      assert held + One(c.buf) == Bufs(q'.cells) + rest;
    }
  }

  // ----- the reorder window -----

  // Every waiting message sits in the slot of its number, at least lo and fewer than 64
  // ahead of the next one wanted.
  ghost predicate Windowed(cells: seq<Cell<ReoMeta>>, next: u16, lo: nat) {
    forall i :: 0 <= i < |cells| && cells[i].meta.valid ==>
      cells[i].meta.seqno % REORDER_SLOTS == i && lo <= Dist(cells[i].meta.seqno, next) < REORDER_SLOTS
  }

  // A message ahead of its turn waits in its slot, unless the slot is taken, it is too far
  // ahead, or no buffer is free.
  function Stash(p: Pool, d: Pending, next: u16, seqno: u16, data: bytes): (Pool, Pending)
    requires |d.reorder| == REORDER_SLOTS
  {
    var i := seqno % REORDER_SLOTS;
    var (p1, b) := Get(p);
    if 0 < Dist(seqno, next) < REORDER_SLOTS && !d.reorder[i].meta.valid && |data| <= MAX_MSG && b != NOBUF
    then (Write(p1, b, 0, data), d.(reorder := d.reorder[i := Cell(b, |data|, ReoMeta(seqno, true))]))
    else (p, d)
  }

  lemma StashKept(p: Pool, d: Pending, next: u16, seqno: u16, data: bytes, rest: multiset<int>)
    requires ReorderOk(d.reorder) && Windowed(d.reorder, next, 1)
    requires Holds(p, Bufs(d.reorder) + rest)
    ensures var (p', d') := Stash(p, d, next, seqno, data);
            && ReorderOk(d'.reorder) && Windowed(d'.reorder, next, 1) && d'.frags == d.frags
            && Kept(p, Bufs(d.reorder) + rest, p', Bufs(d'.reorder) + rest)
            && Spared(p, p', Bufs(d.reorder) + rest)
            && (d' == d || (d'.reorder == d.reorder[seqno % REORDER_SLOTS := d'.reorder[seqno % REORDER_SLOTS]]
                            && d'.reorder[seqno % REORDER_SLOTS].meta == ReoMeta(seqno, true)
                            && View(p', d'.reorder[seqno % REORDER_SLOTS]) == data
                            && 0 < Dist(seqno, next) < REORDER_SLOTS))
  {
    hide Bufs;
    var held := Bufs(d.reorder) + rest;
    var (p', d') := Stash(p, d, next, seqno, data);
    if d' == d {
      assert p' == p;
    } else {
      var i := seqno % REORDER_SLOTS;
      var c := d'.reorder[i];
      GetFilled(p, held, data);
      BufsUpdate(d.reorder, i, c);
      assert Bufs(d'.reorder) == Bufs(d.reorder) + One(c.buf);
      assert held + One(c.buf) == Bufs(d'.reorder) + rest;
    }
  }

  function WaitingAt(r: Rx): Cell<ReoMeta>
    requires |r.pend.reorder| == REORDER_SLOTS
  {
    r.pend.reorder[r.seqno % REORDER_SLOTS]
  }

  predicate TurnCome(r: Rx)
    requires |r.pend.reorder| == REORDER_SLOTS
  {
    WaitingAt(r).meta.valid && WaitingAt(r).meta.seqno == r.seqno
  }

  // The waiting message whose turn has come: handed up, its buffer returned.
  function DeliverOne(p: Pool, r: Rx): (Pool, Rx)
    requires PoolOk(p) && |r.pend.reorder| == REORDER_SLOTS && r.queue.tail < |r.queue.cells|
    requires TurnCome(r)
  {
    var i, c := r.seqno % REORDER_SLOTS, WaitingAt(r);
    var data := if 0 <= c.buf < POOL_BUFS && c.len <= MAX_MSG then p.store[c.buf][..c.len] else [];
    var (p1, q1) := Enqueue(p, r.queue, data);
    (Put(p1, c.buf),
     Rx(Next16(r.seqno), q1,
        r.pend.(reorder := r.pend.reorder[i := Cell(NOBUF, c.len, c.meta.(valid := false))])))
  }

  lemma OneOff(r: Rx)
    requires ReorderOk(r.pend.reorder) && TurnCome(r)
    ensures var i, c := r.seqno % REORDER_SLOTS, WaitingAt(r);
            var cells := r.pend.reorder[i := Cell(NOBUF, c.len, c.meta.(valid := false))];
            && ReorderOk(cells) && c.buf != NOBUF && c.buf in Bufs(r.pend.reorder)
            && Bufs(cells) + One(c.buf) == Bufs(r.pend.reorder)
            && |Bufs(cells)| < |Bufs(r.pend.reorder)|
  {
    var i, c := r.seqno % REORDER_SLOTS, WaitingAt(r);
    var gone := Cell(NOBUF, c.len, c.meta.(valid := false));
    BufsUpdate(r.pend.reorder, i, gone);
    BufsMember(r.pend.reorder, i);
    assert Bufs(r.pend.reorder[i := gone]) + One(c.buf) == Bufs(r.pend.reorder) + One(NOBUF) == Bufs(r.pend.reorder);
  }

  // The slot just emptied was the only one for the number passed.
  lemma WindowMoves(r: Rx)
    requires ReorderOk(r.pend.reorder) && TurnCome(r) && Windowed(r.pend.reorder, r.seqno, 0)
    ensures var i, c := r.seqno % REORDER_SLOTS, WaitingAt(r);
            var cells := r.pend.reorder[i := Cell(NOBUF, c.len, c.meta.(valid := false))];
            Windowed(cells, Next16(r.seqno), 0)
  {
  }

  // With no message waiting for its turn, all waiting ones are ahead.
  lemma WindowSettles(r: Rx)
    requires |r.pend.reorder| == REORDER_SLOTS && !TurnCome(r) && Windowed(r.pend.reorder, r.seqno, 0)
    ensures Windowed(r.pend.reorder, r.seqno, 1)
  {
  }

  lemma WindowAdvances(cells: seq<Cell<ReoMeta>>, next: u16)
    requires Windowed(cells, next, 1)
    ensures Windowed(cells, Next16(next), 0)
  {
  }

  lemma DeliverOneKept(p: Pool, r: Rx, rest: multiset<int>)
    requires QueueOk(r.queue) && ReorderOk(r.pend.reorder) && TurnCome(r)
    requires Holds(p, Held(r) + rest)
    ensures var (p', r') := DeliverOne(p, r);
            && QueueOk(r'.queue) && ReorderOk(r'.pend.reorder) && r'.pend.frags == r.pend.frags
            && Kept(p, Held(r) + rest, p', Held(r') + rest)
            && Spared(p, p', Bufs(r.queue.cells) + PendHeld(r'.pend) + rest)
            && (if Takes(p, r.queue, View(p, WaitingAt(r)))
                then Queued(p', r'.queue) == Queued(p, r.queue) + [View(p, WaitingAt(r))] && |p'.free| == |p.free|
                else Queued(p', r'.queue) == Queued(p, r.queue) && |p'.free| == |p.free| + 1)
  {
    hide Bufs, Queued, Run;
    var c, data := WaitingAt(r), View(p, WaitingAt(r));
    var (p', r') := DeliverOne(p, r);
    var others := PendHeld(r.pend) + rest;
    OneOff(r);
    assert Held(r) + rest == Bufs(r.queue.cells) + others;
    assert c.buf in Held(r) + rest;
    assert 0 <= c.buf < POOL_BUFS by { assert (FreeBag(p) + (Held(r) + rest))[c.buf] >= 1; }
    var (p1, q1) := Enqueue(p, r.queue, data);
    EnqueueKept(p, r.queue, data, others);
    KeptHolds(p, Bufs(r.queue.cells) + others, p1, Bufs(q1.cells) + others);
    assert Bufs(q1.cells) + others == Held(r') + rest + One(c.buf);
    PutKept(p1, c.buf, Held(r') + rest);
    KeptThrough(p, Held(r) + rest, p1, Bufs(q1.cells) + others, p', Held(r') + rest);
    SameStoreQueued(p1, p', q1);
  }

  lemma SameStoreQueued(p: Pool, p': Pool, q: Queue)
    requires QueueOk(q) && PoolOk(p) && p'.store == p.store
    ensures Queued(p', q) == Queued(p, q)
  {
    RunSpared(p, p', q.cells, q.head, Ahead(q.tail, q.head));
  }

  // Every waiting message whose turn comes, one after the other.
  function DeliverRun(p: Pool, r: Rx): (Pool, Rx)
    requires PoolOk(p) && QueueOk(r.queue) && ReorderOk(r.pend.reorder) && Holds(p, Held(r))
    decreases |Bufs(r.pend.reorder)|
  {
    if !TurnCome(r) then (p, r)
    else
      var (p1, r1) := DeliverOne(p, r);
      DeliverOneAlone(p, r);
      DeliverRun(p1, r1)
  }

  lemma DeliverOneAlone(p: Pool, r: Rx)
    requires QueueOk(r.queue) && ReorderOk(r.pend.reorder) && TurnCome(r) && Holds(p, Held(r))
    ensures var (p1, r1) := DeliverOne(p, r);
            && QueueOk(r1.queue) && ReorderOk(r1.pend.reorder) && Holds(p1, Held(r1))
            && |Bufs(r1.pend.reorder)| < |Bufs(r.pend.reorder)|
  {
    var (p1, r1) := DeliverOne(p, r);
    assert Held(r) + multiset{} == Held(r) && Held(r1) + multiset{} == Held(r1);
    DeliverOneKept(p, r, multiset{});
    OneOff(r);
    KeptHolds(p, Held(r), p1, Held(r1));
  }

  lemma HoldsLess(p: Pool, held: multiset<int>, rest: multiset<int>)
    requires Holds(p, held + rest)
    ensures Holds(p, held)
  {
    forall b ensures (FreeBag(p) + held)[b] <= (FreeBag(p) + (held + rest))[b] {}
  }

  // ----- what the reader of an honest writer sees -----

  // log is what remains of w after leaving some entries out.
  ghost predicate Subseq(log: seq<bytes>, w: seq<bytes>)
    decreases |w|
  {
    log == []
    || (w != []
        && ((log[|log| - 1] == w[|w| - 1] && Subseq(log[..|log| - 1], w[..|w| - 1]))
            || Subseq(log, w[..|w| - 1])))
  }

  lemma SubseqSkip(log: seq<bytes>, w: seq<bytes>, x: bytes)
    requires Subseq(log, w)
    ensures Subseq(log, w + [x]) && Subseq(log + [x], w + [x])
  {
    assert (w + [x])[..|w|] == w && (log + [x])[..|log|] == log;
  }

  // Waiting messages are the messages of their numbers.
  ghost predicate ReorderTrue(p: Pool, cells: seq<Cell<ReoMeta>>, w: seq<bytes>) {
    forall i :: 0 <= i < |cells| && cells[i].meta.valid ==>
      cells[i].meta.seqno < |w| && View(p, cells[i]) == w[cells[i].meta.seqno]
  }

  // What was read and what is queued is an ordered part of what was consumed, and what was
  // consumed is a prefix of what was written.
  ghost predicate LogTrue(p: Pool, n: u16, q: Queue, w: seq<bytes>, log: seq<bytes>)
    requires QueueOk(q)
  {
    n <= |w| < 0x8000 && Subseq(log + Queued(p, q), w[..n])
  }

  lemma ReorderSpared(p: Pool, p': Pool, cells: seq<Cell<ReoMeta>>, w: seq<bytes>)
    requires ReorderOk(cells) && PoolOk(p) && Spared(p, p', Bufs(cells)) && ReorderTrue(p, cells, w)
    ensures ReorderTrue(p', cells, w)
  {
    forall i | 0 <= i < |cells| && cells[i].meta.valid ensures View(p', cells[i]) == View(p, cells[i]) {
      BufsMember(cells, i);
    }
  }

  // One more message consumed, whether or not it could be queued.
  lemma LogGrows(p: Pool, p': Pool, n: u16, q: Queue, q': Queue, w: seq<bytes>, log: seq<bytes>)
    requires QueueOk(q) && QueueOk(q') && LogTrue(p, n, q, w, log) && n < |w|
    requires Queued(p', q') == Queued(p, q) || Queued(p', q') == Queued(p, q) + [w[n]]
    ensures LogTrue(p', Next16(n), q', w, log)
  {
    assert w[..n + 1] == w[..n] + [w[n]];
    SubseqSkip(log + Queued(p, q), w[..n], w[n]);
    assert log + (Queued(p, q) + [w[n]]) == log + Queued(p, q) + [w[n]];
  }

  // Nothing the log or the waiting messages depend on was written.
  lemma RestSpared(p: Pool, p': Pool, r: Rx, w: seq<bytes>, log: seq<bytes>)
    requires QueueOk(r.queue) && ReorderOk(r.pend.reorder) && PoolOk(p)
    requires Spared(p, p', Bufs(r.queue.cells) + Bufs(r.pend.reorder))
    requires LogTrue(p, r.seqno, r.queue, w, log) && ReorderTrue(p, r.pend.reorder, w)
    ensures LogTrue(p', r.seqno, r.queue, w, log) && ReorderTrue(p', r.pend.reorder, w)
  {
    ReorderSpared(p, p', r.pend.reorder, w);
    RunSpared(p, p', r.queue.cells, r.queue.head, Ahead(r.queue.tail, r.queue.head));
  }

  lemma {:induction false} DeliverRunKept(p: Pool, r: Rx, rest: multiset<int>)
    requires QueueOk(r.queue) && ReorderOk(r.pend.reorder) && Windowed(r.pend.reorder, r.seqno, 0)
    requires Holds(p, Held(r)) && Holds(p, Held(r) + rest)
    ensures var (p', r') := DeliverRun(p, r);
            && QueueOk(r'.queue) && ReorderOk(r'.pend.reorder) && Windowed(r'.pend.reorder, r'.seqno, 1)
            && r'.pend.frags == r.pend.frags
            && Kept(p, Held(r) + rest, p', Held(r') + rest)
            && Spared(p, p', Bufs(r.pend.frags) + rest)
    decreases |Bufs(r.pend.reorder)|
  {
    hide Bufs, Queued, Run, Single;
    if TurnCome(r) {
      var (p1, r1) := DeliverOne(p, r);
      DeliverOneKept(p, r, rest);
      DeliverOneAlone(p, r);
      WindowMoves(r);
      KeptHolds(p, Held(r) + rest, p1, Held(r1) + rest);
      DeliverRunKept(p1, r1, rest);
      var (p', r') := DeliverRun(p1, r1);
      KeptThrough(p, Held(r) + rest, p1, Held(r1) + rest, p', Held(r') + rest);
    } else {
      WindowSettles(r);
    }
  }

  // Delivering what waited keeps the log an ordered part of what was written.
  lemma {:induction false} DeliverRunTrue(p: Pool, r: Rx, w: seq<bytes>, log: seq<bytes>)
    requires QueueOk(r.queue) && ReorderOk(r.pend.reorder) && Windowed(r.pend.reorder, r.seqno, 0)
    requires Holds(p, Held(r))
    requires ReorderTrue(p, r.pend.reorder, w) && LogTrue(p, r.seqno, r.queue, w, log)
    ensures var (p', r') := DeliverRun(p, r);
            QueueOk(r'.queue) && ReorderTrue(p', r'.pend.reorder, w) && LogTrue(p', r'.seqno, r'.queue, w, log)
    decreases |Bufs(r.pend.reorder)|
  {
    hide LogTrue, Queued, Run, Bufs, Kept, Subseq;
    if TurnCome(r) {
      var (p1, r1) := DeliverOne(p, r);
      assert Held(r) + multiset{} == Held(r);
      DeliverOneKept(p, r, multiset{});
      DeliverOneAlone(p, r);
      WindowMoves(r);
      LogGrows(p, p1, r.seqno, r.queue, r1.queue, w, log);
      ReorderSpared(p, p1, r1.pend.reorder, w) by {
        assert ReorderTrue(p, r1.pend.reorder, w);
      }
      DeliverRunTrue(p1, r1, w, log);
    }
  }

  // A message in turn: handed up, then everything that waited for it.
  function Accept(p: Pool, r: Rx, data: bytes): (Pool, Rx)
    requires PoolOk(p) && QueueOk(r.queue) && ReorderOk(r.pend.reorder) && Holds(p, Held(r))
  {
    var (p1, q1) := Enqueue(p, r.queue, data);
    var r1 := Rx(Next16(r.seqno), q1, r.pend);
    AcceptHolds(p, r, data);
    DeliverRun(p1, r1)
  }

  lemma AcceptHolds(p: Pool, r: Rx, data: bytes)
    requires QueueOk(r.queue) && Holds(p, Held(r))
    ensures var (p1, q1) := Enqueue(p, r.queue, data);
            QueueOk(q1) && Holds(p1, Held(Rx(Next16(r.seqno), q1, r.pend)))
  {
    var (p1, q1) := Enqueue(p, r.queue, data);
    EnqueueKept(p, r.queue, data, PendHeld(r.pend));
    KeptHolds(p, Bufs(r.queue.cells) + PendHeld(r.pend), p1, Bufs(q1.cells) + PendHeld(r.pend));
  }

  lemma AcceptKept(p: Pool, r: Rx, data: bytes, rest: multiset<int>)
    requires QueueOk(r.queue) && ReorderOk(r.pend.reorder) && Windowed(r.pend.reorder, r.seqno, 1)
    requires Holds(p, Held(r)) && Holds(p, Held(r) + rest)
    ensures var (p', r') := Accept(p, r, data);
            && QueueOk(r'.queue) && ReorderOk(r'.pend.reorder) && Windowed(r'.pend.reorder, r'.seqno, 1)
            && r'.pend.frags == r.pend.frags
            && Kept(p, Held(r) + rest, p', Held(r') + rest)
            && Spared(p, p', Bufs(r.pend.frags) + rest)
  {
    hide Bufs, Windowed, Single, Queued, Run;
    var (p1, q1) := Enqueue(p, r.queue, data);
    var r1 := Rx(Next16(r.seqno), q1, r.pend);
    AcceptHolds(p, r, data);
    assert Held(r) + rest == Bufs(r.queue.cells) + (PendHeld(r.pend) + rest);
    assert Held(r1) + rest == Bufs(q1.cells) + (PendHeld(r.pend) + rest);
    EnqueueKept(p, r.queue, data, PendHeld(r.pend) + rest);
    KeptHolds(p, Held(r) + rest, p1, Held(r1) + rest);
    WindowAdvances(r.pend.reorder, r.seqno);
    DeliverRunKept(p1, r1, rest);
    var (p', r') := DeliverRun(p1, r1);
    KeptThrough(p, Held(r) + rest, p1, Held(r1) + rest, p', Held(r') + rest);
  }

  lemma AcceptTrue(p: Pool, r: Rx, data: bytes, w: seq<bytes>, log: seq<bytes>)
    requires QueueOk(r.queue) && ReorderOk(r.pend.reorder) && Windowed(r.pend.reorder, r.seqno, 1)
    requires Holds(p, Held(r))
    requires ReorderTrue(p, r.pend.reorder, w) && LogTrue(p, r.seqno, r.queue, w, log)
    requires r.seqno < |w| && data == w[r.seqno]
    ensures var (p', r') := Accept(p, r, data);
            QueueOk(r'.queue) && ReorderTrue(p', r'.pend.reorder, w) && LogTrue(p', r'.seqno, r'.queue, w, log)
  {
    var (p1, q1) := Enqueue(p, r.queue, data);
    var r1 := Rx(Next16(r.seqno), q1, r.pend);
    AcceptHolds(p, r, data);
    EnqueueKept(p, r.queue, data, PendHeld(r.pend));
    WindowAdvances(r.pend.reorder, r.seqno);
    LogGrows(p, p1, r.seqno, r.queue, r1.queue, w, log);
    ReorderSpared(p, p1, r.pend.reorder, w);
    DeliverRunTrue(p1, r1, w, log);
  }

  // ----- a new channel -----

  // No slot of any kind is in use.
  ghost predicate Empty(r: Rx) {
    && r.seqno == 0
    && |r.queue.cells| == RECV_QUEUE && r.queue.head == r.queue.tail == 0 && r.queue.buffered == 0
    && (forall i :: 0 <= i < RECV_QUEUE ==> r.queue.cells[i].buf == NOBUF && r.queue.cells[i].len == 0)
    && |r.pend.reorder| == REORDER_SLOTS
    && (forall i :: 0 <= i < REORDER_SLOTS ==> r.pend.reorder[i].buf == NOBUF && !r.pend.reorder[i].meta.valid)
    && |r.pend.frags| == FRAG_SLOTS
    && (forall i :: 0 <= i < FRAG_SLOTS ==>
          r.pend.frags[i].buf == NOBUF && !r.pend.frags[i].meta.active && |r.pend.frags[i].meta.sizes| == MAX_FRAGS)
  }

  lemma EmptyOk(p: Pool, r: Rx)
    requires Empty(r)
    ensures RxOk(r) && Windowed(r.pend.reorder, r.seqno, 1) && Held(r) == multiset{} && Queued(p, r.queue) == []
  {
    BufsNone(r.queue.cells);
    BufsNone(r.pend.reorder);
    BufsNone(r.pend.frags);
  }
}
