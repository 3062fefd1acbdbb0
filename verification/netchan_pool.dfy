// The netchan message-buffer pool: a stack of free indices and one store of fixed buffers,
// borrowed by the slots of every channel.
module NetchanPool {
  import opened Bytes

  const POOL_BUFS := 64
  const MAX_MSG := 2048
  const NOBUF := -1

  // spilled: some write went past the end of its buffer, into whatever lies behind it. The
  // source has no such flag; it marks where the promise that buffers are apart ends.
  datatype Pool = Pool(free: seq<int>, store: seq<bytes>, spilled: bool)

  // A slot of any kind: the buffer it borrows, how much of it is used, and its bookkeeping.
  datatype Cell<T> = Cell(buf: int, len: nat, meta: T)

  // Every pool index at most once, and nothing else; exactly once.
  ghost predicate Single(bag: multiset<int>) {
    forall b :: bag[b] <= if 0 <= b < POOL_BUFS then 1 else 0
  }

  ghost predicate Whole(bag: multiset<int>) {
    forall b :: bag[b] == if 0 <= b < POOL_BUFS then 1 else 0
  }

  ghost function One(b: int): multiset<int> {
    if b == NOBUF then multiset{} else multiset{b}
  }

  // The buffers a run of slots holds.
  ghost function Bufs<T>(cells: seq<Cell<T>>): multiset<int> {
    if cells == [] then multiset{}
    else Bufs(cells[..|cells| - 1]) + One(cells[|cells| - 1].buf)
  }

  ghost function FreeBag(p: Pool): multiset<int> {
    multiset(p.free)
  }

  ghost predicate PoolOk(p: Pool) {
    && !p.spilled && |p.store| == POOL_BUFS
    && (forall b :: 0 <= b < POOL_BUFS ==> |p.store[b]| == MAX_MSG)
  }

  // What the pool and one holder have between them is part of the pool, each buffer once.
  ghost predicate Holds(p: Pool, held: multiset<int>) {
    PoolOk(p) && Single(FreeBag(p) + held)
  }

  // ----- slots -----

  lemma AddBoth(a: multiset<int>, b: multiset<int>, c: multiset<int>, d: multiset<int>, e: multiset<int>)
    requires a + b == c + d
    ensures a + e + b == c + e + d
  {
    assert a + e + b == a + b + e && c + e + d == c + d + e;
  }

  lemma {:induction false} BufsUpdate<T>(cells: seq<Cell<T>>, i: nat, c: Cell<T>)
    requires i < |cells|
    ensures Bufs(cells[i := c]) + One(cells[i].buf) == Bufs(cells) + One(c.buf)
  {
    var n := |cells| - 1;
    if i < n {
      BufsUpdate(cells[..n], i, c);
      assert cells[i := c][..n] == cells[..n][i := c];
      AddBoth(Bufs(cells[..n][i := c]), One(cells[i].buf), Bufs(cells[..n]), One(c.buf), One(cells[n].buf));
    } else {
      assert cells[i := c][..n] == cells[..n];
    }
  }

  // Filling an empty slot adds its buffer to what is held; emptying one takes it away.
  lemma SlotTaken<T>(cells: seq<Cell<T>>, i: nat, c: Cell<T>, rest: multiset<int>)
    requires i < |cells| && cells[i].buf == NOBUF
    ensures Bufs(cells[i := c]) + rest == Bufs(cells) + rest + One(c.buf)
  {
    hide Bufs;
    BufsUpdate(cells, i, c);
    assert Bufs(cells[i := c]) + One(NOBUF) == Bufs(cells[i := c]);
  }

  lemma SlotGiven<T>(cells: seq<Cell<T>>, i: nat, c: Cell<T>, rest: multiset<int>)
    requires i < |cells| && c.buf == NOBUF
    ensures Bufs(cells) + rest == Bufs(cells[i := c]) + rest + One(cells[i].buf)
  {
    hide Bufs;
    BufsUpdate(cells, i, c);
    assert Bufs(cells) + One(NOBUF) == Bufs(cells);
  }

  lemma {:induction false} BufsMember<T>(cells: seq<Cell<T>>, i: nat)
    requires i < |cells| && cells[i].buf != NOBUF
    ensures cells[i].buf in Bufs(cells)
  {
    var n := |cells| - 1;
    if i < n {
      BufsMember(cells[..n], i);
    }
  }

  lemma BufsLast<T>(cells: seq<Cell<T>>, b: int)
    requires cells != []
    ensures var n := |cells| - 1;
            Bufs(cells)[b] == Bufs(cells[..n])[b] + if cells[n].buf == b != NOBUF then 1 else 0
  {
  }

  lemma {:induction false} BufsPair<T>(cells: seq<Cell<T>>, i: nat, j: nat)
    requires i < j < |cells| && cells[i].buf == cells[j].buf != NOBUF
    ensures Bufs(cells)[cells[i].buf] >= 2
  {
    hide Bufs;
    var n := |cells| - 1;
    BufsLast(cells, cells[i].buf);
    if j < n {
      BufsPair(cells[..n], i, j);
    } else {
      BufsMember(cells[..n], i);
    }
  }

  lemma {:induction false} BufsNone<T>(cells: seq<Cell<T>>)
    requires forall i :: 0 <= i < |cells| ==> cells[i].buf == NOBUF
    ensures Bufs(cells) == multiset{}
  {
    if cells != [] {
      BufsNone(cells[..|cells| - 1]);
    }
  }

  // ----- borrowing and returning -----

  function Get(p: Pool): (Pool, int) {
    if p.free == [] then (p, NOBUF)
    else (p.(free := p.free[..|p.free| - 1]), p.free[|p.free| - 1])
  }

  function Put(p: Pool, b: int): Pool {
    if b == NOBUF then p else p.(free := p.free + [b])
  }

  // Taking a buffer moves it from the pool to the taker, and it was nobody else's.
  lemma GetMoves(p: Pool, held: multiset<int>)
    requires Holds(p, held)
    ensures var (p', b) := Get(p);
            && FreeBag(p') + (held + One(b)) == FreeBag(p) + held
            && (b == NOBUF || (0 <= b < POOL_BUFS && b !in held))
            && Holds(p', held + One(b))
            && p'.store == p.store
  {
    var (p', b) := Get(p);
    if p.free != [] {
      var n := |p.free| - 1;
      assert p.free == p.free[..n] + [b];
      assert b in FreeBag(p);
      assert (FreeBag(p) + held)[b] <= 1;
    }
    assert FreeBag(p') + (held + One(b)) == FreeBag(p) + held;
  }

  lemma PutMoves(p: Pool, b: int, held: multiset<int>)
    requires Holds(p, held + One(b))
    ensures FreeBag(Put(p, b)) + held == FreeBag(p) + (held + One(b))
    ensures Holds(Put(p, b), held)
  {
    assert FreeBag(Put(p, b)) + held == FreeBag(p) + (held + One(b));
  }

  // ----- contents -----

  // Overwrite part of a buffer.
  function Poke(buf: bytes, at: nat, data: bytes): (r: bytes)
    requires at + |data| <= |buf|
    ensures |r| == |buf|
  {
    buf[..at] + data + buf[at + |data|..]
  }

  // Only a write that stays within its buffer is one this model follows.
  function Write(p: Pool, b: int, at: nat, data: bytes): Pool {
    if 0 <= b < |p.store| && at + |data| <= |p.store[b]|
    then p.(store := p.store[b := Poke(p.store[b], at, data)])
    else p.(spilled := true)
  }

  ghost function Content(p: Pool, b: int, len: nat): bytes {
    if 0 <= b < |p.store| && len <= |p.store[b]| then p.store[b][..len] else []
  }

  ghost function View<T>(p: Pool, c: Cell<T>): bytes {
    Content(p, c.buf, c.len)
  }

  // ----- what operations do to pool and holder together -----

  // No buffer is lost, made up or shared, no write leaves its buffer, and no buffer of anyone
  // else is written.
  ghost predicate Kept(p: Pool, held: multiset<int>, p': Pool, held': multiset<int>) {
    && PoolOk(p')
    && FreeBag(p') + held' == FreeBag(p) + held
    && |p'.store| == |p.store|
    && forall b :: 0 <= b < |p.store| && b !in FreeBag(p) + held ==> p'.store[b] == p.store[b]
  }

  // The contents of these buffers are as before.
  ghost predicate Spared(p: Pool, p': Pool, held: multiset<int>) {
    |p'.store| == |p.store| && forall b :: 0 <= b < |p.store| && b in held ==> p'.store[b] == p.store[b]
  }

  lemma KeptHolds(p: Pool, held: multiset<int>, p': Pool, held': multiset<int>)
    requires Holds(p, held) && Kept(p, held, p', held')
    ensures Holds(p', held')
  {
  }

  lemma KeptThrough(p: Pool, h: multiset<int>, p1: Pool, h1: multiset<int>, p2: Pool, h2: multiset<int>)
    requires Kept(p, h, p1, h1) && Kept(p1, h1, p2, h2)
    ensures Kept(p, h, p2, h2)
  {
    forall b | b !in FreeBag(p) + h ensures b !in FreeBag(p1) + h1 {
      assert (FreeBag(p1) + h1)[b] == (FreeBag(p) + h)[b];
    }
  }

  // Holding more than the operation uses changes nothing.
  lemma KeptMore(p: Pool, h: multiset<int>, p': Pool, h': multiset<int>, rest: multiset<int>)
    requires Kept(p, h, p', h')
    ensures Kept(p, h + rest, p', h' + rest)
  {
    assert FreeBag(p') + (h' + rest) == FreeBag(p') + h' + rest;
    assert FreeBag(p) + (h + rest) == FreeBag(p) + h + rest;
  }

  // Borrowing a buffer and filling it; everything already held keeps its contents.
  lemma GetFilled(p: Pool, held: multiset<int>, data: bytes)
    requires Holds(p, held) && p.free != [] && |data| <= MAX_MSG
    ensures var (p1, b) := Get(p); var p2 := Write(p1, b, 0, data);
            && 0 <= b < POOL_BUFS && b !in held
            && Kept(p, held, p2, held + One(b))
            && Spared(p, p2, held)
            && Content(p2, b, |data|) == data
  {
    GetMoves(p, held);
    var (p1, b) := Get(p);
    assert b in FreeBag(p) by {
      assert p.free[|p.free| - 1] == b;
    }
    assert (FreeBag(p) + held)[NOBUF] == 0;
  }

  // Writing into a buffer one holds leaves the others alone.
  lemma WriteHeld(p: Pool, held: multiset<int>, b: int, at: nat, data: bytes)
    requires Holds(p, held) && b in held && at + |data| <= MAX_MSG
    ensures Kept(p, held, Write(p, b, at, data), held)
    ensures Spared(p, Write(p, b, at, data), held - multiset{b})
  {
    assert 1 <= (FreeBag(p) + held)[b] <= 1;
  }

  lemma PutKept(p: Pool, b: int, held: multiset<int>)
    requires Holds(p, held + One(b))
    ensures Kept(p, held + One(b), Put(p, b), held) && Put(p, b).store == p.store
  {
    PutMoves(p, b, held);
  }
}
