// Processing one DATA frame on a receiving channel: in-order delivery, the reorder window,
// and reassembly of fragmented messages.
module NetchanData {
  import opened Bytes
  import opened NetchanPool
  import opened NetchanFrag
  import opened NetchanRecv

  type FragCell = Cell<FragMeta>

  function Fresh(seqno: u16, total: nat, active: bool): FragMeta {
    FragMeta(seqno, total, {}, Zeros(MAX_FRAGS), active)
  }

  // ----- finding and claiming an assembly -----

  // The first assembly from i on that is active for this message.
  function FindFrag(frags: seq<FragCell>, seqno: u16, i: nat): (k: int)
    ensures k == -1 || (i <= k < |frags| && frags[k].meta.active && frags[k].meta.seqno == seqno)
    decreases |frags| - i
  {
    if i >= |frags| then -1
    else if frags[i].meta.active && frags[i].meta.seqno == seqno then i
    else FindFrag(frags, seqno, i + 1)
  }

  function FindIdle(frags: seq<FragCell>, i: nat): (k: int)
    ensures k == -1 || (i <= k < |frags| && !frags[k].meta.active)
    decreases |frags| - i
  {
    if i >= |frags| then -1 else if !frags[i].meta.active then i else FindIdle(frags, i + 1)
  }

  // The assembly for a message: the one at work on it, or an idle one with a new buffer.
  function Claim(p: Pool, frags: seq<FragCell>, seqno: u16, total: nat): (Pool, seq<FragCell>, int) {
    var k, j := FindFrag(frags, seqno, 0), FindIdle(frags, 0);
    var (p1, b) := Get(p);
    if k != -1 then (p, frags, k)
    else if total > MAX_FRAGS || j == -1 || b == NOBUF then (p, frags, -1)
    else (p1, frags[j := Cell(b, 0, Fresh(seqno, total, true))], j)
  }

  lemma ClaimKept(p: Pool, frags: seq<FragCell>, seqno: u16, total: nat, rest: multiset<int>)
    requires FragsOk(frags) && Holds(p, Bufs(frags) + rest)
    ensures var (p', frags', k) := Claim(p, frags, seqno, total);
            && FragsOk(frags') && -1 <= k < FRAG_SLOTS
            && (k != -1 ==> frags'[k].meta.active && frags'[k].meta.seqno == seqno)
            && p'.store == p.store
            && Kept(p, Bufs(frags) + rest, p', Bufs(frags') + rest)
            && (frags' == frags
                || (k != -1 && frags' == frags[k := frags'[k]] && !frags[k].meta.active
                    && frags'[k].meta.total == total && frags'[k].meta.got == {}))
  {
    hide Bufs, FindFrag, FindIdle;
    var held := Bufs(frags) + rest;
    var (p', frags', k) := Claim(p, frags, seqno, total);
    if frags' != frags {
      GetMoves(p, held);
      BufsUpdate(frags, k, frags'[k]);
      assert frags[k].buf == NOBUF;
      assert Bufs(frags') == Bufs(frags) + One(frags'[k].buf);
      assert held + One(frags'[k].buf) == Bufs(frags') + rest;
    } else {
      assert p' == p;
    }
  }

  // ----- storing a piece -----

  // Whether the piece is one the assembly still lacks and has room for.
  predicate Wanted(f: FragMeta, fp: nat, idx: nat, data: bytes) {
    f.active && idx < f.total && idx !in f.got && idx * fp + |data| <= MAX_MSG
  }

  function StorePiece(p: Pool, frags: seq<FragCell>, k: nat, fp: nat, idx: nat, data: bytes): (Pool, seq<FragCell>)
    requires k < |frags| && idx < |frags[k].meta.sizes|
  {
    var c := frags[k];
    (Write(p, c.buf, idx * fp, data),
     frags[k := c.(meta := c.meta.(got := c.meta.got + {idx}, sizes := c.meta.sizes[idx := |data|]))])
  }

  // Replacing a slot's bookkeeping but not its buffer.
  lemma SameBuf(frags: seq<FragCell>, k: nat, c: FragCell)
    requires k < |frags| && c.buf == frags[k].buf
    ensures Bufs(frags[k := c]) == Bufs(frags)
  {
    hide Bufs;
    BufsUpdate(frags, k, c);
    assert Bufs(frags[k := c]) + One(c.buf) - One(c.buf) == Bufs(frags[k := c]);
    assert Bufs(frags) + One(c.buf) - One(c.buf) == Bufs(frags);
  }

  // Writing into the buffer of one assembly spares everything else held.
  lemma WriteSlot(p: Pool, frags: seq<FragCell>, k: nat, at: nat, data: bytes, rest: multiset<int>)
    requires FragsOk(frags) && Holds(p, Bufs(frags) + rest) && k < FRAG_SLOTS && frags[k].meta.active
    requires at + |data| <= MAX_MSG
    ensures var p' := Write(p, frags[k].buf, at, data);
            && 0 <= frags[k].buf < POOL_BUFS
            && Kept(p, Bufs(frags) + rest, p', Bufs(frags) + rest)
            && Spared(p, p', rest)
            && (forall j :: 0 <= j < FRAG_SLOTS && j != k && frags[j].meta.active ==>
                  frags[j].buf != frags[k].buf && 0 <= frags[j].buf < POOL_BUFS)
  {
    var b := frags[k].buf;
    BufsMember(frags, k);
    WriteHeld(p, Bufs(frags) + rest, b, at, data);
    assert (FreeBag(p) + (Bufs(frags) + rest))[b] <= 1;
    forall j | 0 <= j < FRAG_SLOTS && j != k && frags[j].meta.active
      ensures frags[j].buf != b && 0 <= frags[j].buf < POOL_BUFS {
      BufsMember(frags, j);
      assert (FreeBag(p) + (Bufs(frags) + rest))[frags[j].buf] >= 1;
      if frags[j].buf == b {
        BufsPair(frags, Min(j, k), if j < k then k else j);
      }
    }
    assert (FreeBag(p) + (Bufs(frags) + rest))[b] >= 1;
  }

  lemma StorePieceKept(p: Pool, frags: seq<FragCell>, k: nat, fp: nat, idx: nat, data: bytes, rest: multiset<int>)
    requires FragsOk(frags) && Holds(p, Bufs(frags) + rest)
    requires k < FRAG_SLOTS && Wanted(frags[k].meta, fp, idx, data)
    ensures var (p', frags') := StorePiece(p, frags, k, fp, idx, data);
            && FragsOk(frags') && Bufs(frags') == Bufs(frags)
            && Kept(p, Bufs(frags) + rest, p', Bufs(frags') + rest)
            && Spared(p, p', rest)
  {
    var (p', frags') := StorePiece(p, frags, k, fp, idx, data);
    WriteSlot(p, frags, k, idx * fp, data, rest);
    SameBuf(frags, k, frags'[k]);
  }

  // ----- finishing an assembly -----

  predicate Complete(f: FragMeta) {
    |f.got| == f.total
  }

  function Slot(p: Pool, b: int): bytes {
    if 0 <= b < |p.store| then p.store[b] else []
  }

  // The buffer with its pieces moved together.
  function Packed(p: Pool, c: FragCell, fp: nat): Compacted
    requires c.meta.total <= |c.meta.sizes|
  {
    CompactFrom(Slot(p, c.buf), c.meta.sizes, fp, 0, c.meta.total, 0)
  }

  function FreeFrag(p: Pool, frags: seq<FragCell>, k: nat): (Pool, seq<FragCell>)
    requires k < |frags|
  {
    (Put(p, frags[k].buf), frags[k := Cell(NOBUF, 0, Fresh(0, 0, false))])
  }

  lemma FreeFragKept(p: Pool, frags: seq<FragCell>, k: nat, rest: multiset<int>)
    requires FragsOk(frags) && Holds(p, Bufs(frags) + rest) && k < FRAG_SLOTS
    ensures var (p', frags') := FreeFrag(p, frags, k);
            && FragsOk(frags') && p'.store == p.store
            && Kept(p, Bufs(frags) + rest, p', Bufs(frags') + rest)
  {
    hide Bufs;
    var (p', frags') := FreeFrag(p, frags, k);
    var b := frags[k].buf;
    BufsUpdate(frags, k, frags'[k]);
    assert Bufs(frags') + One(b) == Bufs(frags) + One(NOBUF) == Bufs(frags);
    assert Bufs(frags) + rest == Bufs(frags') + rest + One(b);
    PutKept(p, b, Bufs(frags') + rest);
  }

  // ----- one frame -----

  ghost predicate Fine(p: Pool, r: Rx) {
    RxOk(r) && Windowed(r.pend.reorder, r.seqno, 1) && Holds(p, Held(r))
  }

  // A whole message. Without ordering it goes straight up; otherwise up if it is the next,
  // waiting if it is ahead, dropped if it is behind.
  function FeedWhole(p: Pool, r: Rx, ordered: bool, seqno: u16, data: bytes): (Pool, Rx)
    requires Fine(p, r)
  {
    if !ordered then
      var (p1, q1) := Enqueue(p, r.queue, data);
      (p1, r.(queue := q1))
    else if seqno == r.seqno then Accept(p, r, data)
    else
      var (p1, d1) := Stash(p, r.pend, r.seqno, seqno, data);
      (p1, r.(pend := d1))
  }

  lemma FeedWholeKept(p: Pool, r: Rx, ordered: bool, seqno: u16, data: bytes, rest: multiset<int>)
    requires Fine(p, r) && Holds(p, Held(r) + rest)
    ensures var (p', r') := FeedWhole(p, r, ordered, seqno, data);
            && Fine(p', r') && r'.pend.frags == r.pend.frags
            && Kept(p, Held(r) + rest, p', Held(r') + rest)
            && Spared(p, p', Bufs(r.pend.frags) + rest)
  {
    hide Bufs, Windowed, Single, QueueOk, ReorderOk, FragsOk;
    var (p', r') := FeedWhole(p, r, ordered, seqno, data);
    if !ordered {
      assert Held(r) + rest == Bufs(r.queue.cells) + (PendHeld(r.pend) + rest);
      EnqueueKept(p, r.queue, data, PendHeld(r.pend) + rest);
      assert Held(r') + rest == Bufs(r'.queue.cells) + (PendHeld(r.pend) + rest);
    } else if seqno == r.seqno {
      AcceptKept(p, r, data, rest);
    } else {
      var others := Bufs(r.queue.cells) + Bufs(r.pend.frags) + rest;
      assert Held(r) + rest == Bufs(r.pend.reorder) + others;
      StashKept(p, r.pend, r.seqno, seqno, data, others);
      assert Held(r') + rest == Bufs(r'.pend.reorder) + others;
    }
    KeptHolds(p, Held(r) + rest, p', Held(r') + rest);
    HoldsLess(p', Held(r'), rest);
  }

  function WithFrags(r: Rx, frags: seq<FragCell>): Rx {
    r.(pend := r.pend.(frags := frags))
  }

  // The assembly is whole: move its pieces together, hand the message on, give the buffer
  // back. When a piece would be moved past the end of the buffer, this is as far as the model
  // goes.
  function Finish(p: Pool, r: Rx, ordered: bool, fp: nat, k: nat): (Pool, Rx)
    requires Fine(p, r) && k < FRAG_SLOTS && r.pend.frags[k].meta.active
  {
    var c := r.pend.frags[k];
    match Packed(p, c, fp)
    case Overrun => (p.(spilled := true), r)
    case Moved(buf, pos) =>
      var p1 := Write(p, c.buf, 0, buf);
      RewriteFine(p, r, k, 0, buf);
      var (p2, r2) := FeedWhole(p1, r, ordered, c.meta.seqno, buf[..pos]);
      FeedWholeFine(p1, r, ordered, c.meta.seqno, buf[..pos]);
      var (p3, frags3) := FreeFrag(p2, r2.pend.frags, k);
      (p3, WithFrags(r2, frags3))
  }

  ghost function Others(r: Rx, rest: multiset<int>): multiset<int> {
    Bufs(r.queue.cells) + Bufs(r.pend.reorder) + rest
  }

  lemma SplitHeld(r: Rx, rest: multiset<int>)
    ensures Held(r) + rest == Bufs(r.pend.frags) + Others(r, rest)
    ensures Held(r) == Bufs(r.pend.frags) + Others(r, multiset{})
  {
  }

  // An active assembly has a whole buffer of the pool.
  lemma SlotSized(p: Pool, r: Rx, k: nat)
    requires Fine(p, r) && k < FRAG_SLOTS && r.pend.frags[k].meta.active
    ensures 0 <= r.pend.frags[k].buf < POOL_BUFS && |Slot(p, r.pend.frags[k].buf)| == MAX_MSG
  {
    hide Bufs, Windowed;
    SplitHeld(r, multiset{});
    WriteSlot(p, r.pend.frags, k, 0, [], Others(r, multiset{}));
  }

  lemma RewriteFine(p: Pool, r: Rx, k: nat, at: nat, data: bytes)
    requires Fine(p, r) && k < FRAG_SLOTS && r.pend.frags[k].meta.active && at + |data| <= MAX_MSG
    ensures Fine(Write(p, r.pend.frags[k].buf, at, data), r)
  {
    SplitHeld(r, multiset{});
    WriteSlot(p, r.pend.frags, k, at, data, Others(r, multiset{}));
    KeptHolds(p, Held(r), Write(p, r.pend.frags[k].buf, at, data), Held(r));
  }

  lemma FeedWholeFine(p: Pool, r: Rx, ordered: bool, seqno: u16, data: bytes)
    requires Fine(p, r)
    ensures var (p', r') := FeedWhole(p, r, ordered, seqno, data);
            Fine(p', r') && r'.pend.frags == r.pend.frags
  {
    assert Held(r) + multiset{} == Held(r);
    FeedWholeKept(p, r, ordered, seqno, data, multiset{});
  }

  lemma FinishKept(p: Pool, r: Rx, ordered: bool, fp: nat, k: nat, rest: multiset<int>)
    requires Fine(p, r) && k < FRAG_SLOTS && r.pend.frags[k].meta.active
    requires Holds(p, Held(r) + rest)
    ensures var (p', r') := Finish(p, r, ordered, fp, k);
            !p'.spilled ==> Fine(p', r') && Kept(p, Held(r) + rest, p', Held(r') + rest)
  {
    var c := r.pend.frags[k];
    match Packed(p, c, fp)
    case Overrun =>
    case Moved(buf, pos) =>
      var p1 := Write(p, c.buf, 0, buf);
      SplitHeld(r, rest);
      WriteSlot(p, r.pend.frags, k, 0, buf, Others(r, rest));
      RewriteFine(p, r, k, 0, buf);
      KeptHolds(p, Held(r) + rest, p1, Held(r) + rest);
      var (p2, r2) := FeedWhole(p1, r, ordered, c.meta.seqno, buf[..pos]);
      FeedWholeKept(p1, r, ordered, c.meta.seqno, buf[..pos], rest);
      KeptThrough(p, Held(r) + rest, p1, Held(r) + rest, p2, Held(r2) + rest);
      KeptHolds(p1, Held(r) + rest, p2, Held(r2) + rest);
      var (p3, r3) := Finish(p, r, ordered, fp, k);
      SplitHeld(r2, rest);
      FreeFragKept(p2, r2.pend.frags, k, Others(r2, rest));
      SplitHeld(r3, rest);
      assert Others(r3, rest) == Others(r2, rest);
      KeptThrough(p, Held(r) + rest, p2, Held(r2) + rest, p3, Held(r3) + rest);
      KeptHolds(p2, Held(r2) + rest, p3, Held(r3) + rest);
      HoldsLess(p3, Held(r3), rest);
  }

  // One fragment of a longer message.
  function FeedPiece(p: Pool, r: Rx, ordered: bool, fp: nat, seqno: u16, idx: nat, total: nat, data: bytes): (Pool, Rx)
    requires Fine(p, r)
  {
    var (p1, frags1, k) := Claim(p, r.pend.frags, seqno, total);
    ClaimFine(p, r, seqno, total);
    if k == -1 || !Wanted(frags1[k].meta, fp, idx, data) then (p1, WithFrags(r, frags1))
    else
      var (p2, frags2) := StorePiece(p1, frags1, k, fp, idx, data);
      StorePieceFine(p1, WithFrags(r, frags1), k, fp, idx, data);
      if Complete(frags2[k].meta) then Finish(p2, WithFrags(r, frags2), ordered, fp, k)
      else (p2, WithFrags(r, frags2))
  }

  lemma ClaimFine(p: Pool, r: Rx, seqno: u16, total: nat)
    requires Fine(p, r)
    ensures var (p1, frags1, k) := Claim(p, r.pend.frags, seqno, total);
            Fine(p1, WithFrags(r, frags1)) && -1 <= k < FRAG_SLOTS
  {
    assert Held(r) + multiset{} == Held(r);
    ClaimKeeps(p, r, seqno, total, multiset{});
  }

  lemma ClaimKeeps(p: Pool, r: Rx, seqno: u16, total: nat, rest: multiset<int>)
    requires Fine(p, r) && Holds(p, Held(r) + rest)
    ensures var (p1, frags1, k) := Claim(p, r.pend.frags, seqno, total);
            && Fine(p1, WithFrags(r, frags1)) && -1 <= k < FRAG_SLOTS
            && Kept(p, Held(r) + rest, p1, Held(WithFrags(r, frags1)) + rest)
  {
    var (p1, frags1, k) := Claim(p, r.pend.frags, seqno, total);
    var r1 := WithFrags(r, frags1);
    SplitHeld(r, rest);
    SplitHeld(r1, rest);
    ClaimKept(p, r.pend.frags, seqno, total, Others(r, rest));
    assert Others(r1, rest) == Others(r, rest);
    KeptHolds(p, Held(r) + rest, p1, Held(r1) + rest);
    HoldsLess(p1, Held(r1), rest);
  }

  lemma StorePieceFine(p: Pool, r: Rx, k: nat, fp: nat, idx: nat, data: bytes)
    requires Fine(p, r) && k < FRAG_SLOTS && Wanted(r.pend.frags[k].meta, fp, idx, data)
    ensures var (p1, frags1) := StorePiece(p, r.pend.frags, k, fp, idx, data);
            Fine(p1, WithFrags(r, frags1))
  {
    assert Held(r) + multiset{} == Held(r);
    StorePieceKeeps(p, r, k, fp, idx, data, multiset{});
  }

  lemma StorePieceKeeps(p: Pool, r: Rx, k: nat, fp: nat, idx: nat, data: bytes, rest: multiset<int>)
    requires Fine(p, r) && k < FRAG_SLOTS && Wanted(r.pend.frags[k].meta, fp, idx, data)
    requires Holds(p, Held(r) + rest)
    ensures var (p1, frags1) := StorePiece(p, r.pend.frags, k, fp, idx, data);
            && Fine(p1, WithFrags(r, frags1))
            && Kept(p, Held(r) + rest, p1, Held(WithFrags(r, frags1)) + rest)
  {
    var (p1, frags1) := StorePiece(p, r.pend.frags, k, fp, idx, data);
    var r1 := WithFrags(r, frags1);
    SplitHeld(r, rest);
    SplitHeld(r1, rest);
    StorePieceKept(p, r.pend.frags, k, fp, idx, data, Others(r, rest));
    assert Others(r1, rest) == Others(r, rest);
    KeptHolds(p, Held(r) + rest, p1, Held(r1) + rest);
    HoldsLess(p1, Held(r1), rest);
  }

  lemma FeedPieceKept(p: Pool, r: Rx, ordered: bool, fp: nat, seqno: u16, idx: nat, total: nat, data: bytes, rest: multiset<int>)
    requires Fine(p, r) && Holds(p, Held(r) + rest)
    ensures var (p', r') := FeedPiece(p, r, ordered, fp, seqno, idx, total, data);
            !p'.spilled ==> Fine(p', r') && Kept(p, Held(r) + rest, p', Held(r') + rest)
  {
    var (p1, frags1, k) := Claim(p, r.pend.frags, seqno, total);
    var r1 := WithFrags(r, frags1);
    ClaimKeeps(p, r, seqno, total, rest);
    KeptHolds(p, Held(r) + rest, p1, Held(r1) + rest);
    if k != -1 && Wanted(frags1[k].meta, fp, idx, data) {
      var (p2, frags2) := StorePiece(p1, frags1, k, fp, idx, data);
      var r2 := WithFrags(r1, frags2);
      StorePieceKeeps(p1, r1, k, fp, idx, data, rest);
      KeptHolds(p1, Held(r1) + rest, p2, Held(r2) + rest);
      KeptThrough(p, Held(r) + rest, p1, Held(r1) + rest, p2, Held(r2) + rest);
      if Complete(frags2[k].meta) {
        var (p3, r3) := Finish(p2, r2, ordered, fp, k);
        FinishKept(p2, r2, ordered, fp, k, rest);
        if !p3.spilled {
          KeptThrough(p, Held(r) + rest, p2, Held(r2) + rest, p3, Held(r3) + rest);
        }
      }
    }
  }

  // Any frame at all.
  function FeedData(p: Pool, r: Rx, ordered: bool, fp: nat, seqno: u16, idx: nat, total: nat, data: bytes): (Pool, Rx)
    requires Fine(p, r)
  {
    if total <= 1 then FeedWhole(p, r, ordered, seqno, data) else FeedPiece(p, r, ordered, fp, seqno, idx, total, data)
  }

  // Unless it runs past the end of a buffer, a frame leaves the buffers accounted for, writes
  // in none that somebody else holds, and leaves the window in order.
  lemma FeedDataKept(p: Pool, r: Rx, ordered: bool, fp: nat, seqno: u16, idx: nat, total: nat, data: bytes, rest: multiset<int>)
    requires Fine(p, r) && Holds(p, Held(r) + rest)
    ensures var (p', r') := FeedData(p, r, ordered, fp, seqno, idx, total, data);
            !p'.spilled ==> Fine(p', r') && Kept(p, Held(r) + rest, p', Held(r') + rest)
  {
    if total <= 1 {
      FeedWholeKept(p, r, ordered, seqno, data, rest);
    } else {
      FeedPieceKept(p, r, ordered, fp, seqno, idx, total, data, rest);
    }
  }
}
