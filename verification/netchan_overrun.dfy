// Where the promise that pool buffers stay apart ends: an assembly whose fragments, each
// within the buffer where it was received, are together longer than the buffer.
module NetchanOverrun {
  import opened Bytes
  import opened NetchanPool
  import opened NetchanFrag
  import opened NetchanRecv
  import opened NetchanData

  // Every fragment received lies within the buffer, at its place.
  ghost predicate LaidOne(f: FragMeta, fp: nat) {
    f.active ==> forall k :: k in f.got ==> k < f.total && k < |f.sizes| && k * fp + f.sizes[k] <= MAX_MSG
  }

  ghost predicate Laid(frags: seq<FragCell>, fp: nat) {
    forall i :: 0 <= i < |frags| ==> LaidOne(frags[i].meta, fp)
  }

  // And none is longer than its share.
  ghost predicate SnugOne(f: FragMeta, fp: nat) {
    f.active ==> forall k :: k in f.got ==> k < |f.sizes| && f.sizes[k] <= fp
  }

  ghost predicate Snug(frags: seq<FragCell>, fp: nat) {
    forall i :: 0 <= i < |frags| ==> SnugOne(frags[i].meta, fp)
  }

  // The frame brings the last fragment an assembly lacked, and with it the fragments are
  // longer than a buffer.
  ghost predicate Overfills(frags: seq<FragCell>, fp: nat, f: Frame)
    requires FragsOk(frags)
  {
    var k := FindFrag(frags, f.seqno, 0);
    && f.total > 1 && k != -1
    && Wanted(frags[k].meta, fp, f.idx, f.data) && |frags[k].meta.got| + 1 == frags[k].meta.total
    && SumFrom(frags[k].meta.sizes[f.idx := |f.data|], 0, frags[k].meta.total) > MAX_MSG
  }

  // A frame no sender of the same packet size would send has more than a share.
  predicate WithinShare(f: Frame, fp: nat) {
    f.total > 1 ==> |f.data| <= fp
  }

  // ----- one assembly -----

  lemma GotAll(f: FragMeta, fp: nat)
    requires f.active && LaidOne(f, fp) && Complete(f) && f.total <= |f.sizes|
    ensures LaidWithin(f.sizes, fp, f.total, MAX_MSG)
    ensures SnugOne(f, fp) ==> forall k :: 0 <= k < f.total ==> f.sizes[k] <= fp
  {
    FullSet(f.got, f.total);
  }

  // Finishing runs past the end exactly when the fragments do not fit a buffer together.
  lemma FinishSpillsIff(p: Pool, r: Rx, ordered: bool, fp: nat, k: nat)
    requires Fine(p, r) && k < FRAG_SLOTS && r.pend.frags[k].meta.active
    requires LaidOne(r.pend.frags[k].meta, fp) && Complete(r.pend.frags[k].meta)
    ensures var (p', r') := Finish(p, r, ordered, fp, k); var m := r.pend.frags[k].meta;
            && (p'.spilled <==> SumFrom(m.sizes, 0, m.total) > MAX_MSG)
            && (!p'.spilled ==> r'.pend.frags == r.pend.frags[k := Cell(NOBUF, 0, Fresh(0, 0, false))])
  {
    hide LaidOne, SumFrom, CompactFrom, Windowed, Bufs, Single, FeedWhole;
    var c := r.pend.frags[k];
    SlotSized(p, r, k);
    GotAll(c.meta, fp);
    OverrunIff(Slot(p, c.buf), c.meta.sizes, fp, 0, c.meta.total, 0);
    match Packed(p, c, fp)
    case Overrun =>
    case Moved(buf, pos) =>
      RewriteFine(p, r, k, 0, buf);
      FeedWholeFine(Write(p, c.buf, 0, buf), r, ordered, c.meta.seqno, buf[..pos]);
  }

  lemma StoreLaid(f: FragMeta, fp: nat, idx: nat, data: bytes)
    requires LaidOne(f, fp) && Wanted(f, fp, idx, data) && idx < |f.sizes|
    ensures var f' := f.(got := f.got + {idx}, sizes := f.sizes[idx := |data|]);
            LaidOne(f', fp) && (SnugOne(f, fp) && |data| <= fp ==> SnugOne(f', fp))
  {
  }

  // ----- one frame -----

  lemma ClaimLaid(p: Pool, frags: seq<FragCell>, seqno: u16, total: nat, fp: nat)
    requires Laid(frags, fp)
    ensures var (p1, frags1, k) := Claim(p, frags, seqno, total);
            && Laid(frags1, fp) && (Snug(frags, fp) ==> Snug(frags1, fp))
            && (FindFrag(frags, seqno, 0) != -1 ==> k == FindFrag(frags, seqno, 0) && frags1 == frags)
            && (FindFrag(frags, seqno, 0) == -1 && k != -1 ==>
                  0 <= k < |frags1| && frags1[k].meta == Fresh(seqno, total, true))
  {
    hide LaidOne, SnugOne, FindFrag, FindIdle;
    NewlyLaid(seqno, total, fp);
  }

  lemma StorePieceLaid(p: Pool, frags: seq<FragCell>, k: nat, fp: nat, idx: nat, data: bytes)
    requires Laid(frags, fp) && k < |frags| && idx < |frags[k].meta.sizes| && Wanted(frags[k].meta, fp, idx, data)
    ensures var frags2 := StorePiece(p, frags, k, fp, idx, data).1; var m, m2 := frags[k].meta, frags2[k].meta;
            && Laid(frags2, fp) && LaidOne(m2, fp) && (Snug(frags, fp) && |data| <= fp ==> Snug(frags2, fp))
            && |frags2| == |frags| && m2.active && m2.total == m.total && m2.sizes == m.sizes[idx := |data|]
            && |m2.got| == |m.got| + 1
  {
    hide LaidOne, SnugOne;
    StoreLaid(frags[k].meta, fp, idx, data);
  }

  lemma FreedLaid(frags: seq<FragCell>, fp: nat, k: nat)
    requires Laid(frags, fp) && k < |frags|
    ensures var frags' := frags[k := Cell(NOBUF, 0, Fresh(0, 0, false))];
            Laid(frags', fp) && (Snug(frags, fp) ==> Snug(frags', fp))
  {
  }

  // Storing a wanted fragment, and finishing if it was the last.
  function PieceStored(p: Pool, r: Rx, ordered: bool, fp: nat, k: nat, idx: nat, data: bytes): (Pool, Rx)
    requires Fine(p, r) && k < FRAG_SLOTS && Wanted(r.pend.frags[k].meta, fp, idx, data)
  {
    var (p2, frags2) := StorePiece(p, r.pend.frags, k, fp, idx, data);
    StorePieceFine(p, r, k, fp, idx, data);
    if Complete(frags2[k].meta) then Finish(p2, WithFrags(r, frags2), ordered, fp, k) else (p2, WithFrags(r, frags2))
  }

  lemma StoredSpillsIff(p: Pool, r: Rx, ordered: bool, fp: nat, k: nat, idx: nat, data: bytes)
    requires Fine(p, r) && Laid(r.pend.frags, fp) && k < FRAG_SLOTS && Wanted(r.pend.frags[k].meta, fp, idx, data)
    ensures var (p', r') := PieceStored(p, r, ordered, fp, k, idx, data); var m := r.pend.frags[k].meta;
            && (p'.spilled <==> |m.got| + 1 == m.total && SumFrom(m.sizes[idx := |data|], 0, m.total) > MAX_MSG)
            && (!p'.spilled ==> Laid(r'.pend.frags, fp))
            && (!p'.spilled && Snug(r.pend.frags, fp) && |data| <= fp ==> Snug(r'.pend.frags, fp))
  {
    hide SumFrom, Windowed, Holds, Finish, Laid, LaidOne, Snug, SnugOne, QueueOk, ReorderOk, StorePiece;
    var (p2, frags2) := StorePiece(p, r.pend.frags, k, fp, idx, data);
    StorePieceFine(p, r, k, fp, idx, data);
    FineClean(p2, WithFrags(r, frags2));
    StorePieceLaid(p, r.pend.frags, k, fp, idx, data);
    if Complete(frags2[k].meta) {
      FinishSpillsIff(p2, WithFrags(r, frags2), ordered, fp, k);
      FreedLaid(frags2, fp, k);
    }
  }

  // What a fragment makes of the assemblies: spilled exactly when it overfills one; otherwise
  // still laid out, and snug if they were and the fragment is.
  lemma PieceSpillsIff(p: Pool, r: Rx, ordered: bool, fp: nat, f: Frame)
    requires Fine(p, r) && Laid(r.pend.frags, fp) && f.total > 1
    ensures var (p', r') := FeedPiece(p, r, ordered, fp, f.seqno, f.idx, f.total, f.data);
            && (p'.spilled <==> Overfills(r.pend.frags, fp, f))
            && (!p'.spilled ==> Laid(r'.pend.frags, fp))
            && (!p'.spilled && Snug(r.pend.frags, fp) && |f.data| <= fp ==> Snug(r'.pend.frags, fp))
  {
    hide SumFrom, RxOk, Windowed, Holds, Finish, Laid, Snug, FindFrag, Claim, StorePiece;
    var (p1, frags1, k) := Claim(p, r.pend.frags, f.seqno, f.total);
    ClaimFine(p, r, f.seqno, f.total);
    ClaimLaid(p, r.pend.frags, f.seqno, f.total, fp);
    FineClean(p1, WithFrags(r, frags1));
    if k != -1 && Wanted(frags1[k].meta, fp, f.idx, f.data) {
      StoredSpillsIff(p1, WithFrags(r, frags1), ordered, fp, k, f.idx, f.data);
      assert FeedPiece(p, r, ordered, fp, f.seqno, f.idx, f.total, f.data)
          == PieceStored(p1, WithFrags(r, frags1), ordered, fp, k, f.idx, f.data);
    }
  }

  lemma FineClean(p: Pool, r: Rx)
    requires Fine(p, r)
    ensures !p.spilled
  {
  }

  lemma NewlyLaid(seqno: u16, total: nat, fp: nat)
    ensures forall active :: LaidOne(Fresh(seqno, total, active), fp) && SnugOne(Fresh(seqno, total, active), fp)
  {
  }

  // Main result: a DATA frame makes the receiver write past a buffer if and only if it brings
  // the last fragment an assembly lacked and the fragments are together longer than a buffer.
  lemma FrameSpillsIff(p: Pool, r: Rx, ordered: bool, fp: nat, f: Frame)
    requires Fine(p, r) && Laid(r.pend.frags, fp)
    ensures var (p', r') := FeedData(p, r, ordered, fp, f.seqno, f.idx, f.total, f.data);
            && (p'.spilled <==> Overfills(r.pend.frags, fp, f))
            && (!p'.spilled ==> Laid(r'.pend.frags, fp))
            && (!p'.spilled && Snug(r.pend.frags, fp) && WithinShare(f, fp) ==> Snug(r'.pend.frags, fp))
  {
    hide Laid, Snug, Fine, FeedWhole, FeedPiece;
    if f.total <= 1 {
      FeedWholeFine(p, r, ordered, f.seqno, f.data);
      FineClean(FeedWhole(p, r, ordered, f.seqno, f.data).0, FeedWhole(p, r, ordered, f.seqno, f.data).1);
    } else {
      PieceSpillsIff(p, r, ordered, fp, f);
    }
  }

  // A receiver that has only seen fragments within their share does not overfill on another.
  lemma ShareNeverOverfills(frags: seq<FragCell>, fp: nat, f: Frame)
    requires FragsOk(frags) && Laid(frags, fp) && Snug(frags, fp) && WithinShare(f, fp)
    ensures !Overfills(frags, fp, f)
  {
    hide SumFrom, LaidOne, SnugOne, FindFrag;
    var k := FindFrag(frags, f.seqno, 0);
    if f.total > 1 && k != -1 && Wanted(frags[k].meta, fp, f.idx, f.data) && |frags[k].meta.got| + 1 == frags[k].meta.total {
      var m := frags[k].meta;
      var m' := m.(got := m.got + {f.idx}, sizes := m.sizes[f.idx := |f.data|]);
      assert LaidOne(m, fp) && SnugOne(m, fp);
      StoreLaid(m, fp, f.idx, f.data);
      GotAll(m', fp);
      SharesFit(m'.sizes, fp, m'.total, MAX_MSG);
    }
  }

  // ----- it happens -----

  lemma NoneFound(frags: seq<FragCell>, seqno: u16, i: nat)
    requires forall j :: i <= j < |frags| ==> !frags[j].meta.active
    ensures FindFrag(frags, seqno, i) == -1 && (i < |frags| ==> FindIdle(frags, i) == i)
    decreases |frags| - i
  {
    if i < |frags| {
      NoneFound(frags, seqno, i + 1);
    }
  }

  lemma ClaimsFirst(p: Pool, frags: seq<FragCell>, seqno: u16, total: nat, rest: multiset<int>)
    requires FragsOk(frags) && Holds(p, Bufs(frags) + rest) && p.free != [] && total <= MAX_FRAGS
    requires forall i :: 0 <= i < FRAG_SLOTS ==> !frags[i].meta.active
    ensures var (p1, frags1, k) := Claim(p, frags, seqno, total);
            k == 0 && |frags1| == FRAG_SLOTS && frags1[0].meta == Fresh(seqno, total, true)
  {
    hide Bufs;
    NoneFound(frags, seqno, 0);
    assert p.free[|p.free| - 1] in FreeBag(p);
    assert (FreeBag(p) + (Bufs(frags) + rest))[NOBUF] == 0;
  }

  // The first of two fragments, on a receiver with no assembly at work.
  lemma FirstPiece(p: Pool, r: Rx, ordered: bool, seqno: u16, a: bytes)
    requires Fine(p, r) && p.free != [] && |a| == 1400
    requires forall i :: 0 <= i < FRAG_SLOTS ==> !r.pend.frags[i].meta.active
    ensures var (p1, r1) := FeedPiece(p, r, ordered, 1185, seqno, 0, 2, a); var m := r1.pend.frags[0].meta;
            && m.active && m.seqno == seqno && m.got == {0} && m.total == 2
            && |m.sizes| == MAX_FRAGS && m.sizes[0] == 1400
            && !p1.spilled
  {
    hide Windowed, Bufs, Single, Finish, QueueOk, ReorderOk, Claim, Zeros;
    SplitHeld(r, multiset{});
    ClaimsFirst(p, r.pend.frags, seqno, 2, Others(r, multiset{}));
    var (p1, frags1, k) := Claim(p, r.pend.frags, seqno, 2);
    ClaimFine(p, r, seqno, 2);
    StorePieceFine(p1, WithFrags(r, frags1), 0, 1185, 0, a);
    assert {} + {0} == {0 as nat};
  }

  // With the default packet size, whose share is 1185 bytes: fragments of 1400 and 863 bytes,
  // each accepted, overfill the buffer together. Any receiver with an idle assembly and a
  // free buffer will do, and any contents.
  lemma TwoFramesSpill(p: Pool, r: Rx, ordered: bool, seqno: u16, a: bytes, b: bytes)
    requires Fine(p, r) && p.free != [] && |a| == 1400 && |b| == 863
    requires forall i :: 0 <= i < FRAG_SLOTS ==> !r.pend.frags[i].meta.active
    ensures var (p1, r1) := FeedData(p, r, ordered, 1185, seqno, 0, 2, a);
            Fine(p1, r1) && FeedData(p1, r1, ordered, 1185, seqno, 1, 2, b).0.spilled
  {
    hide Windowed, Bufs, QueueOk, ReorderOk, FeedPiece, SumFrom;
    var (p1, r1) := FeedData(p, r, ordered, 1185, seqno, 0, 2, a);
    FirstPiece(p, r, ordered, seqno, a);
    SplitHeld(r, multiset{});
    FeedDataKept(p, r, ordered, 1185, seqno, 0, 2, a, multiset{}) by {
      assert Held(r) + multiset{} == Held(r);
    }
    FrameSpillsIff(p, r, ordered, 1185, Frame(seqno, 0, 2, a));
    FrameSpillsIff(p1, r1, ordered, 1185, Frame(seqno, 1, 2, b));
    var m := r1.pend.frags[0].meta;
    assert FindFrag(r1.pend.frags, seqno, 0) == 0;
    PairSum(m.sizes[1 := 863]);
  }

  lemma PairSum(sizes: seq<nat>)
    requires |sizes| >= 2
    ensures SumFrom(sizes, 0, 2) == sizes[0] + sizes[1]
  {
    assert SumFrom(sizes, 1, 2) == sizes[1] + SumFrom(sizes, 2, 2);
  }
}
