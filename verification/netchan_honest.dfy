// What a receiving channel makes of the frames of an honest sender: the messages it
// consumes are, in order and byte for byte, a prefix of those written.
module NetchanHonest {
  import opened Bytes
  import opened NetchanPool
  import opened NetchanFrag
  import opened NetchanRecv
  import opened NetchanData

  // An assembly holds fragments of the message of its number, each in its place.
  ghost predicate Assembling(p: Pool, c: FragCell, w: seq<bytes>, fp: nat)
    requires fp >= 64
  {
    c.meta.active ==>
      && c.meta.seqno < |w| && c.meta.total == FragTotal(|w[c.meta.seqno]|, fp)
      && |c.meta.sizes| == MAX_FRAGS && c.meta.total <= MAX_FRAGS
      && forall k :: k in c.meta.got ==>
           && k < c.meta.total
           && c.meta.sizes[k] == |Frag(w[c.meta.seqno], fp, k)|
           && PieceAt(Slot(p, c.buf), fp, k, Frag(w[c.meta.seqno], fp, k))
  }

  lemma AssemblingSpared(p: Pool, p': Pool, c: FragCell, w: seq<bytes>, fp: nat)
    requires fp >= 64 && Assembling(p, c, w, fp)
    requires c.meta.active ==> Slot(p', c.buf) == Slot(p, c.buf)
    ensures Assembling(p', c, w, fp)
  {
  }

  ghost predicate FragsTrue(p: Pool, frags: seq<FragCell>, w: seq<bytes>, fp: nat)
    requires fp >= 64
  {
    forall i :: 0 <= i < |frags| ==> Assembling(p, frags[i], w, fp)
  }

  ghost predicate True(p: Pool, r: Rx, w: seq<bytes>, log: seq<bytes>, fp: nat)
    requires fp >= 64
  {
    && Fine(p, r) && Sendable(w)
    && LogTrue(p, r.seqno, r.queue, w, log)
    && ReorderTrue(p, r.pend.reorder, w)
    && FragsTrue(p, r.pend.frags, w, fp)
  }

  // ----- whole messages -----

  lemma StashTrue(p: Pool, r: Rx, seqno: u16, w: seq<bytes>, log: seq<bytes>)
    requires Fine(p, r) && Sendable(w) && seqno < |w|
    requires LogTrue(p, r.seqno, r.queue, w, log) && ReorderTrue(p, r.pend.reorder, w)
    ensures var (p', d') := Stash(p, r.pend, r.seqno, seqno, w[seqno]);
            LogTrue(p', r.seqno, r.queue, w, log) && ReorderTrue(p', d'.reorder, w)
  {
    var (p', d') := Stash(p, r.pend, r.seqno, seqno, w[seqno]);
    var others := Bufs(r.queue.cells) + Bufs(r.pend.frags);
    assert Held(r) == Bufs(r.pend.reorder) + others;
    StashKept(p, r.pend, r.seqno, seqno, w[seqno], others);
    RestSpared(p, p', r, w, log);
  }

  // As True, but assembly k may hold anything.
  ghost predicate MostlyTrue(p: Pool, r: Rx, k: nat, w: seq<bytes>, log: seq<bytes>, fp: nat)
    requires fp >= 64
  {
    && Fine(p, r) && Sendable(w)
    && LogTrue(p, r.seqno, r.queue, w, log)
    && ReorderTrue(p, r.pend.reorder, w)
    && forall j :: 0 <= j < FRAG_SLOTS && j != k ==> Assembling(p, r.pend.frags[j], w, fp)
  }

  lemma FeedWholeTrue(p: Pool, r: Rx, seqno: u16, k: nat, w: seq<bytes>, log: seq<bytes>, fp: nat)
    requires fp >= 64 && MostlyTrue(p, r, k, w, log, fp) && seqno < |w|
    ensures var (p', r') := FeedWhole(p, r, true, seqno, w[seqno]);
            MostlyTrue(p', r', k, w, log, fp) && r'.pend.frags == r.pend.frags
  {
    hide LogTrue, ReorderTrue, Queued, Run, Bufs, Windowed, Sendable;
    var (p', r') := FeedWhole(p, r, true, seqno, w[seqno]);
    FeedWholeFine(p, r, true, seqno, w[seqno]);
    assert Held(r) + multiset{} == Held(r);
    FeedWholeKept(p, r, true, seqno, w[seqno], multiset{});
    forall j | 0 <= j < FRAG_SLOTS && j != k ensures Assembling(p', r.pend.frags[j], w, fp) {
      assert Assembling(p, r.pend.frags[j], w, fp);
      if r.pend.frags[j].meta.active { BufsMember(r.pend.frags, j); }
    }
    if seqno == r.seqno {
      AcceptTrue(p, r, w[seqno], w, log);
    } else {
      StashTrue(p, r, seqno, w, log);
    }
  }

  // ----- assemblies -----

  // A complete assembly packs to its message.
  lemma CompleteIsMessage(p: Pool, c: FragCell, w: seq<bytes>, fp: nat)
    requires fp >= 64 && Sendable(w) && c.meta.active && Assembling(p, c, w, fp) && Complete(c.meta)
    ensures c.meta.seqno < |w|
    ensures var r := Packed(p, c, fp); r.Moved? && r.buf[..r.pos] == w[c.meta.seqno]
  {
    var m, n := w[c.meta.seqno], c.meta.total;
    FullSet(c.meta.got, n);
    FragsAreWhole(m, fp);
    CompactionConcatenates(Slot(p, c.buf), c.meta.sizes, fp, Frags(m, fp, n));
  }

  // Storing one more fragment disturbs none of those already there.
  lemma PokeKeepsPiece(buf: bytes, fp: nat, i: nat, data: bytes, k: nat, piece: bytes)
    requires k != i && |data| <= fp && |piece| <= fp && i * fp + |data| <= |buf|
    requires PieceAt(buf, fp, k, piece)
    ensures PieceAt(Poke(buf, i * fp, data), fp, k, piece)
  {
    OffsetGrows(fp, Min(i, k), if i < k then k else i);
    assert Poke(buf, i * fp, data)[k * fp..k * fp + |piece|] == buf[k * fp..k * fp + |piece|];
  }

  lemma PokeIsPiece(buf: bytes, fp: nat, i: nat, data: bytes)
    requires i * fp + |data| <= |buf|
    ensures PieceAt(Poke(buf, i * fp, data), fp, i, data)
  {
  }

  lemma StoredAssembling(p: Pool, frags: seq<FragCell>, k: nat, w: seq<bytes>, fp: nat, f: Frame)
    requires fp >= 64 && PoolOk(p) && k < |frags| && frags[k].meta.active && 0 <= frags[k].buf < POOL_BUFS
    requires Sendable(w) && HonestFrame(f, w, fp) && Assembling(p, frags[k], w, fp)
    requires frags[k].meta.seqno == f.seqno && Wanted(frags[k].meta, fp, f.idx, f.data)
    ensures var (p', frags') := StorePiece(p, frags, k, fp, f.idx, f.data);
            Assembling(p', frags'[k], w, fp)
  {
    var (p', frags') := StorePiece(p, frags, k, fp, f.idx, f.data);
    var c, m, buf := frags[k], w[f.seqno], Slot(p, frags[k].buf);
    FragsAreWhole(m, fp);
    PokeIsPiece(buf, fp, f.idx, f.data);
    forall j | j in c.meta.got ensures PieceAt(Slot(p', c.buf), fp, j, Frag(m, fp, j)) {
      PokeKeepsPiece(buf, fp, f.idx, f.data, j, Frag(m, fp, j));
    }
  }

  lemma StoreTrue(p: Pool, r: Rx, k: nat, w: seq<bytes>, log: seq<bytes>, fp: nat, f: Frame)
    requires fp >= 64 && True(p, r, w, log, fp) && HonestFrame(f, w, fp)
    requires k < FRAG_SLOTS && r.pend.frags[k].meta.seqno == f.seqno
    requires Wanted(r.pend.frags[k].meta, fp, f.idx, f.data)
    ensures var (p', frags') := StorePiece(p, r.pend.frags, k, fp, f.idx, f.data);
            True(p', WithFrags(r, frags'), w, log, fp) && frags'[k].meta.active
  {
    hide Assembling, LogTrue, ReorderTrue, Queued, Run, Bufs, Windowed, Single, Sendable;
    var frags := r.pend.frags;
    var (p', frags') := StorePiece(p, frags, k, fp, f.idx, f.data);
    StorePieceFine(p, r, k, fp, f.idx, f.data);
    SplitHeld(r, multiset{});
    WriteSlot(p, frags, k, f.idx * fp, f.data, Others(r, multiset{}));
    StoredAssembling(p, frags, k, w, fp, f);
    RestSpared(p, p', r, w, log);
    forall j | 0 <= j < |frags'| ensures Assembling(p', frags'[j], w, fp) {
      if j != k { AssemblingSpared(p, p', frags[j], w, fp); }
    }
  }

  lemma ClaimTrue(p: Pool, r: Rx, w: seq<bytes>, log: seq<bytes>, fp: nat, f: Frame)
    requires fp >= 64 && True(p, r, w, log, fp) && HonestFrame(f, w, fp)
    ensures var (p', frags', k) := Claim(p, r.pend.frags, f.seqno, f.total);
            && True(p', WithFrags(r, frags'), w, log, fp) && -1 <= k < FRAG_SLOTS
            && (k != -1 ==> frags'[k].meta.active && frags'[k].meta.seqno == f.seqno)
  {
    hide LogTrue, ReorderTrue, Queued, Run, Bufs, Windowed, Single;
    var (p', frags', k) := Claim(p, r.pend.frags, f.seqno, f.total);
    ClaimFine(p, r, f.seqno, f.total);
    SplitHeld(r, multiset{});
    ClaimKept(p, r.pend.frags, f.seqno, f.total, Others(r, multiset{}));
    RestSpared(p, p', r, w, log);
    TotalBounded(|w[f.seqno]|, fp);
    forall j | 0 <= j < |frags'| ensures Assembling(p', frags'[j], w, fp) {
      assert Assembling(p, r.pend.frags[j], w, fp);
    }
  }

  // A complete assembly hands on exactly its message. The rewritten buffer no longer has its
  // pieces in place, but it is given back before anything else looks at it.
  lemma FinishTrue(p: Pool, r: Rx, k: nat, w: seq<bytes>, log: seq<bytes>, fp: nat)
    requires fp >= 64 && True(p, r, w, log, fp)
    requires k < FRAG_SLOTS && r.pend.frags[k].meta.active && Complete(r.pend.frags[k].meta)
    ensures var (p', r') := Finish(p, r, true, fp, k); True(p', r', w, log, fp)
  {
    hide LogTrue, ReorderTrue, Queued, Run, Bufs, Windowed, Single, Assembling;
    var c := r.pend.frags[k];
    CompleteIsMessage(p, c, w, fp);
    var buf := Packed(p, c, fp).buf;
    SlotSized(p, r, k);
    var p1 := Write(p, c.buf, 0, buf);
    SplitHeld(r, multiset{});
    WriteSlot(p, r.pend.frags, k, 0, buf, Others(r, multiset{}));
    RewriteFine(p, r, k, 0, buf);
    RestSpared(p, p1, r, w, log);
    FeedWholeTrue(p1, r, c.meta.seqno, k, w, log, fp) by {
      forall j | 0 <= j < FRAG_SLOTS && j != k ensures Assembling(p1, r.pend.frags[j], w, fp) {
        AssemblingSpared(p, p1, r.pend.frags[j], w, fp);
      }
    }
    var (p2, r2) := FeedWhole(p1, r, true, c.meta.seqno, w[c.meta.seqno]);
    FreeTrue(p2, r2, k, w, log, fp);
  }

  lemma FreeTrue(p: Pool, r: Rx, k: nat, w: seq<bytes>, log: seq<bytes>, fp: nat)
    requires fp >= 64 && MostlyTrue(p, r, k, w, log, fp) && k < FRAG_SLOTS
    ensures var (p', frags') := FreeFrag(p, r.pend.frags, k);
            True(p', WithFrags(r, frags'), w, log, fp)
  {
    hide LogTrue, ReorderTrue, Queued, Run, Bufs, Windowed, Sendable;
    var (p', frags') := FreeFrag(p, r.pend.frags, k);
    var r' := WithFrags(r, frags');
    SplitHeld(r, multiset{});
    SplitHeld(r', multiset{});
    FreeFragKept(p, r.pend.frags, k, Others(r, multiset{}));
    assert Others(r', multiset{}) == Others(r, multiset{});
    KeptHolds(p, Held(r), p', Held(r'));
    RestSpared(p, p', r, w, log);
    forall j | 0 <= j < |frags'| ensures Assembling(p', frags'[j], w, fp) {
      assert j != k ==> Assembling(p, r.pend.frags[j], w, fp);
    }
  }

  // Main step: any honest frame, repeated or out of order, keeps the log true.
  lemma HonestFrameKeepsTrue(p: Pool, r: Rx, w: seq<bytes>, log: seq<bytes>, fp: nat, f: Frame)
    requires fp >= 64 && True(p, r, w, log, fp) && HonestFrame(f, w, fp)
    ensures var (p', r') := FeedData(p, r, true, fp, f.seqno, f.idx, f.total, f.data);
            True(p', r', w, log, fp)
  {
    if f.total <= 1 {
      FragsAreWhole(w[f.seqno], fp);
      TotalCovers(|w[f.seqno]|, fp);
      assert f.data == w[f.seqno];
      FeedWholeTrue(p, r, f.seqno, FRAG_SLOTS, w, log, fp);
    } else {
      var (p1, frags1, k) := Claim(p, r.pend.frags, f.seqno, f.total);
      ClaimTrue(p, r, w, log, fp, f);
      if k != -1 && Wanted(frags1[k].meta, fp, f.idx, f.data) {
        var r1 := WithFrags(r, frags1);
        StoreTrue(p1, r1, k, w, log, fp, f);
        var (p2, frags2) := StorePiece(p1, frags1, k, fp, f.idx, f.data);
        if Complete(frags2[k].meta) {
          FinishTrue(p2, WithFrags(r1, frags2), k, w, log, fp);
        }
      }
    }
  }
}
