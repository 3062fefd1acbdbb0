// Reassembly delivers: in whatever state a channel waits for a message, the fragments of that
// message, fed in any order and any number of times, make exactly it consumed as soon as each
// has come once, and queued if and only if there is room.
module NetchanWhole {
  import opened Bytes
  import opened NetchanPool
  import opened NetchanFrag
  import opened NetchanRecv
  import opened NetchanRead
  import opened NetchanData
  import opened NetchanOverrun
  import opened NetchanDeliver
  import opened NetchanHonest

  // Frames one after the other, up to a write outside its buffer.
  function FeedAll(p: Pool, r: Rx, fp: nat, fs: seq<Frame>): (Pool, Rx)
    requires Fine(p, r)
    decreases |fs|
  {
    if fs == [] then (p, r)
    else
      var f := fs[0];
      FedFine(p, r, fp, f);
      var (p1, r1) := FeedData(p, r, true, fp, f.seqno, f.idx, f.total, f.data);
      if p1.spilled then (p1, r1) else FeedAll(p1, r1, fp, fs[1..])
  }

  lemma FedFine(p: Pool, r: Rx, fp: nat, f: Frame)
    requires Fine(p, r)
    ensures var (p', r') := FeedData(p, r, true, fp, f.seqno, f.idx, f.total, f.data);
            p'.spilled || Fine(p', r')
  {
    hide Fine, FeedData, Held;
    assert Held(r) + multiset{} == Held(r);
    FineHolds(p, r);
    FeedDataKept(p, r, true, fp, f.seqno, f.idx, f.total, f.data, multiset{});
  }

  lemma FineHolds(p: Pool, r: Rx)
    requires Fine(p, r)
    ensures Holds(p, Held(r)) && RxOk(r)
  {
  }

  // ----- where reassembly stands -----

  // Of message n these fragments have come: none, and an assembly is idle, or those that the
  // assembly at work on it has.
  ghost predicate At(frags: seq<FragCell>, n: u16, seen: set<nat>, total: nat) {
    var k := FindFrag(frags, n, 0);
    if seen == {} then k == -1 && FindIdle(frags, 0) != -1
    else k != -1 && frags[k].meta.got == seen && frags[k].meta.total == total
  }

  // The channel waits for message n of an honest sender.
  ghost predicate Waits(p: Pool, r: Rx, w: seq<bytes>, log: seq<bytes>, fp: nat, n: u16)
    requires fp >= 64
  {
    True(p, r, w, log, fp) && n < |w| && r.seqno == n
  }

  // Some fragments of a message of several have come, not all; free buffers will be left when
  // its turn comes, and out is what will come of it then.
  ghost predicate Partial(p: Pool, r: Rx, w: seq<bytes>, log: seq<bytes>, fp: nat, n: u16, seen: set<nat>,
                          free: nat, out: (u16, seq<bytes>))
    requires fp >= 64
  {
    && Waits(p, r, w, log, fp, n) && At(r.pend.frags, n, seen, FragTotal(|w[n]|, fp))
    && |p.free| == free + (if seen == {} then 1 else 0)
    && Outcome(p, r, w[n], free) == out
  }

  // The message is consumed, with this outcome.
  ghost predicate Arrived(p: Pool, r: Rx, w: seq<bytes>, log: seq<bytes>, fp: nat, n: u16, out: (u16, seq<bytes>))
    requires fp >= 64
  {
    True(p, r, w, log, fp) && n < |w| && r.seqno > n && (r.seqno, Queued(p, r.queue)) == out
  }

  lemma TrueParts(p: Pool, r: Rx, w: seq<bytes>, log: seq<bytes>, fp: nat)
    requires fp >= 64 && True(p, r, w, log, fp)
    ensures Fine(p, r) && RxOk(r) && Sendable(w) && !p.spilled && r.seqno <= |w|
    ensures Windowed(r.pend.reorder, r.seqno, 1) && |w| < 0x8000
  {
  }

  // The numbers of all fragments.
  ghost function AllOf(total: nat): (s: set<nat>)
    ensures forall k: nat :: k in s <==> k < total
  {
    if total == 0 then {} else AllOf(total - 1) + {total - 1}
  }

  lemma {:induction false} AllOfCount(total: nat)
    ensures |AllOf(total)| == total
  {
    if total > 0 {
      AllOfCount(total - 1);
    }
  }

  // A set of fragment numbers is full exactly when it has all of them.
  lemma FullIff(s: set<nat>, total: nat)
    requires forall k :: k in s ==> k < total
    ensures |s| == total <==> s == AllOf(total)
  {
    AllOfCount(total);
    if |s| == total {
      FullSet(s, total);
      assert s == AllOf(total);
    }
  }

  // ----- finding the assembly -----

  lemma {:induction false} FoundNew(frags: seq<FragCell>, n: u16, i: nat, j: nat, c: FragCell)
    requires FindFrag(frags, n, i) == -1 && i <= j < |frags| && c.meta.active && c.meta.seqno == n
    ensures FindFrag(frags[j := c], n, i) == j
    decreases |frags| - i
  {
    if i < j {
      FoundNew(frags, n, i + 1, j, c);
    }
  }

  lemma {:induction false} FoundSame(frags: seq<FragCell>, n: u16, i: nat, j: nat, c: FragCell)
    requires j < |frags| && c.meta.active == frags[j].meta.active && c.meta.seqno == frags[j].meta.seqno
    ensures FindFrag(frags[j := c], n, i) == FindFrag(frags, n, i)
    decreases |frags| - i
  {
    if i < |frags| {
      FoundSame(frags, n, i + 1, j, c);
    }
  }

  // Claiming an assembly for the message: the one at work, or an idle one with a new buffer.
  lemma ClaimAt(p: Pool, frags: seq<FragCell>, n: u16, seen: set<nat>, total: nat)
    requires At(frags, n, seen, total) && total <= MAX_FRAGS && (seen == {} ==> |p.free| >= 1 && Get(p).1 != NOBUF)
    ensures var (p', frags', k) := Claim(p, frags, n, total);
            && 0 <= k < |frags'| && FindFrag(frags', n, 0) == k
            && frags'[k].meta.got == seen && frags'[k].meta.total == total
            && |p'.free| == |p.free| - (if seen == {} then 1 else 0)
            && p'.store == p.store
            && (seen != {} ==> frags' == frags && p' == p)
  {
    hide FindIdle;
    if seen == {} {
      var (p', frags', k) := Claim(p, frags, n, total);
      FoundNew(frags, n, 0, k, frags'[k]);
    }
  }

  // Storing a fragment the assembly lacks.
  lemma StoreAt(p: Pool, frags: seq<FragCell>, n: u16, k: nat, fp: nat, idx: nat, data: bytes)
    requires k < |frags| && FindFrag(frags, n, 0) == k && idx < |frags[k].meta.sizes|
    ensures var (p', frags') := StorePiece(p, frags, k, fp, idx, data);
            && At(frags', n, frags[k].meta.got + {idx}, frags[k].meta.total)
            && |frags'| == |frags| && frags'[k].meta.active && frags'[k].meta.seqno == n
            && frags'[k].meta.got == frags[k].meta.got + {idx} && frags'[k].meta.total == frags[k].meta.total
            && p'.free == p.free
  {
    var (p', frags') := StorePiece(p, frags, k, fp, idx, data);
    FoundSame(frags, n, 0, k, frags'[k]);
    assert idx in frags[k].meta.got + {idx};
  }

  // An honest fragment always has room where it belongs.
  lemma HonestFits(f: Frame, w: seq<bytes>, fp: nat)
    requires fp >= 64 && Sendable(w) && HonestFrame(f, w, fp)
    ensures f.idx * fp + |f.data| <= MAX_MSG && f.total <= MAX_FRAGS
  {
    hide FragTotal;
    TotalBounded(|w[f.seqno]|, fp);
    FragEnds(w[f.seqno], fp, f.idx);
  }

  lemma FragEnds(m: bytes, fp: nat, k: nat)
    requires fp >= 64 && 1 <= |m| && k < FragTotal(|m|, fp)
    ensures k * fp + |Frag(m, fp, k)| <= |m|
  {
    hide FragTotal;
    TotalCovers(|m|, fp);
    if k < FragTotal(|m|, fp) - 1 {
      OffsetGrows(fp, k, FragTotal(|m|, fp) - 1);
    }
  }

  // ----- one fragment -----

  // While fragments are missing, the next one leaves fewer missing, or the message has its turn.
  lemma PieceStep(p: Pool, r: Rx, w: seq<bytes>, log: seq<bytes>, fp: nat, n: u16, seen: set<nat>,
                  free: nat, out: (u16, seq<bytes>), f: Frame)
    requires fp >= 64 && Partial(p, r, w, log, fp, n, seen, free, out)
    requires HonestFrame(f, w, fp) && f.seqno == n && f.total > 1
    requires forall k :: k in seen ==> k < FragTotal(|w[n]|, fp)
    requires seen != AllOf(FragTotal(|w[n]|, fp))
    ensures Fine(p, r)
    ensures var (p', r') := FeedPiece(p, r, true, fp, f.seqno, f.idx, f.total, f.data);
            if seen + {f.idx} == AllOf(FragTotal(|w[n]|, fp)) then Arrived(p', r', w, log, fp, n, out)
            else Partial(p', r', w, log, fp, n, seen + {f.idx}, free, out)
  {
    hide FragTotal, Fine, Sendable, True, Finish, Claim, StorePiece, Frag, Queued, At, QueueOk, Windowed, Outcome;
    TrueParts(p, r, w, log, fp);
    HonestFits(f, w, fp);
    var total := FragTotal(|w[n]|, fp);
    var (p1, frags1, k) := Claim(p, r.pend.frags, n, total);
    var r1 := WithFrags(r, frags1);
    ClaimTrue(p, r, w, log, fp, f);
    if f.idx in seen {
      ClaimAgain(p, r.pend.frags, n, seen, total);
      assert seen + {f.idx} == seen;
      assert r1 == r;
    } else {
      ClaimStep(p, r, w, log, fp, n, seen, free, out, f);
      StorePieceStep(p1, r1, w, log, fp, n, seen, free, out, f, k);
    }
  }

  lemma ClaimStep(p: Pool, r: Rx, w: seq<bytes>, log: seq<bytes>, fp: nat, n: u16, seen: set<nat>,
                  free: nat, out: (u16, seq<bytes>), f: Frame)
    requires fp >= 64 && Partial(p, r, w, log, fp, n, seen, free, out)
    requires HonestFrame(f, w, fp) && f.seqno == n
    ensures Fine(p, r)
    ensures var total := FragTotal(|w[n]|, fp); var (p1, frags1, k) := Claim(p, r.pend.frags, n, total);
            var r1 := WithFrags(r, frags1);
            && Waits(p1, r1, w, log, fp, n) && RxOk(r1) && |p1.free| == free && Outcome(p1, r1, w[n], free) == out
            && 0 <= k < FRAG_SLOTS && FindFrag(frags1, n, 0) == k
            && frags1[k].meta.got == seen && frags1[k].meta.total == total
  {
    hide FragTotal, Fine, Sendable, LogTrue, ReorderTrue, FragsTrue, Claim, Frag, Queued, At, Windowed, Outcome, Untouched;
    TrueParts(p, r, w, log, fp);
    HonestFits(f, w, fp);
    FineHolds(p, r);
    var total := FragTotal(|w[n]|, fp);
    var (p1, frags1, k) := Claim(p, r.pend.frags, n, total);
    var r1 := WithFrags(r, frags1);
    ClaimTrue(p, r, w, log, fp, f);
    if seen == {} { FreeIsReal(p, Held(r)); }
    ClaimAt(p, r.pend.frags, n, seen, total);
    TrueParts(p1, r1, w, log, fp);
    SameStoreSpared(p, p1, Bufs(r.queue.cells) + Bufs(r.pend.reorder));
    SparedUntouched(p, r, p1, r1);
    OutcomeSame(p, r, p1, r1, w[n], free);
  }

  lemma SameStoreSpared(p: Pool, p': Pool, held: multiset<int>)
    requires p'.store == p.store
    ensures Spared(p, p', held)
  {
  }

  // A fragment that came before finds its assembly at work.
  lemma ClaimAgain(p: Pool, frags: seq<FragCell>, n: u16, seen: set<nat>, total: nat)
    requires At(frags, n, seen, total) && seen != {}
    ensures var (p', frags', k) := Claim(p, frags, n, total);
            p' == p && frags' == frags && 0 <= k < |frags| && frags[k].meta.got == seen
  {
  }

  lemma StorePieceStep(p: Pool, r: Rx, w: seq<bytes>, log: seq<bytes>, fp: nat, n: u16, seen: set<nat>,
                       free: nat, out: (u16, seq<bytes>), f: Frame, k: nat)
    requires fp >= 64 && Waits(p, r, w, log, fp, n) && |p.free| == free && Outcome(p, r, w[n], free) == out
    requires HonestFrame(f, w, fp) && f.seqno == n && f.idx !in seen
    requires k < FRAG_SLOTS && FindFrag(r.pend.frags, n, 0) == k
    requires r.pend.frags[k].meta.got == seen && r.pend.frags[k].meta.total == FragTotal(|w[n]|, fp)
    requires forall k :: k in seen ==> k < FragTotal(|w[n]|, fp)
    ensures Wanted(r.pend.frags[k].meta, fp, f.idx, f.data)
    ensures var (p2, frags2) := StorePiece(p, r.pend.frags, k, fp, f.idx, f.data); var r2 := WithFrags(r, frags2);
            && Fine(p2, r2) && frags2[k].meta.active
            && (Complete(frags2[k].meta) <==> seen + {f.idx} == AllOf(FragTotal(|w[n]|, fp)))
            && if Complete(frags2[k].meta)
               then var (p3, r3) := Finish(p2, r2, true, fp, k); Arrived(p3, r3, w, log, fp, n, out)
               else Partial(p2, r2, w, log, fp, n, seen + {f.idx}, free, out)
  {
    hide FragTotal, Fine, Sendable, LogTrue, ReorderTrue, FragsTrue, Finish, StorePiece, Frag, Queued, QueueOk, At, Windowed,
      Outcome, Untouched;
    TrueParts(p, r, w, log, fp);
    HonestFits(f, w, fp);
    var (p2, frags2) := StorePiece(p, r.pend.frags, k, fp, f.idx, f.data);
    var r2 := WithFrags(r, frags2);
    StoreAt(p, r.pend.frags, n, k, fp, f.idx, f.data);
    StoreTrue(p, r, k, w, log, fp, f);
    StoreUntouched(p, r, k, fp, f.idx, f.data);
    OutcomeSame(p, r, p2, r2, w[n], free);
    FullIff(seen + {f.idx}, FragTotal(|w[n]|, fp));
    if Complete(frags2[k].meta) {
      FinishTakes(p2, r2, w, log, fp, n, k);
    } else {
      assert f.idx in seen + {f.idx};
    }
  }

  lemma StoreUntouched(p: Pool, r: Rx, k: nat, fp: nat, idx: nat, data: bytes)
    requires Fine(p, r) && k < FRAG_SLOTS && Wanted(r.pend.frags[k].meta, fp, idx, data)
    ensures var (p2, frags2) := StorePiece(p, r.pend.frags, k, fp, idx, data); Untouched(p, r, p2, WithFrags(r, frags2))
  {
    hide Untouched, Windowed, Holds;
    WriteUntouched(p, r, k, idx * fp, data, StorePiece(p, r.pend.frags, k, fp, idx, data).1);
  }

  lemma FinishTakes(p: Pool, r: Rx, w: seq<bytes>, log: seq<bytes>, fp: nat, n: u16, k: nat)
    requires fp >= 64 && Waits(p, r, w, log, fp, n)
    requires k < FRAG_SLOTS && r.pend.frags[k].meta.active && r.pend.frags[k].meta.seqno == n
    requires Complete(r.pend.frags[k].meta)
    ensures var (p', r') := Finish(p, r, true, fp, k); Arrived(p', r', w, log, fp, n, Outcome(p, r, w[n], |p.free|))
  {
    hide FragTotal, Bufs, Single, LogTrue, ReorderTrue, Assembling, CompactFrom, Queued, Finish, Outcome, Windowed;
    TrueParts(p, r, w, log, fp);
    CompleteIsMessage(p, r.pend.frags[k], w, fp);
    FinishTrue(p, r, k, w, log, fp);
    FinishQueues(p, r, fp, k);
    OutcomeLater(p, r, w[n], |p.free|);
  }

  // The only fragment of a message is the message.
  lemma OnlyFragment(f: Frame, w: seq<bytes>, fp: nat)
    requires fp >= 64 && Sendable(w) && HonestFrame(f, w, fp) && f.total <= 1
    ensures f.data == w[f.seqno] && f.idx == 0 && f.total == FragTotal(|w[f.seqno]|, fp) == 1
  {
    hide FragTotal;
    TotalCovers(|w[f.seqno]|, fp);
  }

  // A whole message in one frame.
  lemma WholeStep(p: Pool, r: Rx, w: seq<bytes>, log: seq<bytes>, fp: nat, n: u16, f: Frame)
    requires fp >= 64 && Waits(p, r, w, log, fp, n) && HonestFrame(f, w, fp) && f.seqno == n && f.total <= 1
    ensures Fine(p, r)
    ensures var (p', r') := FeedData(p, r, true, fp, f.seqno, f.idx, f.total, f.data);
            Arrived(p', r', w, log, fp, n, Outcome(p, r, w[n], |p.free|))
  {
    hide Fine, HonestFrame, LogTrue, ReorderTrue, FragsTrue, FragTotal, Queued, QueueOk, FeedWhole, Outcome, Windowed;
    TrueParts(p, r, w, log, fp);
    OnlyFragment(f, w, fp);
    FeedWholeQueues(p, r, n, f.data);
    OutcomeLater(p, r, w[n], |p.free|);
    HonestFrameKeepsTrue(p, r, w, log, fp, f);
  }

  // Once consumed, further fragments change neither what is queued nor what is expected.
  lemma ArrivedStep(p: Pool, r: Rx, w: seq<bytes>, log: seq<bytes>, fp: nat, n: u16, out: (u16, seq<bytes>), f: Frame)
    requires fp >= 64 && Arrived(p, r, w, log, fp, n, out) && HonestFrame(f, w, fp) && f.seqno == n
    ensures Fine(p, r)
    ensures var (p', r') := FeedData(p, r, true, fp, f.seqno, f.idx, f.total, f.data);
            Arrived(p', r', w, log, fp, n, out)
  {
    hide Fine, Sendable, LogTrue, ReorderTrue, FragsTrue, FeedData, Queued, QueueOk, HonestFrame, HandsUp;
    TrueParts(p, r, w, log, fp);
    HonestFrameKeepsTrue(p, r, w, log, fp, f);
    var (p', r') := FeedData(p, r, true, fp, f.seqno, f.idx, f.total, f.data);
    TrueParts(p', r', w, log, fp);
    FrameQueues(p, r, fp, f);
  }

  // ----- any order, any repetition -----

  // Fragments of message n of an honest sender.
  ghost predicate AllHonest(fs: seq<Frame>, w: seq<bytes>, fp: nat, n: u16)
    requires fp >= 64
  {
    forall i :: 0 <= i < |fs| ==> HonestFrame(fs[i], w, fp) && fs[i].seqno == n
  }

  ghost function Indices(fs: seq<Frame>): set<nat>
    decreases |fs|
  {
    if fs == [] then {} else {fs[0].idx} + Indices(fs[1..])
  }

  lemma {:induction false} StaysArrived(p: Pool, r: Rx, w: seq<bytes>, log: seq<bytes>, fp: nat, n: u16,
                                        out: (u16, seq<bytes>), fs: seq<Frame>)
    requires fp >= 64 && Arrived(p, r, w, log, fp, n, out) && AllHonest(fs, w, fp, n)
    ensures Fine(p, r)
    ensures var (p', r') := FeedAll(p, r, fp, fs); Arrived(p', r', w, log, fp, n, out)
    decreases |fs|
  {
    hide True, Fine, FeedData, HonestFrame, Queued, QueueOk;
    ArrivedParts(p, r, w, log, fp, n, out);
    if fs != [] {
      var f := fs[0];
      ArrivedStep(p, r, w, log, fp, n, out, f);
      var (p1, r1) := FeedData(p, r, true, fp, f.seqno, f.idx, f.total, f.data);
      ArrivedParts(p1, r1, w, log, fp, n, out);
      StaysArrived(p1, r1, w, log, fp, n, out, fs[1..]);
    }
  }

  lemma ArrivedParts(p: Pool, r: Rx, w: seq<bytes>, log: seq<bytes>, fp: nat, n: u16, out: (u16, seq<bytes>))
    requires fp >= 64 && Arrived(p, r, w, log, fp, n, out)
    ensures Fine(p, r) && !p.spilled && QueueOk(r.queue) && (r.seqno, Queued(p, r.queue)) == out
  {
  }

  lemma PartialParts(p: Pool, r: Rx, w: seq<bytes>, log: seq<bytes>, fp: nat, n: u16, seen: set<nat>,
                     free: nat, out: (u16, seq<bytes>))
    requires fp >= 64 && Partial(p, r, w, log, fp, n, seen, free, out)
    ensures Fine(p, r) && !p.spilled && QueueOk(r.queue) && n < |w| && 1 <= |w[n]| <= MAX_MSG && r.seqno == n < 0x8000
  {
  }

  lemma HonestTotal(f: Frame, w: seq<bytes>, fp: nat)
    requires fp >= 64 && HonestFrame(f, w, fp)
    ensures f.total == FragTotal(|w[f.seqno]|, fp) && f.idx < f.total
    ensures f.total <= 1 ==> forall s: set<nat> :: s < AllOf(f.total) ==> s == {}
  {
    hide FragTotal;
    if f.total <= 1 {
      forall s: set<nat> | s < AllOf(f.total) ensures s == {} {
        assert AllOf(f.total) == {0};
        assert forall k :: k in s ==> k == 0;
        assert 0 !in s;
      }
    }
  }

  // Whatever has come so far of a message of several fragments: once the last one has come the
  // message has had its turn, before that nothing was consumed or queued.
  lemma {:induction false} FeedsUntilWhole(p: Pool, r: Rx, w: seq<bytes>, log: seq<bytes>, fp: nat, n: u16, seen: set<nat>,
                                           free: nat, out: (u16, seq<bytes>), base: seq<bytes>, fs: seq<Frame>)
    requires fp >= 64 && Partial(p, r, w, log, fp, n, seen, free, out) && AllHonest(fs, w, fp, n)
    requires seen < AllOf(FragTotal(|w[n]|, fp)) && FragTotal(|w[n]|, fp) > 1
    requires QueueOk(r.queue) && Queued(p, r.queue) == base
    ensures Fine(p, r)
    ensures var (p', r') := FeedAll(p, r, fp, fs); var all := AllOf(FragTotal(|w[n]|, fp));
            && QueueOk(r'.queue)
            && if seen + Indices(fs) == all then Arrived(p', r', w, log, fp, n, out)
               else Partial(p', r', w, log, fp, n, seen + Indices(fs), free, out) && Queued(p', r'.queue) == base
    decreases |fs|
  {
    hide Waits, At, Queued, Arrived, Partial, Fine, FeedData, FeedPiece, HonestFrame, FragTotal, AllOf, QueueOk, Outcome,
      HandsUp;
    PartialParts(p, r, w, log, fp, n, seen, free, out);
    var all := AllOf(FragTotal(|w[n]|, fp));
    if fs == [] {
      assert seen + Indices(fs) == seen;
    } else {
      var f, rest := fs[0], fs[1..];
      HonestTotal(f, w, fp);
      var (p1, r1) := FeedData(p, r, true, fp, f.seqno, f.idx, f.total, f.data);
      FeedPieceIs(p, r, fp, f);
      PieceStep(p, r, w, log, fp, n, seen, free, out, f);
      var seen1 := seen + {f.idx};
      assert seen + Indices(fs) == seen1 + Indices(rest);
      WithinAll(fs, w, fp, n);
      assert Indices(fs) <= all;
      if seen1 == all {
        ArrivedParts(p1, r1, w, log, fp, n, out);
        StaysArrived(p1, r1, w, log, fp, n, out, rest);
        assert seen1 + Indices(rest) == all;
        var (p', r') := FeedAll(p1, r1, fp, rest);
        ArrivedParts(p', r', w, log, fp, n, out);
      } else {
        PartialParts(p1, r1, w, log, fp, n, seen1, free, out);
        StillQueued(p, r, fp, f);
        FeedsUntilWhole(p1, r1, w, log, fp, n, seen1, free, out, base, rest);
      }
    }
  }

  lemma FeedPieceIs(p: Pool, r: Rx, fp: nat, f: Frame)
    requires Fine(p, r) && f.total > 1
    ensures FeedData(p, r, true, fp, f.seqno, f.idx, f.total, f.data)
         == FeedPiece(p, r, true, fp, f.seqno, f.idx, f.total, f.data)
  {
  }

  // As long as the number wanted stays, so does the queue.
  lemma StillQueued(p: Pool, r: Rx, fp: nat, f: Frame)
    requires Fine(p, r) && r.seqno < 0x8000
    ensures var (p', r') := FeedData(p, r, true, fp, f.seqno, f.idx, f.total, f.data);
            !p'.spilled && r'.seqno == r.seqno && QueueOk(r.queue) ==>
              QueueOk(r'.queue) && Queued(p', r'.queue) == Queued(p, r.queue)
  {
    hide Fine, FeedData, HandsUp, Queued, QueueOk, Outcome;
    FineOk(p, r);
    FrameQueues(p, r, fp, f);
    var h := HandsUp(p, r, fp, f);
    if h.Some? {
      OutcomeLater(p, r, h.value, |p.free|);
    }
  }

  lemma {:induction false} WithinAll(fs: seq<Frame>, w: seq<bytes>, fp: nat, n: u16)
    requires fp >= 64 && n < |w| && AllHonest(fs, w, fp, n)
    ensures Indices(fs) <= AllOf(FragTotal(|w[n]|, fp))
    decreases |fs|
  {
    hide FragTotal, HonestFrame;
    if fs != [] {
      HonestTotal(fs[0], w, fp);
      WithinAll(fs[1..], w, fp, n);
    }
  }

  // ----- the message wanted, in full -----

  // An assembly can be had for the message, if it needs one.
  predicate Ready(p: Pool, r: Rx, total: nat) {
    total <= 1 || (FindIdle(r.pend.frags, 0) != -1 && p.free != [])
  }

  // The free buffers when the message has its turn: its assembly has one.
  function FreeAtTurn(p: Pool, total: nat): int {
    if total <= 1 then |p.free| else |p.free| - 1
  }

  // With no assembly to be had, its fragments do nothing.
  lemma {:induction false} NothingClaimed(p: Pool, r: Rx, fp: nat, n: u16, fs: seq<Frame>)
    requires Fine(p, r) && FindFrag(r.pend.frags, n, 0) == -1
    requires forall i :: 0 <= i < |fs| ==> fs[i].seqno == n && fs[i].total > 1 && !Ready(p, r, fs[i].total)
    ensures FeedAll(p, r, fp, fs) == (p, r)
    decreases |fs|
  {
    hide Fine, FindFrag, FindIdle, StorePiece, Finish;
    if fs != [] {
      assert WithFrags(r, r.pend.frags) == r;
      FineClean(p, r);
      NothingClaimed(p, r, fp, n, fs[1..]);
    }
  }

  lemma {:induction false} WholeOnce(p: Pool, r: Rx, w: seq<bytes>, log: seq<bytes>, fp: nat, n: u16, fs: seq<Frame>)
    requires fp >= 64 && Waits(p, r, w, log, fp, n) && AllHonest(fs, w, fp, n) && FragTotal(|w[n]|, fp) <= 1
    ensures Fine(p, r)
    ensures var (p', r') := FeedAll(p, r, fp, fs);
            && (Indices(fs) == AllOf(FragTotal(|w[n]|, fp)) <==> fs != [])
            && if fs == [] then (p', r') == (p, r) else Arrived(p', r', w, log, fp, n, Outcome(p, r, w[n], |p.free|))
  {
    hide True, Fine, FeedData, HonestFrame, FragTotal, Outcome;
    TrueParts(p, r, w, log, fp);
    SomeFragment(|w[n]|, fp);
    if fs != [] {
      var f := fs[0];
      HonestTotal(f, w, fp);
      WithinAll(fs, w, fp, n);
      OnlyFragment(f, w, fp);
      assert AllOf(1) == {0};
      assert 0 in Indices(fs);
      WholeStep(p, r, w, log, fp, n, f);
      var (p1, r1) := FeedData(p, r, true, fp, f.seqno, f.idx, f.total, f.data);
      ArrivedParts(p1, r1, w, log, fp, n, Outcome(p, r, w[n], |p.free|));
      StaysArrived(p1, r1, w, log, fp, n, Outcome(p, r, w[n], |p.free|), fs[1..]);
    }
  }

  // Main result: a channel waiting for message n, in whatever state, fed fragments of that
  // message in any order with any repetition. If every fragment has come and an assembly could
  // be had, the message has had its turn, with the outcome given; otherwise nothing was
  // consumed or queued.
  lemma AnyOrderOutcome(p: Pool, r: Rx, w: seq<bytes>, log: seq<bytes>, fp: nat, n: u16, fs: seq<Frame>)
    requires fp >= 64 && Waits(p, r, w, log, fp, n) && AllHonest(fs, w, fp, n) && FindFrag(r.pend.frags, n, 0) == -1
    ensures Fine(p, r)
    ensures var (p', r') := FeedAll(p, r, fp, fs); var total := FragTotal(|w[n]|, fp);
            && QueueOk(r'.queue) && !p'.spilled
            && if Indices(fs) == AllOf(total) && Ready(p, r, total)
               then (r'.seqno, Queued(p', r'.queue)) == Outcome(p, r, w[n], FreeAtTurn(p, total))
               else r'.seqno == n && Queued(p', r'.queue) == Queued(p, r.queue)
  {
    hide FragTotal, AllOf, FeedAll, HonestFrame, True, FindFrag, FindIdle, Queued, Fine, QueueOk, Outcome;
    TrueParts(p, r, w, log, fp);
    var total := FragTotal(|w[n]|, fp);
    var (p', r') := FeedAll(p, r, fp, fs);
    SomeFragment(|w[n]|, fp);
    if total <= 1 {
      WholeOnce(p, r, w, log, fp, n, fs);
      if fs != [] { ArrivedParts(p', r', w, log, fp, n, Outcome(p, r, w[n], |p.free|)); }
    } else if !Ready(p, r, total) {
      forall i | 0 <= i < |fs| ensures fs[i].total == total {
        HonestTotal(fs[i], w, fp);
      }
      NothingClaimed(p, r, fp, n, fs);
    } else {
      var free := |p.free| - 1;
      var out := Outcome(p, r, w[n], free);
      assert {} + Indices(fs) == Indices(fs);
      FeedsUntilWhole(p, r, w, log, fp, n, {}, free, out, Queued(p, r.queue), fs);
      if Indices(fs) == AllOf(total) {
        ArrivedParts(p', r', w, log, fp, n, out);
      } else {
        PartialParts(p', r', w, log, fp, n, Indices(fs), free, out);
      }
    }
  }

  // What waits behind message n of an honest sender are the messages that follow it.
  lemma {:induction false} MsgsHonest(p: Pool, cells: seq<Cell<ReoMeta>>, w: seq<bytes>, next: u16, k: nat)
    requires |cells| == REORDER_SLOTS && k <= REORDER_SLOTS && ReorderTrue(p, cells, w) && |w| < 0x8000 && next <= |w|
    requires forall j :: 0 <= j < k ==> Waiting(cells, Plus16(next, j))
    ensures next + k <= |w| && Msgs(p, cells, next, k) == w[next..next + k]
    decreases k
  {
    hide View;
    if k > 0 {
      assert Waiting(cells, Plus16(next, 0));
      forall j | 0 <= j < k - 1 ensures Waiting(cells, Plus16(Next16(next), j)) {
        PlusNext(next, j);
        assert Waiting(cells, Plus16(next, j + 1));
      }
      MsgsHonest(p, cells, w, Next16(next), k - 1);
      assert w[next..next + k] == [w[next]] + w[next + 1..next + k];
    }
  }

  lemma OutcomeHonest(p: Pool, r: Rx, w: seq<bytes>, log: seq<bytes>, fp: nat, n: u16, free: nat)
    requires fp >= 64 && Waits(p, r, w, log, fp, n)
    ensures RxOk(r)
    ensures var c := Following(r);
            && n + 1 + c <= |w|
            && Outcome(p, r, w[n], free)
               == (n + 1 + c, Queued(p, r.queue) + InTurn(w[n], w[n + 1..n + 1 + c], Places(r.queue), free))
            && [w[n]] + w[n + 1..n + 1 + c] == w[n..n + 1 + c]
  {
    hide Fine, LogTrue, ReorderTrue, FragsTrue, Queued, Consecutive, Following, Windowed, QueueOk, InTurn;
    TrueParts(p, r, w, log, fp);
    FollowingIs(r);
    AllWaiting(r.pend.reorder, Next16(n), Following(r));
    MsgsHonest(p, r.pend.reorder, w, Next16(n), Following(r));
  }

  // So: the message and those that waited for it are all queued, behind what was, if and only
  // if every fragment has come, an assembly could be had, and there was room for all of them.
  lemma AnyOrderYieldsIff(p: Pool, r: Rx, w: seq<bytes>, log: seq<bytes>, fp: nat, n: u16, fs: seq<Frame>)
    requires fp >= 64 && Waits(p, r, w, log, fp, n) && AllHonest(fs, w, fp, n) && FindFrag(r.pend.frags, n, 0) == -1
    ensures Fine(p, r)
    ensures var (p', r') := FeedAll(p, r, fp, fs); var total, c := FragTotal(|w[n]|, fp), Following(r);
            && n + 1 + c <= |w| && QueueOk(r'.queue)
            && (Queued(p', r'.queue) == Queued(p, r.queue) + w[n..n + 1 + c]
                <==> Indices(fs) == AllOf(total) && Ready(p, r, total)
                     && RoomFor(w[n], c, Places(r.queue), FreeAtTurn(p, total)))
  {
    hide FragTotal, AllOf, FeedAll, AllHonest, Indices, True, FindFrag, FindIdle, Queued, Fine, QueueOk, InTurn, RoomFor,
      Following, Places, Outcome;
    TrueParts(p, r, w, log, fp);
    var total, c := FragTotal(|w[n]|, fp), Following(r);
    AnyOrderOutcome(p, r, w, log, fp, n, fs);
    OutcomeHonest(p, r, w, log, fp, n, 0);
    if Indices(fs) == AllOf(total) && Ready(p, r, total) {
      var free, ms := FreeAtTurn(p, total), w[n + 1..n + 1 + c];
      OutcomeHonest(p, r, w, log, fp, n, free);
      InTurnIff(w[n], ms, Places(r.queue), free);
      SameTail(Queued(p, r.queue), InTurn(w[n], ms, Places(r.queue), free), w[n..n + 1 + c]);
    } else {
      assert |Queued(p, r.queue) + w[n..n + 1 + c]| > |Queued(p, r.queue)|;
    }
  }

  lemma SomeFragment(len: nat, fp: nat)
    requires fp >= 64 && len >= 1
    ensures {} < AllOf(FragTotal(len, fp))
  {
    hide FragTotal;
    TotalCovers(len, fp);
    assert 0 in AllOf(FragTotal(len, fp));
  }
}
