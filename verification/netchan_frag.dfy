// Fragmenting a message and putting it together again in place.
module NetchanFrag {
  import opened Bytes
  import opened NetchanPool

  const MAX_FRAGS := 32

  // ----- cutting a message up -----

  // How many fragments of at most fp bytes a message of this length takes.
  function FragTotal(len: nat, fp: nat): nat
    requires fp > 0
  {
    var n := (len + fp - 1) / fp;
    if n == 0 then 1 else n
  }

  // Fragment k: the bytes from k * fp on, at most fp of them.
  function Frag(m: bytes, fp: nat, k: nat): bytes {
    if k * fp >= |m| then [] else m[k * fp..Min(k * fp + fp, |m|)]
  }

  lemma OffsetNext(fp: nat, k: nat)
    ensures (k + 1) * fp == k * fp + fp
  {
  }

  lemma OffsetGrows(fp: nat, j: nat, k: nat)
    requires j < k
    ensures j * fp + fp <= k * fp
  {
    assert (k - j - 1) * fp >= 0;
    assert k * fp == j * fp + fp + (k - j - 1) * fp;
  }

  // The count covers the message, and not one fragment more.
  lemma TotalCovers(len: nat, fp: nat)
    requires fp > 0 && len > 0
    ensures var n := FragTotal(len, fp); (n - 1) * fp < len <= n * fp
  {
    var n := (len + fp - 1) / fp;
    assert len + fp - 1 == fp * n + (len + fp - 1) % fp;
    OffsetNext(fp, n - 1);
  }

  // A message that fits a buffer never needs more fragments than an assembly can track,
  // as long as a fragment carries at least 64 bytes.
  lemma TotalBounded(len: nat, fp: nat)
    requires 0 < len <= MAX_MSG && fp >= 64
    ensures 1 <= FragTotal(len, fp) <= MAX_FRAGS
  {
    TotalCovers(len, fp);
    var n := FragTotal(len, fp);
    if n > MAX_FRAGS {
      OffsetGrows(fp, MAX_FRAGS - 1, n - 1);
    }
  }

  function Frags(m: bytes, fp: nat, n: nat): seq<bytes> {
    seq(n, k requires 0 <= k < n => Frag(m, fp, k))
  }

  function Concat(pieces: seq<bytes>): bytes {
    if pieces == [] then [] else Concat(pieces[..|pieces| - 1]) + pieces[|pieces| - 1]
  }

  lemma {:induction false} FragsPrefix(m: bytes, fp: nat, n: nat)
    ensures Concat(Frags(m, fp, n)) == m[..Min(n * fp, |m|)]
  {
    if n > 0 {
      FragsPrefix(m, fp, n - 1);
      assert Frags(m, fp, n)[..n - 1] == Frags(m, fp, n - 1);
      OffsetNext(fp, n - 1);
    }
  }

  // The fragments of a message, in order, are the message.
  lemma FragsAreWhole(m: bytes, fp: nat)
    requires fp > 0 && m != []
    ensures Concat(Frags(m, fp, FragTotal(|m|, fp))) == m
    ensures forall k :: 0 <= k < FragTotal(|m|, fp) ==> |Frag(m, fp, k)| <= fp
  {
    TotalCovers(|m|, fp);
    FragsPrefix(m, fp, FragTotal(|m|, fp));
  }

  // A DATA frame of message seqno.
  datatype Frame = Frame(seqno: u16, idx: nat, total: nat, data: bytes)

  // Messages a channel accepts for sending.
  ghost predicate Sendable(w: seq<bytes>) {
    |w| < 0x8000 && forall i :: 0 <= i < |w| ==> 1 <= |w[i]| <= MAX_MSG
  }

  // The frame is fragment idx of message seqno.
  ghost predicate HonestFrame(f: Frame, w: seq<bytes>, fp: nat)
    requires fp >= 64
  {
    && f.seqno < |w|
    && f.total == FragTotal(|w[f.seqno]|, fp) && f.idx < f.total
    && f.data == Frag(w[f.seqno], fp, f.idx)
  }

  // ----- putting it together in place -----

  // What compaction makes of a buffer: the buffer and how much of it the message takes, or
  // an overrun, once a piece is moved past the end.
  datatype Compacted = Overrun | Moved(buf: bytes, pos: nat)

  // memmove inside one buffer.
  function MoveDown(buf: bytes, dst: nat, src: nat, n: nat): (r: bytes)
    requires src + n <= |buf| && dst + n <= |buf|
    ensures |r| == |buf|
  {
    Poke(buf, dst, buf[src..src + n])
  }

  function PieceMoved(buf: bytes, fp: nat, i: nat, pos: nat, n: nat): (r: bytes)
    requires i * fp + n <= |buf| && pos + n <= |buf|
    ensures |r| == |buf|
  {
    if pos != i * fp then MoveDown(buf, pos, i * fp, n) else buf
  }

  // The compaction loop from fragment i on, with pos bytes already in place. It is followed
  // as long as every piece lies in the buffer before and after its move.
  function CompactFrom(buf: bytes, sizes: seq<nat>, fp: nat, i: nat, total: nat, pos: nat): (r: Compacted)
    requires total <= |sizes| && pos <= |buf|
    ensures r.Moved? ==> |r.buf| == |buf| && r.pos <= |buf|
    decreases total - i
  {
    if i >= total then Moved(buf, pos)
    else if i * fp + sizes[i] > |buf| || pos + sizes[i] > |buf| then Overrun
    else CompactFrom(PieceMoved(buf, fp, i, pos, sizes[i]), sizes, fp, i + 1, total, pos + sizes[i])
  }

  // ----- when compaction stays in its buffer -----

  // Fragments i to total - 1 together.
  function SumFrom(sizes: seq<nat>, i: nat, total: nat): nat
    requires total <= |sizes|
    decreases total - i
  {
    if i >= total then 0 else sizes[i] + SumFrom(sizes, i + 1, total)
  }

  // Every fragment, where it was received, lies within a buffer: what receiving it checks.
  ghost predicate LaidWithin(sizes: seq<nat>, fp: nat, total: nat, room: nat)
    requires total <= |sizes|
  {
    forall k :: 0 <= k < total ==> k * fp + sizes[k] <= room
  }

  // Nothing but the sum of the fragments decides. Receiving them checks each on its own, so
  // compaction runs past the end exactly when together they are longer than the buffer.
  lemma {:induction false} OverrunIff(buf: bytes, sizes: seq<nat>, fp: nat, i: nat, total: nat, pos: nat)
    requires total <= |sizes| && pos <= |buf| && LaidWithin(sizes, fp, total, |buf|)
    ensures var r := CompactFrom(buf, sizes, fp, i, total, pos);
            && (r.Overrun? <==> pos + SumFrom(sizes, i, total) > |buf|)
            && (r.Moved? ==> r.pos == pos + SumFrom(sizes, i, total))
    decreases total - i
  {
    hide PieceMoved;
    if i < total {
      assert i * fp + sizes[i] <= |buf|;
      if pos + sizes[i] <= |buf| {
        OverrunIff(PieceMoved(buf, fp, i, pos, sizes[i]), sizes, fp, i + 1, total, pos + sizes[i]);
      }
    }
  }

  // It does happen: with a share of 1185 bytes, fragments of 1400 and 863 bytes each end
  // within a buffer of 2048, and compaction moves the second to 1400, 215 bytes past the end.
  lemma OverrunHappens(buf: bytes, sizes: seq<nat>)
    requires |buf| == MAX_MSG && |sizes| >= 2 && sizes[0] == 1400 && sizes[1] == 863
    ensures LaidWithin(sizes, 1185, 2, MAX_MSG)
    ensures CompactFrom(buf, sizes, 1185, 0, 2, 0).Overrun? && sizes[0] + sizes[1] == MAX_MSG + 215
  {
    OverrunIff(buf, sizes, 1185, 0, 2, 0);
    assert SumFrom(sizes, 0, 2) == 1400 + SumFrom(sizes, 1, 2) && SumFrom(sizes, 1, 2) == 863 + SumFrom(sizes, 2, 2);
  }

  lemma {:induction false} SharesSum(sizes: seq<nat>, fp: nat, i: nat, total: nat)
    requires i < total <= |sizes| && forall k :: i <= k < total ==> sizes[k] <= fp
    ensures i * fp + SumFrom(sizes, i, total) <= (total - 1) * fp + sizes[total - 1]
    decreases total - i
  {
    OffsetNext(fp, i);
    if i + 1 < total {
      SharesSum(sizes, fp, i + 1, total);
    } else {
      assert SumFrom(sizes, i + 1, total) == 0;
    }
  }

  // Fragments no longer than their share always fit.
  lemma SharesFit(sizes: seq<nat>, fp: nat, total: nat, room: nat)
    requires total <= |sizes| && LaidWithin(sizes, fp, total, room)
    requires forall k :: 0 <= k < total ==> sizes[k] <= fp
    ensures SumFrom(sizes, 0, total) <= room
  {
    if total > 0 {
      SharesSum(sizes, fp, 0, total);
    }
  }

  // ----- what compaction puts together -----

  // Piece k lies where its fragment was received.
  ghost predicate PieceAt(buf: bytes, fp: nat, k: nat, piece: bytes) {
    k * fp + |piece| <= |buf| && buf[k * fp..k * fp + |piece|] == piece
  }

  ghost predicate PiecesFrom(buf: bytes, fp: nat, pieces: seq<bytes>, i: nat) {
    forall k :: i <= k < |pieces| ==> PieceAt(buf, fp, k, pieces[k])
  }

  lemma MoveKeepsLater(buf: bytes, fp: nat, pieces: seq<bytes>, i: nat, pos: nat)
    requires i < |pieces| && PiecesFrom(buf, fp, pieces, i) && pos <= i * fp && |pieces[i]| <= fp
    requires i * fp + |pieces[i]| <= |buf|
    ensures var buf' := MoveDown(buf, pos, i * fp, |pieces[i]|);
            && buf'[..pos + |pieces[i]|] == buf[..pos] + pieces[i]
            && PiecesFrom(buf', fp, pieces, i + 1)
  {
    var n := |pieces[i]|;
    var buf' := MoveDown(buf, pos, i * fp, n);
    assert PieceAt(buf, fp, i, pieces[i]);
    forall k | i + 1 <= k < |pieces| ensures PieceAt(buf', fp, k, pieces[k]) {
      assert PieceAt(buf, fp, k, pieces[k]);
      OffsetGrows(fp, i, k);
      assert buf'[k * fp..k * fp + |pieces[k]|] == buf[k * fp..k * fp + |pieces[k]|];
    }
  }

  // One turn of the loop: the next piece joins those in place, the later ones stay put.
  lemma PieceJoins(buf: bytes, fp: nat, pieces: seq<bytes>, i: nat, pos: nat)
    requires i < |pieces| && PiecesFrom(buf, fp, pieces, i) && pos <= i * fp && |pieces[i]| <= fp
    ensures pos + |pieces[i]| <= i * fp + fp <= (i + 1) * fp
    ensures i * fp + |pieces[i]| <= |buf| && pos + |pieces[i]| <= |buf|
    ensures var buf' := PieceMoved(buf, fp, i, pos, |pieces[i]|);
            && buf'[..pos + |pieces[i]|] == buf[..pos] + pieces[i]
            && PiecesFrom(buf', fp, pieces, i + 1)
  {
    OffsetNext(fp, i);
    assert PieceAt(buf, fp, i, pieces[i]);
    if pos == i * fp {
      assert buf[..pos + |pieces[i]|] == buf[..pos] + buf[pos..pos + |pieces[i]|];
    } else {
      MoveKeepsLater(buf, fp, pieces, i, pos);
    }
  }

  ghost predicate SizesOf(sizes: seq<nat>, pieces: seq<bytes>) {
    |pieces| <= |sizes| && forall k :: 0 <= k < |pieces| ==> sizes[k] == |pieces[k]|
  }

  lemma ConcatNext(pieces: seq<bytes>, i: nat)
    requires i < |pieces|
    ensures Concat(pieces[..i + 1]) == Concat(pieces[..i]) + pieces[i]
  {
    assert pieces[..i + 1][..i] == pieces[..i];
  }

  lemma {:induction false} CompactionStep(buf: bytes, sizes: seq<nat>, fp: nat, pieces: seq<bytes>, i: nat, pos: nat)
    requires i <= |pieces| && SizesOf(sizes, pieces)
    requires forall k :: 0 <= k < |pieces| ==> |pieces[k]| <= fp
    requires PiecesFrom(buf, fp, pieces, i)
    requires pos <= i * fp && pos <= |buf| && buf[..pos] == Concat(pieces[..i])
    ensures var r := CompactFrom(buf, sizes, fp, i, |pieces|, pos);
            r.Moved? && r.buf[..r.pos] == Concat(pieces)
    decreases |pieces| - i
  {
    hide PiecesFrom, PieceMoved, Concat;
    if i == |pieces| {
      assert pieces[..i] == pieces;
    } else {
      PieceJoins(buf, fp, pieces, i, pos);
      ConcatNext(pieces, i);
      CompactionStep(PieceMoved(buf, fp, i, pos, sizes[i]), sizes, fp, pieces, i + 1, pos + sizes[i]);
    }
  }

  // Compacting in place equals concatenating in index order, whenever no piece is longer
  // than its share of the buffer.
  lemma CompactionConcatenates(buf: bytes, sizes: seq<nat>, fp: nat, pieces: seq<bytes>)
    requires SizesOf(sizes, pieces) && PiecesFrom(buf, fp, pieces, 0)
    requires forall k :: 0 <= k < |pieces| ==> |pieces[k]| <= fp
    ensures var r := CompactFrom(buf, sizes, fp, 0, |pieces|, 0);
            r.Moved? && |r.buf| == |buf| && r.buf[..r.pos] == Concat(pieces)
  {
    assert pieces[..0] == [];
    CompactionStep(buf, sizes, fp, pieces, 0, 0);
  }

  // ----- sets of fragment numbers -----

  lemma {:induction false} FullSet(s: set<nat>, n: nat)
    requires (forall k :: k in s ==> k < n) && |s| == n
    ensures forall k: nat :: k < n ==> k in s
  {
    if n > 0 {
      if n - 1 in s {
        FullSet(s - {n - 1}, n - 1);
      } else {
        BelowCount(s, n - 1);
      }
    }
  }

  lemma {:induction false} BelowCount(s: set<nat>, n: nat)
    requires forall k :: k in s ==> k < n
    ensures |s| <= n
  {
    if n == 0 {
      assert s == {} by { forall k ensures k !in s {} }
    } else if n - 1 in s {
      BelowCount(s - {n - 1}, n - 1);
    } else {
      BelowCount(s, n - 1);
    }
  }
}
