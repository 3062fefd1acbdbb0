// The cave cleaner of the thor demo: flood fill with an explicit stack, keeping only the
// largest 4-connected floor region of the interior.
module ThorRegion {
  const T_WALL := 0

  // ----- the grid as a graph -----

  // Cell i stands at column i % w, row i / w; the border cells are not part of any region.
  predicate Interior(w: nat, h: nat, x: int, y: int) {
    1 <= x < w - 1 && 1 <= y < h - 1
  }

  ghost predicate IsOpen(t: seq<int>, w: nat, h: nat, i: int)
    requires w > 0
  {
    0 <= i < |t| && Interior(w, h, i % w, i / w) && t[i] != T_WALL
  }

  ghost function OpenCells(t: seq<int>, w: nat, h: nat): set<int>
    requires w > 0
  {
    set i | 0 <= i < |t| && IsOpen(t, w, h, i)
  }

  predicate Adj(w: nat, i: int, j: int) {
    j == i + 1 || j == i - 1 || j == i + w || j == i - w
  }

  // Cell numbers and coordinates.
  lemma MulApart(w: nat, d: int)
    ensures d >= 1 ==> w * d >= w
    ensures d <= -1 ==> w * d + w <= 0
  {
    if d >= 1 {
      assert w * d == w * (d - 1) + w;
    } else if d <= -1 {
      assert w * d == w * (d + 1) - w;
    }
  }

  lemma CellAt(w: nat, x: int, y: int)
    requires 0 <= x < w
    ensures (y * w + x) % w == x && (y * w + x) / w == y
  {
    var i := y * w + x;
    var q := i / w;
    assert i == w * q + i % w;
    assert w * (q - y) == x - i % w;
    MulApart(w, q - y);
  }

  lemma CellInGrid(w: nat, h: nat, x: int, y: int)
    requires 0 <= x < w && 0 <= y < h
    ensures 0 <= y * w + x < w * h
  {
    MulApart(w, h - y);
    assert w * h == w * (h - y) + y * w;
    assert y * w >= 0;
  }

  // The cell dx columns and dy rows away, as long as it stays in its row.
  lemma Offset(w: nat, i: int, dx: int, dy: int)
    requires w > 0 && 0 <= i % w + dx < w
    ensures var x, y := i % w + dx, i / w + dy;
            y * w + x == i + dy * w + dx
            && (i + dy * w + dx) % w == x && (i + dy * w + dx) / w == y
  {
    var x, y := i % w, i / w;
    assert i == y * w + x;
    assert (y + dy) * w + (x + dx) == i + dy * w + dx;
    CellAt(w, x + dx, y + dy);
  }

  // Between interior cells, adjacency is one step along one axis.
  lemma AdjIsOneStep(w: nat, h: nat, i: int, j: int)
    requires w > 0 && Interior(w, h, i % w, i / w) && Interior(w, h, j % w, j / w)
    ensures Adj(w, i, j) <==> OneStep(i % w, i / w, j % w, j / w)
  {
    Offset(w, i, 1, 0);
    Offset(w, i, -1, 0);
    Offset(w, i, 0, 1);
    Offset(w, i, 0, -1);
    Offset(w, j, 0, 0);
  }

  predicate OneStep(x: int, y: int, u: int, v: int) {
    (y == v && (u == x + 1 || u == x - 1)) || (x == u && (v == y + 1 || v == y - 1))
  }

  ghost predicate IsPath(s: set<int>, w: nat, p: seq<int>) {
    && p != []
    && (forall k :: 0 <= k < |p| ==> p[k] in s)
    && (forall k :: 0 < k < |p| ==> Adj(w, p[k - 1], p[k]))
  }

  ghost predicate Joined(s: set<int>, w: nat, a: int, b: int) {
    exists p :: IsPath(s, w, p) && p[0] == a && p[|p| - 1] == b
  }

  // The region of a: every open cell a path leads to.
  ghost function Region(s: set<int>, w: nat, a: int): set<int> {
    set b | b in s && Joined(s, w, a, b)
  }

  lemma JoinedSelf(s: set<int>, w: nat, a: int)
    requires a in s
    ensures Joined(s, w, a, a)
  {
    assert IsPath(s, w, [a]);
  }

  lemma JoinedNext(s: set<int>, w: nat, a: int, b: int, c: int)
    requires Joined(s, w, a, b) && c in s && Adj(w, b, c)
    ensures Joined(s, w, a, c)
  {
    var p :| IsPath(s, w, p) && p[0] == a && p[|p| - 1] == b;
    assert IsPath(s, w, p + [c]);
  }

  ghost function Reversed(p: seq<int>): (r: seq<int>)
    ensures |r| == |p| && forall k :: 0 <= k < |p| ==> r[k] == p[|p| - 1 - k]
  {
    seq(|p|, k requires 0 <= k < |p| => p[|p| - 1 - k])
  }

  lemma JoinedBack(s: set<int>, w: nat, a: int, b: int)
    requires Joined(s, w, a, b)
    ensures Joined(s, w, b, a)
  {
    var p :| IsPath(s, w, p) && p[0] == a && p[|p| - 1] == b;
    var r := Reversed(p);
    forall k | 0 < k < |r| ensures Adj(w, r[k - 1], r[k]) {
      assert Adj(w, p[|p| - 1 - k], p[|p| - 1 - k + 1]);
    }
    assert IsPath(s, w, r);
  }

  lemma JoinedThrough(s: set<int>, w: nat, a: int, b: int, c: int)
    requires Joined(s, w, a, b) && Joined(s, w, b, c)
    ensures Joined(s, w, a, c)
  {
    var p :| IsPath(s, w, p) && p[0] == a && p[|p| - 1] == b;
    var q :| IsPath(s, w, q) && q[0] == b && q[|q| - 1] == c;
    var r := p + q[1..];
    forall k | 0 < k < |r| ensures Adj(w, r[k - 1], r[k]) {
      if k >= |p| {
        assert r[k] == q[k - |p| + 1] && r[k - 1] == q[k - |p|];
      }
    }
    assert IsPath(s, w, r);
  }

  // A set of open cells no step leads out of.
  ghost predicate Closed(s: set<int>, w: nat, m: set<int>) {
    forall i, j :: i in m && j in s && Adj(w, i, j) ==> j in m
  }

  lemma {:induction false} PathStaysIn(s: set<int>, w: nat, m: set<int>, p: seq<int>)
    requires Closed(s, w, m) && IsPath(s, w, p) && p[0] in m
    ensures p[|p| - 1] in m
  {
    if |p| > 1 {
      var q := p[..|p| - 1];
      PathStaysIn(s, w, m, q);
      assert Adj(w, p[|p| - 2], p[|p| - 1]);
    }
  }

  lemma RegionStaysIn(s: set<int>, w: nat, m: set<int>, a: int)
    requires Closed(s, w, m) && a in m
    ensures Region(s, w, a) <= m
  {
    forall b | b in Region(s, w, a) ensures b in m {
      var p :| IsPath(s, w, p) && p[0] == a && p[|p| - 1] == b;
      PathStaysIn(s, w, m, p);
    }
  }

  lemma RegionClosed(s: set<int>, w: nat, a: int)
    ensures Closed(s, w, Region(s, w, a))
  {
    forall i, j | i in Region(s, w, a) && j in s && Adj(w, i, j) ensures j in Region(s, w, a) {
      JoinedNext(s, w, a, i, j);
    }
  }

  // Two cells of one region have the same region.
  lemma SameRegion(s: set<int>, w: nat, a: int, b: int)
    requires b in Region(s, w, a)
    ensures Region(s, w, b) == Region(s, w, a)
  {
    JoinedBack(s, w, a, b);
    forall c | c in s ensures c in Region(s, w, b) <==> c in Region(s, w, a) {
      if c in Region(s, w, b) { JoinedThrough(s, w, a, b, c); }
      if c in Region(s, w, a) { JoinedThrough(s, w, b, a, c); }
    }
  }

  // ----- the flood fill -----

  // The four even directions of the clockwise table: north, east, south, west.
  const DX: seq<int> := [0, 1, 1, 1, 0, -1, -1, -1]
  const DY: seq<int> := [-1, -1, 0, 1, 1, 1, 0, -1]

  // The scratch of a fill in progress; the stack buffer is as large as the grid.
  datatype Fill = Fill(seen: seq<bool>, stack: seq<int>, sp: nat)

  ghost function Marked(seen: seq<bool>): set<int> {
    set i | 0 <= i < |seen| && seen[i]
  }

  ghost function Elems(p: seq<int>): set<int> {
    set x | x in p
  }

  ghost predicate Distinct(p: seq<int>) {
    forall i, j :: 0 <= i < j < |p| ==> p[i] != p[j]
  }

  lemma {:induction false} DistinctCount(p: seq<int>)
    requires Distinct(p)
    ensures |Elems(p)| == |p|
  {
    if p == [] {
    } else {
      var q, last := p[..|p| - 1], p[|p| - 1];
      DistinctCount(q);
      assert Elems(p) == Elems(q) + {last};
    }
  }

  lemma {:induction false} BoundedCount(m: set<int>, n: nat)
    requires forall i :: i in m ==> 0 <= i < n
    ensures |m| <= n
  {
    if n > 0 {
      var m' := m - {n - 1};
      BoundedCount(m', n - 1);
      assert m <= m' + {n - 1};
      CountGrows(m, m' + {n - 1});
    } else {
      assert m == {} by {
        forall i ensures i !in m {}
      }
    }
  }

  lemma {:induction false} CountGrows(a: set<int>, b: set<int>)
    requires a <= b
    ensures |a| <= |b|
  {
    assert b == a + (b - a);
  }

  // A fill from start over the open cells s: done cells are expanded, the stack holds the
  // rest of what was marked, and every neighbour of a done cell is marked, except that the
  // cell being expanded may still have some to go.
  ghost predicate Filling(s: set<int>, w: nat, before: set<int>, start: int, f: Fill,
                          done: set<int>, expanding: set<int>)
  {
    && |f.seen| == |f.stack| && f.sp <= |f.stack|
    && (forall i :: i in s ==> 0 <= i < |f.seen|)
    && Distinct(f.stack[..f.sp])
    && Marked(f.seen) == before + done + Elems(f.stack[..f.sp])
    && done !! Elems(f.stack[..f.sp])
    && before !! done && before !! Elems(f.stack[..f.sp])
    && done + Elems(f.stack[..f.sp]) <= Region(s, w, start)
    && start in done + Elems(f.stack[..f.sp])
    && (forall i, j :: i in done && i !in expanding && j in s && Adj(w, i, j) ==> j in Marked(f.seen))
  }

  // There is always room for one more open cell that is not marked yet.
  lemma RoomToPush(s: set<int>, w: nat, before: set<int>, start: int, f: Fill,
                   done: set<int>, expanding: set<int>, j: int)
    requires Filling(s, w, before, start, f, done, expanding)
    requires j in s && j !in Marked(f.seen)
    ensures f.sp < |f.stack|
  {
    var pend := Elems(f.stack[..f.sp]);
    DistinctCount(f.stack[..f.sp]);
    CountGrows(pend + {j}, s);
    BoundedCount(s, |f.seen|);
  }

  // Marking one more cell of the region and pushing it keeps the fill in order.
  lemma PushKeeps(s: set<int>, w: nat, before: set<int>, start: int, f: Fill,
                  done: set<int>, expanding: set<int>, j: int)
    requires Filling(s, w, before, start, f, done, expanding)
    requires j in Region(s, w, start) && j !in Marked(f.seen) && f.sp < |f.stack|
    ensures var f' := Fill(f.seen[j := true], f.stack[f.sp := j], f.sp + 1);
            && Filling(s, w, before, start, f', done, expanding)
            && Marked(f'.seen) == Marked(f.seen) + {j}
  {
    var f' := Fill(f.seen[j := true], f.stack[f.sp := j], f.sp + 1);
    assert f'.stack[..f'.sp] == f.stack[..f.sp] + [j];
    assert Elems(f.stack[..f.sp] + [j]) == Elems(f.stack[..f.sp]) + {j};
    assert Marked(f'.seen) == Marked(f.seen) + {j};
  }

  // One neighbour of the cell being expanded: skip it off the interior, on a wall or when
  // seen; otherwise mark and push it.
  method Visit(t: seq<int>, w: nat, h: nat, f: Fill, nx: int, ny: int, ghost before: set<int>,
               ghost start: int, ghost done: set<int>, ghost cur: int) returns (f': Fill)
    requires w > 0 && |f.seen| == |t| == w * h
    requires 0 <= nx < w && 0 <= ny < h
    requires Filling(OpenCells(t, w, h), w, before, start, f, done, {cur})
    requires cur in done && Adj(w, cur, ny * w + nx)
    ensures Filling(OpenCells(t, w, h), w, before, start, f', done, {cur})
    ensures |f'.seen| == |f.seen| && Marked(f.seen) <= Marked(f'.seen)
    ensures ny * w + nx in OpenCells(t, w, h) ==> ny * w + nx in Marked(f'.seen)
  {
    ghost var s := OpenCells(t, w, h);
    var ni := ny * w + nx;
    CellAt(w, nx, ny);
    CellInGrid(w, h, nx, ny);
    f' := f;
    if nx < 1 || ny < 1 || nx >= w - 1 || ny >= h - 1 {
      return;
    }
    if t[ni] == T_WALL || f.seen[ni] {
      return;
    }
    assert ni in s;
    JoinedNext(s, w, start, cur, ni);
    RoomToPush(s, w, before, start, f, done, {cur}, ni);
    PushKeeps(s, w, before, start, f, done, {cur}, ni);
    f' := Fill(f.seen[ni := true], f.stack[f.sp := ni], f.sp + 1);
  }

  // The four-neighbour loop.
  method Expand(t: seq<int>, w: nat, h: nat, f: Fill, cur: int, ghost before: set<int>,
                ghost start: int, ghost done: set<int>) returns (f': Fill)
    requires w > 0 && |f.seen| == |t| == w * h
    requires Filling(OpenCells(t, w, h), w, before, start, f, done, {cur})
    requires cur in done && cur in OpenCells(t, w, h)
    ensures Filling(OpenCells(t, w, h), w, before, start, f', done, {})
    ensures |f'.seen| == |f.seen| && Marked(f.seen) <= Marked(f'.seen)
  {
    ghost var s := OpenCells(t, w, h);
    f' := f;
    var cx, cy := cur % w, cur / w;
    var d := 0;
    while d < 8
      invariant 0 <= d <= 8 && d % 2 == 0
      invariant |f'.seen| == |t| && Marked(f.seen) <= Marked(f'.seen)
      invariant Filling(s, w, before, start, f', done, {cur})
      invariant forall e :: 0 <= e < d && e % 2 == 0 && Neighbour(w, cur, e) in s ==>
                  Neighbour(w, cur, e) in Marked(f'.seen)
    {
      NeighbourAt(w, h, cur, d);
      f' := Visit(t, w, h, f', cx + DX[d], cy + DY[d], before, start, done, cur);
      d := d + 2;
    }
    FourNeighbours(w, cur);
  }

  ghost function Neighbour(w: nat, i: int, d: int): int {
    if d == 0 then i - w else if d == 2 then i + 1 else if d == 4 then i + w else i - 1
  }

  lemma NeighbourAt(w: nat, h: nat, i: int, d: nat)
    requires w > 0 && Interior(w, h, i % w, i / w) && d < 8 && d % 2 == 0
    ensures var x, y := i % w + DX[d], i / w + DY[d];
            && 0 <= x < w && 0 <= y < h
            && y * w + x == Neighbour(w, i, d) && Adj(w, i, Neighbour(w, i, d))
  {
    Offset(w, i, DX[d], DY[d]);
  }

  lemma FourNeighbours(w: nat, i: int)
    ensures forall j :: Adj(w, i, j) ==> exists e :: 0 <= e < 8 && e % 2 == 0 && j == Neighbour(w, i, e)
  {
    assert Neighbour(w, i, 0) == i - w && Neighbour(w, i, 2) == i + 1;
    assert Neighbour(w, i, 4) == i + w && Neighbour(w, i, 6) == i - 1;
  }

  method Flood(t: seq<int>, w: nat, h: nat, seen0: seq<bool>, stack0: seq<int>, start: int)
    returns (seen: seq<bool>, stack: seq<int>, size: nat)
    requires w > 0 && |t| == |seen0| == |stack0| == w * h
    requires start in OpenCells(t, w, h) && !seen0[start]
    requires Closed(OpenCells(t, w, h), w, Marked(seen0))
    ensures |seen| == |stack| == w * h
    ensures Marked(seen) == Marked(seen0) + Region(OpenCells(t, w, h), w, start)
    ensures size == |Region(OpenCells(t, w, h), w, start)|
  {
    ghost var s, before := OpenCells(t, w, h), Marked(seen0);
    ghost var done: set<int> := {};
    var f := Fill(seen0[start := true], stack0[0 := start], 1);
    StartKeeps(s, w, seen0, stack0, start);
    size := 0;
    while f.sp > 0
      invariant |f.seen| == |t|
      invariant Filling(s, w, before, start, f, done, {})
      invariant size == |done|
      decreases |s| - |done|
    {
      var cur := f.stack[f.sp - 1];
      PopKeeps(s, w, before, start, f, done);
      f := f.(sp := f.sp - 1);
      done := done + {cur};
      CountGrows(done, s);
      size := size + 1;
      f := Expand(t, w, h, f, cur, before, start, done);
    }
    FilledIsRegion(s, w, before, start, f, done);
    seen, stack := f.seen, f.stack;
  }

  lemma StartKeeps(s: set<int>, w: nat, seen: seq<bool>, stack: seq<int>, start: int)
    requires |seen| == |stack| && (forall i :: i in s ==> 0 <= i < |seen|)
    requires start in s && !seen[start]
    ensures Filling(s, w, Marked(seen), start, Fill(seen[start := true], stack[0 := start], 1), {}, {})
  {
    var f := Fill(seen[start := true], stack[0 := start], 1);
    JoinedSelf(s, w, start);
    assert f.stack[..1] == [start];
    assert Elems([start]) == {start};
    assert Marked(f.seen) == Marked(seen) + {start};
  }

  lemma PopKeeps(s: set<int>, w: nat, before: set<int>, start: int, f: Fill, done: set<int>)
    requires Filling(s, w, before, start, f, done, {}) && f.sp > 0
    ensures var cur := f.stack[f.sp - 1];
            && cur in s && cur !in done
            && Filling(s, w, before, start, f.(sp := f.sp - 1), done + {cur}, {cur})
  {
    var cur, p := f.stack[f.sp - 1], f.stack[..f.sp - 1];
    assert f.stack[..f.sp] == p + [cur];
    assert Elems(p + [cur]) == Elems(p) + {cur};
  }

  // An empty stack: what was marked is exactly the region of the start.
  lemma FilledIsRegion(s: set<int>, w: nat, before: set<int>, start: int, f: Fill, done: set<int>)
    requires Filling(s, w, before, start, f, done, {}) && f.sp == 0
    requires Closed(s, w, before)
    ensures done == Region(s, w, start) && Marked(f.seen) == before + done
  {
    assert Elems(f.stack[..0]) == {};
    forall i, j | i in done && j in s && Adj(w, i, j) ensures j in done {
      if j in before {
        assert Adj(w, j, i);
      }
    }
    RegionStaysIn(s, w, done, start);
  }

  // ----- choosing the largest region -----

  // The open cells looked at so far, in scan order: all of them marked, in whole regions
  // none larger than the best.
  ghost predicate Scanned(s: set<int>, w: nat, seen: seq<bool>, best: int, size: nat) {
    && Marked(seen) <= s && Closed(s, w, Marked(seen))
    && (best < 0 ==> best == -1 && size == 0 && Marked(seen) == {})
    && (best >= 0 ==> best in s && size == |Region(s, w, best)|)
    && (forall c :: c in Marked(seen) ==> |Region(s, w, c)| <= size)
  }

  lemma ScanRegion(s: set<int>, w: nat, seen: seq<bool>, seen': seq<bool>, best: int, size: nat,
                   start: int)
    requires Scanned(s, w, seen, best, size) && start in s
    requires Marked(seen') == Marked(seen) + Region(s, w, start)
    ensures var n := |Region(s, w, start)|;
            Scanned(s, w, seen', if n > size then start else best, if n > size then n else size)
  {
    RegionClosed(s, w, start);
    JoinedSelf(s, w, start);
    assert start in Region(s, w, start);
    forall c | c in Region(s, w, start) ensures Region(s, w, c) == Region(s, w, start) {
      SameRegion(s, w, start, c);
    }
    assert |Region(s, w, start)| > 0;
  }

  // The scan: every interior floor cell not seen yet starts a flood.
  method FindLargest(t: seq<int>, w: nat, h: nat) returns (best: int)
    requires w > 0 && |t| == w * h
    ensures best == -1 || best in OpenCells(t, w, h)
    ensures best == -1 <==> OpenCells(t, w, h) == {}
    ensures forall c :: c in OpenCells(t, w, h) ==>
              |Region(OpenCells(t, w, h), w, c)| <= |Region(OpenCells(t, w, h), w, best)|
  {
    hide Joined;
    ghost var s := OpenCells(t, w, h);
    var seen, stack := seq(w * h, i => false), seq(w * h, i => 0);
    var bestSize: nat := 0;
    best := -1;
    assert Marked(seen) == {};
    var y := 1;
    while y < h - 1
      invariant 1 <= y && (h >= 2 ==> y <= h - 1)
      invariant |seen| == |stack| == |t| && Scanned(s, w, seen, best, bestSize)
      invariant forall i :: i in s && i / w < y ==> i in Marked(seen)
    {
      var x := 1;
      while x < w - 1
        invariant 1 <= x && (w >= 2 ==> x <= w - 1)
        invariant |seen| == |stack| == |t| && Scanned(s, w, seen, best, bestSize)
        invariant forall i :: i in s && (i / w < y || (i / w == y && i % w < x)) ==> i in Marked(seen)
      {
        var start := y * w + x;
        CellAt(w, x, y);
        CellInGrid(w, h, x, y);
        ghost var seen1 := seen;
        if t[start] != T_WALL && !seen[start] {
          var size;
          seen, stack, size := Flood(t, w, h, seen, stack, start);
          ScanRegion(s, w, seen1, seen, best, bestSize, start);
          JoinedSelf(s, w, start);
          if size > bestSize {
            best, bestSize := start, size;
          }
        }
        RowDone(t, w, h, seen1, seen, x, y);
        x := x + 1;
      }
      y := y + 1;
    }
    assert Marked(seen) == s;
  }

  // Passing column x of row y: the only cell it adds is the one just looked at.
  lemma RowDone(t: seq<int>, w: nat, h: nat, seen: seq<bool>, seen': seq<bool>, x: int, y: int)
    requires w > 0 && |t| == |seen| == |seen'| == w * h && Interior(w, h, x, y)
    requires Marked(seen) <= Marked(seen')
    requires y * w + x in OpenCells(t, w, h) ==> y * w + x in Marked(seen')
    requires forall i :: i in OpenCells(t, w, h) && (i / w < y || (i / w == y && i % w < x)) ==>
               i in Marked(seen)
    ensures forall i :: i in OpenCells(t, w, h) && (i / w < y || (i / w == y && i % w < x + 1)) ==>
              i in Marked(seen')
  {
    forall i | i in OpenCells(t, w, h) && i / w == y && i % w == x ensures i == y * w + x {}
  }

  // What is left standing: exactly one largest region of the old floor, or nothing when
  // there was no interior floor.
  ghost predicate LargestKept(t: seq<int>, t': seq<int>, w: nat, h: nat)
    requires w > 0
  {
    && |t'| == |t|
    && var s, kept := OpenCells(t, w, h), set i | 0 <= i < |t'| && t'[i] != T_WALL;
       && (s == {} ==> kept == {})
       && (s != {} ==> exists c :: c in s && kept == Region(s, w, c))
       && (forall c :: c in s ==> |Region(s, w, c)| <= |kept|)
       && forall i :: i in kept ==> t'[i] == t[i]
  }

  method KeepLargestRegion(tiles: array<int>, w: nat, h: nat)
    requires w > 0 && tiles.Length == w * h
    modifies tiles
    ensures LargestKept(old(tiles[..]), tiles[..], w, h)
  {
    hide Joined;
    var t := tiles[..];
    ghost var s := OpenCells(t, w, h);
    var best := FindLargest(t, w, h);
    var seen := seq(w * h, i => false);
    assert Marked(seen) == {};
    if best >= 0 {
      var stack, size;
      seen, stack, size := Flood(t, w, h, seen, seq(w * h, i => 0), best);
    }
    WallOff(tiles, seen);
    ghost var kept := set i | 0 <= i < |tiles[..]| && tiles[..][i] != T_WALL;
    assert kept == Marked(seen);
  }

  // Everything not seen becomes wall.
  method WallOff(tiles: array<int>, seen: seq<bool>)
    requires |seen| == tiles.Length
    modifies tiles
    ensures forall i :: 0 <= i < tiles.Length ==>
              tiles[i] == if seen[i] then old(tiles[i]) else T_WALL
  {
    for i := 0 to tiles.Length
      invariant forall k :: 0 <= k < i ==> tiles[k] == if seen[k] then old(tiles[k]) else T_WALL
      invariant forall k :: i <= k < tiles.Length ==> tiles[k] == old(tiles[k])
    {
      if tiles[i] != T_WALL && !seen[i] {
        tiles[i] := T_WALL;
      }
    }
  }
}
