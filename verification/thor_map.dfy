// The thor game's map: a cellular cave cut down to its largest piece, and places on it.
module ThorMap {
  import opened ThorRegion

  const T_FLOOR := 1
  const T_TREASURE := 3

  // ----- where things may stand -----

  ghost function FloorOf(t: seq<int>): set<int> {
    set i | 0 <= i < |t| && t[i] != T_WALL
  }

  // The floor of a playable map is interior and in one 4-connected piece.
  ghost predicate OnePiece(floor: set<int>, w: nat, h: nat)
    requires w > 0
  {
    && (forall i :: i in floor ==> Interior(w, h, i % w, i / w))
    && (forall a, b :: a in floor && b in floor ==> Joined(floor, w, a, b))
  }

  ghost predicate Stands(floor: set<int>, w: nat, h: nat, x: int, y: int) {
    0 <= x < w && 0 <= y < h && y * w + x in floor
  }

  method IsFloor(t: seq<int>, w: nat, h: nat, x: int, y: int) returns (ok: bool)
    requires |t| == w * h
    ensures ok <==> Stands(FloorOf(t), w, h, x, y)
  {
    if x < 0 || y < 0 || x >= w || y >= h {
      return false;
    }
    CellInGrid(w, h, x, y);
    ok := t[y * w + x] != T_WALL;
  }

  // Cutting a largest region out of any map leaves a floor in one piece.
  lemma KeptIsOnePiece(t: seq<int>, t': seq<int>, w: nat, h: nat)
    requires w > 0 && LargestKept(t, t', w, h)
    ensures OnePiece(FloorOf(t'), w, h)
  {
    var s, floor := OpenCells(t, w, h), FloorOf(t');
    assert floor == set i | 0 <= i < |t'| && t'[i] != T_WALL;
    if s != {} {
      var c :| c in s && floor == Region(s, w, c);
      forall a, b | a in floor && b in floor ensures Joined(floor, w, a, b) {
        JoinedInRegion(s, w, c, a, b);
      }
    }
  }

  // A path between two cells of a region never leaves it.
  lemma JoinedInRegion(s: set<int>, w: nat, c: int, a: int, b: int)
    requires a in Region(s, w, c) && b in Region(s, w, c)
    ensures Joined(Region(s, w, c), w, a, b)
  {
    var m := Region(s, w, c);
    JoinedBack(s, w, c, a);
    JoinedThrough(s, w, a, c, b);
    var p :| IsPath(s, w, p) && p[0] == a && p[|p| - 1] == b;
    RegionClosed(s, w, c);
    forall k | 0 <= k < |p| ensures p[k] in m {
      assert IsPath(s, w, p[..k + 1]);
      PathStaysIn(s, w, m, p[..k + 1]);
    }
    assert IsPath(m, w, p);
  }

  predicate OnTreasure(t: seq<int>, w: nat, h: nat, x: int, y: int) {
    0 <= x < w && 0 <= y < h && 0 <= y * w + x < |t| && t[y * w + x] == T_TREASURE
  }

  predicate OnFloor(t: seq<int>, w: nat, h: nat, x: int, y: int) {
    0 <= x < w && 0 <= y < h && 0 <= y * w + x < |t| && t[y * w + x] == T_FLOOR
  }

  // ----- a place drawn at random -----

  const TRIES := 4000

  // What the generator yields for one search: interior cells, as many as are tried.
  predicate Drawn(w: nat, h: nat, ds: seq<(int, int)>) {
    |ds| == TRIES && forall k :: 0 <= k < |ds| ==> Interior(w, h, ds[k].0, ds[k].1)
  }

  // The first draw that is plain floor, or their number.
  function FloorDraw(t: seq<int>, w: nat, h: nat, ds: seq<(int, int)>): (k: nat)
    ensures k <= |ds| && (k < |ds| ==> OnFloor(t, w, h, ds[k].0, ds[k].1))
    ensures forall j :: 0 <= j < k ==> !OnFloor(t, w, h, ds[j].0, ds[j].1)
  {
    if ds == [] || OnFloor(t, w, h, ds[0].0, ds[0].1) then 0 else 1 + FloorDraw(t, w, h, ds[1..])
  }

  method RandomFloor(t: seq<int>, w: nat, h: nat, ds: seq<(int, int)>) returns (ok: bool, x: int, y: int)
    requires |t| == w * h && Drawn(w, h, ds)
    ensures ok <==> FloorDraw(t, w, h, ds) < |ds|
    ensures ok ==> (x, y) == ds[FloorDraw(t, w, h, ds)] && Stands(FloorOf(t), w, h, x, y)
  {
    ok, x, y := false, 0, 0;
    for tries := 0 to TRIES
      invariant FloorDraw(t, w, h, ds) == tries + FloorDraw(t, w, h, ds[tries..])
    {
      x, y := ds[tries].0, ds[tries].1;
      CellInGrid(w, h, x, y);
      assert ds[tries..][0] == ds[tries] && ds[tries..][1..] == ds[tries + 1..];
      if t[y * w + x] == T_FLOOR {
        ok := true;
        return;
      }
    }
  }

  // How many of the eight cells around an interior cell are wall.
  function WallNeighbours(t: seq<int>, w: nat, i: int): int {
    Wall(t, i - w - 1) + Wall(t, i - w) + Wall(t, i - w + 1)
    + Wall(t, i - 1) + Wall(t, i + 1)
    + Wall(t, i + w - 1) + Wall(t, i + w) + Wall(t, i + w + 1)
  }

  function Wall(t: seq<int>, i: int): int {
    if 0 <= i < |t| && t[i] == T_WALL then 1 else 0
  }

  // One pass of the cave automaton: interior cells with five or more wall neighbours
  // become wall, the others floor, all judged on the map before the pass.
  function Pass(t: seq<int>, w: nat, h: nat): (t': seq<int>)
    requires w > 0
    ensures |t'| == |t|
  {
    seq(|t|, i requires 0 <= i < |t| =>
      if !Interior(w, h, i % w, i / w) then t[i] else if WallNeighbours(t, w, i) >= 5 then T_WALL else T_FLOOR)
  }

  function Passes(t: seq<int>, w: nat, h: nat, n: nat): (t': seq<int>)
    requires w > 0
    ensures |t'| == |t|
  {
    if n == 0 then t else Pass(Passes(t, w, h, n - 1), w, h)
  }

  method Smooth(t: seq<int>, w: nat, h: nat) returns (t': seq<int>)
    requires w > 0 && |t| == w * h
    ensures t' == Pass(t, w, h)
    ensures forall i :: 0 <= i < |t| ==>
              t'[i] == if !Interior(w, h, i % w, i / w) then t[i]
                       else if WallNeighbours(t, w, i) >= 5 then T_WALL else T_FLOOR
  {
    t' := t;
    for i := 0 to |t|
      invariant |t'| == |t|
      invariant forall k :: i <= k < |t| ==> t'[k] == t[k]
      invariant forall k :: 0 <= k < i ==> t'[k] == Pass(t, w, h)[k]
    {
      if Interior(w, h, i % w, i / w) {
        t' := t'[i := if WallNeighbours(t, w, i) >= 5 then T_WALL else T_FLOOR];
      }
    }
  }

  // Every cell of the border is wall, and 45 of 100 rolls make an interior cell wall.
  function Rolled(w: nat, h: nat, rolls: seq<nat>): (t: seq<int>)
    requires w > 0
    ensures |t| == |rolls|
  {
    seq(|rolls|, i requires 0 <= i < |rolls| =>
      if Interior(w, h, i % w, i / w) && rolls[i] >= 45 then T_FLOOR else T_WALL)
  }

  // The cave: rolled, smoothed four times, and cut down to a largest piece.
  method GenMap(w: nat, h: nat, rolls: seq<nat>) returns (t: seq<int>)
    requires w >= 3 && h >= 3 && |rolls| == w * h
    ensures |t| == w * h && OnePiece(FloorOf(t), w, h)
    ensures LargestKept(Passes(Rolled(w, h, rolls), w, h, 4), t, w, h)
    ensures forall i :: 0 <= i < |t| ==> t[i] == T_WALL || t[i] == Passes(Rolled(w, h, rolls), w, h, 4)[i]
  {
    t := seq(w * h, i => T_WALL);
    for i := 0 to |t|
      invariant |t| == w * h
      invariant forall k :: i <= k < |t| ==> t[k] == T_WALL
      invariant forall k :: 0 <= k < i ==> t[k] == Rolled(w, h, rolls)[k]
    {
      if Interior(w, h, i % w, i / w) {
        t := t[i := if rolls[i] < 45 then T_WALL else T_FLOOR];
      }
    }
    assert t == Rolled(w, h, rolls);
    for pass := 0 to 4
      invariant t == Passes(Rolled(w, h, rolls), w, h, pass)
    {
      t := Smooth(t, w, h);
    }
    var tiles := new int[w * h](i requires 0 <= i < |t| => t[i]);
    assert tiles[..] == t;
    KeepLargestRegion(tiles, w, h);
    KeptIsOnePiece(t, tiles[..], w, h);
    t := tiles[..];
  }
}
