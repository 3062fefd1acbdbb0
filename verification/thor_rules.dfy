// What one tick of the thor game does to the world, entity by entity in the order of the
// core, and what whole ticks amount to.
module ThorRules {
  import opened ThorRegion
  import opened ThorMap

  const MAX_PLAYERS := 4
  const MAX_CREATURES := 24
  const MAX_SHOTS := 16
  const SHOT_RANGE := 6
  const SHOT_SPEED := 2
  const PLAYER_HP := 10
  const FIRE_CD := 2
  const RESPAWN_T := 24
  const CREATURE_DMG := 1

  datatype Player = Player(x: int, y: int, facing: int, alive: bool, hp: int, input: int, score: int)
  datatype Creature = Creature(x: int, y: int, alive: bool)
  datatype Shot = Shot(x: int, y: int, dir: int, alive: bool, owner: int, ttl: int)

  // The ground of a game: its size, and the tiles that are not wall, which never change.
  datatype Ground = Ground(w: nat, h: nat, floor: set<int>)

  datatype State = State(tiles: seq<int>, players: seq<Player>, creatures: seq<Creature>, shots: seq<Shot>,
                         fireCd: seq<int>, respawnT: seq<int>, tick: int)

  // The numbers of things, and shots that say where they fly and whose they are.
  ghost predicate Formed(s: State) {
    && |s.players| == MAX_PLAYERS && |s.creatures| == MAX_CREATURES && |s.shots| == MAX_SHOTS
    && |s.fireCd| == MAX_PLAYERS && |s.respawnT| == MAX_PLAYERS
    && forall j :: 0 <= j < MAX_SHOTS ==> ShotFormed(s.shots[j])
  }

  predicate ShotFormed(sh: Shot) {
    sh.alive ==> 0 <= sh.dir < 8 && 0 <= sh.owner < MAX_PLAYERS && 0 <= sh.ttl <= SHOT_RANGE
  }

  ghost predicate On(g: Ground, x: int, y: int) {
    Stands(g.floor, g.w, g.h, x, y)
  }

  function Scored(p: Player, n: nat): Player {
    p.(score := (p.score + n) % 0x1_0000)
  }

  // ----- a player's turn -----

  function Heading(p: Player): int {
    p.input % 16
  }

  function Aim(p: Player): int {
    p.input / 16 % 16
  }

  // The tile a player would step onto.
  function Ahead(p: Player): (int, int)
    requires Heading(p) < 8
  {
    (p.x + DX[Heading(p)], p.y + DY[Heading(p)])
  }

  function Cooled(s: State, i: nat): State
    requires i < |s.fireCd|
  {
    if s.fireCd[i] > 0 then s.(fireCd := s.fireCd[i := s.fireCd[i] - 1]) else s
  }

  ghost function Walk(s: State, g: Ground, i: nat): State
    requires i < |s.players|
  {
    var p := s.players[i];
    if Heading(p) >= 8 then s
    else
      var (nx, ny) := Ahead(p);
      var q := p.(facing := Heading(p));
      if !On(g, nx, ny) then s.(players := s.players[i := q])
      else if OnTreasure(s.tiles, g.w, g.h, nx, ny) then
        s.(tiles := s.tiles[ny * g.w + nx := T_FLOOR], players := s.players[i := Scored(q.(x := nx, y := ny), 25)])
      else s.(players := s.players[i := q.(x := nx, y := ny)])
  }

  // The first free slot, or the number of slots.
  function FreeSlot(ss: seq<Shot>): (k: nat)
    ensures k <= |ss| && (k < |ss| ==> !ss[k].alive) && forall j :: 0 <= j < k ==> ss[j].alive
  {
    if ss == [] || !ss[0].alive then 0 else 1 + FreeSlot(ss[1..])
  }

  function Shoot(s: State, i: nat): State
    requires i < |s.players| && i < |s.fireCd|
  {
    var p, k := s.players[i], FreeSlot(s.shots);
    if Aim(p) >= 8 || s.fireCd[i] != 0 || k == |s.shots| then s
    else s.(shots := s.shots[k := Shot(p.x, p.y, Aim(p), true, i, SHOT_RANGE)], fireCd := s.fireCd[i := FIRE_CD])
  }

  ghost function PlayerTurn(s: State, g: Ground, i: nat): (s': State)
    requires Formed(s) && i < MAX_PLAYERS
    ensures Formed(s')
  {
    if !s.players[i].alive then s else Shoot(Walk(Cooled(s, i), g, i), i)
  }

  // After the turns of the first n players.
  ghost function PlayersTo(s: State, g: Ground, n: nat): (s': State)
    requires Formed(s) && n <= MAX_PLAYERS
    ensures Formed(s')
  {
    if n == 0 then s else PlayerTurn(PlayersTo(s, g, n - 1), g, n - 1)
  }

  // ----- a shot's turn -----

  // The first live creature on a tile, or their number.
  function CreatureOn(cs: seq<Creature>, x: int, y: int): (k: nat)
    ensures k <= |cs| && (k < |cs| ==> cs[k].alive && cs[k].x == x && cs[k].y == y)
    ensures forall j :: 0 <= j < k && cs[j].alive ==> cs[j].x != x || cs[j].y != y
  {
    if cs == [] || (cs[0].alive && cs[0].x == x && cs[0].y == y) then 0 else 1 + CreatureOn(cs[1..], x, y)
  }

  // One tile on.
  ghost function HalfTurn(s: State, g: Ground, j: nat): (s': State)
    requires Formed(s) && j < MAX_SHOTS && s.shots[j].alive
    ensures Formed(s')
  {
    var sh := s.shots[j];
    var nx, ny := sh.x + DX[sh.dir], sh.y + DY[sh.dir];
    if !On(g, nx, ny) then s.(shots := s.shots[j := sh.(alive := false)])
    else
      var at, k := sh.(x := nx, y := ny), CreatureOn(s.creatures, nx, ny);
      if k < |s.creatures| then
        s.(shots := s.shots[j := at.(alive := false)], creatures := s.creatures[k := s.creatures[k].(alive := false)],
           players := s.players[sh.owner := Scored(s.players[sh.owner], 10)])
      else if sh.ttl == 0 then s.(shots := s.shots[j := at.(alive := false)])
      else s.(shots := s.shots[j := at.(ttl := sh.ttl - 1)])
  }

  ghost function ShotTurn(s: State, g: Ground, j: nat, steps: nat): (s': State)
    requires Formed(s) && j < MAX_SHOTS
    ensures Formed(s')
    decreases steps
  {
    if steps == 0 || !s.shots[j].alive then s else ShotTurn(HalfTurn(s, g, j), g, j, steps - 1)
  }

  ghost function ShotsTo(s: State, g: Ground, n: nat): (s': State)
    requires Formed(s) && n <= MAX_SHOTS
    ensures Formed(s')
  {
    if n == 0 then s else ShotTurn(ShotsTo(s, g, n - 1), g, n - 1, SHOT_SPEED)
  }

  // ----- a creature's turn -----

  function Sgn(v: int): int {
    if v < 0 then -1 else if v > 0 then 1 else 0
  }

  function Away(a: int, b: int): int {
    if a < b then b - a else a - b
  }

  // King moves between a player and a tile.
  function Reach(p: Player, cx: int, cy: int): int {
    if Away(p.x, cx) > Away(p.y, cy) then Away(p.x, cx) else Away(p.y, cy)
  }

  // The first of the live players nearest to a tile, or their number if none lives.
  function Nearest(ps: seq<Player>, cx: int, cy: int): (k: nat)
    ensures k <= |ps|
  {
    if ps == [] then 0
    else
      var last, k := |ps| - 1, Nearest(ps[..|ps| - 1], cx, cy);
      if !ps[last].alive then (if k == last then |ps| else k)
      else if k == last || Reach(ps[last], cx, cy) < Reach(ps[k], cx, cy) then last
      else k
  }

  ghost predicate Vacant(cs: seq<Creature>, x: int, y: int) {
    forall i :: 0 <= i < |cs| && cs[i].alive ==> cs[i].x != x || cs[i].y != y
  }

  ghost predicate Free(g: Ground, cs: seq<Creature>, x: int, y: int) {
    On(g, x, y) && Vacant(cs, x, y)
  }

  // Where a creature pulled by (dx, dy) goes: the diagonal, else sideways, else up or down.
  ghost function Pulled(g: Ground, cs: seq<Creature>, c: Creature, dx: int, dy: int): Creature {
    var sx, sy := Sgn(dx), Sgn(dy);
    if Free(g, cs, c.x + sx, c.y + sy) then c.(x := c.x + sx, y := c.y + sy)
    else if Free(g, cs, c.x + sx, c.y) then c.(x := c.x + sx)
    else if Free(g, cs, c.x, c.y + sy) then c.(y := c.y + sy)
    else c
  }

  // A player struck by a creature: one point gone, dead at none.
  function Hit(p: Player): Player {
    if p.hp > CREATURE_DMG then p.(hp := p.hp - CREATURE_DMG) else p.(hp := 0, alive := false)
  }

  ghost function CreatureTurn(s: State, g: Ground, i: nat): (s': State)
    requires Formed(s) && i < MAX_CREATURES
    ensures Formed(s')
  {
    var c := s.creatures[i];
    var k := Nearest(s.players, c.x, c.y);
    if !c.alive || k == |s.players| then s
    else
      var p := s.players[k];
      if Reach(p, c.x, c.y) <= 1 then
        s.(players := s.players[k := Hit(p)],
           respawnT := if Hit(p).alive then s.respawnT else s.respawnT[k := RESPAWN_T])
      else s.(creatures := s.creatures[i := Pulled(g, s.creatures, c, p.x - c.x, p.y - c.y)])
  }

  ghost function CreaturesTo(s: State, g: Ground, n: nat): (s': State)
    requires Formed(s) && n <= MAX_CREATURES
    ensures Formed(s')
  {
    if n == 0 then s else CreatureTurn(CreaturesTo(s, g, n - 1), g, n - 1)
  }

  // Creatures move every other tick.
  ghost function CreaturesStep(s: State, g: Ground): (s': State)
    requires Formed(s)
    ensures Formed(s')
  {
    if s.tick % 2 == 1 then s else CreaturesTo(s, g, MAX_CREATURES)
  }

  // ----- waiting players -----

  // Each player has draws of its own; those it does not need are not made.
  ghost function RespawnTurn(s: State, g: Ground, i: nat, draws: seq<seq<(int, int)>>): (s': State)
    requires Formed(s) && i < MAX_PLAYERS && |draws| == MAX_PLAYERS
    ensures Formed(s')
  {
    if s.players[i].alive || s.respawnT[i] <= 0 then s
    else
      var s1 := s.(respawnT := s.respawnT[i := s.respawnT[i] - 1]);
      var k := FloorDraw(s.tiles, g.w, g.h, draws[i]);
      if s.respawnT[i] > 1 || k == |draws[i]| then s1
      else s1.(players := s.players[i := s.players[i].(x := draws[i][k].0, y := draws[i][k].1,
                                                       alive := true, hp := PLAYER_HP)])
  }

  ghost function RespawnsTo(s: State, g: Ground, draws: seq<seq<(int, int)>>, n: nat): (s': State)
    requires Formed(s) && n <= MAX_PLAYERS && |draws| == MAX_PLAYERS
    ensures Formed(s')
  {
    if n == 0 then s else RespawnTurn(RespawnsTo(s, g, draws, n - 1), g, n - 1, draws)
  }

  // The whole tick.
  ghost function Ticked(s: State, g: Ground, draws: seq<seq<(int, int)>>): (s': State)
    requires Formed(s) && |draws| == MAX_PLAYERS
    ensures Formed(s')
  {
    var s1 := PlayersTo(s, g, MAX_PLAYERS);
    var s2 := ShotsTo(s1, g, MAX_SHOTS);
    var s3 := CreaturesStep(s2, g);
    var s4 := RespawnsTo(s3, g, draws, MAX_PLAYERS);
    s4.(tick := (s4.tick + 1) % 0x1_0000)
  }
}
