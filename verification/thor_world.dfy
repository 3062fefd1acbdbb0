// The thor game core as it runs: the world's tables updated in place, one tick at a time.
module ThorWorld {
  import opened ThorRegion
  import opened ThorMap
  import opened ThorRules
  import opened ThorLaws
  import opened ThorTicks

  const IN_NONE := 0xff
  const GAME_ERR := -1
  const DIR_NONE := -1

  // ----- one entity at a time -----

  method VecToDir(dx: int, dy: int) returns (dir: int)
    ensures dir == DIR_NONE <==> dx == 0 && dy == 0
    ensures dir != DIR_NONE ==> 0 <= dir < 8 && DX[dir] == Sgn(dx) && DY[dir] == Sgn(dy)
  {
    var sx, sy := Sgn(dx), Sgn(dy);
    for i := 0 to 8
      invariant forall k :: 0 <= k < i ==> DX[k] != sx || DY[k] != sy
    {
      if DX[i] == sx && DY[i] == sy {
        return i;
      }
    }
    assert DX[0] == 0 && DX[1] == 1 && DX[2] == 1 && DX[3] == 1;
    assert DX[4] == 0 && DX[5] == -1 && DX[6] == -1 && DX[7] == -1;
    dir := DIR_NONE;
  }

  // The first slot a new shot can take, or their number.
  method FindSlot(ss: seq<Shot>) returns (k: nat)
    ensures k == FreeSlot(ss)
  {
    for i := 0 to |ss|
      invariant forall j :: 0 <= j < i ==> ss[j].alive
    {
      if !ss[i].alive {
        return i;
      }
    }
    k := |ss|;
  }

  // The first live creature on a tile.
  method CreatureAt(cs: seq<Creature>, x: int, y: int) returns (k: int)
    ensures k == -1 <==> Vacant(cs, x, y)
    ensures k != -1 ==> k == CreatureOn(cs, x, y) < |cs|
  {
    for i := 0 to |cs|
      invariant forall j :: 0 <= j < i && cs[j].alive ==> cs[j].x != x || cs[j].y != y
    {
      if cs[i].alive && cs[i].x == x && cs[i].y == y {
        return i;
      }
    }
    k := -1;
  }

  method NearestPlayer(ps: seq<Player>, cx: int, cy: int) returns (k: int)
    requires forall i :: 0 <= i < |ps| && ps[i].alive ==> Reach(ps[i], cx, cy) < 0x7fff
    ensures k == if Nearest(ps, cx, cy) == |ps| then -1 else Nearest(ps, cx, cy)
  {
    hide Reach;
    k := -1;
    var best := 0x7fff;
    for i := 0 to |ps|
      invariant k == if Nearest(ps[..i], cx, cy) == i then -1 else Nearest(ps[..i], cx, cy)
      invariant k == -1 ==> best == 0x7fff
      invariant k != -1 ==> 0 <= k < i && best == Reach(ps[k], cx, cy)
    {
      assert ps[..i + 1][..i] == ps[..i];
      if ps[i].alive {
        var d := Reach(ps[i], cx, cy);
        if d < best {
          best, k := d, i;
        }
      }
    }
    assert ps[..|ps|] == ps;
  }

  // A creature's move towards a player: the diagonal, else sideways, else up or down.
  method MoveCreature(t: seq<int>, ghost g: Ground, w: nat, h: nat, cs: seq<Creature>, i: nat, dx: int, dy: int)
    returns (c: Creature)
    requires |t| == w * h && g == Ground(w, h, FloorOf(t)) && i < |cs|
    ensures c == Pulled(g, cs, cs[i], dx, dy)
  {
    hide FloorOf;
    c := cs[i];
    var dir := VecToDir(dx, dy);
    if dir < 0 {
      return;
    }
    var free := CanStep(t, g, w, h, cs, c.x + DX[dir], c.y + DY[dir]);
    if free {
      c := c.(x := c.x + DX[dir], y := c.y + DY[dir]);
      return;
    }
    free := CanStep(t, g, w, h, cs, c.x + Sgn(dx), c.y);
    if free {
      c := c.(x := c.x + Sgn(dx));
      return;
    }
    free := CanStep(t, g, w, h, cs, c.x, c.y + Sgn(dy));
    if free {
      c := c.(y := c.y + Sgn(dy));
    }
  }

  // A floor tile no live creature holds.
  method CanStep(t: seq<int>, ghost g: Ground, w: nat, h: nat, cs: seq<Creature>, x: int, y: int) returns (free: bool)
    requires |t| == w * h && g == Ground(w, h, FloorOf(t))
    ensures free <==> Free(g, cs, x, y)
  {
    free := IsFloor(t, w, h, x, y);
    if free {
      var k := CreatureAt(cs, x, y);
      free := k == -1;
    }
  }

  // ----- the world -----

  datatype Command = AddPlayer(ds: seq<(int, int)>) | SetInput(player: int, input: int)
                   | Tick(draws: seq<seq<(int, int)>>)

  class World {
    const w: nat
    const h: nat
    var tiles: seq<int>
    var players: seq<Player>
    var creatures: seq<Creature>
    var shots: seq<Shot>
    var fireCd: seq<int>
    var respawnT: seq<int>
    var tick: int
    var nplayers: int
    ghost const floor: set<int>

    ghost function G(): Ground {
      Ground(w, h, floor)
    }

    ghost function Now(): State
      reads this
    {
      State(tiles, players, creatures, shots, fireCd, respawnT, tick)
    }

    ghost predicate Valid()
      reads this
    {
      Sound(Now(), G()) && OnePiece(floor, w, h)
    }

    // game_init: an empty world on a fresh map, with a creature wherever a draw found floor.
    constructor (width: nat, height: nat, rolls: seq<nat>, draws: seq<seq<(int, int)>>)
      requires 3 <= width <= 256 && 3 <= height <= 256 && |rolls| == width * height
      requires |draws| == MAX_CREATURES && forall i :: 0 <= i < MAX_CREATURES ==> Drawn(width, height, draws[i])
      ensures Valid() && w == width && h == height && tick == 0
      ensures LargestKept(Passes(Rolled(w, h, rolls), w, h, 4), tiles, w, h)
      ensures forall i :: 0 <= i < MAX_CREATURES ==> creatures[i] == Placed(tiles, w, h, draws[i])
      ensures players == seq(MAX_PLAYERS, i => Player(0, 0, 0, false, 0, 0, 0))
      ensures shots == seq(MAX_SHOTS, i => Shot(0, 0, 0, false, 0, 0))
      ensures fireCd == seq(MAX_PLAYERS, i => 0) && respawnT == seq(MAX_PLAYERS, i => 0)
    {
      hide OnePiece, Passes, Rolled, LargestKept, FloorOf, Sound, Placed, Drawn;
      var t := GenMap(width, height, rolls);
      var cs := PlaceCreatures(t, width, height, draws);
      w, h, tiles, creatures, floor := width, height, t, cs, FloorOf(t);
      players := seq(MAX_PLAYERS, i => Player(0, 0, 0, false, 0, 0, 0));
      shots := seq(MAX_SHOTS, i => Shot(0, 0, 0, false, 0, 0));
      fireCd, respawnT := seq(MAX_PLAYERS, i => 0), seq(MAX_PLAYERS, i => 0);
      tick, nplayers := 0, 0;
      new;
      StartSound(Now(), G(), draws);
    }

    // The first slot nobody lives in, has health in or waits in, with the player it then holds.
    method AddOne(ds: seq<(int, int)>) returns (r: int)
      requires Valid() && Drawn(w, h, ds)
      modifies this
      ensures Valid() && Now() == old(Now()).(players := players)
      ensures var k := FloorDraw(tiles, w, h, ds);
              if r == GAME_ERR then
                players == old(players) && (k == |ds| || forall i :: 0 <= i < MAX_PLAYERS ==> !Unused(old(Now()), i))
              else
                && 0 <= r < MAX_PLAYERS && Unused(old(Now()), r) && (forall i :: 0 <= i < r ==> !Unused(old(Now()), i))
                && k < |ds| && players == old(players)[r := Player(ds[k].0, ds[k].1, 4, true, PLAYER_HP, IN_NONE, 0)]
    {
      hide OnePiece, FloorOf, Sound, Drawn;
      SoundHas(Now(), G());
      for i := 0 to MAX_PLAYERS
        invariant Valid() && Now() == old(Now())
        invariant forall k :: 0 <= k < i ==> !Unused(old(Now()), k)
      {
        if !players[i].alive && players[i].hp == 0 && respawnT[i] == 0 {
          var ok, x, y := RandomFloor(tiles, w, h, ds);
          if !ok {
            return GAME_ERR;
          }
          JoinerSound(Now(), G(), i, Player(x, y, 4, true, PLAYER_HP, IN_NONE, 0));
          players := players[i := Player(x, y, 4, true, PLAYER_HP, IN_NONE, 0)];
          if i + 1 > nplayers {
            nplayers := i + 1;
          }
          return i;
        }
      }
      r := GAME_ERR;
    }

    method Input(player: int, input: int)
      requires Valid()
      modifies `players
      ensures Valid()
      ensures players == if 0 <= player < MAX_PLAYERS
                         then old(players)[player := old(players)[player].(input := input)]
                         else old(players)
    {
      hide OnePiece, FloorOf, On;
      if 0 <= player < MAX_PLAYERS {
        assert PlayerOk(G(), players[player]);
        players := players[player := players[player].(input := input)];
      }
    }

    method StepPlayers()
      requires Valid()
      modifies `tiles, `players, `shots, `fireCd
      ensures Valid() && Now() == PlayersTo(old(Now()), G(), MAX_PLAYERS)
    {
      hide OnePiece, PlayerTurn, Sound;
      SoundIsFormed(Now(), G());
      for i := 0 to MAX_PLAYERS
        invariant Valid() && Now() == PlayersTo(old(Now()), G(), i)
      {
        StepPlayer(i);
      }
    }

    method StepPlayer(i: nat)
      requires Valid() && i < MAX_PLAYERS
      modifies `tiles, `players, `shots, `fireCd
      ensures Valid() && Now() == PlayerTurn(old(Now()), G(), i)
    {
      hide OnePiece, On, FloorOf;
      PlayerTurnSound(Now(), G(), i);
      if !players[i].alive {
        return;
      }
      if fireCd[i] > 0 {
        fireCd := fireCd[i := fireCd[i] - 1];
      }
      MovePlayer(i);
      var fdir := players[i].input / 16 % 16;
      if fdir < 8 && fireCd[i] == 0 {
        var k := FindSlot(shots);
        if k < |shots| {
          shots := shots[k := Shot(players[i].x, players[i].y, fdir, true, i, SHOT_RANGE)];
          fireCd := fireCd[i := FIRE_CD];
        }
      }
    }

    // Face the direction, step if it is floor, and pick up treasure there.
    method MovePlayer(i: nat)
      requires i < |players| && |tiles| == w * h && FloorOf(tiles) == floor
      modifies `tiles, `players
      ensures Now() == Walk(old(Now()), G(), i)
    {
      var dir := players[i].input % 16;
      if dir < 8 {
        var nx, ny := players[i].x + DX[dir], players[i].y + DY[dir];
        players := players[i := players[i].(facing := dir)];
        var ok := IsFloor(tiles, w, h, nx, ny);
        if ok {
          players := players[i := players[i].(x := nx, y := ny)];
          CellInGrid(w, h, nx, ny);
          if tiles[ny * w + nx] == T_TREASURE {
            tiles := tiles[ny * w + nx := T_FLOOR];
            players := players[i := Scored(players[i], 25)];
          }
        }
      }
    }

    method StepShots()
      requires Valid()
      modifies `shots, `creatures, `players
      ensures Valid() && Now() == ShotsTo(old(Now()), G(), MAX_SHOTS)
    {
      hide OnePiece, ShotTurn, Sound;
      SoundIsFormed(Now(), G());
      for s := 0 to MAX_SHOTS
        invariant Valid() && Now() == ShotsTo(old(Now()), G(), s)
      {
        FlyShot(s);
      }
    }

    // One shot, up to its speed.
    method FlyShot(s: nat)
      requires Valid() && s < MAX_SHOTS
      modifies `shots, `creatures, `players
      ensures Valid() && Now() == ShotTurn(old(Now()), G(), s, SHOT_SPEED)
    {
      hide OnePiece, On, FloorOf, HalfTurn;
      ShotTurnSound(Now(), G(), s);
      var step := 0;
      while step < SHOT_SPEED && shots[s].alive
        invariant Formed(Now()) && step <= SHOT_SPEED && |tiles| == w * h && FloorOf(tiles) == floor
        invariant ShotTurn(old(Now()), G(), s, SHOT_SPEED) == ShotTurn(Now(), G(), s, SHOT_SPEED - step)
      {
        AdvanceShot(s);
        step := step + 1;
      }
    }

    // One half-step of a shot: into a wall it ends, onto a creature it kills and ends, out of
    // range it ends.
    method AdvanceShot(s: nat)
      requires Formed(Now()) && s < MAX_SHOTS && shots[s].alive && |tiles| == w * h && FloorOf(tiles) == floor
      modifies `shots, `creatures, `players
      ensures Now() == HalfTurn(old(Now()), G(), s)
    {
      var sh := shots[s];
      var nx, ny := sh.x + DX[sh.dir], sh.y + DY[sh.dir];
      var ok := IsFloor(tiles, w, h, nx, ny);
      if !ok {
        shots := shots[s := sh.(alive := false)];
        return;
      }
      sh := sh.(x := nx, y := ny);
      var k := CreatureAt(creatures, nx, ny);
      OccupantFound(creatures, nx, ny);
      if k != -1 {
        creatures := creatures[k := creatures[k].(alive := false)];
        players := players[sh.owner := Scored(players[sh.owner], 10)];
        sh := sh.(alive := false);
      } else if sh.ttl == 0 {
        sh := sh.(alive := false);
      } else {
        sh := sh.(ttl := sh.ttl - 1);
      }
      shots := shots[s := sh];
    }

    method StepCreatures()
      requires Valid()
      modifies `creatures, `players, `respawnT
      ensures Valid() && Now() == CreaturesStep(old(Now()), G())
    {
      hide OnePiece, CreatureTurn, Sound;
      SoundIsFormed(Now(), G());
      if tick % 2 == 1 {
        return;
      }
      for i := 0 to MAX_CREATURES
        invariant Valid() && Now() == CreaturesTo(old(Now()), G(), i)
      {
        StepCreature(i);
      }
    }

    // Attack the nearest player when next to it, otherwise move towards it.
    method StepCreature(i: nat)
      requires Valid() && i < MAX_CREATURES
      modifies `creatures, `players, `respawnT
      ensures Valid() && Now() == CreatureTurn(old(Now()), G(), i)
    {
      hide OnePiece, FloorOf, Pulled;
      CreatureTurnSound(Now(), G(), i);
      var c := creatures[i];
      if !c.alive {
        return;
      }
      assert CreatureOk(G(), c);
      forall j | 0 <= j < |players| && players[j].alive ensures Reach(players[j], c.x, c.y) < 0x7fff {
        assert PlayerOk(G(), players[j]);
      }
      var k := NearestPlayer(players, c.x, c.y);
      if k == -1 {
        return;
      }
      var p := players[k];
      var dx, dy := p.x - c.x, p.y - c.y;
      if -1 <= dx <= 1 && -1 <= dy <= 1 {
        if p.hp > CREATURE_DMG {
          players := players[k := p.(hp := p.hp - CREATURE_DMG)];
        } else {
          NearestIs(players, c.x, c.y);
          players := players[k := p.(hp := 0, alive := false)];
          respawnT := respawnT[k := RESPAWN_T];
        }
        return;
      }
      c := MoveCreature(tiles, G(), w, h, creatures, i, dx, dy);
      creatures := creatures[i := c];
    }

    method StepRespawns(draws: seq<seq<(int, int)>>)
      requires Valid() && |draws| == MAX_PLAYERS && forall i :: 0 <= i < MAX_PLAYERS ==> Drawn(w, h, draws[i])
      modifies `players, `respawnT
      ensures Valid() && Now() == RespawnsTo(old(Now()), G(), draws, MAX_PLAYERS)
    {
      hide OnePiece, On, FloorOf, Drawn;
      for i := 0 to MAX_PLAYERS
        invariant Valid() && Now() == RespawnsTo(old(Now()), G(), draws, i)
      {
        RespawnTurnSound(Now(), G(), i, draws);
        if !players[i].alive && respawnT[i] > 0 {
          respawnT := respawnT[i := respawnT[i] - 1];
          if respawnT[i] == 0 {
            var ok, x, y := RandomFloor(tiles, w, h, draws[i]);
            if ok {
              players := players[i := players[i].(x := x, y := y, alive := true, hp := PLAYER_HP)];
            }
          }
        }
      }
    }

    // One tick: players, shots, creatures and respawns, in this order.
    method GameTick(draws: seq<seq<(int, int)>>)
      requires Valid() && |draws| == MAX_PLAYERS && forall i :: 0 <= i < MAX_PLAYERS ==> Drawn(w, h, draws[i])
      modifies this
      ensures Valid() && Now() == Ticked(old(Now()), G(), draws)
      ensures StillApart(old(creatures), creatures)
      ensures forall i :: 0 <= i < MAX_PLAYERS ==> Fares(old(Now()), G(), draws[i], Now(), i)
    {
      hide OnePiece, Sound, Drawn, PlayersTo, ShotsTo, CreaturesStep, RespawnsTo, StillApart, Fares, Formed;
      SoundIsFormed(Now(), G());
      TickKeeps(Now(), G(), draws);
      forall i | 0 <= i < MAX_PLAYERS ensures Fares(Now(), G(), draws[i], Ticked(Now(), G(), draws), i) {
        TickFares(Now(), G(), draws, i);
      }
      StepPlayers();
      StepShots();
      StepCreatures();
      StepRespawns(draws);
      tick := (tick + 1) % 0x1_0000;
    }

    // Any sequence of calls keeps everything on the one floor, and never brings two
    // creatures that stood apart together.
    method Play(script: seq<Command>)
      requires Valid() && forall i :: 0 <= i < |script| ==> CommandOk(w, h, script[i])
      modifies this
      ensures Valid() && StillApart(old(creatures), creatures)
    {
      hide OnePiece, StillApart, On, FloorOf, Fares, Ticked;
      SoundIsFormed(Now(), G());
      for i := 0 to |script|
        invariant Valid() && StillApart(old(creatures), creatures)
      {
        ghost var cs := creatures;
        SoundIsFormed(Now(), G());
        match script[i]
        case AddPlayer(ds) => var r := AddOne(ds);
        case SetInput(player, input) => Input(player, input);
        case Tick(draws) => GameTick(draws);
        ApartThrough(old(creatures), cs, creatures);
      }
    }

    // Any two live players can walk to each other, and any creature to any player.
    lemma Together(i: nat, j: nat, k: nat)
      requires Valid() && i < MAX_PLAYERS && j < MAX_PLAYERS && k < MAX_CREATURES
      requires players[i].alive && players[j].alive && creatures[k].alive
      ensures var a, b, c := players[i], players[j], creatures[k];
              Joined(floor, w, a.y * w + a.x, b.y * w + b.x) && Joined(floor, w, c.y * w + c.x, b.y * w + b.x)
    {
      hide Joined;
      assert PlayerOk(G(), players[i]) && PlayerOk(G(), players[j]);
      assert CreatureOk(G(), creatures[k]);
    }
  }

  // Where a draw put a creature, or nowhere.
  function Placed(t: seq<int>, w: nat, h: nat, ds: seq<(int, int)>): Creature {
    var k := FloorDraw(t, w, h, ds);
    if k < |ds| then Creature(ds[k].0, ds[k].1, true) else Creature(0, 0, false)
  }

  method PlaceCreatures(t: seq<int>, w: nat, h: nat, draws: seq<seq<(int, int)>>) returns (cs: seq<Creature>)
    requires |t| == w * h && |draws| == MAX_CREATURES && forall i :: 0 <= i < MAX_CREATURES ==> Drawn(w, h, draws[i])
    ensures |cs| == MAX_CREATURES && forall i :: 0 <= i < MAX_CREATURES ==> cs[i] == Placed(t, w, h, draws[i])
  {
    cs := seq(MAX_CREATURES, i => Creature(0, 0, false));
    for i := 0 to MAX_CREATURES
      invariant |cs| == MAX_CREATURES
      invariant forall k :: i <= k < MAX_CREATURES ==> cs[k] == Creature(0, 0, false)
      invariant forall k :: 0 <= k < i ==> cs[k] == Placed(t, w, h, draws[k])
    {
      var ok, x, y := RandomFloor(t, w, h, draws[i]);
      if ok {
        cs := cs[i := Creature(x, y, true)];
      }
    }
  }

  // A new world is sound.
  lemma StartSound(s: State, g: Ground, draws: seq<seq<(int, int)>>)
    requires 3 <= g.w <= 256 && 3 <= g.h <= 256 && |s.tiles| == g.w * g.h && g.floor == FloorOf(s.tiles) && s.tick == 0
    requires |draws| == |s.creatures| == MAX_CREATURES
    requires forall i :: 0 <= i < MAX_CREATURES ==> s.creatures[i] == Placed(s.tiles, g.w, g.h, draws[i])
    requires s.players == seq(MAX_PLAYERS, i => Player(0, 0, 0, false, 0, 0, 0))
    requires s.shots == seq(MAX_SHOTS, i => Shot(0, 0, 0, false, 0, 0))
    requires s.fireCd == s.respawnT == seq(MAX_PLAYERS, i => 0)
    ensures Sound(s, g)
  {
    hide On, FloorOf, Placed;
    forall i | 0 <= i < MAX_CREATURES ensures CreatureOk(g, s.creatures[i]) {
      PlacedOnFloor(s.tiles, g, draws[i]);
    }
  }

  lemma SoundHas(s: State, g: Ground)
    requires Sound(s, g)
    ensures Formed(s) && |s.tiles| == g.w * g.h && FloorOf(s.tiles) == g.floor
  {
  }

  // And one with a new player on floor, in full health.
  lemma JoinerSound(s: State, g: Ground, i: nat, p: Player)
    requires Sound(s, g) && i < MAX_PLAYERS && p.alive && p.hp == PLAYER_HP && On(g, p.x, p.y)
    ensures Sound(s.(players := s.players[i := p]), g)
  {
    hide On, FloorOf;
  }

  lemma PlacedOnFloor(t: seq<int>, g: Ground, ds: seq<(int, int)>)
    requires g.floor == FloorOf(t)
    ensures CreatureOk(g, Placed(t, g.w, g.h, ds))
  {
    if FloorDraw(t, g.w, g.h, ds) < |ds| {
      var k := FloorDraw(t, g.w, g.h, ds);
      FloorIsOpen(t, g, ds[k].0, ds[k].1);
    }
  }

  // A slot nobody lives in, has health in or waits in.
  predicate Unused(s: State, i: nat) {
    i < |s.players| && i < |s.respawnT| && !s.players[i].alive && s.players[i].hp == 0 && s.respawnT[i] == 0
  }

  predicate CommandOk(w: nat, h: nat, c: Command) {
    match c
    case AddPlayer(ds) => Drawn(w, h, ds)
    case SetInput(_, _) => true
    case Tick(draws) => |draws| == MAX_PLAYERS && forall i :: 0 <= i < MAX_PLAYERS ==> Drawn(w, h, draws[i])
  }
}
