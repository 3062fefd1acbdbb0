// Whole ticks of the thor game: what every one keeps, what it does to each player and shot,
// and what becomes of them over many.
module ThorTicks {
  import opened ThorRegion
  import opened ThorMap
  import opened ThorRules
  import opened ThorLaws

  // ----- what every turn keeps -----

  ghost predicate PlayerOk(g: Ground, p: Player) {
    (p.alive ==> On(g, p.x, p.y) && 1 <= p.hp <= PLAYER_HP) && (p.hp > 0 ==> p.alive)
  }

  ghost predicate CreatureOk(g: Ground, c: Creature) {
    c.alive ==> On(g, c.x, c.y)
  }

  ghost predicate ShotOk(g: Ground, sh: Shot) {
    sh.alive ==> On(g, sh.x, sh.y)
  }

  // Everybody alive stands on the floor of the one map, and no counter is negative.
  ghost predicate Sound(s: State, g: Ground) {
    && Formed(s) && 3 <= g.w <= 256 && 3 <= g.h <= 256
    && |s.tiles| == g.w * g.h && FloorOf(s.tiles) == g.floor
    && (forall i :: 0 <= i < MAX_PLAYERS ==> PlayerOk(g, s.players[i]) && s.fireCd[i] >= 0 && s.respawnT[i] >= 0)
    && (forall i :: 0 <= i < MAX_CREATURES ==> CreatureOk(g, s.creatures[i]))
    && (forall i :: 0 <= i < MAX_SHOTS ==> ShotOk(g, s.shots[i]))
    && 0 <= s.tick < 0x1_0000
  }

  // Creatures that stood apart still stand apart; the dead stay dead.
  ghost predicate StillApart(cs: seq<Creature>, cs': seq<Creature>) {
    && |cs'| == |cs|
    && (forall i :: 0 <= i < |cs| && cs'[i].alive ==> cs[i].alive)
    && (forall i, j :: 0 <= i < j < |cs| && cs'[i].alive && cs'[j].alive && Apart(cs[i], cs[j]) ==>
          Apart(cs'[i], cs'[j]))
  }

  predicate Apart(c: Creature, d: Creature) {
    c.x != d.x || c.y != d.y
  }

  lemma ApartThrough(a: seq<Creature>, b: seq<Creature>, c: seq<Creature>)
    requires StillApart(a, b) && StillApart(b, c)
    ensures StillApart(a, c)
  {
    forall i, j | 0 <= i < j < |a| && c[i].alive && c[j].alive && Apart(a[i], a[j])
      ensures Apart(c[i], c[j]) {
      assert b[i].alive && b[j].alive;
      assert Apart(b[i], b[j]);
    }
  }

  lemma PlayerTurnSound(s: State, g: Ground, i: nat)
    requires Sound(s, g) && i < MAX_PLAYERS
    ensures Sound(PlayerTurn(s, g, i), g)
  {
    hide On, FloorOf, PlayerTurn, FiresInto, Ready, Slots, ShotOf;
    var s' := PlayerTurn(s, g, i);
    TurnFrame(s, g, i);
    TurnFires(s, g, i);
    if s.players[i].alive { TreasureIsTaken(s, g, i); } else { DeadTurn(s, g, i); }
    WalkedOk(g, s.players[i], s'.players[i]);
    ShotStands(s'.players[i], i);
    assert PlayerOk(g, s'.players[i]);
    forall k | 0 <= k < MAX_SHOTS ensures ShotOk(g, s'.shots[k]) {
      if s'.shots[k] != s.shots[k] {
        assert s'.shots[k] == ShotOf(s'.players[i], i);
        FirerLives(s, g, i);
      }
    }
  }

  lemma DeadTurn(s: State, g: Ground, i: nat)
    requires Formed(s) && i < MAX_PLAYERS && !s.players[i].alive
    ensures PlayerTurn(s, g, i) == s
  {
  }

  lemma FirerLives(s: State, g: Ground, i: nat)
    requires Formed(s) && i < MAX_PLAYERS && PlayerTurn(s, g, i).shots != s.shots
    ensures s.players[i].alive
  {
  }

  lemma ShotStands(p: Player, i: nat)
    ensures ShotOf(p, i).x == p.x && ShotOf(p, i).y == p.y
  {
  }

  lemma WalkedOk(g: Ground, p: Player, p': Player)
    requires PlayerOk(g, p) && Walked(g, p, p')
    ensures PlayerOk(g, p')
  {
    hide On;
  }

  lemma ShotTurnSound(s: State, g: Ground, j: nat)
    requires Sound(s, g) && j < MAX_SHOTS
    ensures var s' := ShotTurn(s, g, j, SHOT_SPEED); Sound(s', g) && StillApart(s.creatures, s'.creatures)
  {
    hide On, FloorOf, ShotTurn, Vacant;
    var s' := ShotTurn(s, g, j, SHOT_SPEED);
    ShotFlies(s, g, j);
    TurnSpares(s, g, j);
    forall i | 0 <= i < MAX_PLAYERS ensures PlayerOk(g, s'.players[i]) {
      assert PlayerOk(g, s.players[i]);
    }
    forall i | 0 <= i < MAX_CREATURES ensures CreatureOk(g, s'.creatures[i]) {
      assert CreatureOk(g, s.creatures[i]);
    }
    if s.shots[j].alive && s'.shots[j].alive { FlownOn(s, g, s', j); }
  }

  lemma FlownOn(s: State, g: Ground, s': State, j: nat)
    requires Formed(s) && Formed(s') && j < MAX_SHOTS && s.shots[j].alive && Flies(s, g, s', j) && s'.shots[j].alive
    ensures On(g, s'.shots[j].x, s'.shots[j].y)
  {
    hide On, Vacant, Harmless;
  }

  lemma CreatureTurnSound(s: State, g: Ground, i: nat)
    requires Sound(s, g) && i < MAX_CREATURES
    ensures var s' := CreatureTurn(s, g, i); Sound(s', g) && StillApart(s.creatures, s'.creatures)
  {
    hide On, FloorOf, CreatureTurn, IsNearest, Pulled, Acts;
    var s' := CreatureTurn(s, g, i);
    CreatureFrame(s, g, i);
    CreatureActs(s, g, i);
    CreatureEnds(s, g, i);
    forall k | 0 <= k < MAX_PLAYERS ensures PlayerOk(g, s'.players[k]) {
      assert PlayerOk(g, s.players[k]);
      HealthKept(s, g, i, k);
    }
  }

  // A player's health after a creature's turn.
  lemma HealthKept(s: State, g: Ground, i: nat, k: nat)
    requires Formed(s) && i < MAX_CREATURES && k < MAX_PLAYERS
    requires (s.players[k].alive ==> 1 <= s.players[k].hp <= PLAYER_HP) && (s.players[k].hp > 0 ==> s.players[k].alive)
    ensures var p' := CreatureTurn(s, g, i).players[k];
            (p'.alive ==> 1 <= p'.hp <= PLAYER_HP) && (p'.hp > 0 ==> p'.alive)
  {
    hide Pulled, Reach;
  }

  // A creature after its turn: where it was, or alone on a floor tile.
  lemma CreatureEnds(s: State, g: Ground, i: nat)
    requires Formed(s) && i < MAX_CREATURES
    ensures var c, c' := s.creatures[i], CreatureTurn(s, g, i).creatures[i];
            c' == c || (c.alive && c'.alive && Free(g, s.creatures, c'.x, c'.y))
  {
    hide Free, Reach, Pulled;
    var c := s.creatures[i];
    var k := Nearest(s.players, c.x, c.y);
    if k < |s.players| {
      var p := s.players[k];
      PulledIsAStep(g, s.creatures, c, p.x - c.x, p.y - c.y);
    }
  }

  lemma RespawnTurnSound(s: State, g: Ground, i: nat, draws: seq<seq<(int, int)>>)
    requires Sound(s, g) && i < MAX_PLAYERS && |draws| == MAX_PLAYERS
    ensures Sound(RespawnTurn(s, g, i, draws), g)
  {
    hide RespawnTurn, OnFloor;
    var s' := RespawnTurn(s, g, i, draws);
    TurnWaits(s, g, draws, i);
    if OnFloor(s.tiles, g.w, g.h, s'.players[i].x, s'.players[i].y) {
      FloorIsOpen(s.tiles, g, s'.players[i].x, s'.players[i].y);
    }
    assert PlayerOk(g, s.players[i]);
  }

  lemma FloorIsOpen(t: seq<int>, g: Ground, x: int, y: int)
    requires g.floor == FloorOf(t) && OnFloor(t, g.w, g.h, x, y)
    ensures On(g, x, y)
  {
  }

  // Creatures that stood apart do so through the whole tick, and everything stays sound.
  lemma {:induction false} PlayersSound(s: State, g: Ground, n: nat)
    requires Sound(s, g) && n <= MAX_PLAYERS
    ensures Sound(PlayersTo(s, g, n), g)
    decreases n
  {
    hide Sound, PlayerTurn;
    SoundIsFormed(s, g);
    if n > 0 {
      PlayersSound(s, g, n - 1);
      PlayerTurnSound(PlayersTo(s, g, n - 1), g, n - 1);
    }
  }

  lemma {:induction false} ShotsSound(s: State, g: Ground, n: nat)
    requires Sound(s, g) && n <= MAX_SHOTS
    ensures Sound(ShotsTo(s, g, n), g) && StillApart(s.creatures, ShotsTo(s, g, n).creatures)
    decreases n
  {
    hide ShotTurn, On, FloorOf;
    if n > 0 {
      hide Sound, StillApart;
      ShotsSound(s, g, n - 1);
      ShotTurnSound(ShotsTo(s, g, n - 1), g, n - 1);
      ApartThrough(s.creatures, ShotsTo(s, g, n - 1).creatures, ShotsTo(s, g, n).creatures);
    }
  }

  lemma {:induction false} CreaturesSound(s: State, g: Ground, n: nat)
    requires Sound(s, g) && n <= MAX_CREATURES
    ensures Sound(CreaturesTo(s, g, n), g) && StillApart(s.creatures, CreaturesTo(s, g, n).creatures)
    decreases n
  {
    hide CreatureTurn, On, FloorOf;
    if n > 0 {
      hide Sound, StillApart;
      CreaturesSound(s, g, n - 1);
      CreatureTurnSound(CreaturesTo(s, g, n - 1), g, n - 1);
      ApartThrough(s.creatures, CreaturesTo(s, g, n - 1).creatures, CreaturesTo(s, g, n).creatures);
    }
  }

  lemma {:induction false} RespawnsSound(s: State, g: Ground, draws: seq<seq<(int, int)>>, n: nat)
    requires Sound(s, g) && n <= MAX_PLAYERS && |draws| == MAX_PLAYERS
    ensures Sound(RespawnsTo(s, g, draws, n), g) && RespawnsTo(s, g, draws, n).creatures == s.creatures
    decreases n
  {
    hide Sound, RespawnTurn, Formed;
    SoundIsFormed(s, g);
    if n > 0 {
      RespawnsSound(s, g, draws, n - 1);
      RespawnTurnSound(RespawnsTo(s, g, draws, n - 1), g, n - 1, draws);
      TurnWaits(RespawnsTo(s, g, draws, n - 1), g, draws, n - 1);
    }
  }

  lemma SoundIsFormed(s: State, g: Ground)
    requires Sound(s, g)
    ensures Formed(s) && StillApart(s.creatures, s.creatures)
  {
  }

  lemma TickKeeps(s: State, g: Ground, draws: seq<seq<(int, int)>>)
    requires Sound(s, g) && |draws| == MAX_PLAYERS
    ensures Sound(Ticked(s, g, draws), g) && StillApart(s.creatures, Ticked(s, g, draws).creatures)
  {
    hide Sound, StillApart, PlayersTo, ShotsTo, CreaturesTo, RespawnsTo, Formed;
    SoundIsFormed(s, g);
    var s1 := PlayersTo(s, g, MAX_PLAYERS);
    PlayersSound(s, g, MAX_PLAYERS);
    PlayersWalk(s, g, MAX_PLAYERS);
    var s2 := ShotsTo(s1, g, MAX_SHOTS);
    ShotsSound(s1, g, MAX_SHOTS);
    var s3 := CreaturesStep(s2, g);
    SoundIsFormed(s2, g);
    CreaturesSound(s2, g, MAX_CREATURES);
    RespawnsSound(s3, g, draws, MAX_PLAYERS);
    ApartThrough(s.creatures, s2.creatures, s3.creatures);
    Counted(RespawnsTo(s3, g, draws, MAX_PLAYERS), g);
  }

  lemma Counted(s: State, g: Ground)
    requires Sound(s, g)
    ensures Sound(s.(tick := (s.tick + 1) % 0x1_0000), g)
  {
  }

  // ----- what a tick does to each player -----

  // A live player ends the tick one tile on the way it was told to go, if that tile is open,
  // and otherwise where it was; it loses health only on even ticks, and if it dies waits 24
  // ticks, this one counted. A waiting player counts down and comes back at zero.
  ghost predicate Fares(s: State, g: Ground, ds: seq<(int, int)>, s': State, i: nat)
    requires Formed(s) && Formed(s') && i < MAX_PLAYERS
  {
    var p, p', n, n' := s.players[i], s'.players[i], s.respawnT[i], s'.respawnT[i];
    if p.alive then
      && (p'.x, p'.y) == (if p.input % 16 < 8 && On(g, p.x + DX[p.input % 16], p.y + DY[p.input % 16])
                          then (p.x + DX[p.input % 16], p.y + DY[p.input % 16]) else (p.x, p.y))
      && p'.input == p.input && (s.tick % 2 == 1 ==> p'.alive && p'.hp == p.hp)
      && (if p'.alive then n' == n else n' == RESPAWN_T - 1 && p'.hp == 0)
    else if n <= 0 then p' == p.(score := p'.score) && n' == n
    else
      && n' == n - 1
      && if n == 1 && (exists d :: d in ds && OnFloor(s'.tiles, g.w, g.h, d.0, d.1))
         then p'.alive && p'.hp == PLAYER_HP && p'.input == p.input && OnFloor(s'.tiles, g.w, g.h, p'.x, p'.y)
         else p' == p.(score := p'.score)
  }

  // Main result for players.
  lemma TickFares(s: State, g: Ground, draws: seq<seq<(int, int)>>, i: nat)
    requires Formed(s) && |draws| == MAX_PLAYERS && i < MAX_PLAYERS
    ensures Fares(s, g, draws[i], Ticked(s, g, draws), i)
  {
    hide PlayersTo, ShotsTo, CreaturesTo, RespawnsTo, On, OnFloor, FliesFree, Acts;
    var s1 := PlayersTo(s, g, MAX_PLAYERS);
    PlayersWalk(s, g, MAX_PLAYERS);
    var s2 := ShotsTo(s1, g, MAX_SHOTS);
    ShotsFly(s1, g, MAX_SHOTS);
    var s3 := CreaturesStep(s2, g);
    CreaturesAct(s2, g, MAX_CREATURES);
    TheDeadReturn(s3, g, draws, MAX_PLAYERS);
    var s4 := RespawnsTo(s3, g, draws, MAX_PLAYERS);
    PhasesFare(g, s.players[i], s1.players[i], s2.players[i], s3.players[i], s4.players[i],
               s.respawnT[i], s3.respawnT[i], s4.respawnT[i], s3.tiles, draws[i], s.tick);
  }

  lemma PhasesFare(g: Ground, p: Player, p1: Player, p2: Player, p3: Player, p4: Player, n: int, n3: int, n4: int,
                   t: seq<int>, ds: seq<(int, int)>, tick: int)
    requires Walked(g, p, p1) && p2 == p1.(score := p2.score)
    requires StruckOnly(p2, p3, n, n3) && (tick % 2 == 1 ==> p3 == p2) && Waited(t, g, p3, n3, ds, p4, n4)
    ensures if p.alive then
              && (p4.x, p4.y) == (if p.input % 16 < 8 && On(g, p.x + DX[p.input % 16], p.y + DY[p.input % 16])
                                  then (p.x + DX[p.input % 16], p.y + DY[p.input % 16]) else (p.x, p.y))
              && p4.input == p.input && (tick % 2 == 1 ==> p4.alive && p4.hp == p.hp)
              && (if p4.alive then n4 == n else n4 == RESPAWN_T - 1 && p4.hp == 0)
            else if n <= 0 then p4 == p.(score := p4.score) && n4 == n
            else
              && n4 == n - 1
              && if n == 1 && (exists d :: d in ds && OnFloor(t, g.w, g.h, d.0, d.1))
                 then p4.alive && p4.hp == PLAYER_HP && p4.input == p.input && OnFloor(t, g.w, g.h, p4.x, p4.y)
                 else p4 == p.(score := p4.score)
  {
    hide On, OnFloor;
  }

  // ----- what a tick does to each shot -----

  // A shot in flight flies as far as nothing is in its way, and one just fired does so too.
  lemma TickFlies(s: State, g: Ground, draws: seq<seq<(int, int)>>, j: nat)
    requires Formed(s) && |draws| == MAX_PLAYERS && j < MAX_SHOTS && forall i :: 0 <= i < MAX_PLAYERS ==> s.fireCd[i] >= 0
    ensures var s', sh := Ticked(s, g, draws), PlayersTo(s, g, MAX_PLAYERS).shots[j];
            && FliesFree(g, s.creatures, sh, s'.shots[j])
            && (s.shots[j].alive ==> sh == s.shots[j]) && (!sh.alive ==> s'.shots[j] == sh)
  {
    hide PlayersTo, ShotsTo, CreaturesTo, RespawnsTo, On, OnFloor, FliesFree, Acts;
    var s1 := PlayersTo(s, g, MAX_PLAYERS);
    PlayersWalk(s, g, MAX_PLAYERS);
    PlayersFire(s, g, MAX_PLAYERS);
    var s2 := ShotsTo(s1, g, MAX_SHOTS);
    ShotsFly(s1, g, MAX_SHOTS);
    var s3 := CreaturesStep(s2, g);
    CreaturesAct(s2, g, MAX_CREATURES);
    TheDeadReturn(s3, g, draws, MAX_PLAYERS);
  }

  // ----- what a tick does to the creatures -----

  // On even ticks each creature acts once, on the world as the players, the shots and the
  // creatures before it leave it; on odd ticks none does.
  lemma TickCreatures(s: State, g: Ground, draws: seq<seq<(int, int)>>)
    requires Formed(s) && |draws| == MAX_PLAYERS
    ensures var s', s2 := Ticked(s, g, draws), ShotsTo(PlayersTo(s, g, MAX_PLAYERS), g, MAX_SHOTS);
            && s'.tick == (s.tick + 1) % 0x1_0000
            && if s.tick % 2 == 1 then s'.creatures == s2.creatures
               else forall i :: 0 <= i < MAX_CREATURES ==>
                      && Acts(CreaturesTo(s2, g, i), g, CreaturesTo(s2, g, i + 1), i)
                      && s'.creatures[i] == CreaturesTo(s2, g, i + 1).creatures[i]
  {
    hide PlayersTo, ShotsTo, CreaturesTo, RespawnsTo, On, OnFloor, FliesFree, Acts, Walked, Waited;
    var s1 := PlayersTo(s, g, MAX_PLAYERS);
    PlayersWalk(s, g, MAX_PLAYERS);
    var s2 := ShotsTo(s1, g, MAX_SHOTS);
    ShotsFly(s1, g, MAX_SHOTS);
    CreaturesAct(s2, g, MAX_CREATURES);
    TheDeadReturn(CreaturesStep(s2, g), g, draws, MAX_PLAYERS);
  }

  // The only player alive loses on an even tick as many points as creatures the shots have
  // left around where it has walked to, and no more than it has.
  lemma TickStrikes(s: State, g: Ground, draws: seq<seq<(int, int)>>, k: nat)
    requires Formed(s) && |draws| == MAX_PLAYERS && k < MAX_PLAYERS && s.tick % 2 == 0
    requires s.players[k].alive && s.players[k].hp > 0 && s.respawnT[k] >= 0
    requires forall j :: 0 <= j < MAX_PLAYERS && j != k ==> !s.players[j].alive
    ensures var s', s2 := Ticked(s, g, draws), ShotsTo(PlayersTo(s, g, MAX_PLAYERS), g, MAX_SHOTS);
            var hits, hp := Around(s2.players[k], s2.creatures), s.players[k].hp;
            s'.players[k].hp == (if hits < hp then hp - hits else 0) && (s'.players[k].alive <==> hits < hp)
  {
    hide PlayersTo, ShotsTo, CreaturesTo, RespawnsTo, On, OnFloor, FliesFree, Acts, Around;
    var s1 := PlayersTo(s, g, MAX_PLAYERS);
    PlayersWalk(s, g, MAX_PLAYERS);
    forall j | 0 <= j < MAX_PLAYERS ensures s1.players[j].alive == s.players[j].alive && s1.players[j].hp == s.players[j].hp {
      assert Walked(g, s.players[j], s1.players[j]);
    }
    var s2 := ShotsTo(s1, g, MAX_SHOTS);
    ShotsFly(s1, g, MAX_SHOTS);
    OnlyPlayerIsStruck(s2, g, k, MAX_CREATURES);
    assert s2.creatures[..MAX_CREATURES] == s2.creatures;
    CreaturesAct(s2, g, MAX_CREATURES);
    var s3 := CreaturesStep(s2, g);
    TheDeadReturn(s3, g, draws, MAX_PLAYERS);
    assert Waited(s3.tiles, g, s3.players[k], s3.respawnT[k], draws[k], Ticked(s, g, draws).players[k],
                  Ticked(s, g, draws).respawnT[k]);
  }

  // ----- many ticks -----

  ghost function Ticks(s: State, g: Ground, dd: seq<seq<seq<(int, int)>>>): (s': State)
    requires Formed(s) && forall i :: 0 <= i < |dd| ==> |dd[i]| == MAX_PLAYERS
    ensures Formed(s')
    decreases |dd|
  {
    if dd == [] then s else Ticks(Ticked(s, g, dd[0]), g, dd[1..])
  }

  lemma {:induction false} TicksKeep(s: State, g: Ground, dd: seq<seq<seq<(int, int)>>>)
    requires Sound(s, g) && forall i :: 0 <= i < |dd| ==> |dd[i]| == MAX_PLAYERS
    ensures Sound(Ticks(s, g, dd), g) && StillApart(s.creatures, Ticks(s, g, dd).creatures)
    decreases |dd|
  {
    hide Sound, StillApart, Ticked;
    SoundIsFormed(s, g);
    if dd != [] {
      TickKeeps(s, g, dd[0]);
      TicksKeep(Ticked(s, g, dd[0]), g, dd[1..]);
      ApartThrough(s.creatures, Ticked(s, g, dd[0]).creatures, Ticks(s, g, dd).creatures);
    }
  }

  // Main result for the dead: a player waiting n ticks is dead until the nth, and alive then
  // if plain floor is drawn for it.
  lemma {:induction false} ReturnsOnTime(s: State, g: Ground, dd: seq<seq<seq<(int, int)>>>, i: nat)
    requires Formed(s) && i < MAX_PLAYERS && (forall k :: 0 <= k < |dd| ==> |dd[k]| == MAX_PLAYERS)
    requires !s.players[i].alive && 0 < |dd| <= s.respawnT[i]
    ensures var s', last := Ticks(s, g, dd), dd[|dd| - 1][i];
            && s'.respawnT[i] == s.respawnT[i] - |dd|
            && (s'.players[i].alive <==>
                  s'.respawnT[i] == 0 && exists d :: d in last && OnFloor(s'.tiles, g.w, g.h, d.0, d.1))
            && (s'.players[i].alive ==> s'.players[i].hp == PLAYER_HP)
    decreases |dd|
  {
    hide Ticked, OnFloor, On;
    var s1 := Ticked(s, g, dd[0]);
    TickFares(s, g, dd[0], i);
    if |dd| > 1 {
      ReturnsOnTime(s1, g, dd[1..], i);
      assert dd[1..][|dd| - 2] == dd[|dd| - 1];
    } else {
      assert Ticks(s1, g, dd[1..]) == s1;
    }
  }

  // Nothing stands on any of these tiles when any of these ticks begins.
  ghost predicate StaysClear(s: State, g: Ground, dd: seq<seq<seq<(int, int)>>>, line: set<(int, int)>)
    requires Formed(s) && forall i :: 0 <= i < |dd| ==> |dd[i]| == MAX_PLAYERS
    decreases |dd|
  {
    dd == [] || ((forall t :: t in line ==> Clear(s, g, t.0, t.1)) && StaysClear(Ticked(s, g, dd[0]), g, dd[1..], line))
  }

  // Main result for shots: unobstructed, a shot flies two tiles a tick, and ends on the tile
  // one past the number it carries.
  lemma {:induction false} FliesItsRange(s: State, g: Ground, dd: seq<seq<seq<(int, int)>>>, j: nat, line: set<(int, int)>)
    requires Sound(s, g) && j < MAX_SHOTS && (forall i :: 0 <= i < |dd| ==> |dd[i]| == MAX_PLAYERS)
    requires var sh := s.shots[j];
             && sh.alive && ShotFormed(sh) && 2 * |dd| <= sh.ttl + 2
             && (forall k :: 1 <= k <= sh.ttl + 1 ==> Tile(sh, k) in line) && StaysClear(s, g, dd, line)
    ensures var sh, sh', n := s.shots[j], Ticks(s, g, dd).shots[j], 2 * |dd|;
            if n <= sh.ttl then sh' == sh.(x := Tile(sh, n).0, y := Tile(sh, n).1, ttl := sh.ttl - n)
            else !sh'.alive && (sh'.x, sh'.y) == Tile(sh, sh.ttl + 1)
    decreases |dd|
  {
    hide Ticked, On, Vacant, Sound, Formed, Tile, FliesFree;
    SoundIsFormed(s, g);
    Cooling(s, g);
    TileZero(s.shots[j]);
    if dd != [] {
      var sh, s1 := s.shots[j], Ticked(s, g, dd[0]);
      TickFlies(s, g, dd[0], j);
      TickKeeps(s, g, dd[0]);
      Cooling(s1, g);
      assert Tile(sh, 1) in line && (sh.ttl > 0 ==> Tile(sh, 2) in line);
      FreeTwo(s, g, sh, s1.shots[j]);
      if sh.ttl >= 2 {
        TileOn(sh, s1.shots[j]);
        FliesItsRange(s1, g, dd[1..], j, line);
      } else {
        assert dd[1..] == [];
      }
    }
  }

  lemma FreeTwo(s: State, g: Ground, sh: Shot, sh': Shot)
    requires sh.alive && ShotFormed(sh) && FliesFree(g, s.creatures, sh, sh')
    requires Clear(s, g, Tile(sh, 1).0, Tile(sh, 1).1) && (sh.ttl > 0 ==> Clear(s, g, Tile(sh, 2).0, Tile(sh, 2).1))
    ensures if sh.ttl >= 2 then sh' == sh.(x := Tile(sh, 2).0, y := Tile(sh, 2).1, ttl := sh.ttl - 2)
            else !sh'.alive && (sh'.x, sh'.y) == Tile(sh, sh.ttl + 1)
  {
    hide On, Vacant;
  }

  lemma Cooling(s: State, g: Ground)
    requires Sound(s, g)
    ensures Formed(s) && |s.fireCd| == MAX_PLAYERS && |s.shots| == MAX_SHOTS
    ensures forall i :: 0 <= i < MAX_PLAYERS ==> s.fireCd[i] >= 0
  {
  }

  lemma TileZero(sh: Shot)
    requires 0 <= sh.dir < 8
    ensures Tile(sh, 0) == (sh.x, sh.y)
  {
  }

  lemma TileOn(sh: Shot, sh': Shot)
    requires 0 <= sh.dir < 8 && sh'.dir == sh.dir && (sh'.x, sh'.y) == Tile(sh, 2)
    ensures forall k :: Tile(sh', k) == Tile(sh, k + 2)
  {
  }

  // So a shot fired with nothing in its way reaches the seventh tile, not the sixth.
  lemma ShotReachesSeventh(s: State, g: Ground, dd: seq<seq<seq<(int, int)>>>, j: nat, line: set<(int, int)>)
    requires Sound(s, g) && j < MAX_SHOTS && |dd| == 4 && (forall i :: 0 <= i < |dd| ==> |dd[i]| == MAX_PLAYERS)
    requires var sh := s.shots[j];
             && sh.alive && ShotFormed(sh) && sh.ttl == SHOT_RANGE
             && (forall k :: 1 <= k <= 7 ==> Tile(sh, k) in line) && StaysClear(s, g, dd, line)
    ensures var sh, sh' := s.shots[j], Ticks(s, g, dd).shots[j];
            !sh'.alive && (sh'.x, sh'.y) == Tile(sh, SHOT_RANGE + 1)
  {
    FliesItsRange(s, g, dd, j, line);
  }
}
