// What whole phases of a tick amount to: who walks where, who fires, how far shots fly and
// whom they strike, who is struck by creatures, and when the dead return.
module ThorLaws {
  import opened ThorRegion
  import opened ThorMap
  import opened ThorRules

  // ----- players walk -----

  // One tile the way it is told to go, if that is open; otherwise it turns and stays.
  ghost predicate Walked(g: Ground, p: Player, p': Player) {
    if !p.alive then p' == p
    else
      && p' == p.(x := p'.x, y := p'.y, facing := p'.facing, score := p'.score)
      && p'.facing == (if p.input % 16 < 8 then p.input % 16 else p.facing)
      && (p'.x, p'.y) == if p.input % 16 < 8 && On(g, p.x + DX[p.input % 16], p.y + DY[p.input % 16])
                         then (p.x + DX[p.input % 16], p.y + DY[p.input % 16]) else (p.x, p.y)
  }

  // What one player's turn leaves alone.
  lemma TurnFrame(s: State, g: Ground, i: nat)
    requires Formed(s) && i < MAX_PLAYERS
    ensures var s' := PlayerTurn(s, g, i);
            && Walked(g, s.players[i], s'.players[i]) && s'.players == s.players[i := s'.players[i]]
            && s'.fireCd == s.fireCd[i := s'.fireCd[i]]
            && s' == s.(tiles := s'.tiles, players := s'.players, shots := s'.shots, fireCd := s'.fireCd)
  {
    hide Walk, Shoot, Walked;
    if s.players[i].alive {
      var s1 := Cooled(s, i);
      WalkFrame(s1, g, i);
      ShootFrame(Walk(s1, g, i), i);
    } else {
      StaysPut(g, s.players[i]);
    }
  }

  lemma StaysPut(g: Ground, p: Player)
    requires !p.alive
    ensures Walked(g, p, p)
  {
    hide On;
  }

  lemma WalkFrame(s: State, g: Ground, i: nat)
    requires i < |s.players| && s.players[i].alive
    ensures var s' := Walk(s, g, i);
            && |s'.players| == |s.players| && Walked(g, s.players[i], s'.players[i])
            && s'.players == s.players[i := s'.players[i]] && s' == s.(tiles := s'.tiles, players := s'.players)
  {
    hide On;
  }

  lemma ShootFrame(s: State, i: nat)
    requires i < |s.players| && i < |s.fireCd|
    ensures var s' := Shoot(s, i);
            && |s'.fireCd| == |s.fireCd| && |s'.shots| == |s.shots|
            && s'.fireCd == s.fireCd[i := s'.fireCd[i]] && s' == s.(shots := s'.shots, fireCd := s'.fireCd)
  {
  }

  // Main result of the first phase: every live player has taken the step it was told to
  // take, if that tile is open, and nobody else has moved.
  lemma {:induction false} PlayersWalk(s: State, g: Ground, n: nat)
    requires Formed(s) && n <= MAX_PLAYERS
    ensures var s' := PlayersTo(s, g, n);
            && (forall i :: 0 <= i < n ==> Walked(g, s.players[i], s'.players[i]))
            && (forall i :: n <= i < MAX_PLAYERS ==> s'.players[i] == s.players[i] && s'.fireCd[i] == s.fireCd[i])
            && s' == s.(tiles := s'.tiles, players := s'.players, shots := s'.shots, fireCd := s'.fireCd)
    decreases n
  {
    hide PlayerTurn, Walked;
    if n > 0 {
      PlayersWalk(s, g, n - 1);
      TurnFrame(PlayersTo(s, g, n - 1), g, n - 1);
    }
  }

  // Treasure stepped onto is worth 25 points and becomes plain floor; otherwise neither the
  // map nor the score changes.
  lemma TreasureIsTaken(s: State, g: Ground, i: nat)
    requires Formed(s) && i < MAX_PLAYERS && s.players[i].alive && g.floor == FloorOf(s.tiles) && |s.tiles| == g.w * g.h
    ensures var s', p, p' := PlayerTurn(s, g, i), s.players[i], PlayerTurn(s, g, i).players[i];
            && FloorOf(s'.tiles) == g.floor && |s'.tiles| == |s.tiles|
            && if (p'.x, p'.y) != (p.x, p.y) && OnTreasure(s.tiles, g.w, g.h, p'.x, p'.y)
               then p'.score == (p.score + 25) % 0x1_0000 && s'.tiles == s.tiles[p'.y * g.w + p'.x := T_FLOOR]
               else p'.score == p.score && s'.tiles == s.tiles
  {
    hide Shoot;
    var s1 := Cooled(s, i);
    WalkTakes(s1, g, i);
    ShootFrame(Walk(s1, g, i), i);
  }

  lemma WalkTakes(s: State, g: Ground, i: nat)
    requires i < |s.players| && g.floor == FloorOf(s.tiles) && |s.tiles| == g.w * g.h
    ensures var s', p := Walk(s, g, i), s.players[i];
            && |s'.players| == |s.players| && FloorOf(s'.tiles) == g.floor && |s'.tiles| == |s.tiles|
            && var p' := s'.players[i];
               if (p'.x, p'.y) != (p.x, p.y) && OnTreasure(s.tiles, g.w, g.h, p'.x, p'.y)
               then p'.score == (p.score + 25) % 0x1_0000 && s'.tiles == s.tiles[p'.y * g.w + p'.x := T_FLOOR]
               else p'.score == p.score && s'.tiles == s.tiles
  {
    var p := s.players[i];
    if Heading(p) < 8 {
      var (nx, ny) := Ahead(p);
      if OnTreasure(s.tiles, g.w, g.h, nx, ny) {
        assert ny * g.w + nx in FloorOf(s.tiles);
        PaintFloor(s.tiles, ny * g.w + nx);
      }
    }
  }

  lemma PaintFloor(t: seq<int>, i: nat)
    requires i < |t| && t[i] == T_TREASURE
    ensures FloorOf(t[i := T_FLOOR]) == FloorOf(t)
  {
  }

  // Maps are made without treasure, and then nothing of it ever happens.
  lemma {:induction false} NoTreasureNoChange(s: State, g: Ground, n: nat)
    requires Formed(s) && n <= MAX_PLAYERS && T_TREASURE !in s.tiles
    ensures var s' := PlayersTo(s, g, n);
            s'.tiles == s.tiles && forall i :: 0 <= i < MAX_PLAYERS ==> s'.players[i].score == s.players[i].score
    decreases n
  {
    hide On;
    if n > 0 {
      NoTreasureNoChange(s, g, n - 1);
    }
  }

  // ----- players fire -----

  // Told to fire, with the wait over this tick.
  predicate Ready(s: State, i: nat)
    requires i < |s.players| && i < |s.fireCd|
  {
    s.players[i].alive && s.players[i].input / 16 % 16 < 8 && s.fireCd[i] <= 1
  }

  function ReadyBefore(s: State, n: nat): nat
    requires n <= |s.players| && n <= |s.fireCd|
  {
    if n == 0 then 0 else ReadyBefore(s, n - 1) + if Ready(s, n - 1) then 1 else 0
  }

  function Slots(ss: seq<Shot>): nat {
    if ss == [] then 0 else Slots(ss[..|ss| - 1]) + if ss[|ss| - 1].alive then 0 else 1
  }

  // A player fires exactly when it is ready and a slot is left after those before it.
  predicate Fires(s: State, i: nat)
    requires i < |s.players| && i < |s.fireCd|
  {
    Ready(s, i) && ReadyBefore(s, i) < Slots(s.shots)
  }

  lemma {:induction false} SlotsSet(ss: seq<Shot>, k: nat, sh: Shot)
    requires k < |ss| && !ss[k].alive && sh.alive
    ensures Slots(ss) > 0 && Slots(ss[k := sh]) == Slots(ss) - 1
  {
    var last := |ss| - 1;
    if k < last {
      SlotsSet(ss[..last], k, sh);
      assert ss[k := sh][..last] == ss[..last][k := sh];
    } else {
      assert ss[k := sh][..last] == ss[..last];
    }
  }

  lemma {:induction false} SlotsNone(ss: seq<Shot>)
    requires forall j :: 0 <= j < |ss| ==> ss[j].alive
    ensures Slots(ss) == 0
  {
    if ss != [] {
      SlotsNone(ss[..|ss| - 1]);
    }
  }

  // The shot player i fires, from where it then stands.
  function ShotOf(p: Player, i: nat): Shot {
    Shot(p.x, p.y, p.input / 16 % 16, true, i, SHOT_RANGE)
  }

  ghost predicate FiresInto(s: State, s': State, i: nat)
    requires i < |s'.players|
  {
    exists k :: 0 <= k < |s.shots| && |s'.shots| == |s.shots| && !s.shots[k].alive && s'.shots[k] == ShotOf(s'.players[i], i)
  }

  // One player's turn: it fires into the first free slot, or nothing changes in any slot.
  lemma TurnFires(s: State, g: Ground, i: nat)
    requires Formed(s) && i < MAX_PLAYERS && s.fireCd[i] >= 0
    ensures var s' := PlayerTurn(s, g, i);
            if Ready(s, i) && Slots(s.shots) > 0 then
              && s'.fireCd[i] == FIRE_CD && Slots(s'.shots) == Slots(s.shots) - 1 && FiresInto(s, s', i)
              && (forall k :: 0 <= k < MAX_SHOTS && s.shots[k].alive ==> s'.shots[k] == s.shots[k])
              && (forall k :: 0 <= k < MAX_SHOTS && s'.shots[k] != s.shots[k] ==> s'.shots[k] == ShotOf(s'.players[i], i))
            else
              && s'.shots == s.shots
              && s'.fireCd[i] == if s.players[i].alive && s.fireCd[i] > 0 then s.fireCd[i] - 1 else s.fireCd[i]
  {
    hide On;
    var k := FreeSlot(s.shots);
    if k == |s.shots| {
      SlotsNone(s.shots);
    } else {
      var s1 := Walk(Cooled(s, i), g, i);
      assert s1.shots == s.shots;
      SlotsSet(s.shots, k, ShotOf(s1.players[i], i));
    }
  }

  // Main result: who fires this tick, into a slot that was free, from where it has walked to;
  // what happens to the waits; and that no shot in flight is touched.
  ghost predicate Fired(s: State, s': State, n: nat)
    requires Formed(s) && Formed(s') && n <= MAX_PLAYERS
  {
    && (forall i :: 0 <= i < n ==> s'.fireCd[i] == WaitAfter(s, i))
    && (forall i :: 0 <= i < n && Fires(s, i) ==> FiresInto(s, s', i))
    && (forall k :: 0 <= k < MAX_SHOTS && s.shots[k].alive ==> s'.shots[k] == s.shots[k])
    && (forall k :: 0 <= k < MAX_SHOTS && s'.shots[k] != s.shots[k] ==>
          exists i :: 0 <= i < n && Fires(s, i) && s'.shots[k] == ShotOf(s'.players[i], i))
    && Slots(s'.shots) == if ReadyBefore(s, n) < Slots(s.shots) then Slots(s.shots) - ReadyBefore(s, n) else 0
  }

  function WaitAfter(s: State, i: nat): int
    requires i < |s.players| && i < |s.fireCd|
  {
    if Fires(s, i) then FIRE_CD
    else if s.players[i].alive && s.fireCd[i] > 0 then s.fireCd[i] - 1 else s.fireCd[i]
  }

  lemma {:induction false} PlayersFire(s: State, g: Ground, n: nat)
    requires Formed(s) && n <= MAX_PLAYERS && forall i :: 0 <= i < MAX_PLAYERS ==> s.fireCd[i] >= 0
    ensures Fired(s, PlayersTo(s, g, n), n)
    decreases n
  {
    hide On, PlayerTurn, ShotOf, Walked;
    if n > 0 {
      var s1, i := PlayersTo(s, g, n - 1), n - 1;
      PlayersFire(s, g, i);
      PlayersWalk(s, g, i);
      TurnFires(s1, g, i);
      TurnFrame(s1, g, i);
      FiresNext(s, s1, PlayersTo(s, g, n), i);
    }
  }

  lemma FiresNext(s: State, s1: State, s2: State, i: nat)
    requires Formed(s) && Formed(s1) && Formed(s2) && i < MAX_PLAYERS && Fired(s, s1, i)
    requires s1.players[i] == s.players[i] && s1.fireCd[i] == s.fireCd[i]
    requires s2.players == s1.players[i := s2.players[i]] && s2.fireCd == s1.fireCd[i := s2.fireCd[i]]
    requires if Ready(s1, i) && Slots(s1.shots) > 0 then
               && s2.fireCd[i] == FIRE_CD && Slots(s2.shots) == Slots(s1.shots) - 1 && FiresInto(s1, s2, i)
               && (forall k :: 0 <= k < MAX_SHOTS && s1.shots[k].alive ==> s2.shots[k] == s1.shots[k])
               && (forall k :: 0 <= k < MAX_SHOTS && s2.shots[k] != s1.shots[k] ==> s2.shots[k] == ShotOf(s2.players[i], i))
             else
               && s2.shots == s1.shots
               && s2.fireCd[i] == if s1.players[i].alive && s1.fireCd[i] > 0 then s1.fireCd[i] - 1 else s1.fireCd[i]
    ensures Fired(s, s2, i + 1)
  {
    assert Ready(s1, i) == Ready(s, i);
    forall j | 0 <= j < i && Fires(s, j) ensures FiresInto(s, s2, j) {
      assert FiresInto(s, s1, j);
      var k :| 0 <= k < |s.shots| && |s1.shots| == |s.shots| && !s.shots[k].alive && s1.shots[k] == ShotOf(s1.players[j], j);
      assert s2.shots[k] == ShotOf(s2.players[j], j);
    }
  }

  // ----- shots fly -----

  // Nothing stands in the way on a tile.
  ghost predicate Clear(s: State, g: Ground, x: int, y: int) {
    On(g, x, y) && Vacant(s.creatures, x, y)
  }

  function Tile(sh: Shot, k: int): (int, int)
    requires 0 <= sh.dir < 8
  {
    (sh.x + k * DX[sh.dir], sh.y + k * DY[sh.dir])
  }

  // Shot j ends on a tile with a live creature, which dies, for ten points to its owner.
  ghost predicate Kills(s: State, s': State, j: nat, x: int, y: int)
    requires Formed(s) && Formed(s') && j < MAX_SHOTS && s.shots[j].alive
  {
    var o := s.shots[j].owner;
    && s'.shots[j].x == x && s'.shots[j].y == y && !s'.shots[j].alive
    && s'.players == s.players[o := s.players[o].(score := (s.players[o].score + 10) % 0x1_0000)]
    && exists k :: 0 <= k < MAX_CREATURES && s.creatures[k] == Creature(x, y, true)
         && s'.creatures == s.creatures[k := Creature(x, y, false)]
  }

  ghost predicate Harmless(s: State, s': State) {
    s'.players == s.players && s'.creatures == s.creatures
  }

  // A shot's whole turn: two tiles straight on, or one if that is all its range; it ends
  // where it meets a creature, before a wall, and where its range does.
  ghost predicate Flies(s: State, g: Ground, s': State, j: nat)
    requires Formed(s) && Formed(s') && j < MAX_SHOTS && s.shots[j].alive
  {
    var sh, sh' := s.shots[j], s'.shots[j];
    var (x1, y1) := Tile(sh, 1);
    var (x2, y2) := Tile(sh, 2);
    if !On(g, x1, y1) then sh' == sh.(alive := false) && Harmless(s, s')
    else if !Vacant(s.creatures, x1, y1) then Kills(s, s', j, x1, y1)
    else if sh.ttl == 0 then sh' == sh.(x := x1, y := y1, alive := false) && Harmless(s, s')
    else if !On(g, x2, y2) then sh' == sh.(x := x1, y := y1, alive := false, ttl := sh.ttl - 1) && Harmless(s, s')
    else if !Vacant(s.creatures, x2, y2) then Kills(s, s', j, x2, y2)
    else
      && sh'.x == x2 && sh'.y == y2 && (sh'.alive <==> sh.ttl >= 2) && Harmless(s, s')
      && (sh'.alive ==> sh' == sh.(x := x2, y := y2, ttl := sh.ttl - 2))
  }

  // A shot one tile on, if that was in its range.
  function Paced(sh: Shot): Shot
    requires 0 <= sh.dir < 8
  {
    var (x, y) := Tile(sh, 1);
    if sh.ttl == 0 then sh.(x := x, y := y, alive := false) else sh.(x := x, y := y, ttl := sh.ttl - 1)
  }

  lemma OnePace(s: State, g: Ground, j: nat)
    requires Formed(s) && j < MAX_SHOTS && s.shots[j].alive
    ensures var s', sh := HalfTurn(s, g, j), s.shots[j];
            var (x, y) := Tile(sh, 1);
            && s' == s.(shots := s.shots[j := s'.shots[j]], creatures := s'.creatures, players := s'.players)
            && (!On(g, x, y) ==> s'.shots[j] == sh.(alive := false) && Harmless(s, s'))
            && (On(g, x, y) && !Vacant(s.creatures, x, y) ==> Kills(s, s', j, x, y))
            && (Clear(s, g, x, y) ==> Harmless(s, s') && s'.shots[j] == Paced(sh))
  {
    hide On;
    var sh := s.shots[j];
    var (x, y) := Tile(sh, 1);
    OccupantFound(s.creatures, x, y);
    var k := CreatureOn(s.creatures, x, y);
    if k < |s.creatures| {
      assert s.creatures[k] == Creature(x, y, true);
    }
  }

  lemma OccupantFound(cs: seq<Creature>, x: int, y: int)
    ensures Vacant(cs, x, y) <==> CreatureOn(cs, x, y) == |cs|
  {
    var k := CreatureOn(cs, x, y);
    if k < |cs| { assert cs[k].alive; }
  }

  lemma ShotFlies(s: State, g: Ground, j: nat)
    requires Formed(s) && j < MAX_SHOTS
    ensures var s' := ShotTurn(s, g, j, SHOT_SPEED);
            && s' == s.(shots := s.shots[j := s'.shots[j]], creatures := s'.creatures, players := s'.players)
            && if s.shots[j].alive then Flies(s, g, s', j) else s' == s
  {
    hide On, HalfTurn, Formed;
    Sizes(s);
    if s.shots[j].alive {
      ShotLives(s, g, j);
      OnePace(s, g, j);
      var s1 := HalfTurn(s, g, j);
      assert ShotTurn(s, g, j, 2) == ShotTurn(s1, g, j, 1);
      if s1.shots[j].alive {
        OnePace(s1, g, j);
        assert Tile(s1.shots[j], 1) == Tile(s.shots[j], 2);
        assert ShotTurn(s1, g, j, 1) == ShotTurn(HalfTurn(s1, g, j), g, j, 0);
      }
    }
  }

  lemma Sizes(s: State)
    requires Formed(s)
    ensures |s.shots| == MAX_SHOTS && |s.players| == MAX_PLAYERS && |s.creatures| == MAX_CREATURES
  {
  }

  lemma ShotLives(s: State, g: Ground, j: nat)
    requires Formed(s) && j < MAX_SHOTS && s.shots[j].alive
    ensures |s.shots| == MAX_SHOTS && ShotFormed(s.shots[j]) && |s.players| == MAX_PLAYERS
  {
  }

  // How a shot is left if nothing was in its way when the phase began.
  ghost predicate FliesFree(g: Ground, cs: seq<Creature>, sh: Shot, sh': Shot) {
    sh.alive && 0 <= sh.dir < 8 ==>
      var (x1, y1) := Tile(sh, 1);
      var (x2, y2) := Tile(sh, 2);
      && (!On(g, x1, y1) ==> sh' == sh.(alive := false))
      && (On(g, x1, y1) && Vacant(cs, x1, y1) ==>
            && (sh.ttl == 0 ==> sh' == sh.(x := x1, y := y1, alive := false))
            && (sh.ttl > 0 && !On(g, x2, y2) ==> sh' == sh.(x := x1, y := y1, alive := false, ttl := sh.ttl - 1))
            && (sh.ttl > 0 && On(g, x2, y2) && Vacant(cs, x2, y2) ==>
                  sh'.x == x2 && sh'.y == y2 && (sh'.alive <==> sh.ttl >= 2)
                  && (sh'.alive ==> sh' == sh.(x := x2, y := y2, ttl := sh.ttl - 2))))
  }

  // Creatures die and do nothing else.
  ghost predicate OnlyDie(cs: seq<Creature>, cs': seq<Creature>) {
    |cs'| == |cs| && forall k :: 0 <= k < |cs| ==> cs'[k] == cs[k] || (cs[k].alive && cs'[k] == cs[k].(alive := false))
  }

  ghost predicate OnlyScore(ps: seq<Player>, ps': seq<Player>) {
    |ps'| == |ps| && forall i :: 0 <= i < |ps| ==> ps'[i] == ps[i].(score := ps'[i].score)
  }

  lemma TurnSpares(s: State, g: Ground, j: nat)
    requires Formed(s) && j < MAX_SHOTS
    ensures var s' := ShotTurn(s, g, j, SHOT_SPEED); OnlyDie(s.creatures, s'.creatures) && OnlyScore(s.players, s'.players)
  {
    hide On, Vacant;
    ShotFlies(s, g, j);
  }

  // Main result of the second phase: every shot in flight has flown as far as it can, those
  // not in flight are as they were, and creatures and players suffer nothing but the kills.
  lemma {:induction false} ShotsFly(s: State, g: Ground, n: nat)
    requires Formed(s) && n <= MAX_SHOTS
    ensures var s' := ShotsTo(s, g, n);
            && s' == s.(shots := s'.shots, creatures := s'.creatures, players := s'.players)
            && OnlyDie(s.creatures, s'.creatures) && OnlyScore(s.players, s'.players)
            && (forall j :: n <= j < MAX_SHOTS || (0 <= j < n && !s.shots[j].alive) ==> s'.shots[j] == s.shots[j])
            && (forall j :: 0 <= j < n ==> FliesFree(g, s.creatures, s.shots[j], s'.shots[j]))
    decreases n
  {
    hide ShotTurn, FliesFree;
    if n > 0 {
      var s1, j := ShotsTo(s, g, n - 1), n - 1;
      ShotsFly(s, g, j);
      ShotFlies(s1, g, j);
      TurnSpares(s1, g, j);
      OnlyDieTwice(s.creatures, s1.creatures, ShotsTo(s, g, n).creatures);
      FreeOfFewer(g, s, s1, ShotsTo(s, g, n), j);
    }
  }

  lemma OnlyDieTwice(a: seq<Creature>, b: seq<Creature>, c: seq<Creature>)
    requires OnlyDie(a, b) && OnlyDie(b, c)
    ensures OnlyDie(a, c)
  {
  }

  lemma FewerVacant(a: seq<Creature>, b: seq<Creature>, x: int, y: int)
    requires OnlyDie(a, b) && Vacant(a, x, y)
    ensures Vacant(b, x, y)
  {
  }

  lemma FreeOfFewer(g: Ground, s: State, s1: State, s2: State, j: nat)
    requires Formed(s) && Formed(s1) && Formed(s2) && j < MAX_SHOTS && OnlyDie(s.creatures, s1.creatures)
    requires s1.shots[j] == s.shots[j] && if s1.shots[j].alive then Flies(s1, g, s2, j) else s2 == s1
    ensures FliesFree(g, s.creatures, s.shots[j], s2.shots[j])
  {
    hide On, Vacant, Kills, Harmless;
    var sh := s.shots[j];
    if sh.alive {
      var (x1, y1) := Tile(sh, 1);
      var (x2, y2) := Tile(sh, 2);
      if Vacant(s.creatures, x1, y1) { FewerVacant(s.creatures, s1.creatures, x1, y1); }
      if Vacant(s.creatures, x2, y2) { FewerVacant(s.creatures, s1.creatures, x2, y2); }
    }
  }

  // ----- every kill is paid for, and nothing else -----

  function Living(cs: seq<Creature>): nat {
    if cs == [] then 0 else Living(cs[..|cs| - 1]) + if cs[|cs| - 1].alive then 1 else 0
  }

  lemma {:induction false} OneDies(cs: seq<Creature>, k: nat)
    requires k < |cs| && cs[k].alive
    ensures Living(cs) == Living(cs[k := cs[k].(alive := false)]) + 1
  {
    var last, cs' := |cs| - 1, cs[k := cs[k].(alive := false)];
    if k < last {
      OneDies(cs[..last], k);
      assert cs'[..last] == cs[..last][k := cs[k].(alive := false)];
    } else {
      assert cs'[..last] == cs[..last];
    }
  }

  // Points gained, in a counter of 16 bits.
  function Gain(a: int, b: int): nat {
    (b - a) % 0x1_0000
  }

  lemma GainMore(a: int, b: int, n: nat)
    requires Gain(a, b) + n < 0x1_0000
    ensures Gain(a, (b + n) % 0x1_0000) == Gain(a, b) + n
  {
    var q := (b - a) / 0x1_0000;
    var r := (b + n) / 0x1_0000;
    assert (b + n) % 0x1_0000 - a == 0x1_0000 * (q - r) + (Gain(a, b) + n);
    ModOf(q - r, Gain(a, b) + n);
  }

  lemma ModOf(q: int, r: nat)
    requires r < 0x1_0000
    ensures (0x1_0000 * q + r) % 0x1_0000 == r
  {
    var x := 0x1_0000 * q + r;
    assert 0x1_0000 * (x / 0x1_0000 - q) == r - x % 0x1_0000;
  }

  function Gained(ps: seq<Player>, ps': seq<Player>): nat
    requires |ps| == |ps'|
  {
    if ps == [] then 0
    else Gained(ps[..|ps| - 1], ps'[..|ps| - 1]) + Gain(ps[|ps| - 1].score, ps'[|ps| - 1].score)
  }

  lemma {:induction false} GainedOne(ps: seq<Player>, ps': seq<Player>, o: nat, n: nat)
    requires |ps| == |ps'| && o < |ps| && Gained(ps, ps') + n < 0x1_0000
    ensures Gained(ps, ps'[o := ps'[o].(score := (ps'[o].score + n) % 0x1_0000)]) == Gained(ps, ps') + n
  {
    var last, qs := |ps| - 1, ps'[o := ps'[o].(score := (ps'[o].score + n) % 0x1_0000)];
    if o < last {
      GainedOne(ps[..last], ps'[..last], o, n);
      assert qs[..last] == ps'[..last][o := qs[o]];
    } else {
      assert qs[..last] == ps'[..last];
      GainMore(ps[last].score, ps'[last].score, n);
    }
  }

  lemma {:induction false} GainedNone(ps: seq<Player>)
    ensures Gained(ps, ps) == 0
  {
    if ps != [] {
      GainedNone(ps[..|ps| - 1]);
    }
  }

  // Ten points for every creature killed.
  lemma {:induction false} KillsArePaid(s: State, g: Ground, n: nat)
    requires Formed(s) && n <= MAX_SHOTS
    ensures var s' := ShotsTo(s, g, n);
            && Living(s'.creatures) <= Living(s.creatures) <= Living(s'.creatures) + n
            && Gained(s.players, s'.players) == 10 * (Living(s.creatures) - Living(s'.creatures))
    decreases n
  {
    hide ShotTurn, Gain, Gained, Living;
    if n == 0 {
      GainedNone(s.players);
    } else {
      var s1, s2, j := ShotsTo(s, g, n - 1), ShotsTo(s, g, n), n - 1;
      KillsArePaid(s, g, j);
      ShotFlies(s1, g, j);
      TurnPays(s1, g, s2, j);
      if s2.creatures != s1.creatures || s2.players != s1.players {
        GainedOne(s.players, s1.players, s1.shots[j].owner, 10);
      }
    }
  }

  lemma TurnPays(s: State, g: Ground, s': State, j: nat)
    requires Formed(s) && Formed(s') && j < MAX_SHOTS
    requires if s.shots[j].alive then Flies(s, g, s', j) else s' == s
    ensures Harmless(s, s')
         || (s.shots[j].alive && Living(s.creatures) == Living(s'.creatures) + 1
             && var o := s.shots[j].owner;
                s'.players == s.players[o := s.players[o].(score := (s.players[o].score + 10) % 0x1_0000)])
  {
    hide On, Vacant;
    if s.shots[j].alive && !Harmless(s, s') {
      var k :| 0 <= k < MAX_CREATURES && s.creatures[k].alive
               && s'.creatures == s.creatures[k := s.creatures[k].(alive := false)];
      OneDies(s.creatures, k);
    }
  }

  // ----- creatures act -----

  // The nearest live player, the first of several.
  ghost predicate IsNearest(ps: seq<Player>, k: int, cx: int, cy: int) {
    && 0 <= k < |ps| && ps[k].alive
    && forall i :: 0 <= i < |ps| && ps[i].alive ==>
         Reach(ps[k], cx, cy) <= Reach(ps[i], cx, cy) && (i < k ==> Reach(ps[k], cx, cy) < Reach(ps[i], cx, cy))
  }

  lemma {:induction false} NearestIs(ps: seq<Player>, cx: int, cy: int)
    ensures var k := Nearest(ps, cx, cy);
            if k == |ps| then forall i :: 0 <= i < |ps| ==> !ps[i].alive else IsNearest(ps, k, cx, cy)
  {
    hide Reach;
    if ps != [] {
      NearestIs(ps[..|ps| - 1], cx, cy);
      forall i | 0 <= i < |ps| - 1 ensures ps[i] == ps[..|ps| - 1][i] {}
    }
  }

  // A live creature strikes the nearest live player if it stands within one tile of it, and
  // otherwise moves towards it; with nobody alive it waits.
  ghost predicate Acts(s: State, g: Ground, s': State, i: nat)
    requires Formed(s) && Formed(s') && i < MAX_CREATURES
  {
    var c := s.creatures[i];
    if !c.alive || (forall j :: 0 <= j < MAX_PLAYERS ==> !s.players[j].alive) then s' == s
    else exists k :: IsNearest(s.players, k, c.x, c.y) && ActsOn(s, g, s', i, k)
  }

  ghost predicate ActsOn(s: State, g: Ground, s': State, i: nat, k: int)
    requires Formed(s) && Formed(s') && i < MAX_CREATURES && 0 <= k < MAX_PLAYERS
  {
    var c, p := s.creatures[i], s.players[k];
    if Away(p.x, c.x) <= 1 && Away(p.y, c.y) <= 1 then
      && s' == s.(players := s'.players, respawnT := s'.respawnT)
      && s'.players == s.players[k := p.(hp := if p.hp > 1 then p.hp - 1 else 0, alive := p.hp > 1)]
      && s'.respawnT == if p.hp > 1 then s.respawnT else s.respawnT[k := RESPAWN_T]
    else s' == s.(creatures := s.creatures[i := Pulled(g, s.creatures, c, p.x - c.x, p.y - c.y)])
  }

  lemma CreatureActs(s: State, g: Ground, i: nat)
    requires Formed(s) && i < MAX_CREATURES
    ensures Acts(s, g, CreatureTurn(s, g, i), i)
  {
    hide Pulled, IsNearest;
    var c := s.creatures[i];
    NearestIs(s.players, c.x, c.y);
    var k := Nearest(s.players, c.x, c.y);
    if c.alive && k < |s.players| {
      NearestLives(s.players, k, c.x, c.y);
      assert ActsOn(s, g, CreatureTurn(s, g, i), i, k);
    }
  }

  lemma NearestLives(ps: seq<Player>, k: int, cx: int, cy: int)
    requires IsNearest(ps, k, cx, cy)
    ensures 0 <= k < |ps| && ps[k].alive
  {
  }

  // Pulled from afar, a creature comes one tile nearer if the tile towards the player is free.
  lemma PulledComesNearer(g: Ground, cs: seq<Creature>, c: Creature, p: Player)
    requires Reach(p, c.x, c.y) > 1 && Free(g, cs, c.x + Sgn(p.x - c.x), c.y + Sgn(p.y - c.y))
    ensures var c' := Pulled(g, cs, c, p.x - c.x, p.y - c.y);
            Reach(p, c'.x, c'.y) == Reach(p, c.x, c.y) - 1 && c' == c.(x := c'.x, y := c'.y)
  {
  }

  // With the diagonal blocked it slides sideways, and else up or down, and stays exactly when
  // none of the three is free.
  lemma PulledSlides(g: Ground, cs: seq<Creature>, i: nat, dx: int, dy: int)
    requires i < |cs| && cs[i].alive && (dx != 0 || dy != 0)
    ensures var c, c' := cs[i], Pulled(g, cs, cs[i], dx, dy);
            var diagonal, side, line := (c.x + Sgn(dx), c.y + Sgn(dy)), (c.x + Sgn(dx), c.y), (c.x, c.y + Sgn(dy));
            && (Free(g, cs, diagonal.0, diagonal.1) ==> (c'.x, c'.y) == diagonal)
            && (!Free(g, cs, diagonal.0, diagonal.1) && Free(g, cs, side.0, side.1) ==> (c'.x, c'.y) == side)
            && (!Free(g, cs, diagonal.0, diagonal.1) && !Free(g, cs, side.0, side.1) && Free(g, cs, line.0, line.1) ==>
                  (c'.x, c'.y) == line)
            && (c' == c <==> !Free(g, cs, diagonal.0, diagonal.1) && !Free(g, cs, side.0, side.1)
                             && !Free(g, cs, line.0, line.1))
  {
    assert !Vacant(cs, cs[i].x, cs[i].y);
  }

  // A creature's step is onto a free tile next to it, or none.
  lemma PulledIsAStep(g: Ground, cs: seq<Creature>, c: Creature, dx: int, dy: int)
    ensures var c' := Pulled(g, cs, c, dx, dy);
            && c' == c.(x := c'.x, y := c'.y) && -1 <= c'.x - c.x <= 1 && -1 <= c'.y - c.y <= 1
            && (c' != c ==> Free(g, cs, c'.x, c'.y))
  {
    hide Free;
  }

  // Main result of the third phase: each creature acts once, on the world as those before it
  // leave it, and stays as it then is; players keep their places, and nothing else changes.
  lemma {:induction false} CreaturesAct(s: State, g: Ground, n: nat)
    requires Formed(s) && n <= MAX_CREATURES
    ensures var s' := CreaturesTo(s, g, n);
            && (forall i :: 0 <= i < n ==> Acts(CreaturesTo(s, g, i), g, CreaturesTo(s, g, i + 1), i))
            && (forall i :: 0 <= i < n ==> s'.creatures[i] == CreaturesTo(s, g, i + 1).creatures[i])
            && (forall i :: n <= i < MAX_CREATURES ==> s'.creatures[i] == s.creatures[i])
            && s' == s.(creatures := s'.creatures, players := s'.players, respawnT := s'.respawnT)
            && forall k :: 0 <= k < MAX_PLAYERS ==> StruckOnly(s.players[k], s'.players[k], s.respawnT[k], s'.respawnT[k])
    decreases n
  {
    hide CreatureTurn, Acts;
    if n > 0 {
      var s1 := CreaturesTo(s, g, n - 1);
      CreaturesAct(s, g, n - 1);
      CreatureActs(s1, g, n - 1);
      CreatureFrame(s1, g, n - 1);
      forall k | 0 <= k < MAX_PLAYERS
        ensures StruckOnly(s.players[k], CreaturesTo(s, g, n).players[k], s.respawnT[k], CreaturesTo(s, g, n).respawnT[k]) {
        StruckTwice(s.players[k], s1.players[k], CreaturesTo(s, g, n).players[k],
                    s.respawnT[k], s1.respawnT[k], CreaturesTo(s, g, n).respawnT[k]);
      }
    }
  }

  // A player loses points of health and nothing else, and starts its wait when it dies.
  predicate StruckOnly(p: Player, p': Player, n: int, n': int) {
    && p' == p.(hp := p'.hp, alive := p'.alive) && (p'.alive ==> p.alive)
    && (p'.alive == p.alive ==> n' == n) && (p.alive && !p'.alive ==> n' == RESPAWN_T && p'.hp == 0)
    && (!p.alive ==> p' == p)
  }

  lemma StruckTwice(a: Player, b: Player, c: Player, l: int, m: int, n: int)
    requires StruckOnly(a, b, l, m) && StruckOnly(b, c, m, n)
    ensures StruckOnly(a, c, l, n)
  {
  }

  lemma CreatureFrame(s: State, g: Ground, i: nat)
    requires Formed(s) && i < MAX_CREATURES
    ensures var s' := CreatureTurn(s, g, i);
            && |s.creatures| == |s'.creatures| == MAX_CREATURES && |s.players| == |s'.players| == MAX_PLAYERS
            && |s.respawnT| == |s'.respawnT| == MAX_PLAYERS
            && s'.creatures == s.creatures[i := s'.creatures[i]]
            && s' == s.(creatures := s'.creatures, players := s'.players, respawnT := s'.respawnT)
            && forall k :: 0 <= k < MAX_PLAYERS ==> StruckOnly(s.players[k], s'.players[k], s.respawnT[k], s'.respawnT[k])
  {
    hide Pulled, Reach;
    var c := s.creatures[i];
    NearestIs(s.players, c.x, c.y);
    if c.alive && Nearest(s.players, c.x, c.y) < |s.players| {
      NearestLives(s.players, Nearest(s.players, c.x, c.y), c.x, c.y);
    }
  }

  // Live creatures within one tile of a player.
  function Around(p: Player, cs: seq<Creature>): nat {
    if cs == [] then 0
    else Around(p, cs[..|cs| - 1])
         + if cs[|cs| - 1].alive && Reach(p, cs[|cs| - 1].x, cs[|cs| - 1].y) <= 1 then 1 else 0
  }

  // The only player alive is struck once by every creature around it, until it is dead.
  lemma {:induction false} OnlyPlayerIsStruck(s: State, g: Ground, k: nat, n: nat)
    requires Formed(s) && k < MAX_PLAYERS && n <= MAX_CREATURES && s.players[k].alive && s.players[k].hp > 0
    requires forall j :: 0 <= j < MAX_PLAYERS && j != k ==> !s.players[j].alive
    ensures var s', p, hits := CreaturesTo(s, g, n), s.players[k], Around(s.players[k], s.creatures[..n]);
            && s'.players == s.players[k := p.(hp := if hits < p.hp then p.hp - hits else 0, alive := hits < p.hp)]
            && s'.respawnT == if hits < p.hp then s.respawnT else s.respawnT[k := RESPAWN_T]
    decreases n
  {
    hide CreatureTurn, Pulled;
    if n > 0 {
      var s1, i := CreaturesTo(s, g, n - 1), n - 1;
      OnlyPlayerIsStruck(s, g, k, i);
      CreaturesAct(s, g, i);
      assert s.creatures[..n][..i] == s.creatures[..i];
      OnlyOneActed(s1, g, k, i);
    }
  }

  lemma OnlyOneActed(s: State, g: Ground, k: nat, i: nat)
    requires Formed(s) && k < MAX_PLAYERS && i < MAX_CREATURES
    requires forall j :: 0 <= j < MAX_PLAYERS && j != k ==> !s.players[j].alive
    ensures var s', p, c := CreatureTurn(s, g, i), s.players[k], s.creatures[i];
            if p.alive && c.alive && Reach(p, c.x, c.y) <= 1 then
              && s'.players == s.players[k := p.(hp := if p.hp > 1 then p.hp - 1 else 0, alive := p.hp > 1)]
              && s'.respawnT == if p.hp > 1 then s.respawnT else s.respawnT[k := RESPAWN_T]
            else s'.players == s.players && s'.respawnT == s.respawnT
  {
    hide Pulled;
    var c := s.creatures[i];
    NearestIs(s.players, c.x, c.y);
  }

  // ----- the dead return -----

  // A waiting player counts down; at zero it stands up with full health on the first plain
  // floor drawn for it, if there is any. Everybody else is as before.
  ghost predicate Waited(t: seq<int>, g: Ground, p: Player, n: int, ds: seq<(int, int)>, p': Player, n': int) {
    if p.alive || n <= 0 then p' == p && n' == n
    else
      && n' == n - 1
      && if n == 1 && (exists d :: d in ds && OnFloor(t, g.w, g.h, d.0, d.1))
         then p' == p.(x := p'.x, y := p'.y, alive := true, hp := PLAYER_HP)
              && (exists d :: 0 <= d < |ds| && ds[d] == (p'.x, p'.y) && OnFloor(t, g.w, g.h, p'.x, p'.y)
                    && forall e :: 0 <= e < d ==> !OnFloor(t, g.w, g.h, ds[e].0, ds[e].1))
         else p' == p
  }

  // Main result of the last phase.
  lemma {:induction false} TheDeadReturn(s: State, g: Ground, draws: seq<seq<(int, int)>>, n: nat)
    requires Formed(s) && n <= MAX_PLAYERS && |draws| == MAX_PLAYERS
    ensures var s' := RespawnsTo(s, g, draws, n);
            && s' == s.(players := s'.players, respawnT := s'.respawnT)
            && (forall i :: n <= i < MAX_PLAYERS ==> s'.players[i] == s.players[i] && s'.respawnT[i] == s.respawnT[i])
            && forall i :: 0 <= i < n ==>
                 Waited(s.tiles, g, s.players[i], s.respawnT[i], draws[i], s'.players[i], s'.respawnT[i])
    decreases n
  {
    hide Waited, RespawnTurn;
    if n > 0 {
      TheDeadReturn(s, g, draws, n - 1);
      TurnWaits(RespawnsTo(s, g, draws, n - 1), g, draws, n - 1);
    }
  }

  lemma TurnWaits(s: State, g: Ground, draws: seq<seq<(int, int)>>, i: nat)
    requires Formed(s) && i < MAX_PLAYERS && |draws| == MAX_PLAYERS
    ensures var s' := RespawnTurn(s, g, i, draws);
            && s' == s.(players := s'.players, respawnT := s'.respawnT)
            && s'.players == s.players[i := s'.players[i]] && s'.respawnT == s.respawnT[i := s'.respawnT[i]]
            && Waited(s.tiles, g, s.players[i], s.respawnT[i], draws[i], s'.players[i], s'.respawnT[i])
  {
    hide OnFloor;
    var k := FloorDraw(s.tiles, g.w, g.h, draws[i]);
    if k < |draws[i]| {
      assert draws[i][k] in draws[i];
    }
  }
}
