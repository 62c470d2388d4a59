/**
 * Every rule of a turn as a transition on game snapshots: rolling, banking
 * and spending a die, moving, placing, drilling, and each special skill.
 * A transition that can be refused returns the new state with the flag the
 * game returns to its caller.  The lemmas below show that each transition
 * keeps the game invariant `StateOk`.
 */
module Turns {
  import opened Wrappers
  import opened Constants
  import opened Boards
  import opened Geometry
  import opened Players
  import opened Movement
  import opened Targets
  import opened Rules

  /** `findMovableTiles`: the highlight lists of the current move mode and roll. */
  function FindMovableState(s: GameState): GameState
    requires Shape(s)
  {
    var g, me, other := s.grid, PosOf(MeOf(s)), PosOf(OppOf(s));
    s.(hl := s.hl.(movableTiles := MovableTiles(g, me, other, s.turn.moveMode, s.turn.diceRoll), fallTriggerTiles := FallTiles(g, me, other, s.turn.moveMode, s.turn.diceRoll)))
  }

  /**
   * `rollDice`: cross mode, the front die of the queue becomes the roll and
   * `next` joins the back; a player with no move in either mode loses,
   * otherwise the game waits for a move.
   */
  function RollState(s: GameState, next: int): GameState
    requires Shape(s) && |MeOf(s).diceQueue| > 0
  {
    var me := MeOf(s);
    var roll := me.diceQueue[0];
    var s0 := WithMe(s, me.(diceQueue := me.diceQueue[1..] + [next]));
    var s1 := s0.(turn := s0.turn.(moveMode := Cross, diceRoll := roll));
    var s2 := FindMovableState(s1);
    if Blocked(s.grid, PosOf(me), PosOf(OppOf(s)), roll) then GameOverState(s2, Other(s.turn.currentTurn), CannotMove)
    else s2.(turn := s2.turn.(phase := Move))
  }

  /**
   * `stockCurrentDice`: a player who can pay the stock cost banks the front
   * die (`next1` refills the queue) and then rolls (`next2` refills it again).
   */
  function StockState(s: GameState, cfg: Config, next1: int, next2: int): (GameState, bool)
    requires Shape(s) && ConfigOk(cfg) && |MeOf(s).diceQueue| > 0
  {
    var me := MeOf(s);
    if !Affords(me, Price(cfg, "stock")) then (s, false)
    else
      var me1 := Pay(me, Price(cfg, "stock")).(diceQueue := me.diceQueue[1..] + [next1], stock := Some(me.diceQueue[0]));
      (RollState(WithMe(s, me1), next2), true)
  }

  /** `useStockedDice`: the banked die replaces the front die, the bank empties, then the roll. */
  function UseStockState(s: GameState, next: int): GameState
    requires Shape(s) && |MeOf(s).diceQueue| > 0 && MeOf(s).stock.Some?
  {
    var me := MeOf(s);
    RollState(WithMe(s, me.(diceQueue := me.diceQueue[0 := me.stock.value], stock := None)), next)
  }

  /**
   * `toggleMoveMode`: cross to diagonal needs the diagonal cost to be
   * affordable (nothing is paid yet); diagonal to cross is free.
   */
  function ToggleState(s: GameState, cfg: Config): (GameState, bool)
    requires Shape(s) && ConfigOk(cfg)
  {
    if s.turn.moveMode == Cross then
      if !Affords(MeOf(s), Price(cfg, "diagonal_move")) then (s, false)
      else (FindMovableState(s.(turn := s.turn.(moveMode := Diagonal))), true)
    else (FindMovableState(s.(turn := s.turn.(moveMode := Cross))), true)
  }

  /** `getBombOwner` on the owner table: a missing or zero entry reads as no owner. */
  function BombOwner(owners: map<Pos, int>, p: Pos): Option<int>
  {
    if p in owners && owners[p] != 0 then Some(owners[p]) else None
  }

  /** `findDrillTargets`. */
  function FindDrillState(s: GameState): GameState
    requires Shape(s)
  {
    s.(hl := s.hl.(drillTargetTiles := DrillTargets(s.grid, PosOf(MeOf(s)))))
  }

  /** `canUseDrillToSurvive`: not dominated, can pay the drill, and a Stone is a cross neighbour. */
  predicate CanDrillToSurvive(s: GameState, cfg: Config)
    requires Shape(s) && ConfigOk(cfg)
  {
    var me := MeOf(s);
    me.dominationTurnsLeft <= 0 && Affords(me, Price(cfg, "drill")) &&
    |DrillTargets(s.grid, PosOf(me))| > 0
  }

  /**
   * `findPlaceableTiles`: the placeable neighbours for the placement type;
   * with none left during play, the player drills to survive if they can
   * and loses otherwise.
   */
  function FindPlaceableState(s: GameState, cfg: Config): GameState
    requires Shape(s) && ConfigOk(cfg)
  {
    var tiles := PlaceableTiles(s.grid, PosOf(MeOf(s)), PosOf(OppOf(s)), s.turn.placementType);
    var s1 := s.(hl := s.hl.(placeableTiles := tiles));
    if |tiles| == 0 && s.winner.None? then
      if CanDrillToSurvive(s1, cfg) then FindDrillState(s1.(turn := s1.turn.(drillForSurvival := true, phase := DrillTarget)))
      else GameOverState(s1, Other(s.turn.currentTurn), NoPlaceToPut)
    else s1
  }

  /** The board after landing on `p`: a bomb there explodes away and a fountain is picked up. */
  function LandGrid(g: Grid, p: Pos): (g2: Grid)
    requires IsGrid(g) && InBounds(p)
    ensures IsGrid(g2)
    ensures At(g2, p) == if At(g, p) == Bomb || At(g, p) == Fountain then Empty else At(g, p)
    ensures forall q :: InBounds(q) && q != p ==> At(g2, q) == At(g, q)
  {
    if At(g, p) == Bomb || At(g, p) == Fountain then Put(g, p, Empty) else g
  }

  /** The mover's points after landing on a cell holding `tile`. */
  function LandPoints(ps: PlayerState, cfg: Config, mode: DirectionType, tile: Marker): int
    requires ConfigOk(cfg)
  {
    var paid := if mode == Diagonal then Pay(ps, Price(cfg, "diagonal_move")).points else ps.points;
    if tile == Fountain then paid + cfg.settings.fountainPickup else paid
  }

  /**
   * The part of `movePlayer` after the bomb check: the mover clears their
   * own bomb, moves, pays for a diagonal move if they can, and collects a
   * Fountain (which empties).
   */
  function LandState(s: GameState, cfg: Config, p: Pos): (t: GameState)
    requires Shape(s) && ConfigOk(cfg) && InBounds(p)
    ensures Shape(t) && PosOf(MeOf(t)) == p
    ensures t.turn.currentTurn == s.turn.currentTurn && OppOf(t) == OppOf(s)
    ensures t.turn.phase == s.turn.phase && t.winner == s.winner && t.bombOwners == s.bombOwners
    ensures At(t.grid, p) == if At(s.grid, p) == Bomb || At(s.grid, p) == Fountain then Empty else At(s.grid, p)
    ensures forall q :: InBounds(q) && q != p ==> At(t.grid, q) == At(s.grid, q)
    ensures MeOf(t).points ==
      MeOf(s).points
      - (if s.turn.moveMode == Diagonal && Affords(MeOf(s), Price(cfg, "diagonal_move")) then Price(cfg, "diagonal_move") else 0)
      + (if At(s.grid, p) == Fountain then cfg.settings.fountainPickup else 0)
    ensures MeOf(t) == MeOf(s).(row := p.row, col := p.col, points := MeOf(t).points)
  {
    WithMe(s, MeOf(s).(row := p.row, col := p.col,
                       points := LandPoints(MeOf(s), cfg, s.turn.moveMode, At(s.grid, p)))).(grid := LandGrid(s.grid, p))
  }

  /**
   * `movePlayer` to cell `p`: a bomb not owned by the mover ends the game;
   * otherwise the mover lands on `p` and starts placing a stone.
   */
  function MoveState(s: GameState, cfg: Config, p: Pos): GameState
    requires Shape(s) && ConfigOk(cfg) && InBounds(p)
  {
    if At(s.grid, p) == Bomb && BombOwner(s.bombOwners, p) != Some(s.turn.currentTurn) then
      GameOverState(s, Other(s.turn.currentTurn), SteppedOnBomb)
    else
      var dirType := if p in s.hl.movableTiles || p in s.hl.fallTriggerTiles then s.turn.moveMode else Cross;
      var s1 := LandState(s, cfg, p);
      FindPlaceableState(Cleared(s1.(turn := s1.turn.(lastMoveDirectionType := dirType, phase := Place, placementType := StonePlacement))), cfg)
  }

  /**
   * The common end of a placement, a drill and a meteor: the current player,
   * now holding `ps`, sees `m` put on `p` with bomb owners `owners`, and the
   * turn ends.
   */
  function PutAndEnd(s: GameState, ps: PlayerState, p: Pos, m: Marker, owners: map<Pos, int>, bonus: int): GameState
    requires IsGrid(s.grid) && InBounds(p)
  {
    EndTurnState(WithMe(s, ps).(grid := Put(s.grid, p, m), bombOwners := owners), bonus)
  }

  /**
   * `placeObject` on cell `p`: a stone is free, a bomb or ice is placed
   * only when paid for; a placement ends the turn.
   */
  function PlaceState(s: GameState, cfg: Config, p: Pos): GameState
    requires Shape(s) && ConfigOk(cfg) && InBounds(p)
  {
    var me, bonus := MeOf(s), cfg.settings.turnBonus;
    match s.turn.placementType
    case StonePlacement => PutAndEnd(s, me, p, Stone, s.bombOwners, bonus)
    case BombPlacement =>
      if Affords(me, Price(cfg, "bomb")) then
        PutAndEnd(s, Pay(me, Price(cfg, "bomb")), p, Bomb, s.bombOwners[p := s.turn.currentTurn], bonus)
      else s
    case IcePlacement =>
      if Affords(me, Price(cfg, "ice")) then PutAndEnd(s, Pay(me, Price(cfg, "ice")), p, Ice, s.bombOwners, bonus)
      else s
    case DrillPlacement => s
  }

  /**
   * `setPlacementType`: refused when the type has a cost the player cannot
   * pay; the drill falls back to stone placement when no Stone is adjacent,
   * every other type shows its placeable cells.
   */
  function SetPlacementState(s: GameState, cfg: Config, t: PlacementType): (GameState, bool)
    requires Shape(s) && ConfigOk(cfg)
  {
    var key := PlacementCostKey(t);
    if key.Some? && !Affords(MeOf(s), cfg.costs[key.value]) then (s, false)
    else
      var s1 := s.(turn := s.turn.(placementType := t));
      if t == DrillPlacement then
        var s2 := FindDrillState(s1);
        if |s2.hl.drillTargetTiles| == 0 then
          (FindPlaceableState(s2.(turn := s2.turn.(phase := Place, placementType := StonePlacement)), cfg), false)
        else (s2.(turn := s2.turn.(phase := DrillTarget)), true)
      else (FindPlaceableState(s1.(turn := s1.turn.(phase := Place)), cfg), true)
  }

  /** `useDrill` on cell `p`: when paid for, the cell empties and the turn ends. */
  function UseDrillState(s: GameState, cfg: Config, p: Pos): GameState
    requires Shape(s) && ConfigOk(cfg) && InBounds(p)
  {
    var me := MeOf(s);
    if Affords(me, Price(cfg, "drill")) then
      PutAndEnd(s.(turn := s.turn.(drillForSurvival := false)), Pay(me, Price(cfg, "drill")), p, Empty, s.bombOwners,
                cfg.settings.turnBonus)
    else s
  }

  /** `useDomination`: the opponent is dominated for three turns and the turn ends. */
  function DominationState(s: GameState, cfg: Config): (GameState, bool)
    requires Shape(s) && ConfigOk(cfg)
  {
    var me := MeOf(s);
    if !Affords(me, Price(cfg, "domination")) then (s, false)
    else
      var s1 := WithMe(s, Pay(me, Price(cfg, "domination")));
      var s2 := WithOpp(s1, OppOf(s1).(dominationTurnsLeft := 3));
      (EndTurnState(s2, cfg.settings.turnBonus), true)
  }

  /** `activateSniper`: paid and the shot starts when the opponent is in the line of fire. */
  function SniperState(s: GameState, cfg: Config): (GameState, bool)
    requires Shape(s) && ConfigOk(cfg)
  {
    var me := MeOf(s);
    if !Affords(me, Price(cfg, "sniper")) || !SniperCondition(s.grid, PosOf(me), PosOf(OppOf(s))) then (s, false)
    else
      var s1 := WithMe(s, Pay(me, Price(cfg, "sniper")));
      (s1.(turn := s1.turn.(sniperAnimating := true)), true)
  }

  /** `activateHitokiri`: paid and won when the opponent is a cross neighbour. */
  function HitokiriState(s: GameState, cfg: Config): (GameState, bool)
    requires Shape(s) && ConfigOk(cfg)
  {
    var me := MeOf(s);
    if !Affords(me, Price(cfg, "hitokiri")) || !HitokiriCondition(PosOf(me), PosOf(OppOf(s))) then (s, false)
    else (GameOverState(WithMe(s, Pay(me, Price(cfg, "hitokiri"))), s.turn.currentTurn, Slashed), true)
  }

  /**
   * `activateSuriashi`, `activateMeteor` and `activateMomonga`: when
   * affordable, the skill's targets are listed; with at least one target
   * the game waits for the player to pick one (nothing is paid yet).
   * Momonga is refused outright when the board has no Stone.
   */
  function TargetSkillState(s: GameState, cfg: Config, sk: Skill): (GameState, bool)
    requires Shape(s) && ConfigOk(cfg) && TargetSkill(sk)
  {
    var g, me, other := s.grid, PosOf(MeOf(s)), PosOf(OppOf(s));
    if !Affords(MeOf(s), Price(cfg, SkillCostKey(sk))) then (s, false)
    else if sk == Momonga && |NearestStones(g, me)| == 0 then (s, false)
    else
      var s1 := s.(hl := s.hl.(skillTargetTiles := SkillTargets(sk, g, me, other)));
      if |s1.hl.skillTargetTiles| == 0 then (s1, false)
      else (s1.(turn := s1.turn.(phase := SkillTarget), hl := s1.hl.(activeSkillType := Some(sk))), true)
  }

  /** `activateSkill`: a dominated player cannot; otherwise the chosen skill's activation. */
  function ActivateSkillState(s: GameState, cfg: Config): (GameState, bool)
    requires Shape(s) && ConfigOk(cfg)
  {
    var me := MeOf(s);
    if me.dominationTurnsLeft > 0 || me.specialSkill.None? then (s, false)
    else
      match me.specialSkill.value
      case IceSkill => SetPlacementState(s, cfg, IcePlacement)
      case BombSkill => SetPlacementState(s, cfg, BombPlacement)
      case Domination => DominationState(s, cfg)
      case Sniper => SniperState(s, cfg)
      case Hitokiri => HitokiriState(s, cfg)
      case Suriashi => TargetSkillState(s, cfg, Suriashi)
      case Meteor => TargetSkillState(s, cfg, Meteor)
      case Momonga => TargetSkillState(s, cfg, Momonga)
  }

  /**
   * `executeSuriashi`, `executeMeteor` and `executeMomonga` on the picked
   * cell `p`: the cost is paid when affordable, the player moves there (or a
   * Stone falls there, for Meteor), and the turn ends.
   */
  function ExecuteSkillState(s: GameState, cfg: Config, p: Pos): GameState
    requires Shape(s) && ConfigOk(cfg) && InBounds(p)
  {
    var me, bonus := MeOf(s), cfg.settings.turnBonus;
    match s.hl.activeSkillType
    case Some(Suriashi) =>
      EndTurnState(WithMe(s, Pay(me, Price(cfg, "suriashi")).(row := p.row, col := p.col)), bonus)
    case Some(Meteor) =>
      PutAndEnd(s, Pay(me, Price(cfg, "meteor")), p, Stone, s.bombOwners, bonus)
    case Some(Momonga) =>
      EndTurnState(WithMe(s, Pay(me, Price(cfg, "momonga")).(row := p.row, col := p.col)), bonus)
    case _ => s
  }

  /** The Stone button on the skill-target screen: back to stone placement. */
  function CancelSkillState(s: GameState, cfg: Config): GameState
    requires Shape(s) && ConfigOk(cfg)
  {
    FindPlaceableState(s.(turn := s.turn.(phase := Place, placementType := StonePlacement), hl := s.hl.(activeSkillType := None, skillTargetTiles := [])), cfg)
  }

  /**
   * Showing the placeable cells keeps the invariant: either some cell is
   * placeable, or the player is sent to drill a neighbouring Stone (there
   * is one), or the game ends.
   */
  lemma FindPlaceableKeepsOk(s: GameState, cfg: Config)
    requires Core(s) && ConfigOk(cfg) && s.turn.phase == Place && s.turn.placementType != DrillPlacement
    ensures StateOk(FindPlaceableState(s, cfg))
  {
    var tiles := PlaceableTiles(s.grid, PosOf(MeOf(s)), PosOf(OppOf(s)), s.turn.placementType);
    var s1 := s.(hl := s.hl.(placeableTiles := tiles));
    CoreUnchanged(s, s1);
    if |tiles| == 0 && s.winner.None? {
      if CanDrillToSurvive(s1, cfg) {
        var t := FindDrillState(s1.(turn := s1.turn.(drillForSurvival := true, phase := DrillTarget)));
        CoreUnchanged(s, t);
      } else {
        GameOverEndsOk(s1, Other(s.turn.currentTurn), NoPlaceToPut);
      }
    }
  }

  /**
   * Banking a die, switching to diagonal moves, choosing a paid placement
   * and drilling are refused, and leave the state exactly as it was, when
   * the player cannot afford the cost; the first two are refused for that
   * reason only.
   */
  lemma UnaffordableRefused(s: GameState, cfg: Config, next1: int, next2: int, p: Pos)
    requires Shape(s) && ConfigOk(cfg) && |MeOf(s).diceQueue| > 0 && InBounds(p)
    ensures StockState(s, cfg, next1, next2).1 <==> Affords(MeOf(s), Price(cfg, "stock"))
    ensures !Affords(MeOf(s), Price(cfg, "stock")) ==> StockState(s, cfg, next1, next2) == (s, false)
    ensures s.turn.moveMode == Cross ==> (ToggleState(s, cfg).1 <==> Affords(MeOf(s), Price(cfg, "diagonal_move")))
    ensures s.turn.moveMode == Cross && !Affords(MeOf(s), Price(cfg, "diagonal_move")) ==> ToggleState(s, cfg) == (s, false)
    ensures forall t :: PlacementCostKey(t).Some? && !Affords(MeOf(s), Price(cfg, PlacementCostKey(t).value)) ==>
              SetPlacementState(s, cfg, t) == (s, false)
    ensures !Affords(MeOf(s), Price(cfg, "drill")) ==> UseDrillState(s, cfg, p) == s
  {
  }

  /**
   * Every skill is refused, and leaves the state exactly as it was, when
   * the player cannot afford its cost; domination is refused for that reason
   * only. A dominated player's skill is refused whatever it costs.
   */
  lemma SkillUnaffordableRefused(s: GameState, cfg: Config)
    requires Shape(s) && ConfigOk(cfg)
    ensures DominationState(s, cfg).1 <==> Affords(MeOf(s), Price(cfg, "domination"))
    ensures !Affords(MeOf(s), Price(cfg, "domination")) ==> DominationState(s, cfg) == (s, false)
    ensures !Affords(MeOf(s), Price(cfg, "sniper")) ==> SniperState(s, cfg) == (s, false)
    ensures !Affords(MeOf(s), Price(cfg, "hitokiri")) ==> HitokiriState(s, cfg) == (s, false)
    ensures forall sk :: TargetSkill(sk) && !Affords(MeOf(s), Price(cfg, SkillCostKey(sk))) ==>
              TargetSkillState(s, cfg, sk) == (s, false)
    ensures MeOf(s).dominationTurnsLeft > 0 ==> ActivateSkillState(s, cfg) == (s, false)
    ensures MeOf(s).specialSkill.Some? && !Affords(MeOf(s), Price(cfg, SkillCostKey(MeOf(s).specialSkill.value))) ==>
              ActivateSkillState(s, cfg) == (s, false)
  {
  }

  /** A roll keeps the invariant: the mover either has the lists of a move or has lost. */
  lemma RollKeepsOk(s: GameState, next: int)
    requires StateOk(s) && s.turn.phase == Roll
    ensures StateOk(RollState(s, next))
  {
    var me := MeOf(s);
    var roll := me.diceQueue[0];
    var me1 := me.(diceQueue := me.diceQueue[1..] + [next]);
    CoreWithMe(s, me1);
    var s0 := WithMe(s, me1);
    var s1 := s0.(turn := s0.turn.(moveMode := Cross, diceRoll := roll));
    var s2 := FindMovableState(s1);
    CoreUnchanged(WithMe(s, me1), s2);
    if Blocked(s.grid, PosOf(me), PosOf(OppOf(s)), roll) {
      GameOverEndsOk(s2, Other(s.turn.currentTurn), CannotMove);
    } else {
      CoreUnchanged(s2, s2.(turn := s2.turn.(phase := Move)));
    }
  }

  /** Banking a die keeps the invariant. */
  lemma StockKeepsOk(s: GameState, cfg: Config, next1: int, next2: int)
    requires StateOk(s) && ConfigOk(cfg) && s.turn.phase == Roll
    ensures StateOk(StockState(s, cfg, next1, next2).0)
  {
    var me := MeOf(s);
    if Affords(me, Price(cfg, "stock")) {
      var me1 := Pay(me, Price(cfg, "stock")).(diceQueue := me.diceQueue[1..] + [next1], stock := Some(me.diceQueue[0]));
      RollKeepsOk(WithMe(s, me1), next2);
    }
  }

  /** Spending the banked die keeps the invariant. */
  lemma UseStockKeepsOk(s: GameState, next: int)
    requires StateOk(s) && s.turn.phase == Roll && MeOf(s).stock.Some?
    ensures StateOk(UseStockState(s, next))
  {
    var me := MeOf(s);
    RollKeepsOk(WithMe(s, me.(diceQueue := me.diceQueue[0 := me.stock.value], stock := None)), next);
  }

  /** Switching the move mode keeps the invariant: the lists follow the new mode. */
  lemma ToggleKeepsOk(s: GameState, cfg: Config)
    requires StateOk(s) && ConfigOk(cfg) && s.turn.phase == Move
    ensures StateOk(ToggleState(s, cfg).0)
  {
    if ToggleState(s, cfg).1 {
      FindMovableKeepsOk(s.(turn := s.turn.(moveMode := if s.turn.moveMode == Cross then Diagonal else Cross)));
    }
  }

  /** Recomputing the movable tiles in the Move phase restores the highlights. */
  lemma FindMovableKeepsOk(s: GameState)
    requires Core(s) && s.turn.phase == Move
    ensures StateOk(FindMovableState(s))
  {
    CoreUnchanged(s, FindMovableState(s));
  }

  /**
   * Landing on a standable cell keeps the core invariant: the mover is on
   * the board, off the opponent's cell, not on a Stone, and pays only what
   * they can afford.
   */
  lemma LandKeepsCore(s: GameState, cfg: Config, p: Pos)
    requires Core(s) && ConfigOk(cfg) && Standable(s.grid, PosOf(OppOf(s)), p)
    requires s.turn.phase == Move
    ensures Core(LandState(s, cfg, p))
  {
    var t := LandState(s, cfg, p);
    assert At(t.grid, PosOf(OppOf(s))) == At(s.grid, PosOf(OppOf(s)));
    assert BombsOwned(t.grid, t.bombOwners) by {
      forall q | InBounds(q) && At(t.grid, q) == Bomb
        ensures q in t.bombOwners
      {
        assert q != p;
      }
    }
    CoreAfter(s, t);
  }

  /**
   * A move to a listed movable tile keeps the invariant: the mover either
   * steps on a foreign bomb and loses, or lands and then places.
   */
  lemma MoveKeepsOk(s: GameState, cfg: Config, p: Pos)
    requires StateOk(s) && ConfigOk(cfg) && s.turn.phase == Move && p in s.hl.movableTiles
    ensures InBounds(p)
    ensures StateOk(MoveState(s, cfg, p))
  {
    var g, me, other := s.grid, PosOf(MeOf(s)), PosOf(OppOf(s));
    MovableTilesSound(g, me, other, s.turn.moveMode, s.turn.diceRoll);
    if At(g, p) == Bomb && BombOwner(s.bombOwners, p) != Some(s.turn.currentTurn) {
      GameOverEndsOk(s, Other(s.turn.currentTurn), SteppedOnBomb);
    } else {
      var dirType := if p in s.hl.movableTiles || p in s.hl.fallTriggerTiles then s.turn.moveMode else Cross;
      var s1 := LandState(s, cfg, p);
      LandKeepsCore(s, cfg, p);
      var t := Cleared(s1.(turn := s1.turn.(lastMoveDirectionType := dirType, phase := Place, placementType := StonePlacement)));
      CoreUnchanged(s1, t);
      FindPlaceableKeepsOk(t, cfg);
    }
  }

  /**
   * A roll ends the game exactly when the mover is blocked in both modes
   * with the rolled die: the opponent wins because the mover cannot move.
   * Otherwise the mover goes on to the Move phase with the die as the roll.
   */
  lemma RollLosesIffBlocked(s: GameState, next: int)
    requires StateOk(s) && s.turn.phase == Roll
    ensures var t, roll := RollState(s, next), MeOf(s).diceQueue[0];
      && ((t.turn.phase == GameOver && t.winner == Some(Other(s.turn.currentTurn))
           && t.winReason == Some(WinReason(s.turn.currentTurn, CannotMove)))
          <==> Blocked(s.grid, PosOf(MeOf(s)), PosOf(OppOf(s)), roll))
      && (!Blocked(s.grid, PosOf(MeOf(s)), PosOf(OppOf(s)), roll) ==>
            t.turn.phase == Move && t.winner.None? && t.turn.diceRoll == roll && t.turn.moveMode == Cross)
  {
  }

  /**
   * Spending the banked die is a roll of that die: the game ends exactly
   * when the mover is blocked with it, and the bank is empty afterwards.
   */
  lemma UseStockLosesIffBlocked(s: GameState, next: int)
    requires StateOk(s) && s.turn.phase == Roll && MeOf(s).stock.Some?
    ensures var t, roll := UseStockState(s, next), MeOf(s).stock.value;
      && ((t.turn.phase == GameOver && t.winner == Some(Other(s.turn.currentTurn))
           && t.winReason == Some(WinReason(s.turn.currentTurn, CannotMove)))
          <==> Blocked(s.grid, PosOf(MeOf(s)), PosOf(OppOf(s)), roll))
      && (!Blocked(s.grid, PosOf(MeOf(s)), PosOf(OppOf(s)), roll) ==>
            t.turn.phase == Move && t.winner.None? && t.turn.diceRoll == roll)
      && MeOf(t).stock.None?
  {
    var me := MeOf(s);
    RollLosesIffBlocked(WithMe(s, me.(diceQueue := me.diceQueue[0 := me.stock.value], stock := None)), next);
  }

  /**
   * Moving onto a bomb the mover does not own loses the game on the spot:
   * the mover stays where they were and the board is left as it was.
   */
  lemma ForeignBombLoses(s: GameState, cfg: Config, p: Pos)
    requires StateOk(s) && ConfigOk(cfg) && s.turn.phase == Move && InBounds(p)
    requires At(s.grid, p) == Bomb && BombOwner(s.bombOwners, p) != Some(s.turn.currentTurn)
    ensures var t := MoveState(s, cfg, p);
      && t.turn.phase == GameOver && t.winner == Some(Other(s.turn.currentTurn))
      && t.winReason == Some(WinReason(s.turn.currentTurn, SteppedOnBomb))
      && PosOf(MeOf(t)) == PosOf(MeOf(s)) && t.grid == s.grid
  {
  }

  /**
   * Any other move puts the mover on `p` with the opponent untouched; the
   * game can then end only because no stone can be placed.
   */
  lemma MoveLands(s: GameState, cfg: Config, p: Pos)
    requires StateOk(s) && ConfigOk(cfg) && s.turn.phase == Move && InBounds(p)
    requires !(At(s.grid, p) == Bomb && BombOwner(s.bombOwners, p) != Some(s.turn.currentTurn))
    ensures var t := MoveState(s, cfg, p);
      && PosOf(MeOf(t)) == p && OppOf(t) == OppOf(s) && t.turn.currentTurn == s.turn.currentTurn
      && MeOf(t) == MeOf(LandState(s, cfg, p)) && t.grid == LandState(s, cfg, p).grid
      && t.turn.placementType == StonePlacement
      && (t.turn.phase == Place || t.turn.phase == DrillTarget || t.turn.phase == GameOver)
      && (t.turn.phase == GameOver ==> t.winReason == Some(WinReason(s.turn.currentTurn, NoPlaceToPut)))
  {
    var dirType := if p in s.hl.movableTiles || p in s.hl.fallTriggerTiles then s.turn.moveMode else Cross;
    var s1 := LandState(s, cfg, p);
    var u := Cleared(s1.(turn := s1.turn.(lastMoveDirectionType := dirType, phase := Place, placementType := StonePlacement)));
    assert MoveState(s, cfg, p) == FindPlaceableState(u, cfg);
    assert PosOf(MeOf(u)) == p && OppOf(u) == OppOf(s) && u.turn.phase == Place && u.winner.None?;
    FindPlaceableKeepsPlayers(u, cfg);
  }

  /**
   * Looking for placeable cells moves nobody and leaves the board and the
   * placement type alone; it can only switch to drilling or end the game
   * for want of a cell.
   */
  lemma FindPlaceableKeepsPlayers(s: GameState, cfg: Config)
    requires Shape(s) && ConfigOk(cfg) && s.turn.phase != GameOver
    ensures var t := FindPlaceableState(s, cfg);
      && t.p1 == s.p1 && t.p2 == s.p2 && t.turn.currentTurn == s.turn.currentTurn
      && t.grid == s.grid && t.turn.placementType == s.turn.placementType
      && (t.turn.phase == s.turn.phase || t.turn.phase == DrillTarget || t.turn.phase == GameOver)
      && (t.turn.phase == GameOver ==> t.winReason == Some(WinReason(s.turn.currentTurn, NoPlaceToPut)))
  {
    var tiles := PlaceableTiles(s.grid, PosOf(MeOf(s)), PosOf(OppOf(s)), s.turn.placementType);
    var s1 := s.(hl := s.hl.(placeableTiles := tiles));
    if |tiles| == 0 && s.winner.None? {
      if CanDrillToSurvive(s1, cfg) {
        assert FindPlaceableState(s, cfg) == FindDrillState(s1.(turn := s1.turn.(drillForSurvival := true, phase := DrillTarget)));
      } else {
        assert FindPlaceableState(s, cfg) == GameOverState(s1, Other(s.turn.currentTurn), NoPlaceToPut);
      }
    } else {
      assert FindPlaceableState(s, cfg) == s1;
    }
  }

  /**
   * Placing on a listed cell keeps the invariant: the cell is a free cross
   * neighbour, so no player ends up under a Stone, and a Bomb gets its owner.
   */
  lemma PlaceKeepsOk(s: GameState, cfg: Config, p: Pos)
    requires StateOk(s) && ConfigOk(cfg) && s.turn.phase == Place && p in s.hl.placeableTiles
    ensures InBounds(p)
    ensures StateOk(PlaceState(s, cfg, p))
  {
    var g, me, other, bonus := s.grid, PosOf(MeOf(s)), PosOf(OppOf(s)), cfg.settings.turnBonus;
    PlaceableTilesIff(g, me, other, s.turn.placementType, p);
    var ps := MeOf(s);
    match s.turn.placementType
    case StonePlacement =>
      PutAndEndKeepsOk(s, ps, p, Stone, s.bombOwners, bonus);
    case BombPlacement =>
      if Affords(ps, Price(cfg, "bomb")) {
        PutAndEndKeepsOk(s, Pay(ps, Price(cfg, "bomb")), p, Bomb, s.bombOwners[p := s.turn.currentTurn], bonus);
      }
    case IcePlacement =>
      if Affords(ps, Price(cfg, "ice")) {
        PutAndEndKeepsOk(s, Pay(ps, Price(cfg, "ice")), p, Ice, s.bombOwners, bonus);
      }
    case DrillPlacement =>
  }

  /**
   * Putting a marker on a cell under neither player, paying for it and
   * ending the turn keeps the invariant, provided a new Bomb gets its owner
   * recorded.
   */
  lemma PutAndEndKeepsOk(s: GameState, ps: PlayerState, p: Pos, m: Marker, owners: map<Pos, int>, bonus: int)
    requires Core(s) && InPlay(s.turn.phase) && s.turn.phase != SkillSelection && bonus >= 0
    requires InBounds(p) && p != PosOf(MeOf(s)) && p != PosOf(OppOf(s))
    requires ps == MeOf(s).(points := ps.points) && ps.points >= 0
    requires owners == if m == Bomb then s.bombOwners[p := s.turn.currentTurn] else s.bombOwners
    ensures StateOk(PutAndEnd(s, ps, p, m, owners, bonus))
  {
    var t := WithMe(s, ps).(grid := Put(s.grid, p, m), bombOwners := owners);
    if m == Bomb {
      PutBombKeepsBombsOwned(s.grid, s.bombOwners, p, s.turn.currentTurn);
    } else {
      PutKeepsBombsOwned(s.grid, s.bombOwners, p, m);
    }
    CoreAfter(s, t);
    EndTurnKeepsOk(t, bonus);
  }

  /** The phases in which the Stone, Skill and Drill buttons act. */
  predicate Placing(ph: Phase)
  {
    ph == Place || ph == DrillTarget
  }

  /** Choosing a placement type keeps the invariant, whether it is refused, falls back or succeeds. */
  lemma SetPlacementKeepsOk(s: GameState, cfg: Config, t: PlacementType)
    requires StateOk(s) && ConfigOk(cfg) && Placing(s.turn.phase)
    ensures StateOk(SetPlacementState(s, cfg, t).0)
  {
    var key := PlacementCostKey(t);
    if !(key.Some? && !Affords(MeOf(s), cfg.costs[key.value])) {
      var s1 := s.(turn := s.turn.(placementType := t));
      if t == DrillPlacement {
        var s2 := FindDrillState(s1);
        if |s2.hl.drillTargetTiles| == 0 {
          var s3 := s2.(turn := s2.turn.(phase := Place, placementType := StonePlacement));
          CoreUnchanged(s, s3);
          FindPlaceableKeepsOk(s3, cfg);
        } else {
          CoreUnchanged(s, s2.(turn := s2.turn.(phase := DrillTarget)));
        }
      } else {
        CoreUnchanged(s, s1.(turn := s1.turn.(phase := Place)));
        FindPlaceableKeepsOk(s1.(turn := s1.turn.(phase := Place)), cfg);
      }
    }
  }

  /** Drilling a listed Stone keeps the invariant. */
  lemma UseDrillKeepsOk(s: GameState, cfg: Config, p: Pos)
    requires StateOk(s) && ConfigOk(cfg) && s.turn.phase == DrillTarget && p in s.hl.drillTargetTiles
    ensures InBounds(p)
    ensures StateOk(UseDrillState(s, cfg, p))
  {
    DrillTargetsIff(s.grid, PosOf(MeOf(s)), p);
    var ps := MeOf(s);
    if Affords(ps, Price(cfg, "drill")) {
      var s1 := s.(turn := s.turn.(drillForSurvival := false));
      CoreUnchanged(s, s1);
      PutAndEndKeepsOk(s1, Pay(ps, Price(cfg, "drill")), p, Empty, s.bombOwners, cfg.settings.turnBonus);
    }
  }

  /** Domination keeps the invariant. */
  lemma DominationKeepsOk(s: GameState, cfg: Config)
    requires StateOk(s) && ConfigOk(cfg) && Placing(s.turn.phase)
    ensures StateOk(DominationState(s, cfg).0)
  {
    var me := MeOf(s);
    if Affords(me, Price(cfg, "domination")) {
      var s1 := WithMe(s, Pay(me, Price(cfg, "domination")));
      CoreWithMe(s, Pay(me, Price(cfg, "domination")));
      CoreWithOpp(s1, OppOf(s1).(dominationTurnsLeft := 3));
      EndTurnKeepsOk(WithOpp(s1, OppOf(s1).(dominationTurnsLeft := 3)), cfg.settings.turnBonus);
    }
  }

  /** Starting the Sniper shot keeps the invariant. */
  lemma SniperKeepsOk(s: GameState, cfg: Config)
    requires StateOk(s) && ConfigOk(cfg) && Placing(s.turn.phase)
    ensures StateOk(SniperState(s, cfg).0)
  {
    var me := MeOf(s);
    if Affords(me, Price(cfg, "sniper")) && SniperCondition(s.grid, PosOf(me), PosOf(OppOf(s))) {
      var t := WithMe(s, Pay(me, Price(cfg, "sniper")));
      CoreWithMe(s, Pay(me, Price(cfg, "sniper")));
      assert PosOf(MeOf(t)) == PosOf(me) && PosOf(OppOf(t)) == PosOf(OppOf(s));
      CoreUnchanged(t, t.(turn := t.turn.(sniperAnimating := true)));
    }
  }

  /** Hitokiri keeps the invariant. */
  lemma HitokiriKeepsOk(s: GameState, cfg: Config)
    requires StateOk(s) && ConfigOk(cfg) && Placing(s.turn.phase)
    ensures StateOk(HitokiriState(s, cfg).0)
  {
    var me := MeOf(s);
    if Affords(me, Price(cfg, "hitokiri")) && HitokiriCondition(PosOf(me), PosOf(OppOf(s))) {
      CoreWithMe(s, Pay(me, Price(cfg, "hitokiri")));
      GameOverEndsOk(WithMe(s, Pay(me, Price(cfg, "hitokiri"))), s.turn.currentTurn, Slashed);
    }
  }

  /** Activating a targeted skill keeps the invariant: the target screen always has a target. */
  lemma TargetSkillKeepsOk(s: GameState, cfg: Config, sk: Skill)
    requires StateOk(s) && ConfigOk(cfg) && Placing(s.turn.phase) && TargetSkill(sk)
    ensures StateOk(TargetSkillState(s, cfg, sk).0)
  {
    var g, me, other := s.grid, PosOf(MeOf(s)), PosOf(OppOf(s));
    var targets := SkillTargets(sk, g, me, other);
    var s1 := s.(hl := s.hl.(skillTargetTiles := targets));
    CoreUnchanged(s, s1);
    assert HighlightsCurrent(s1);
    var t := s1.(turn := s1.turn.(phase := SkillTarget), hl := s1.hl.(activeSkillType := Some(sk)));
    CoreUnchanged(s, t);
    assert |targets| > 0 ==> HighlightsCurrent(t);
  }

  /** Activating the player's skill keeps the invariant. */
  lemma ActivateSkillKeepsOk(s: GameState, cfg: Config)
    requires StateOk(s) && ConfigOk(cfg) && Placing(s.turn.phase)
    ensures StateOk(ActivateSkillState(s, cfg).0)
  {
    var me := MeOf(s);
    if !(me.dominationTurnsLeft > 0 || me.specialSkill.None?) {
      match me.specialSkill.value
      case IceSkill => SetPlacementKeepsOk(s, cfg, IcePlacement);
      case BombSkill => SetPlacementKeepsOk(s, cfg, BombPlacement);
      case Domination => DominationKeepsOk(s, cfg);
      case Sniper => SniperKeepsOk(s, cfg);
      case Hitokiri => HitokiriKeepsOk(s, cfg);
      case Suriashi => TargetSkillKeepsOk(s, cfg, Suriashi);
      case Meteor => TargetSkillKeepsOk(s, cfg, Meteor);
      case Momonga => TargetSkillKeepsOk(s, cfg, Momonga);
    }
  }

  /** Suriashi or Momonga onto a cell with no Stone and no opponent restores the invariant. */
  lemma RelocateKeepsOk(s: GameState, cfg: Config, p: Pos)
    requires Core(s) && ConfigOk(cfg) && s.turn.phase == SkillTarget
    requires s.hl.activeSkillType == Some(Suriashi) || s.hl.activeSkillType == Some(Momonga)
    requires InBounds(p) && p != PosOf(OppOf(s)) && At(s.grid, p) != Stone
    ensures StateOk(ExecuteSkillState(s, cfg, p))
  {
    var cost := if s.hl.activeSkillType == Some(Suriashi) then Price(cfg, "suriashi") else Price(cfg, "momonga");
    var t := WithMe(s, Pay(MeOf(s), cost).(row := p.row, col := p.col));
    CoreAfter(s, t);
    EndTurnKeepsOk(t, cfg.settings.turnBonus);
  }

  /** A Meteor on a cell under neither player restores the invariant. */
  lemma MeteorKeepsOk(s: GameState, cfg: Config, p: Pos)
    requires Core(s) && ConfigOk(cfg) && s.turn.phase == SkillTarget && s.hl.activeSkillType == Some(Meteor)
    requires InBounds(p) && p != PosOf(OppOf(s)) && p != PosOf(MeOf(s))
    ensures StateOk(ExecuteSkillState(s, cfg, p))
  {
    PutAndEndKeepsOk(s, Pay(MeOf(s), Price(cfg, "meteor")), p, Stone, s.bombOwners, cfg.settings.turnBonus);
    assert ExecuteSkillState(s, cfg, p) == PutAndEnd(s, Pay(MeOf(s), Price(cfg, "meteor")), p, Stone, s.bombOwners, cfg.settings.turnBonus);
  }

  /** Carrying out a targeted skill on a listed cell keeps the invariant. */
  lemma ExecuteSkillKeepsOk(s: GameState, cfg: Config, p: Pos)
    requires StateOk(s) && ConfigOk(cfg) && s.turn.phase == SkillTarget && p in s.hl.skillTargetTiles
    ensures InBounds(p)
    ensures StateOk(ExecuteSkillState(s, cfg, p))
  {
    var g, me, other := s.grid, PosOf(MeOf(s)), PosOf(OppOf(s));
    match s.hl.activeSkillType.value
    case Suriashi =>
      SuriashiTargetsIff(g, me, other, p);
      RelocateKeepsOk(s, cfg, p);
    case Momonga =>
      MomongaTargetsIff(g, me, other, p);
      RelocateKeepsOk(s, cfg, p);
    case Meteor =>
      MeteorTargetsIff(g, me, other, p);
      MeteorKeepsOk(s, cfg, p);
  }

  /** Cancelling the target screen keeps the invariant. */
  lemma CancelSkillKeepsOk(s: GameState, cfg: Config)
    requires StateOk(s) && ConfigOk(cfg) && s.turn.phase == SkillTarget
    ensures StateOk(CancelSkillState(s, cfg))
  {
    var t := s.(turn := s.turn.(phase := Place, placementType := StonePlacement), hl := s.hl.(activeSkillType := None, skillTargetTiles := []));
    CoreUnchanged(s, t);
    FindPlaceableKeepsOk(t, cfg);
  }
}
