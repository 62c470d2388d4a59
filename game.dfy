/**
 * The game object: the board, the two players and the phase machine's
 * fields, updated in place by the methods below.  Each method is proved to
 * leave the object in the state the matching transition of `Rules`,
 * `Turns` or `Setup` computes from the state before the call, and to keep
 * the invariant `StateOk` those transitions preserve.
 */
module Games {
  import opened Wrappers
  import opened Constants
  import opened Boards
  import opened Geometry
  import opened Players
  import opened Movement
  import opened Targets
  import opened Rules
  import opened Turns
  import opened Scans
  import opened Setup
  import opened Clicks

  class Game {
    const board: Board
    var player1: Player
    var player2: Player
    /** The cost table and settings this game runs with. */
    const cfg: Config
    /** `currentTurn`, `phase`, `diceRoll`, `placementType`, the move modes and the two flags. */
    var turn: Turn
    /** The five highlight lists and `activeSkillType`. */
    var hl: Highlights
    var winner: Option<int>
    var winReason: Option<WinReason>

    /** The object structure every method relies on. */
    ghost predicate Ready()
      reads this`player1, this`player2, board, board.tiles
    {
      board.size == BOARD_SIZE && board.Valid() && player1 != player2 &&
      player1.playerNum == 1 && player2.playerNum == 2 && ConfigOk(cfg)
    }

    /** The whole game as a value. */
    ghost function St(): GameState
      reads this, board, player1, player2
    {
      GameState(board.cells, board.bombOwners, player1.State(), player2.State(), turn, hl, winner, winReason)
    }

    ghost predicate Valid()
      reads this, board, board.tiles, player1, player2
    {
      Ready() && StateOk(St())
    }

    /** `getCurrentPlayer`. */
    function CurrentPlayer(): Player
      reads this
    {
      if turn.currentTurn == 1 then player1 else player2
    }

    /** `getOtherPlayer`. */
    function OtherPlayer(): Player
      reads this
    {
      if turn.currentTurn == 1 then player2 else player1
    }

    /**
     * A new game on the start screen.  The players are created at their
     * start cells straight away (the original creates them in `init`).
     */
    constructor (cfg: Config)
      requires ConfigOk(cfg)
      ensures Valid() && fresh(board) && fresh(board.tiles) && fresh(player1) && fresh(player2)
      ensures St().turn.phase == StartScreen && St().turn.currentTurn == 1 && St().winner.None?
      ensures forall p :: InBounds(p) ==> At(St().grid, p) == Empty
    {
      board := new Board(BOARD_SIZE);
      player1 := new Player(1, START1.row, START1.col);
      player2 := new Player(2, START2.row, START2.col);
      this.cfg := cfg;
      turn := Turn(1, StartScreen, 0, StonePlacement, Cross, Cross, false, false);
      hl := NoHighlights;
      winner := None;
      winReason := None;
      new;
      assert St() == StartState(board.cells);
      StartStateOk(board.cells);
    }

    /**
     * `init`: an empty board, new players at their start cells with three
     * generated dice each (`q1`, `q2`), player 1 to move and nothing
     * highlighted; the phase is left as it was.
     */
    method Init(q1: seq<int>, q2: seq<int>)
      requires Ready() && |q1| == 3 && |q2| == 3
      modifies this, board
      ensures Ready() && fresh(player1) && fresh(player2)
      ensures St() == InitState(old(St()), q1, q2)
    {
      board.Reset();
      CreatePlayers(q1, q2);
      turn := turn.(currentTurn := 1, diceRoll := 0, lastMoveDirectionType := Cross, moveMode := Cross,
                    drillForSurvival := false, sniperAnimating := false);
      winner := None;
      winReason := None;
      ClearHighlights();
    }

    /** The two players of `init`, at their start cells, each with its first three dice. */
    method CreatePlayers(q1: seq<int>, q2: seq<int>)
      requires Ready() && |q1| == 3 && |q2| == 3
      modifies this`player1, this`player2
      ensures Ready() && fresh(player1) && fresh(player2)
      ensures player1.State() == NewPlayer(START1, q1) && player2.State() == NewPlayer(START2, q2)
    {
      player1 := new Player(1, BOARD_SIZE / 2, 0);
      player2 := new Player(2, BOARD_SIZE / 2, BOARD_SIZE - 1);
      player1.InitDiceQueue(q1);
      player2.InitDiceQueue(q2);
    }

    /** `startGame`: a fresh game on the skill selection screen, which keeps the invariant. */
    method StartGame(q1: seq<int>, q2: seq<int>)
      requires Ready() && |q1| == 3 && |q2| == 3
      modifies this, board
      ensures Valid() && fresh(player1) && fresh(player2)
      ensures St() == StartGameState(old(St()), q1, q2)
    {
      Init(q1, q2);
      turn := turn.(phase := SkillSelection);
      StartGameOk(old(St()), q1, q2);
    }

    /**
     * `selectSkill`: the player records the skill unless already confirmed;
     * once both have confirmed, the board is seeded (with the random choices
     * passed in) and the first roll is awaited.
     */
    method SelectSkill(playerNum: int, skill: Skill, pick1: nat, pick2: nat, picks: seq<nat>, first: int)
      requires Valid() && turn.phase == SkillSelection && (first == 1 || first == 2)
      requires SeedPicksOk(St(), pick1, pick2, picks)
      modifies this`turn, board.tiles, board`cells, player1, player2
      ensures Valid()
      ensures St() == SelectSkillState(old(St()), playerNum, skill, pick1, pick2, picks, first)
    {
      ghost var s0 := St();
      ChooseAndSetup(playerNum, skill, pick1, pick2, picks, first);
      SelectSkillKeepsOk(s0, playerNum, skill, pick1, pick2, picks, first);
    }

    /** The steps of `selectSkill`, apart from the invariant. */
    method ChooseAndSetup(playerNum: int, skill: Skill, pick1: nat, pick2: nat, picks: seq<nat>, first: int)
      requires Ready() && Shape(St()) && SeedPicksOk(St(), pick1, pick2, picks)
      modifies this`turn, board.tiles, board`cells, player1, player2
      ensures Ready()
      ensures St() == SelectSkillState(old(St()), playerNum, skill, pick1, pick2, picks, first)
    {
      ghost var s0 := St();
      ConfirmSkill(playerNum, skill);
      if player1.skillConfirmed && player2.skillConfirmed {
        SeedPicksSamePlaces(s0, St(), pick1, pick2, picks);
        SetupInitialBoard(pick1, pick2, picks, first);
        SetTurn(turn.(phase := Roll));
      }
    }

    /** The first half of `selectSkill`: an unconfirmed player records the skill. */
    method ConfirmSkill(playerNum: int, skill: Skill)
      requires Ready()
      modifies player1, player2
      ensures Ready() && St() == ChooseSkill(old(St()), playerNum, skill)
    {
      var player := if playerNum == 1 then player1 else player2;
      if !player.skillConfirmed {
        player.SetSpecialSkill(skill);
      }
    }

    /**
     * `setupInitialBoard`: a fountain in each player's zone, three stones on
     * cells neither banned nor already drawn, and `first` to move.
     */
    method SetupInitialBoard(pick1: nat, pick2: nat, picks: seq<nat>, first: int)
      requires Ready() && Shape(St()) && SeedPicksOk(St(), pick1, pick2, picks)
      modifies this`turn, board.tiles, board`cells
      ensures Ready()
      ensures St() == SetupState(old(St()), pick1, pick2, picks, first)
    {
      SeedBoard(pick1, pick2, picks);
      SetTurn(turn.(currentTurn := first));
    }

    /** An update of the turn record alone. */
    method SetTurn(t: Turn)
      requires Ready()
      modifies this`turn
      ensures Ready() && St() == old(St()).(turn := t)
    {
      turn := t;
    }

    /** The board part of `setupInitialBoard`: the fountains, then the stones. */
    method SeedBoard(pick1: nat, pick2: nat, picks: seq<nat>)
      requires Ready() && Shape(St()) && SeedPicksOk(St(), pick1, pick2, picks)
      modifies board.tiles, board`cells
      ensures Ready()
      ensures St() == old(St()).(grid := SetupState(old(St()), pick1, pick2, picks, old(turn.currentTurn)).grid)
    {
      ghost var s0 := St();
      var f1, f2 := PlaceFountains(pick1, pick2);
      var stones := SeedStones(f1, f2, picks, StoneCandidates(s0, pick1, pick2));
    }

    /** The stones of `setupInitialBoard`: drawn from the unbanned cells, then set. */
    method SeedStones(f1: Pos, f2: Pos, picks: seq<nat>, ghost avail: seq<Pos>) returns (stones: seq<Pos>)
      requires Ready() && IsGrid(board.cells)
      requires avail == Available(board.cells, BannedPositions(f1, f2, player1.GetPosition(), player2.GetPosition()))
      requires PicksOk(|avail|, picks, 3)
      modifies board.tiles, board`cells
      ensures Ready() && stones == Draw(avail, picks, 3)
      ensures forall i :: 0 <= i < |stones| ==> InBounds(stones[i])
      ensures St() == old(St()).(grid := PutAll(old(board.cells), stones, Stone))
    {
      stones := DrawStones(f1, f2, picks, avail);
      PlaceStones(stones);
    }

    /**
     * The stones of `setupInitialBoard`: the banned cells for the fountains
     * `f1` and `f2`, then the draw from the other cells.
     */
    method DrawStones(f1: Pos, f2: Pos, picks: seq<nat>, ghost avail: seq<Pos>) returns (stones: seq<Pos>)
      requires Ready() && IsGrid(board.cells)
      requires avail == Available(board.cells, BannedPositions(f1, f2, player1.GetPosition(), player2.GetPosition()))
      requires PicksOk(|avail|, picks, 3)
      ensures stones == Draw(avail, picks, 3)
      ensures forall i :: 0 <= i < |stones| ==> InBounds(stones[i])
    {
      var banned := GetBannedPositions(f1, f2);
      assert avail == Available(board.cells, banned);
      stones := GetRandomPositions(3, banned, picks);
      DrawnCellsOnBoard(board.cells, banned, picks, 3);
    }

    /** The two fountains of `setupInitialBoard`, found and set. */
    method PlaceFountains(pick1: nat, pick2: nat) returns (f1: Pos, f2: Pos)
      requires Ready() && Shape(St()) && FountainPicksOk(St(), pick1, pick2)
      modifies board.tiles, board`cells
      ensures Ready() && (f1, f2) == Fountains(old(St()), pick1, pick2)
      ensures St() == old(St()).(grid := FountainGrid(old(St()), pick1, pick2))
    {
      ghost var s0 := St();
      f1 := FindValidFountainPosition(1, pick1);
      f2 := FindValidFountainPosition(2, pick2);
      assert (f1, f2) == Fountains(s0, pick1, pick2);
      PutTile(f1.row, f1.col, Fountain);
      PutTile(f2.row, f2.col, Fountain);
      assert St() == s0.(grid := Put(Put(s0.grid, f1, Fountain), f2, Fountain));
    }

    /** The stone loop of `setupInitialBoard`: one `setTile` per drawn cell, in order. */
    method PlaceStones(stones: seq<Pos>)
      requires Ready() && IsGrid(board.cells) && forall i :: 0 <= i < |stones| ==> InBounds(stones[i])
      modifies board.tiles, board`cells
      ensures Ready()
      ensures St() == old(St()).(grid := PutAll(old(board.cells), stones, Stone))
    {
      for i := 0 to |stones|
        invariant Ready() && IsGrid(board.cells)
        invariant St() == old(St()).(grid := PutAll(old(board.cells), stones[..i], Stone))
      {
        assert stones[..i + 1][..i] == stones[..i];
        PutTile(stones[i].row, stones[i].col, Stone);
      }
      assert stones[..|stones|] == stones;
    }

    /**
     * `findValidFountainPosition`: the cells of the player's band more than
     * three cells from the player, in scan order, and the `pick`-th of them.
     */
    method FindValidFountainPosition(playerNum: int, pick: nat) returns (pos: Pos)
      requires Ready() && Shape(St())
      requires pick < |FountainZone(board.cells, playerNum, PosOf(if playerNum == 1 then St().p1 else St().p2))|
      ensures pos == FountainZone(board.cells, playerNum, PosOf(if playerNum == 1 then St().p1 else St().p2))[pick]
      ensures InBounds(pos) && FountainBand(playerNum).0 <= pos.col < FountainBand(playerNum).1
      ensures ChebyshevDistance(PosOf(if playerNum == 1 then St().p1 else St().p2), pos) > 3
    {
      var playerPos := if playerNum == 1 then player1.GetPosition() else player2.GetPosition();
      var (lo, hi) := FountainBand(playerNum);
      var zone := ScanBoard(board, FarFrom(playerPos), lo, hi);
      pos := zone[pick];
      FountainZoneIff(board.cells, playerNum, playerPos, pos);
    }

    /** `getBannedPositions`: both fountains and the 3x3 blocks around both players. */
    method GetBannedPositions(f1: Pos, f2: Pos) returns (banned: set<Pos>)
      ensures banned == BannedPositions(f1, f2, player1.GetPosition(), player2.GetPosition())
    {
      banned := {f1, f2};
      banned := AddNeighbourhood(banned, player1.GetPosition());
      banned := AddNeighbourhood(banned, player2.GetPosition());
    }

    /**
     * `getRandomPositions`: the cells of the board not in `banned`, in scan
     * order, then up to `count` of them drawn without replacement by the
     * indices in `picks`.
     */
    method GetRandomPositions(count: nat, banned: set<Pos>, picks: seq<nat>) returns (positions: seq<Pos>)
      requires Ready() && IsGrid(board.cells) && PicksOk(|Available(board.cells, banned)|, picks, count)
      ensures positions == Draw(Available(board.cells, banned), picks, count)
    {
      var available := ScanBoard(board, NotBanned(banned), 0, BOARD_SIZE);
      ghost var avail0 := available;
      positions := [];
      var i := 0;
      assert picks[0..] == picks;
      while i < count && |available| > 0
        invariant 0 <= i <= count && PicksOk(|available|, picks[i..], count - i)
        invariant positions + Draw(available, picks[i..], count - i) == Draw(avail0, picks, count)
      {
        var idx := picks[i];
        DrawStep(available, picks[i..], count - i);
        assert picks[i..][1..] == picks[i + 1..];
        positions := positions + [available[idx]];
        available := available[..idx] + available[idx + 1..];
        i := i + 1;
      }
    }

    /** `clearHighlights`. */
    method ClearHighlights()
      modifies this`hl
      ensures St() == Cleared(old(St()))
    {
      hl := NoHighlights;
    }

    /** `gameOver`: only the first call records a winner. */
    method GameOver(w: int, reason: Reason)
      modifies this`winner, this`winReason, this`turn
      ensures St() == GameOverState(old(St()), w, reason)
    {
      if winner.None? {
        winner := Some(w);
        winReason := Some(WinReason(Other(w), reason));
        turn := turn.(phase := Phase.GameOver);
      }
    }

    /**
     * `endTurn`: the outgoing player's domination counts down, the turn
     * passes, the incoming player gets the turn bonus, and the game waits
     * for a roll.
     */
    method EndTurn()
      requires Ready()
      modifies this`turn, this`hl, player1, player2
      ensures Ready()
      ensures St() == EndTurnState(old(St()), cfg.settings.turnBonus)
    {
      var outgoing := CurrentPlayer();
      if outgoing.dominationTurnsLeft > 0 {
        outgoing.dominationTurnsLeft := outgoing.dominationTurnsLeft - 1;
      }
      turn := turn.(currentTurn := Other(turn.currentTurn));
      var incoming := CurrentPlayer();
      incoming.AddPoints(cfg.settings.turnBonus);
      turn := turn.(phase := Roll, diceRoll := 0);
      ClearHighlights();
    }
  
    /** `findMovableTiles`: both lists recomputed for the current move mode and roll. */
    method FindMovableTiles()
      requires Ready() && Shape(St())
      modifies this`hl
      ensures IsGrid(board.cells)
      ensures hl == old(hl).(movableTiles := MovableTiles(board.cells, CurrentPlayer().GetPosition(), OtherPlayer().GetPosition(), turn.moveMode, turn.diceRoll),
                             fallTriggerTiles := FallTiles(board.cells, CurrentPlayer().GetPosition(), OtherPlayer().GetPosition(), turn.moveMode, turn.diceRoll))
    {
      var me, other := CurrentPlayer().GetPosition(), OtherPlayer().GetPosition();
      var movable, falls := CollectMoves(board, me, other, Directions(turn.moveMode), turn.diceRoll);
      movable := RemoveDuplicatePositions(movable);
      falls := RemoveDuplicatePositions(falls);
      hl := hl.(movableTiles := movable, fallTriggerTiles := falls);
    }

    /**
     * `hasAnyMovableTile`: tries cross mode, then diagonal mode, and puts the
     * saved mode and its lists back; true unless the player is blocked.
     */
    method HasAnyMovableTile() returns (ok: bool)
      requires Ready() && Shape(St())
      modifies this`turn, this`hl
      ensures IsGrid(board.cells) && turn == old(turn)
      ensures ok == !Blocked(board.cells, CurrentPlayer().GetPosition(), OtherPlayer().GetPosition(), turn.diceRoll)
      ensures hl == old(hl).(movableTiles := MovableTiles(board.cells, CurrentPlayer().GetPosition(), OtherPlayer().GetPosition(), turn.moveMode, turn.diceRoll),
                             fallTriggerTiles := FallTiles(board.cells, CurrentPlayer().GetPosition(), OtherPlayer().GetPosition(), turn.moveMode, turn.diceRoll))
    {
      var savedMode := turn.moveMode;
      var crossOk := TryMoveMode(Cross);
      if !crossOk {
        var diagOk := TryMoveMode(Diagonal);
        if !diagOk {
          turn := turn.(moveMode := savedMode);
          FindMovableTiles();
          return false;
        }
      }
      turn := turn.(moveMode := savedMode);
      FindMovableTiles();
      return true;
    }

    /** One probe of `hasAnyMovableTile`: switch to `mode`, recompute, and see whether anything is listed. */
    method TryMoveMode(mode: DirectionType) returns (ok: bool)
      requires Ready() && Shape(St())
      modifies this`turn, this`hl
      ensures IsGrid(board.cells) && turn == old(turn).(moveMode := mode)
      ensures ok == HasMove(board.cells, CurrentPlayer().GetPosition(), OtherPlayer().GetPosition(), mode, turn.diceRoll)
      ensures hl == old(hl).(movableTiles := hl.movableTiles, fallTriggerTiles := hl.fallTriggerTiles)
    {
      turn := turn.(moveMode := mode);
      FindMovableTiles();
      ok := |hl.movableTiles| > 0 || |hl.fallTriggerTiles| > 0;
    }

    /**
     * `rollDice`: cross mode, the front die becomes the roll (`next` is the
     * generated die that refills the queue), then a blocked player loses
     * and anyone else moves.
     */
    method RollDice(next: int)
      requires Ready() && Shape(St()) && |MeOf(St()).diceQueue| > 0
      modifies this`turn, this`hl, this`winner, this`winReason, player1, player2
      ensures Ready()
      ensures St() == RollState(old(St()), next)
    {
      DrawDie(next);
      var ok := HasAnyMovableTile();
      if !ok {
        GameOver(Other(turn.currentTurn), CannotMove);
      } else {
        turn := turn.(phase := Move);
      }
    }
  
    /** The first half of `rollDice`: back to cross moves, and the front die is drawn as the roll. */
    method DrawDie(next: int)
      requires Ready() && Shape(St()) && |MeOf(St()).diceQueue| > 0
      modifies this`turn, player1, player2
      ensures Ready()
      ensures var s := old(St());
        var me := MeOf(s);
        var s1 := WithMe(s, me.(diceQueue := me.diceQueue[1..] + [next]));
        St() == s1.(turn := s1.turn.(moveMode := Cross, diceRoll := me.diceQueue[0]))
    {
      turn := turn.(moveMode := Cross);
      var currentPlayer := CurrentPlayer();
      var roll := currentPlayer.ShiftDiceQueue(next);
      turn := turn.(diceRoll := roll);
    }

    /**
     * `stockCurrentDice`: a player who can pay banks the front die (`next1`
     * refills the queue) and then rolls (`next2` refills it again).
     */
    method StockCurrentDice(next1: int, next2: int) returns (ok: bool)
      requires Ready() && Shape(St()) && |MeOf(St()).diceQueue| > 0
      modifies this`turn, this`hl, this`winner, this`winReason, player1, player2
      ensures Ready()
      ensures (St(), ok) == StockState(old(St()), cfg, next1, next2)
    {
      ghost var s0 := St();
      ghost var me := MeOf(s0);
      var currentPlayer := CurrentPlayer();
      if !currentPlayer.CanAfford(Price(cfg, "stock")) {
        return false;
      }
      var paid := currentPlayer.DeductPoints(Price(cfg, "stock"));
      var diceValue := currentPlayer.ShiftDiceQueue(next1);
      currentPlayer.StockDice(diceValue);
      assert St() == WithMe(s0, Pay(me, Price(cfg, "stock")).(diceQueue := me.diceQueue[1..] + [next1], stock := Some(me.diceQueue[0])));
      RollDice(next2);
      return true;
    }

    /**
     * `useStockedDice`: the banked die replaces the front die and the bank
     * empties; the rest of the original repeats the body of `rollDice`
     * (setting cross mode a second time changes nothing), so it is a call.
     */
    method UseStockedDice(next: int)
      requires Ready() && Shape(St()) && |MeOf(St()).diceQueue| > 0 && MeOf(St()).stock.Some?
      modifies this`turn, this`hl, this`winner, this`winReason, player1, player2
      ensures Ready()
      ensures St() == UseStockState(old(St()), next)
    {
      ghost var s0 := St();
      ghost var me := MeOf(s0);
      turn := turn.(moveMode := Cross);
      var currentPlayer := CurrentPlayer();
      var stocked := currentPlayer.UseStock();
      currentPlayer.diceQueue := currentPlayer.diceQueue[0 := stocked];
      assert RollState(St(), next) == RollState(WithMe(s0, me.(diceQueue := me.diceQueue[0 := me.stock.value], stock := None)), next);
      RollDice(next);
    }

    /**
     * `toggleMoveMode`: switching to diagonal needs the diagonal cost to be
     * affordable (it is paid on the move); switching back is free.
     */
    method ToggleMoveMode() returns (ok: bool)
      requires Ready() && Shape(St())
      modifies this`turn, this`hl
      ensures (St(), ok) == ToggleState(old(St()), cfg)
    {
      var currentPlayer := CurrentPlayer();
      if turn.moveMode == Cross {
        if !currentPlayer.CanAfford(Price(cfg, "diagonal_move")) {
          return false;
        }
        turn := turn.(moveMode := Diagonal);
      } else {
        turn := turn.(moveMode := Cross);
      }
      FindMovableTiles();
      return true;
    }
  
    /** `findDrillTargets`: the Stones among the current player's cross neighbours. */
    method FindDrillTargets()
      requires Ready() && Shape(St())
      modifies this`hl
      ensures St() == FindDrillState(old(St()))
    {
      var targets := ScanNeighbours(board, StoneCell, CurrentPlayer().GetPosition(), CROSS_DIRECTIONS);
      hl := hl.(drillTargetTiles := targets);
    }

    /**
     * `canUseDrillToSurvive`: a player who is not dominated and can pay the
     * drill survives when some cross neighbour holds a Stone.
     */
    method CanUseDrillToSurvive() returns (ok: bool)
      requires Ready() && Shape(St())
      ensures ok == CanDrillToSurvive(St(), cfg)
    {
      var currentPlayer := CurrentPlayer();
      if currentPlayer.IsDominated() {
        return false;
      }
      if !currentPlayer.CanAfford(Price(cfg, "drill")) {
        return false;
      }
      ok := StoneAdjacent(board, currentPlayer.GetPosition());
    }

    /**
     * `findPlaceableTiles`: the cross neighbours that take the current
     * placement type; with none while the game is undecided, the player
     * drills to survive if they can and loses otherwise.
     */
    method FindPlaceableTiles()
      requires Ready() && Shape(St())
      modifies this`turn, this`hl, this`winner, this`winReason
      ensures St() == FindPlaceableState(old(St()), cfg)
    {
      var me, other := CurrentPlayer().GetPosition(), OtherPlayer().GetPosition();
      var tiles := ScanNeighbours(board, Placement(other, turn.placementType), me, CROSS_DIRECTIONS);
      hl := hl.(placeableTiles := tiles);
      if |tiles| == 0 && winner.None? {
        DrillOrLose();
      }
    }

    /** No cell to place on: the player drills to survive when they can, and loses otherwise. */
    method DrillOrLose()
      requires Ready() && Shape(St())
      modifies this`turn, this`hl, this`winner, this`winReason
      ensures var s := old(St());
        St() == if CanDrillToSurvive(s, cfg) then FindDrillState(s.(turn := s.turn.(drillForSurvival := true, phase := DrillTarget)))
                else GameOverState(s, Other(s.turn.currentTurn), NoPlaceToPut)
    {
      var canDrill := CanUseDrillToSurvive();
      if canDrill {
        turn := turn.(drillForSurvival := true, phase := DrillTarget);
        FindDrillTargets();
      } else {
        GameOver(Other(turn.currentTurn), NoPlaceToPut);
      }
    }
  
    /**
     * `placeObject` on cell (`row`, `col`): a stone is free, a bomb (owned by
     * the current player) or ice only goes down when paid for; a placement
     * ends the turn.
     */
    method PlaceObject(row: int, col: int)
      requires Ready() && Shape(St()) && InBounds(Pos(row, col))
      modifies board.tiles, board`cells, board`bombOwners, this`turn, this`hl, player1, player2
      ensures Ready()
      ensures St() == PlaceState(old(St()), cfg, Pos(row, col))
    {
      match turn.placementType
      case StonePlacement =>
        PutTile(row, col, Stone);
        EndTurn();
      case BombPlacement =>
        var paid := PayAndPut(Price(cfg, "bomb"), row, col, Bomb);
        if paid {
          EndTurn();
        }
      case IcePlacement =>
        var paid := PayAndPut(Price(cfg, "ice"), row, col, Ice);
        if paid {
          EndTurn();
        }
      case DrillPlacement =>
    }

    /**
     * `setPlacementType`: refused when the type has a cost the player cannot
     * pay; the drill falls back to stone placement when no Stone is adjacent,
     * every other type shows its placeable cells.
     */
    method SetPlacementType(t: PlacementType) returns (ok: bool)
      requires Ready() && Shape(St())
      modifies this`turn, this`hl, this`winner, this`winReason
      ensures (St(), ok) == SetPlacementState(old(St()), cfg, t)
    {
      var currentPlayer := CurrentPlayer();
      var key := PlacementCostKey(t);
      if key.Some? && !currentPlayer.CanAfford(cfg.costs[key.value]) {
        return false;
      }
      turn := turn.(placementType := t);
      if t == DrillPlacement {
        ok := EnterDrill();
      } else {
        turn := turn.(phase := Place);
        FindPlaceableTiles();
        ok := true;
      }
    }

    /**
     * The drill branch of `setPlacementType`: with a Stone next to the
     * player the game waits for a drill target; otherwise it falls back to
     * stone placement.
     */
    method EnterDrill() returns (ok: bool)
      requires Ready() && Shape(St())
      modifies this`turn, this`hl, this`winner, this`winReason
      ensures var s2 := FindDrillState(old(St()));
        (St(), ok) ==
          if |s2.hl.drillTargetTiles| == 0 then
            (FindPlaceableState(s2.(turn := s2.turn.(phase := Place, placementType := StonePlacement)), cfg), false)
          else (s2.(turn := s2.turn.(phase := DrillTarget)), true)
    {
      FindDrillTargets();
      if |hl.drillTargetTiles| == 0 {
        turn := turn.(phase := Place, placementType := StonePlacement);
        FindPlaceableTiles();
        return false;
      }
      turn := turn.(phase := DrillTarget);
      return true;
    }

    /** `useDrill` on cell (`row`, `col`): when paid for, the cell empties and the turn ends. */
    method UseDrill(row: int, col: int)
      requires Ready() && Shape(St()) && InBounds(Pos(row, col))
      modifies board.tiles, board`cells, board`bombOwners, this`turn, this`hl, player1, player2
      ensures Ready()
      ensures St() == UseDrillState(old(St()), cfg, Pos(row, col))
    {
      var paid := PayAndPut(Price(cfg, "drill"), row, col, Empty);
      if paid {
        if turn.drillForSurvival {
          turn := turn.(drillForSurvival := false);
        }
        EndTurn();
      }
    }

    /**
     * The shared step of `placeObject` and `useDrill`: the current player
     * pays `cost` if they can and, only then, `m` goes on the cell (a bomb
     * with the current player as its owner).
     */
    method PayAndPut(cost: int, row: int, col: int, m: Marker) returns (paid: bool)
      requires Ready() && Shape(St()) && InBounds(Pos(row, col))
      modifies board.tiles, board`cells, board`bombOwners, player1, player2
      ensures Ready() && paid == Affords(MeOf(old(St())), cost)
      ensures St() == if paid then
                        WithMe(old(St()), Pay(MeOf(old(St())), cost)).(
                          grid := Put(old(St()).grid, Pos(row, col), m),
                          bombOwners := if m == Bomb then old(board.bombOwners)[Pos(row, col) := turn.currentTurn] else old(board.bombOwners))
                      else old(St())
    {
      var paid' := CurrentPlayer().DeductPoints(cost);
      paid := paid';
      if paid {
        if m == Bomb {
          PutBomb(row, col);
        } else {
          PutTile(row, col, m);
        }
      }
    }

    /** `board.setTile` on an on-board cell, seen from the game. */
    method PutTile(row: int, col: int, m: Marker)
      requires Ready() && IsGrid(board.cells) && InBounds(Pos(row, col))
      modifies board.tiles, board`cells
      ensures Ready()
      ensures St() == old(St()).(grid := Put(old(board.cells), Pos(row, col), m))
    {
      var put := board.SetTile(row, col, m);
    }

    /** `board.setBomb` on an on-board cell for the current player, seen from the game. */
    method PutBomb(row: int, col: int)
      requires Ready() && Shape(St()) && InBounds(Pos(row, col))
      modifies board.tiles, board`cells, board`bombOwners
      ensures Ready()
      ensures St() == old(St()).(grid := Put(old(board.cells), Pos(row, col), Bomb),
                                 bombOwners := old(board.bombOwners)[Pos(row, col) := turn.currentTurn])
    {
      var put := board.SetBomb(row, col, CurrentPlayer().playerNum);
    }
  
    /**
     * `movePlayer` to cell (`row`, `col`): a bomb the mover does not own
     * ends the game; otherwise the mover lands there and starts placing a
     * stone.
     */
    method MovePlayer(row: int, col: int)
      requires Ready() && Shape(St()) && InBounds(Pos(row, col))
      modifies board.tiles, board`cells, this`turn, this`hl, this`winner, this`winReason, player1, player2
      ensures Ready()
      ensures St() == MoveState(old(St()), cfg, Pos(row, col))
    {
      var p := Pos(row, col);
      var tile := TileOf(board, p);
      if tile == Bomb {
        var bombOwner := board.GetBombOwner(row, col);
        if bombOwner != Some(CurrentPlayer().playerNum) {
          GameOver(Other(turn.currentTurn), SteppedOnBomb);
          return;
        }
      }
      var dirType := if p in hl.movableTiles || p in hl.fallTriggerTiles then turn.moveMode else Cross;
      Land(row, col);
      StartPlacing(dirType);
    }

    /** The end of `movePlayer`: the stone placement step begins with fresh highlights. */
    method StartPlacing(dirType: DirectionType)
      requires Ready() && Shape(St())
      modifies this`turn, this`hl, this`winner, this`winReason
      ensures var s := old(St());
        St() == FindPlaceableState(Cleared(s.(turn := s.turn.(lastMoveDirectionType := dirType, phase := Place, placementType := StonePlacement))), cfg)
    {
      turn := turn.(lastMoveDirectionType := dirType, phase := Place, placementType := StonePlacement);
      ClearHighlights();
      FindPlaceableTiles();
    }

    /**
     * The first half of the landing: the mover's own bomb is cleared, the
     * mover moves and pays for a diagonal move when they can.
     */
    method Arrive(row: int, col: int)
      requires Ready() && Shape(St()) && InBounds(Pos(row, col))
      modifies board.tiles, board`cells, player1, player2
      ensures Ready()
      ensures var s := old(St());
        var me := MeOf(s);
        St() == WithMe(s, me.(row := row, col := col,
                              points := if turn.moveMode == Diagonal then Pay(me, Price(cfg, "diagonal_move")).points else me.points))
                  .(grid := if At(s.grid, Pos(row, col)) == Bomb then Put(s.grid, Pos(row, col), Empty) else s.grid)
    {
      var currentPlayer := CurrentPlayer();
      if TileOf(board, Pos(row, col)) == Bomb {
        PutTile(row, col, Empty);
      }
      currentPlayer.MoveTo(row, col);
      if turn.moveMode == Diagonal {
        var paid := currentPlayer.DeductPoints(Price(cfg, "diagonal_move"));
      }
    }

    /**
     * The landing part of `movePlayer`: the mover's own bomb is cleared, the
     * mover moves, pays for a diagonal move, and picks up a Fountain, which
     * empties.
     */
    method Land(row: int, col: int)
      requires Ready() && Shape(St()) && InBounds(Pos(row, col))
      modifies board.tiles, board`cells, player1, player2
      ensures Ready()
      ensures St() == LandState(old(St()), cfg, Pos(row, col))
    {
      var p := Pos(row, col);
      var currentPlayer := CurrentPlayer();
      Arrive(row, col);
      var landedTile := TileOf(board, p);
      if landedTile == Fountain {
        currentPlayer.AddPoints(cfg.settings.fountainPickup);
        PutTile(row, col, Empty);
      }
    }
  
    /**
     * `activateSkill`: a dominated player cannot use a skill; otherwise the
     * chosen skill is activated (Ice and Bomb by switching the placement
     * type).
     */
    method ActivateSkill() returns (ok: bool)
      requires Ready() && Shape(St())
      modifies this`turn, this`hl, this`winner, this`winReason, player1, player2
      ensures Ready()
      ensures (St(), ok) == ActivateSkillState(old(St()), cfg)
    {
      var currentPlayer := CurrentPlayer();
      var skill := currentPlayer.specialSkill;
      if currentPlayer.IsDominated() || skill.None? {
        return false;
      }
      match skill.value
      case IceSkill => ok := SetPlacementType(IcePlacement);
      case BombSkill => ok := SetPlacementType(BombPlacement);
      case Domination => ok := UseDomination();
      case Sniper => ok := ActivateSniper();
      case Hitokiri => ok := ActivateHitokiri();
      case Suriashi => ok := ActivateSuriashi();
      case Meteor => ok := ActivateMeteor();
      case Momonga => ok := ActivateMomonga();
    }

    /** `useDomination`: when paid for, the opponent is dominated for three turns and the turn ends. */
    method UseDomination() returns (ok: bool)
      requires Ready() && Shape(St())
      modifies this`turn, this`hl, player1, player2
      ensures Ready()
      ensures (St(), ok) == DominationState(old(St()), cfg)
    {
      var currentPlayer := CurrentPlayer();
      if !currentPlayer.CanAfford(Price(cfg, "domination")) {
        assert !Affords(MeOf(St()), Price(cfg, "domination"));
        return false;
      }
      var paid := currentPlayer.DeductPoints(Price(cfg, "domination"));
      var otherPlayer := OtherPlayer();
      otherPlayer.dominationTurnsLeft := 3;
      EndTurn();
      return true;
    }

    /**
     * `activateSniper`: when affordable and the opponent is in the line of
     * fire, the shot is paid for and its animation starts (the win is
     * recorded when the animation ends).
     */
    method ActivateSniper() returns (ok: bool)
      requires Ready() && Shape(St())
      modifies this`turn, player1, player2
      ensures Ready()
      ensures (St(), ok) == SniperState(old(St()), cfg)
    {
      ghost var s0 := St();
      var currentPlayer := CurrentPlayer();
      var me, other := currentPlayer.GetPosition(), OtherPlayer().GetPosition();
      assert me == PosOf(MeOf(s0)) && other == PosOf(OppOf(s0));
      if !currentPlayer.CanAfford(Price(cfg, "sniper")) {
        assert !Affords(MeOf(s0), Price(cfg, "sniper"));
        return false;
      }
      assert Affords(MeOf(s0), Price(cfg, "sniper"));
      var inSight := CheckSniperCondition(board, me, other);
      if !inSight {
        return false;
      }
      var paid := currentPlayer.DeductPoints(Price(cfg, "sniper"));
      turn := turn.(sniperAnimating := true);
      return true;
    }

    /** `activateHitokiri`: when affordable and the opponent is a cross neighbour, paid and won. */
    method ActivateHitokiri() returns (ok: bool)
      requires Ready() && Shape(St())
      modifies this`turn, this`winner, this`winReason, player1, player2
      ensures Ready()
      ensures (St(), ok) == HitokiriState(old(St()), cfg)
    {
      ghost var s0 := St();
      var currentPlayer := CurrentPlayer();
      var me, other := currentPlayer.GetPosition(), OtherPlayer().GetPosition();
      assert me == PosOf(MeOf(s0)) && other == PosOf(OppOf(s0));
      if !currentPlayer.CanAfford(Price(cfg, "hitokiri")) {
        assert !Affords(MeOf(s0), Price(cfg, "hitokiri"));
        return false;
      }
      assert Affords(MeOf(s0), Price(cfg, "hitokiri"));
      var adjacent := CheckHitokiriCondition(me, other);
      if !adjacent {
        return false;
      }
      var paid := currentPlayer.DeductPoints(Price(cfg, "hitokiri"));
      GameOver(turn.currentTurn, Slashed);
      return true;
    }

    /** `activateSuriashi`: the diagonal neighbours the player may slide to become the targets. */
    method ActivateSuriashi() returns (ok: bool)
      requires Ready() && Shape(St())
      modifies this`turn, this`hl
      ensures (St(), ok) == TargetSkillState(old(St()), cfg, Suriashi)
    {
      ghost var s0 := St();
      var currentPlayer := CurrentPlayer();
      var me, other := currentPlayer.GetPosition(), OtherPlayer().GetPosition();
      assert me == PosOf(MeOf(s0)) && other == PosOf(OppOf(s0));
      if !currentPlayer.CanAfford(Price(cfg, "suriashi")) {
        assert !Affords(MeOf(s0), Price(cfg, "suriashi"));
        return false;
      }
      assert Affords(MeOf(s0), Price(cfg, "suriashi"));
      var targets := ScanNeighbours(board, SuriashiLanding(other), me, DIAGONAL_DIRECTIONS);
      ok := ShowSkillTargets(targets, Suriashi);
    }

    /** `activateMeteor`: every Empty cell holding neither player becomes a target. */
    method ActivateMeteor() returns (ok: bool)
      requires Ready() && Shape(St())
      modifies this`turn, this`hl
      ensures (St(), ok) == TargetSkillState(old(St()), cfg, Meteor)
    {
      ghost var s0 := St();
      var currentPlayer := CurrentPlayer();
      var me, other := currentPlayer.GetPosition(), OtherPlayer().GetPosition();
      assert me == PosOf(MeOf(s0)) && other == PosOf(OppOf(s0));
      if !currentPlayer.CanAfford(Price(cfg, "meteor")) {
        assert !Affords(MeOf(s0), Price(cfg, "meteor"));
        return false;
      }
      assert Affords(MeOf(s0), Price(cfg, "meteor"));
      var targets := ScanBoard(board, MeteorTarget(me, other), 0, BOARD_SIZE);
      ok := ShowSkillTargets(targets, Meteor);
    }

    /**
     * `activateMomonga`: refused when the board has no Stone; otherwise the
     * free cross neighbours of the nearest Stones become the targets.
     */
    method ActivateMomonga() returns (ok: bool)
      requires Ready() && Shape(St())
      modifies this`turn, this`hl
      ensures (St(), ok) == TargetSkillState(old(St()), cfg, Momonga)
    {
      ghost var s0 := St();
      var currentPlayer := CurrentPlayer();
      var me, other := currentPlayer.GetPosition(), OtherPlayer().GetPosition();
      assert me == PosOf(MeOf(s0)) && other == PosOf(OppOf(s0));
      if !currentPlayer.CanAfford(Price(cfg, "momonga")) {
        assert !Affords(MeOf(s0), Price(cfg, "momonga"));
        return false;
      }
      assert Affords(MeOf(s0), Price(cfg, "momonga"));
      var nearestStones := FindNearestStones(board, me);
      if |nearestStones| == 0 {
        return false;
      }
      var targets := MomongaLandings(board, me, other, nearestStones);
      ok := ShowSkillTargets(targets, Momonga);
    }

    /**
     * The common end of the three activations, once the skill is affordable
     * and its targets are listed: with a target, the game waits for the
     * pick.
     */
    method ShowSkillTargets(targets: seq<Pos>, sk: Skill) returns (ok: bool)
      requires Ready() && Shape(St()) && TargetSkill(sk)
      requires Affords(MeOf(St()), Price(cfg, SkillCostKey(sk)))
      requires sk == Momonga ==> |NearestStones(board.cells, PosOf(MeOf(St())))| > 0
      requires targets == SkillTargets(sk, board.cells, PosOf(MeOf(St())), PosOf(OppOf(St())))
      modifies this`turn, this`hl
      ensures (St(), ok) == TargetSkillState(old(St()), cfg, sk)
    {
      hl := hl.(skillTargetTiles := targets);
      if |targets| == 0 {
        return false;
      }
      hl := hl.(activeSkillType := Some(sk));
      turn := turn.(phase := SkillTarget);
      return true;
    }

    /** `executeSuriashi` on the picked cell: paid (when affordable), moved, and the turn ends. */
    method ExecuteSuriashi(row: int, col: int)
      requires Ready() && Shape(St()) && InBounds(Pos(row, col)) && hl.activeSkillType == Some(Suriashi)
      modifies this`turn, this`hl, player1, player2
      ensures Ready()
      ensures St() == ExecuteSkillState(old(St()), cfg, Pos(row, col))
    {
      var currentPlayer := CurrentPlayer();
      var paid := currentPlayer.DeductPoints(Price(cfg, "suriashi"));
      currentPlayer.MoveTo(row, col);
      EndTurn();
    }

    /** `executeMeteor` on the picked cell: paid (when affordable), a Stone falls there, and the turn ends. */
    method ExecuteMeteor(row: int, col: int)
      requires Ready() && Shape(St()) && InBounds(Pos(row, col)) && hl.activeSkillType == Some(Meteor)
      modifies board.tiles, board`cells, this`turn, this`hl, player1, player2
      ensures Ready()
      ensures St() == ExecuteSkillState(old(St()), cfg, Pos(row, col))
    {
      ghost var s0 := St();
      ghost var me1 := Pay(MeOf(s0), Price(cfg, "meteor"));
      assert ExecuteSkillState(s0, cfg, Pos(row, col)) == PutAndEnd(s0, me1, Pos(row, col), Stone, s0.bombOwners, cfg.settings.turnBonus);
      var currentPlayer := CurrentPlayer();
      var paid := currentPlayer.DeductPoints(Price(cfg, "meteor"));
      assert St() == WithMe(s0, me1);
      PutTile(row, col, Stone);
      assert St() == WithMe(s0, me1).(grid := Put(s0.grid, Pos(row, col), Stone));
      EndTurn();
    }

    /** `executeMomonga` on the picked cell: paid (when affordable), moved, and the turn ends. */
    method ExecuteMomonga(row: int, col: int)
      requires Ready() && Shape(St()) && InBounds(Pos(row, col)) && hl.activeSkillType == Some(Momonga)
      modifies this`turn, this`hl, player1, player2
      ensures Ready()
      ensures St() == ExecuteSkillState(old(St()), cfg, Pos(row, col))
    {
      var currentPlayer := CurrentPlayer();
      var paid := currentPlayer.DeductPoints(Price(cfg, "momonga"));
      currentPlayer.MoveTo(row, col);
      EndTurn();
    }

    /** The Stone button on the skill-target screen: the skill is dropped and stone placement resumes. */
    method CancelSkill()
      requires Ready() && Shape(St())
      modifies this`turn, this`hl, this`winner, this`winReason
      ensures St() == CancelSkillState(old(St()), cfg)
    {
      hl := hl.(activeSkillType := None, skillTargetTiles := []);
      turn := turn.(phase := Place, placementType := StonePlacement);
      FindPlaceableTiles();
    }

    /**
     * `handleClick`: the click goes to the handler of the current phase, and
     * the game stays consistent whatever it was.
     */
    method HandleClick(c: Click, luck: Luck) returns (handled: bool)
      requires Valid() && ClickOk(St(), c, luck)
      modifies this, board, board.tiles, player1, player2
      ensures Valid()
      ensures (St(), handled) == ClickState(old(St()), cfg, c, luck)
    {
      ghost var s0 := St();
      ClickKeepsOk(s0, cfg, c, luck);
      match turn.phase
      case StartScreen => handled := HandleStartScreenClick(c, luck);
      case Settings => handled := HandleSettingsClick(c);
      case SkillSelection => handled := HandleSkillSelectionClick(c, luck);
      case Roll => handled := HandleRollPhaseClick(c, luck);
      case Move => handled := HandleMovePhaseClick(c);
      case Place => handled := HandlePlacePhaseClick(c);
      case DrillTarget => handled := HandleDrillPhaseClick(c);
      case SkillTarget => handled := HandleSkillTargetClick(c);
      case GameOver => handled := HandleGameOverClick(c);
    }

    /** `handleStartScreenClick`. */
    method HandleStartScreenClick(c: Click, luck: Luck) returns (handled: bool)
      requires Ready() && |luck.q1| == 3 && |luck.q2| == 3
      modifies this, board
      ensures Ready()
      ensures (St(), handled) == StartScreenClick(old(St()), c, luck)
    {
      match c
      case PvpButton =>
        StartGame(luck.q1, luck.q2);
        handled := true;
      case GearButton =>
        SetTurn(turn.(phase := Settings));
        handled := true;
      case _ =>
        handled := false;
    }

    /** `handleSettingsClick`; resetting the settings touches nothing in the game. */
    method HandleSettingsClick(c: Click) returns (handled: bool)
      requires Ready()
      modifies this`turn
      ensures Ready()
      ensures (St(), handled) == SettingsClick(old(St()), c)
    {
      match c
      case BackButton =>
        SetTurn(turn.(phase := StartScreen));
        handled := true;
      case ResetButton =>
        handled := true;
      case _ =>
        handled := false;
    }

    /** `handleSkillSelectionClick`: a skill card of a player still choosing. */
    method HandleSkillSelectionClick(c: Click, luck: Luck) returns (handled: bool)
      requires Ready() && Shape(St()) && SeedPicksOk(St(), luck.pick1, luck.pick2, luck.picks)
      modifies this`turn, board.tiles, board`cells, player1, player2
      ensures Ready()
      ensures (St(), handled) == SkillSelectionClick(old(St()), c, luck)
    {
      if c.SkillCard? && ((c.playerNum == 1 && !player1.skillConfirmed) || (c.playerNum == 2 && !player2.skillConfirmed)) {
        handled := PickSkillCard(c, luck);
      } else {
        handled := false;
      }
    }

    /** A live skill card: `selectSkill` for its player. */
    method PickSkillCard(c: Click, luck: Luck) returns (handled: bool)
      requires Ready() && Shape(St()) && SeedPicksOk(St(), luck.pick1, luck.pick2, luck.picks)
      requires c.SkillCard? && ((c.playerNum == 1 && !St().p1.skillConfirmed) || (c.playerNum == 2 && !St().p2.skillConfirmed))
      modifies this`turn, board.tiles, board`cells, player1, player2
      ensures Ready()
      ensures (St(), handled) == SkillSelectionClick(old(St()), c, luck)
    {
      ChooseAndSetup(c.playerNum, c.skill, luck.pick1, luck.pick2, luck.picks, luck.first);
      handled := true;
    }

    /** `handleRollPhaseClick`. */
    method HandleRollPhaseClick(c: Click, luck: Luck) returns (handled: bool)
      requires Ready() && Shape(St()) && |MeOf(St()).diceQueue| > 0
      modifies this`turn, this`hl, this`winner, this`winReason, player1, player2
      ensures Ready()
      ensures (St(), handled) == RollClick(old(St()), cfg, c, luck)
    {
      var currentPlayer := CurrentPlayer();
      match c
      case RollButton =>
        RollDice(luck.next1);
        handled := true;
      case StockButton =>
        if currentPlayer.IsDominated() {
          handled := false;
        } else if currentPlayer.HasStock() {
          UseStockedDice(luck.next1);
          handled := true;
        } else {
          handled := StockCurrentDice(luck.next1, luck.next2);
        }
      case _ =>
        handled := false;
    }

    /** `handleMovePhaseClick`. */
    method HandleMovePhaseClick(c: Click) returns (handled: bool)
      requires Ready() && Shape(St()) && (c.BoardCell? ==> InBounds(c.cell))
      modifies board.tiles, board`cells, this`turn, this`hl, this`winner, this`winReason, player1, player2
      ensures Ready()
      ensures (St(), handled) == MoveClick(old(St()), cfg, c)
    {
      if !c.BoardCell? {
        return false;
      }
      var cell := c.cell;
      var playerPos := CurrentPlayer().GetPosition();
      if cell == playerPos {
        var ok := ToggleMoveMode();
        handled := true;
      } else if cell in hl.fallTriggerTiles {
        GameOver(Other(turn.currentTurn), FellOffCliff);
        handled := true;
      } else if cell in hl.movableTiles {
        MovePlayer(cell.row, cell.col);
        handled := true;
      } else {
        handled := false;
      }
    }

    /** `handlePlacePhaseClick`. */
    method HandlePlacePhaseClick(c: Click) returns (handled: bool)
      requires Ready() && Shape(St()) && (c.BoardCell? ==> InBounds(c.cell))
      modifies board.tiles, board`cells, board`bombOwners, this`turn, this`hl, this`winner, this`winReason, player1, player2
      ensures Ready()
      ensures (St(), handled) == PlaceClick(old(St()), cfg, c)
    {
      match c
      case StoneButton =>
        var ok := SetPlacementType(StonePlacement);
        handled := true;
      case SkillButton =>
        var ok := ActivateSkill();
        handled := true;
      case DrillButton =>
        if CurrentPlayer().IsDominated() {
          handled := false;
        } else {
          var ok := SetPlacementType(DrillPlacement);
          handled := true;
        }
      case BoardCell(cell) =>
        if cell in hl.placeableTiles {
          PlaceObject(cell.row, cell.col);
          handled := true;
        } else {
          handled := false;
        }
      case _ =>
        handled := false;
    }

    /** `handleDrillPhaseClick`. */
    method HandleDrillPhaseClick(c: Click) returns (handled: bool)
      requires Ready() && Shape(St()) && (c.BoardCell? ==> InBounds(c.cell))
      modifies board.tiles, board`cells, board`bombOwners, this`turn, this`hl, this`winner, this`winReason, player1, player2
      ensures Ready()
      ensures (St(), handled) == DrillClick(old(St()), cfg, c)
    {
      match c
      case StoneButton =>
        SetTurn(turn.(drillForSurvival := false));
        var ok := SetPlacementType(StonePlacement);
        handled := true;
      case SkillButton =>
        SetTurn(turn.(drillForSurvival := false));
        var ok := ActivateSkill();
        handled := true;
      case DrillButton =>
        handled := true;
      case BoardCell(cell) =>
        if cell in hl.drillTargetTiles {
          UseDrill(cell.row, cell.col);
          handled := true;
        } else {
          handled := false;
        }
      case _ =>
        handled := false;
    }

    /** `handleSkillTargetClick`: the active skill decides what a target cell does. */
    method HandleSkillTargetClick(c: Click) returns (handled: bool)
      requires Ready() && Shape(St()) && (c.BoardCell? ==> InBounds(c.cell))
      modifies board.tiles, board`cells, this`turn, this`hl, this`winner, this`winReason, player1, player2
      ensures Ready()
      ensures (St(), handled) == SkillTargetClick(old(St()), cfg, c)
    {
      match c
      case StoneButton =>
        CancelSkill();
        handled := true;
      case BoardCell(cell) =>
        if cell in hl.skillTargetTiles {
          handled := true;
          match hl.activeSkillType
          case Some(Suriashi) => ExecuteSuriashi(cell.row, cell.col);
          case Some(Meteor) => ExecuteMeteor(cell.row, cell.col);
          case Some(Momonga) => ExecuteMomonga(cell.row, cell.col);
          case _ =>
        } else {
          handled := false;
        }
      case _ =>
        handled := false;
    }

    /** `handleGameOverClick`. */
    method HandleGameOverClick(c: Click) returns (handled: bool)
      requires Ready()
      modifies this`turn
      ensures Ready()
      ensures (St(), handled) == GameOverClick(old(St()), c)
    {
      match c
      case PlayAgainButton =>
        SetTurn(turn.(phase := StartScreen));
        handled := true;
      case _ =>
        handled := false;
    }
  }
}
