/**
 * The click handlers of the game once the pixel geometry is resolved: a
 * click is the button or board cell it lands on, and each phase's handler
 * either acts on it and reports the click as handled, or reports it as not
 * handled.  The random values a click may consume (new dice, the seeding
 * choices, the first player) are passed in.
 */
module Clicks {
  import opened Wrappers
  import opened Constants
  import opened Boards
  import opened Geometry
  import opened Players
  import opened Targets
  import opened Rules
  import opened Turns
  import opened Setup

  /**
   * What a click lands on.  The side-panel buttons are those of the current
   * player's panel; a click on any other part of the screen is `Elsewhere`,
   * and so is a button of a phase that does not show it.
   */
  datatype Click =
    | PvpButton | GearButton
    | BackButton | ResetButton
    | SkillCard(playerNum: int, skill: Skill)
    | RollButton | StockButton
    | StoneButton | SkillButton | DrillButton
    | PlayAgainButton
    | BoardCell(cell: Pos)
    | Elsewhere

  /**
   * The random values a click may use: the dice that refill a queue (`next1`,
   * then `next2`), the two new dice queues of a new game, the seeding choices
   * and the first player.
   */
  datatype Luck = Luck(next1: int, next2: int, q1: seq<int>, q2: seq<int>,
                       pick1: nat, pick2: nat, picks: seq<nat>, first: int)

  /**
   * A click the handlers can receive: a board cell is on the board, a new
   * game has full dice queues, and on the skill selection screen the seeding
   * choices are usable and the first player is 1 or 2.
   */
  predicate ClickOk(s: GameState, c: Click, luck: Luck)
    requires IsGrid(s.grid)
  {
    && (c.BoardCell? ==> InBounds(c.cell))
    && |luck.q1| == 3 && |luck.q2| == 3
    && (s.turn.phase == SkillSelection ==>
          (luck.first == 1 || luck.first == 2) && SeedPicksOk(s, luck.pick1, luck.pick2, luck.picks))
  }

  /** `handleStartScreenClick`: PvP starts a new game, the gear opens the settings. */
  function StartScreenClick(s: GameState, c: Click, luck: Luck): (GameState, bool)
    requires |luck.q1| == 3 && |luck.q2| == 3
  {
    match c
    case PvpButton => (StartGameState(s, luck.q1, luck.q2), true)
    case GearButton => (s.(turn := s.turn.(phase := Settings)), true)
    case _ => (s, false)
  }

  /**
   * `handleSettingsClick`: Back returns to the start screen; Reset restores
   * the default settings, which lie outside the game state.
   */
  function SettingsClick(s: GameState, c: Click): (GameState, bool)
  {
    match c
    case BackButton => (s.(turn := s.turn.(phase := StartScreen)), true)
    case ResetButton => (s, true)
    case _ => (s, false)
  }

  /** `handleSkillSelectionClick`: only a player who has not confirmed yet has live skill cards. */
  function SkillSelectionClick(s: GameState, c: Click, luck: Luck): (GameState, bool)
    requires IsGrid(s.grid) && SeedPicksOk(s, luck.pick1, luck.pick2, luck.picks)
  {
    match c
    case SkillCard(n, sk) =>
      if (n == 1 && !s.p1.skillConfirmed) || (n == 2 && !s.p2.skillConfirmed) then
        (SelectSkillState(s, n, sk, luck.pick1, luck.pick2, luck.picks, luck.first), true)
      else (s, false)
    case _ => (s, false)
  }

  /**
   * `handleRollPhaseClick`: a dominated player can only roll; a player with
   * a banked die can roll or use it; anyone else can roll or bank the front
   * die, which is refused when the stock cost is not affordable.
   */
  function RollClick(s: GameState, cfg: Config, c: Click, luck: Luck): (GameState, bool)
    requires Shape(s) && ConfigOk(cfg) && |MeOf(s).diceQueue| > 0
  {
    var me := MeOf(s);
    match c
    case RollButton => (RollState(s, luck.next1), true)
    case StockButton =>
      if me.dominationTurnsLeft > 0 then (s, false)
      else if me.stock.Some? then (UseStockState(s, luck.next1), true)
      else StockState(s, cfg, luck.next1, luck.next2)
    case _ => (s, false)
  }

  /**
   * `handleMovePhaseClick`: the player's own cell toggles the move mode, a
   * fall tile loses the game, a movable tile is moved to.
   */
  function MoveClick(s: GameState, cfg: Config, c: Click): (GameState, bool)
    requires Shape(s) && ConfigOk(cfg) && (c.BoardCell? ==> InBounds(c.cell))
  {
    match c
    case BoardCell(p) =>
      if p == PosOf(MeOf(s)) then (ToggleState(s, cfg).0, true)
      else if p in s.hl.fallTriggerTiles then (GameOverState(s, Other(s.turn.currentTurn), FellOffCliff), true)
      else if p in s.hl.movableTiles then (MoveState(s, cfg, p), true)
      else (s, false)
    case _ => (s, false)
  }

  /**
   * `handlePlacePhaseClick`: the Stone, Skill and Drill buttons (Drill is
   * refused to a dominated player), then a placeable cell.
   */
  function PlaceClick(s: GameState, cfg: Config, c: Click): (GameState, bool)
    requires Shape(s) && ConfigOk(cfg) && (c.BoardCell? ==> InBounds(c.cell))
  {
    match c
    case StoneButton => (SetPlacementState(s, cfg, StonePlacement).0, true)
    case SkillButton => (ActivateSkillState(s, cfg).0, true)
    case DrillButton =>
      if MeOf(s).dominationTurnsLeft > 0 then (s, false)
      else (SetPlacementState(s, cfg, DrillPlacement).0, true)
    case BoardCell(p) =>
      if p in s.hl.placeableTiles then (PlaceState(s, cfg, p), true) else (s, false)
    case _ => (s, false)
  }

  /**
   * `handleDrillPhaseClick`: Stone and Skill leave drilling (and drilling to
   * survive), Drill keeps it, and a drill target is drilled.
   */
  function DrillClick(s: GameState, cfg: Config, c: Click): (GameState, bool)
    requires Shape(s) && ConfigOk(cfg) && (c.BoardCell? ==> InBounds(c.cell))
  {
    var s1 := s.(turn := s.turn.(drillForSurvival := false));
    match c
    case StoneButton => (SetPlacementState(s1, cfg, StonePlacement).0, true)
    case SkillButton => (ActivateSkillState(s1, cfg).0, true)
    case DrillButton => (s, true)
    case BoardCell(p) =>
      if p in s.hl.drillTargetTiles then (UseDrillState(s, cfg, p), true) else (s, false)
    case _ => (s, false)
  }

  /** `handleSkillTargetClick`: Stone cancels the skill, a target cell carries it out. */
  function SkillTargetClick(s: GameState, cfg: Config, c: Click): (GameState, bool)
    requires Shape(s) && ConfigOk(cfg) && (c.BoardCell? ==> InBounds(c.cell))
  {
    match c
    case StoneButton => (CancelSkillState(s, cfg), true)
    case BoardCell(p) =>
      if p in s.hl.skillTargetTiles then (ExecuteSkillState(s, cfg, p), true) else (s, false)
    case _ => (s, false)
  }

  /** `handleGameOverClick`: back to the start screen. */
  function GameOverClick(s: GameState, c: Click): (GameState, bool)
  {
    match c
    case PlayAgainButton => (s.(turn := s.turn.(phase := StartScreen)), true)
    case _ => (s, false)
  }

  /** `handleClick`: the handler of the current phase. */
  function ClickState(s: GameState, cfg: Config, c: Click, luck: Luck): (GameState, bool)
    requires Core(s) && ConfigOk(cfg) && ClickOk(s, c, luck)
  {
    match s.turn.phase
    case StartScreen => StartScreenClick(s, c, luck)
    case Settings => SettingsClick(s, c)
    case SkillSelection => SkillSelectionClick(s, c, luck)
    case Roll => RollClick(s, cfg, c, luck)
    case Move => MoveClick(s, cfg, c)
    case Place => PlaceClick(s, cfg, c)
    case DrillTarget => DrillClick(s, cfg, c)
    case SkillTarget => SkillTargetClick(s, cfg, c)
    case GameOver => GameOverClick(s, c)
  }

  /** Every click keeps the invariant, whichever phase handles it. */
  lemma ClickKeepsOk(s: GameState, cfg: Config, c: Click, luck: Luck)
    requires StateOk(s) && ConfigOk(cfg) && ClickOk(s, c, luck)
    ensures StateOk(ClickState(s, cfg, c, luck).0)
  {
    if InPlay(s.turn.phase) && s.turn.phase != SkillSelection {
      PlayClickKeepsOk(s, cfg, c, luck);
    } else if s.turn.phase == SkillSelection {
      assert ClickState(s, cfg, c, luck).0 == SkillSelectionClick(s, c, luck).0;
      SkillSelectionClickKeepsOk(s, c, luck);
    } else {
      ScreenClickKeepsOk(s, cfg, c, luck);
    }
  }

  /** Going from one screen outside a game to another keeps the invariant. */
  lemma ScreenChangeKeepsOk(s: GameState, ph: Phase)
    requires StateOk(s) && !InPlay(s.turn.phase) && (ph == StartScreen || ph == Settings)
    ensures StateOk(s.(turn := s.turn.(phase := ph)))
  {
  }

  /** The clicks of the screens outside a game: start, settings and game over. */
  lemma ScreenClickKeepsOk(s: GameState, cfg: Config, c: Click, luck: Luck)
    requires StateOk(s) && ConfigOk(cfg) && ClickOk(s, c, luck) && !InPlay(s.turn.phase)
    ensures StateOk(ClickState(s, cfg, c, luck).0)
  {
    var t := ClickState(s, cfg, c, luck).0;
    if c == PvpButton && s.turn.phase == StartScreen {
      assert t == StartGameState(s, luck.q1, luck.q2);
      StartGameOk(s, luck.q1, luck.q2);
    } else if (c == GearButton && s.turn.phase == StartScreen) {
      assert t == s.(turn := s.turn.(phase := Settings));
      ScreenChangeKeepsOk(s, Settings);
    } else if (c == BackButton && s.turn.phase == Settings) || (c == PlayAgainButton && s.turn.phase == GameOver) {
      assert t == s.(turn := s.turn.(phase := StartScreen));
      ScreenChangeKeepsOk(s, StartScreen);
    } else {
      assert t == s;
    }
  }

  /** The clicks of a turn: roll, move, place, drill and skill targets. */
  lemma PlayClickKeepsOk(s: GameState, cfg: Config, c: Click, luck: Luck)
    requires StateOk(s) && ConfigOk(cfg) && ClickOk(s, c, luck) && InPlay(s.turn.phase) && s.turn.phase != SkillSelection
    ensures StateOk(ClickState(s, cfg, c, luck).0)
  {
    var t := ClickState(s, cfg, c, luck).0;
    match s.turn.phase
    case Roll =>
      assert t == RollClick(s, cfg, c, luck).0;
      RollClickKeepsOk(s, cfg, c, luck);
    case Move =>
      assert t == MoveClick(s, cfg, c).0;
      MoveClickKeepsOk(s, cfg, c);
    case Place =>
      assert t == PlaceClick(s, cfg, c).0;
      PlaceClickKeepsOk(s, cfg, c);
    case DrillTarget =>
      assert t == DrillClick(s, cfg, c).0;
      DrillClickKeepsOk(s, cfg, c);
    case SkillTarget =>
      assert t == SkillTargetClick(s, cfg, c).0;
      SkillTargetClickKeepsOk(s, cfg, c);
  }

  lemma SkillSelectionClickKeepsOk(s: GameState, c: Click, luck: Luck)
    requires StateOk(s) && s.turn.phase == SkillSelection && (luck.first == 1 || luck.first == 2)
    requires SeedPicksOk(s, luck.pick1, luck.pick2, luck.picks)
    ensures StateOk(SkillSelectionClick(s, c, luck).0)
  {
    var t := SkillSelectionClick(s, c, luck).0;
    if c.SkillCard? && ((c.playerNum == 1 && !s.p1.skillConfirmed) || (c.playerNum == 2 && !s.p2.skillConfirmed)) {
      assert t == SelectSkillState(s, c.playerNum, c.skill, luck.pick1, luck.pick2, luck.picks, luck.first);
      SelectSkillKeepsOk(s, c.playerNum, c.skill, luck.pick1, luck.pick2, luck.picks, luck.first);
    } else {
      assert t == s;
    }
  }

  lemma SkillTargetClickKeepsOk(s: GameState, cfg: Config, c: Click)
    requires StateOk(s) && ConfigOk(cfg) && s.turn.phase == SkillTarget && (c.BoardCell? ==> InBounds(c.cell))
    ensures StateOk(SkillTargetClick(s, cfg, c).0)
  {
    if c.StoneButton? {
      CancelClickKeepsOk(s, cfg);
    } else if c.BoardCell? && c.cell in s.hl.skillTargetTiles {
      TargetClickKeepsOk(s, cfg, c.cell);
    } else {
      assert SkillTargetClick(s, cfg, c).0 == s;
    }
  }

  lemma CancelClickKeepsOk(s: GameState, cfg: Config)
    requires StateOk(s) && ConfigOk(cfg) && s.turn.phase == SkillTarget
    ensures StateOk(SkillTargetClick(s, cfg, StoneButton).0)
  {
    assert SkillTargetClick(s, cfg, StoneButton).0 == CancelSkillState(s, cfg);
    CancelSkillKeepsOk(s, cfg);
  }

  lemma TargetClickKeepsOk(s: GameState, cfg: Config, p: Pos)
    requires StateOk(s) && ConfigOk(cfg) && s.turn.phase == SkillTarget && InBounds(p) && p in s.hl.skillTargetTiles
    ensures StateOk(SkillTargetClick(s, cfg, BoardCell(p)).0)
  {
    assert SkillTargetClick(s, cfg, BoardCell(p)).0 == ExecuteSkillState(s, cfg, p);
    ExecuteSkillKeepsOk(s, cfg, p);
  }

  lemma RollClickKeepsOk(s: GameState, cfg: Config, c: Click, luck: Luck)
    requires StateOk(s) && ConfigOk(cfg) && s.turn.phase == Roll
    ensures StateOk(RollClick(s, cfg, c, luck).0)
  {
    var me, t := MeOf(s), RollClick(s, cfg, c, luck).0;
    match c
    case RollButton =>
      assert t == RollState(s, luck.next1);
      RollKeepsOk(s, luck.next1);
    case StockButton =>
      if me.dominationTurnsLeft > 0 {
        assert t == s;
      } else if me.stock.Some? {
        assert t == UseStockState(s, luck.next1);
        UseStockKeepsOk(s, luck.next1);
      } else {
        assert t == StockState(s, cfg, luck.next1, luck.next2).0;
        StockKeepsOk(s, cfg, luck.next1, luck.next2);
      }
    case _ =>
      assert t == s;
  }

  lemma MoveClickKeepsOk(s: GameState, cfg: Config, c: Click)
    requires StateOk(s) && ConfigOk(cfg) && s.turn.phase == Move && (c.BoardCell? ==> InBounds(c.cell))
    ensures StateOk(MoveClick(s, cfg, c).0)
  {
    var t := MoveClick(s, cfg, c).0;
    if c.BoardCell? {
      var p := c.cell;
      if p == PosOf(MeOf(s)) {
        assert t == ToggleState(s, cfg).0;
        ToggleKeepsOk(s, cfg);
      } else if p in s.hl.fallTriggerTiles {
        assert t == GameOverState(s, Other(s.turn.currentTurn), FellOffCliff);
        GameOverKeepsOk(s, Other(s.turn.currentTurn), FellOffCliff);
      } else if p in s.hl.movableTiles {
        assert t == MoveState(s, cfg, p);
        MoveKeepsOk(s, cfg, p);
      } else {
        assert t == s;
      }
    } else {
      assert t == s;
    }
  }

  lemma PlaceClickKeepsOk(s: GameState, cfg: Config, c: Click)
    requires StateOk(s) && ConfigOk(cfg) && s.turn.phase == Place && (c.BoardCell? ==> InBounds(c.cell))
    ensures StateOk(PlaceClick(s, cfg, c).0)
  {
    var t := PlaceClick(s, cfg, c).0;
    match c
    case StoneButton =>
      assert t == SetPlacementState(s, cfg, StonePlacement).0;
      SetPlacementKeepsOk(s, cfg, StonePlacement);
    case SkillButton =>
      assert t == ActivateSkillState(s, cfg).0;
      ActivateSkillKeepsOk(s, cfg);
    case DrillButton =>
      if MeOf(s).dominationTurnsLeft <= 0 {
        assert t == SetPlacementState(s, cfg, DrillPlacement).0;
        SetPlacementKeepsOk(s, cfg, DrillPlacement);
      } else {
        assert t == s;
      }
    case BoardCell(p) =>
      if p in s.hl.placeableTiles {
        assert t == PlaceState(s, cfg, p);
        PlaceKeepsOk(s, cfg, p);
      } else {
        assert t == s;
      }
    case _ =>
      assert t == s;
  }

  lemma DrillClickKeepsOk(s: GameState, cfg: Config, c: Click)
    requires StateOk(s) && ConfigOk(cfg) && s.turn.phase == DrillTarget && (c.BoardCell? ==> InBounds(c.cell))
    ensures StateOk(DrillClick(s, cfg, c).0)
  {
    var s1 := s.(turn := s.turn.(drillForSurvival := false));
    var t := DrillClick(s, cfg, c).0;
    match c
    case StoneButton =>
      assert t == SetPlacementState(s1, cfg, StonePlacement).0;
      CoreUnchanged(s, s1);
      SetPlacementKeepsOk(s1, cfg, StonePlacement);
    case SkillButton =>
      assert t == ActivateSkillState(s1, cfg).0;
      CoreUnchanged(s, s1);
      ActivateSkillKeepsOk(s1, cfg);
    case BoardCell(p) =>
      if p in s.hl.drillTargetTiles {
        assert t == UseDrillState(s, cfg, p);
        UseDrillKeepsOk(s, cfg, p);
      } else {
        assert t == s;
      }
    case _ =>
      assert t == s;
  }

  /** A click no handler takes leaves the whole game as it was. */
  lemma UnhandledClickChangesNothing(s: GameState, cfg: Config, c: Click, luck: Luck)
    requires Core(s) && ConfigOk(cfg) && ClickOk(s, c, luck)
    ensures !ClickState(s, cfg, c, luck).1 ==> ClickState(s, cfg, c, luck).0 == s
  {
    var r := ClickState(s, cfg, c, luck);
    match s.turn.phase
    case StartScreen => assert r == StartScreenClick(s, c, luck);
    case Settings => assert r == SettingsClick(s, c);
    case SkillSelection => assert r == SkillSelectionClick(s, c, luck);
    case Roll =>
      assert r == RollClick(s, cfg, c, luck);
      if c.StockButton? && MeOf(s).dominationTurnsLeft <= 0 && MeOf(s).stock.None? {
        assert StockState(s, cfg, luck.next1, luck.next2).1 == Affords(MeOf(s), Price(cfg, "stock"));
      }
    case Move => assert r == MoveClick(s, cfg, c);
    case Place => assert r == PlaceClick(s, cfg, c);
    case DrillTarget => assert r == DrillClick(s, cfg, c);
    case SkillTarget => assert r == SkillTargetClick(s, cfg, c);
    case GameOver => assert r == GameOverClick(s, c);
  }

  /**
   * Clicking a fall tile other than one's own cell during a move loses the
   * game: the opponent wins and the reason is the fall.
   */
  lemma FallClickLoses(s: GameState, cfg: Config, p: Pos, luck: Luck)
    requires StateOk(s) && ConfigOk(cfg) && s.turn.phase == Move && InBounds(p) && |luck.q1| == 3 && |luck.q2| == 3
    requires p != PosOf(MeOf(s)) && p in s.hl.fallTriggerTiles
    ensures var (t, handled) := ClickState(s, cfg, BoardCell(p), luck);
      && handled && t.turn.phase == GameOver
      && t.winner == Some(Other(s.turn.currentTurn))
      && t.winReason == Some(WinReason(s.turn.currentTurn, FellOffCliff))
  {
  }

  /**
   * A dominated player's Stock button does nothing; only the Roll button
   * works for them.
   */
  lemma DominatedOnlyRolls(s: GameState, cfg: Config, c: Click, luck: Luck)
    requires Core(s) && ConfigOk(cfg) && ClickOk(s, c, luck) && s.turn.phase == Roll
    requires MeOf(s).dominationTurnsLeft > 0
    ensures ClickState(s, cfg, c, luck).1 <==> c == RollButton
    ensures c == RollButton ==> ClickState(s, cfg, c, luck).0 == RollState(s, luck.next1)
  {
  }

  /**
   * Cancelling a targeted skill with the Stone button costs nothing: the
   * board and both players are untouched, no skill stays active, and the
   * player is back to placing a Stone (or must drill, or has lost, when no
   * cell is placeable).
   */
  lemma CancelSkillIsFree(s: GameState, cfg: Config, luck: Luck)
    requires StateOk(s) && ConfigOk(cfg) && s.turn.phase == SkillTarget && |luck.q1| == 3 && |luck.q2| == 3
    ensures var (t, handled) := ClickState(s, cfg, StoneButton, luck);
      && handled && t.grid == s.grid && t.p1 == s.p1 && t.p2 == s.p2
      && t.hl.activeSkillType.None? && t.turn.placementType == StonePlacement
      && (t.turn.phase == Place || t.turn.phase == DrillTarget || t.turn.phase == GameOver)
  {
  }
}
