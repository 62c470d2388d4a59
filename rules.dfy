/**
 * The game as a value: a snapshot of the board, both players and every
 * field of the game object, the invariant the game keeps, and the two
 * transitions every rule ends in (ending the turn and ending the game).
 */
module Rules {
  import opened Wrappers
  import opened Constants
  import opened Boards
  import opened Geometry
  import opened Players
  import opened Movement
  import opened Targets

  /** Why a player lost. */
  datatype Reason = CannotMove | SteppedOnBomb | FellOffCliff | NoPlaceToPut | Slashed

  /** The loser and the reason, as recorded when the game ends. */
  datatype WinReason = WinReason(loser: int, reason: Reason)

  /** The fields of the game object that track the turn in progress. */
  datatype Turn = Turn(
    currentTurn: int, phase: Phase, diceRoll: int, placementType: PlacementType,
    moveMode: DirectionType, lastMoveDirectionType: DirectionType,
    drillForSurvival: bool, sniperAnimating: bool)

  /** The highlighted cells of the current phase and the skill waiting for a target. */
  datatype Highlights = Highlights(
    movableTiles: seq<Pos>, fallTriggerTiles: seq<Pos>, placeableTiles: seq<Pos>,
    drillTargetTiles: seq<Pos>, skillTargetTiles: seq<Pos>, activeSkillType: Option<Skill>)

  /** No highlighted cell and no active skill. */
  const NoHighlights := Highlights([], [], [], [], [], None)

  /**
   * A value snapshot of the game object, its board and its two players; the
   * object's scalar fields are grouped into the turn record and the
   * highlight record.
   */
  datatype GameState = GameState(
    grid: Grid, bombOwners: map<Pos, int>, p1: PlayerState, p2: PlayerState,
    turn: Turn, hl: Highlights, winner: Option<int>, winReason: Option<WinReason>)

  /** Where `init` puts the two players: the middle row, at either edge. */
  const START1: Pos := Pos(BOARD_SIZE / 2, 0)
  const START2: Pos := Pos(BOARD_SIZE / 2, BOARD_SIZE - 1)

  /** The cost table and settings a game runs with. */
  datatype Config = Config(costs: map<string, int>, settings: GameSettings)

  predicate ConfigOk(cfg: Config)
  {
    CostsOk(cfg.costs) && SettingsOk(cfg.settings)
  }

  /** The cost stored under `key`. */
  function Price(cfg: Config, key: string): int
    requires ConfigOk(cfg) && key in COST_KEYS
  {
    cfg.costs[key]
  }

  /** `canAfford` on a player snapshot. */
  predicate Affords(ps: PlayerState, cost: int)
  {
    ps.points >= cost
  }

  /** `deductPoints` on a player snapshot: pays only when affordable. */
  function Pay(ps: PlayerState, cost: int): PlayerState
  {
    if Affords(ps, cost) then ps.(points := ps.points - cost) else ps
  }

  /** The opponent of player `n`. */
  function Other(n: int): int
  {
    if n == 1 then 2 else 1
  }

  function PosOf(ps: PlayerState): Pos
  {
    Pos(ps.row, ps.col)
  }

  /** The player whose turn it is. */
  function MeOf(s: GameState): PlayerState
  {
    if s.turn.currentTurn == 1 then s.p1 else s.p2
  }

  /** The player waiting for their turn. */
  function OppOf(s: GameState): PlayerState
  {
    if s.turn.currentTurn == 1 then s.p2 else s.p1
  }

  /** `s` with the current player's record replaced. */
  function WithMe(s: GameState, ps: PlayerState): GameState
  {
    if s.turn.currentTurn == 1 then s.(p1 := ps) else s.(p2 := ps)
  }

  /** `s` with the waiting player's record replaced. */
  function WithOpp(s: GameState, ps: PlayerState): GameState
  {
    if s.turn.currentTurn == 1 then s.(p2 := ps) else s.(p1 := ps)
  }

  /** The phases of a game under way. */
  predicate InPlay(ph: Phase)
  {
    ph.SkillSelection? || ph.Roll? || ph.Move? || ph.Place? || ph.DrillTarget? || ph.SkillTarget?
  }

  /** The skills that pick a target cell. */
  predicate TargetSkill(sk: Skill)
  {
    sk.Suriashi? || sk.Meteor? || sk.Momonga?
  }

  function SkillTargets(sk: Skill, g: Grid, me: Pos, other: Pos): seq<Pos>
    requires IsGrid(g)
  {
    match sk
    case Suriashi => SuriashiTargets(g, me, other)
    case Meteor => MeteorTargets(g, me, other)
    case Momonga => MomongaTargets(g, me, other)
    case _ => []
  }

  /**
   * The highlighted cells of the current phase are the ones the rules
   * compute from the current board and positions, and a phase that waits
   * for a target click always has a target to click.
   */
  predicate HighlightsCurrent(s: GameState)
    requires IsGrid(s.grid) && InBounds(PosOf(MeOf(s)))
  {
    var g, me, other := s.grid, PosOf(MeOf(s)), PosOf(OppOf(s));
    && (s.turn.phase == Move ==>
          s.hl.movableTiles == MovableTiles(g, me, other, s.turn.moveMode, s.turn.diceRoll) &&
          s.hl.fallTriggerTiles == FallTiles(g, me, other, s.turn.moveMode, s.turn.diceRoll))
    && (s.turn.phase == Place ==>
          s.turn.placementType != DrillPlacement &&
          s.hl.placeableTiles == PlaceableTiles(g, me, other, s.turn.placementType) &&
          |s.hl.placeableTiles| > 0)
    && (s.turn.phase == DrillTarget ==>
          s.hl.drillTargetTiles == DrillTargets(g, me) && |s.hl.drillTargetTiles| > 0)
    && (s.turn.phase == SkillTarget ==>
          s.hl.activeSkillType.Some? && TargetSkill(s.hl.activeSkillType.value) &&
          s.hl.skillTargetTiles == SkillTargets(s.hl.activeSkillType.value, g, me, other) &&
          |s.hl.skillTargetTiles| > 0)
  }

  /** Every Bomb cell of the grid has a recorded owner. */
  ghost predicate BombsOwned(g: Grid, owners: map<Pos, int>)
    requires IsGrid(g)
  {
    forall p :: InBounds(p) && At(g, p) == Bomb ==> p in owners
  }

  /** The board and both players are where the rules can look at them. */
  predicate Shape(s: GameState)
  {
    && IsGrid(s.grid)
    && (s.turn.currentTurn == 1 || s.turn.currentTurn == 2)
    && InBounds(PosOf(s.p1)) && InBounds(PosOf(s.p2))
  }

  /** The invariant apart from the highlight lists. */
  ghost predicate Core(s: GameState)
  {
    && Shape(s)
    && PosOf(s.p1) != PosOf(s.p2)
    && At(s.grid, PosOf(s.p1)) != Stone && At(s.grid, PosOf(s.p2)) != Stone
    && s.p1.points >= 0 && s.p2.points >= 0
    && s.p1.dominationTurnsLeft >= 0 && s.p2.dominationTurnsLeft >= 0
    && BombsOwned(s.grid, s.bombOwners)
    && (s.turn.phase == GameOver ==> s.winner.Some?)
    && (InPlay(s.turn.phase) ==> s.winner.None? && |s.p1.diceQueue| == 3 && |s.p2.diceQueue| == 3)
    && (s.turn.phase == SkillSelection ==> PosOf(s.p1) == START1 && PosOf(s.p2) == START2)
  }

  /**
   * The invariant the game keeps between any two clicks: both players on
   * distinct board cells that hold no Stone, no negative points, every
   * bomb owned, a winner exactly when the game is over, full dice queues
   * in play, and highlight lists that match the board.
   */
  ghost predicate StateOk(s: GameState)
  {
    Core(s) && HighlightsCurrent(s)
  }

  /** `clearHighlights`: every highlight list empty and no active skill. */
  function Cleared(s: GameState): GameState
  {
    s.(hl := NoHighlights)
  }

  /** `gameOver`: the first call records the winner and ends the game; later calls do nothing. */
  function GameOverState(s: GameState, winner: int, reason: Reason): GameState
  {
    if s.winner.None? then
      s.(turn := s.turn.(phase := GameOver), winner := Some(winner), winReason := Some(WinReason(Other(winner), reason)))
    else s
  }

  /**
   * `endTurn`: the outgoing player's domination counter drops by one if
   * positive, the turn passes, the incoming player gets the turn bonus, and
   * the game waits for a roll with no highlights.
   */
  function EndTurnState(s: GameState, bonus: int): GameState
  {
    var out := MeOf(s);
    var s1 := WithMe(s, out.(dominationTurnsLeft :=
      if out.dominationTurnsLeft > 0 then out.dominationTurnsLeft - 1 else out.dominationTurnsLeft));
    var s2 := s1.(turn := s1.turn.(currentTurn := Other(s.turn.currentTurn)));
    var inc := MeOf(s2);
    var s3 := WithMe(s2, inc.(points := inc.points + bonus));
    Cleared(s3).(turn := s3.turn.(phase := Roll, diceRoll := 0))
  }

  /** The game the constructor sets up: both players at their start cells and the start screen showing. */
  function StartState(g: Grid): GameState
  {
    GameState(g, map[], PlayerState(START1.row, START1.col, 0, None, [], None, false, 0),
              PlayerState(START2.row, START2.col, 0, None, [], None, false, 0),
              Turn(1, StartScreen, 0, StonePlacement, Cross, Cross, false, false), NoHighlights, None, None)
  }

  /** A new game on an empty board keeps the invariant. */
  lemma StartStateOk(g: Grid)
    requires IsGrid(g) && forall p :: InBounds(p) ==> At(g, p) == Empty
    ensures StateOk(StartState(g))
  {
    assert At(g, START1) == Empty && At(g, START2) == Empty;
  }

  /**
   * First call wins: once a winner is recorded, further calls change
   * nothing; the first call records the winner, the other player as loser
   * and the GameOver phase.
   */
  lemma GameOverFirstCallWins(s: GameState, w1: int, r1: Reason, w2: int, r2: Reason)
    ensures GameOverState(GameOverState(s, w1, r1), w2, r2) == GameOverState(s, w1, r1)
    ensures s.winner.Some? ==> GameOverState(s, w1, r1) == s
    ensures s.winner.None? ==>
      var t := GameOverState(s, w1, r1);
      t.winner == Some(w1) && t.turn.phase == GameOver && t.winReason == Some(WinReason(Other(w1), r1))
  {
  }

  /** Ending the game keeps the invariant. */
  lemma GameOverKeepsOk(s: GameState, w: int, r: Reason)
    requires StateOk(s)
    ensures StateOk(GameOverState(s, w, r))
  {
  }

  /** Ending a game that has no winner yet leaves a state that keeps the invariant. */
  lemma GameOverEndsOk(s: GameState, w: int, r: Reason)
    requires Core(s) && s.winner.None?
    ensures StateOk(GameOverState(s, w, r))
  {
  }

  /**
   * The core invariant only looks at the board, the players, the turn, the
   * winner and the phase; moving between the phases of a turn keeps it.
   */
  lemma CoreUnchanged(s: GameState, t: GameState)
    requires Core(s)
    requires t.grid == s.grid && t.bombOwners == s.bombOwners && t.p1 == s.p1 && t.p2 == s.p2
    requires t.turn.currentTurn == s.turn.currentTurn && t.winner == s.winner
    requires t.turn.phase == s.turn.phase || (InPlay(s.turn.phase) && InPlay(t.turn.phase) && t.turn.phase != SkillSelection)
    ensures Core(t)
  {
  }

  /**
   * Replacing the current player's record keeps the core invariant when the
   * player stays put, keeps non-negative counters and a queue of the same length.
   */
  lemma CoreWithMe(s: GameState, ps: PlayerState)
    requires Core(s)
    requires PosOf(ps) == PosOf(MeOf(s)) && ps.points >= 0 && ps.dominationTurnsLeft >= 0
    requires |ps.diceQueue| == |MeOf(s).diceQueue|
    ensures Core(WithMe(s, ps))
  {
  }

  /**
   * A step that changes only the current player, the board and the bomb
   * owners keeps the core invariant when the current player ends on a free
   * cell, no Stone sits under either player, the counters stay non-negative
   * and every bomb is still owned.
   */
  lemma CoreAfter(s: GameState, t: GameState)
    requires Core(s) && Shape(t) && s.turn.phase != SkillSelection
    requires t.turn.currentTurn == s.turn.currentTurn && OppOf(t) == OppOf(s) && t.winner == s.winner && t.turn.phase == s.turn.phase
    requires PosOf(MeOf(t)) != PosOf(OppOf(t))
    requires At(t.grid, PosOf(MeOf(t))) != Stone && At(t.grid, PosOf(OppOf(t))) != Stone
    requires MeOf(t).points >= 0 && MeOf(t).dominationTurnsLeft >= 0
    requires |MeOf(t).diceQueue| == |MeOf(s).diceQueue|
    requires BombsOwned(t.grid, t.bombOwners)
    ensures Core(t)
  {
  }

  /** Writing anything but a Bomb keeps every bomb owned. */
  lemma PutKeepsBombsOwned(g: Grid, owners: map<Pos, int>, p: Pos, m: Marker)
    requires IsGrid(g) && InBounds(p) && BombsOwned(g, owners) && m != Bomb
    ensures BombsOwned(Put(g, p, m), owners)
  {
  }

  /** A Bomb written together with its owner keeps every bomb owned. */
  lemma PutBombKeepsBombsOwned(g: Grid, owners: map<Pos, int>, p: Pos, owner: int)
    requires IsGrid(g) && InBounds(p) && BombsOwned(g, owners)
    ensures BombsOwned(Put(g, p, Bomb), owners[p := owner])
  {
  }

  /**
   * Replacing the waiting player's record keeps the core invariant when that
   * player stays put, keeps non-negative counters and a queue of the same length.
   */
  lemma CoreWithOpp(s: GameState, ps: PlayerState)
    requires Core(s)
    requires PosOf(ps) == PosOf(OppOf(s)) && ps.points >= 0 && ps.dominationTurnsLeft >= 0
    requires |ps.diceQueue| == |OppOf(s).diceQueue|
    ensures Core(WithOpp(s, ps))
  {
  }

  /**
   * Ending a turn in play passes the turn to the other player, pays that
   * player the bonus, counts down only the outgoing player's domination,
   * and leaves the board and both positions alone.
   */
  lemma EndTurnEffect(s: GameState, bonus: int)
    requires s.turn.currentTurn == 1 || s.turn.currentTurn == 2
    ensures var t := EndTurnState(s, bonus);
      && t.turn.currentTurn == Other(s.turn.currentTurn) && t.turn.phase == Roll && t.turn.diceRoll == 0
      && MeOf(t).points == OppOf(s).points + bonus
      && OppOf(t).points == MeOf(s).points
      && MeOf(t).dominationTurnsLeft == OppOf(s).dominationTurnsLeft
      && OppOf(t).dominationTurnsLeft ==
           (if MeOf(s).dominationTurnsLeft > 0 then MeOf(s).dominationTurnsLeft - 1 else MeOf(s).dominationTurnsLeft)
      && PosOf(t.p1) == PosOf(s.p1) && PosOf(t.p2) == PosOf(s.p2)
      && t.p1.diceQueue == s.p1.diceQueue && t.p2.diceQueue == s.p2.diceQueue
      && t.grid == s.grid && t.bombOwners == s.bombOwners && t.winner == s.winner
      && t.hl == NoHighlights
  {
  }

  /** Ending a turn in play restores the invariant (the bonus is non-negative). */
  lemma EndTurnKeepsOk(s: GameState, bonus: int)
    requires Core(s) && InPlay(s.turn.phase) && bonus >= 0
    ensures StateOk(EndTurnState(s, bonus))
  {
    EndTurnEffect(s, bonus);
  }

  /**
   * Two turn ends bring the turn back: each player has gained the bonus
   * once, and the player to move has one domination turn fewer if dominated.
   * A player dominated for three turns is therefore locked for their next
   * three turns.
   */
  lemma EndTurnTwice(s: GameState, bonus: int)
    requires s.turn.currentTurn == 1 || s.turn.currentTurn == 2
    ensures var t := EndTurnState(EndTurnState(s, bonus), bonus);
      && t.turn.currentTurn == s.turn.currentTurn
      && MeOf(t).points == MeOf(s).points + bonus
      && OppOf(t).points == OppOf(s).points + bonus
      && MeOf(t).dominationTurnsLeft ==
           (if MeOf(s).dominationTurnsLeft > 0 then MeOf(s).dominationTurnsLeft - 1 else MeOf(s).dominationTurnsLeft)
  {
    EndTurnEffect(s, bonus);
    EndTurnEffect(EndTurnState(s, bonus), bonus);
  }
}
