/**
 * Starting a game: `init` and `startGame` put two new players on an empty
 * board, `selectSkill` records each player's skill, and once both choices
 * are confirmed `setupInitialBoard` seeds a fountain in each player's
 * column band, three stones away from the players and the fountains, and
 * decides who moves first.  The original's random choices are passed in:
 * the generated dice, the index of each fountain in its zone, the index of
 * each stone in the list left to draw from, and the first player.
 */
module Setup {
  import opened Wrappers
  import opened Constants
  import opened Boards
  import opened Geometry
  import opened Players
  import opened Targets
  import opened Rules

  /** A player as `new Player(n, row, col)` creates it, with its dice queue filled. */
  function NewPlayer(start: Pos, queue: seq<int>): PlayerState
  {
    PlayerState(start.row, start.col, 0, None, queue, None, false, 0)
  }

  /**
   * `init`: an empty board with no bomb owners, new players at the start
   * cells with the dice `q1` and `q2`, player 1 to move, no roll, cross
   * moves, no flags, no highlights and no winner.  The phase and the
   * placement type are left as they were.
   */
  function InitState(s: GameState, q1: seq<int>, q2: seq<int>): GameState
  {
    GameState(EmptyCells(BOARD_SIZE), map[], NewPlayer(START1, q1), NewPlayer(START2, q2),
              s.turn.(currentTurn := 1, diceRoll := 0, lastMoveDirectionType := Cross, moveMode := Cross,
                      drillForSurvival := false, sniperAnimating := false),
              NoHighlights, None, None)
  }

  /** `startGame`: `init`, then the skill selection screen. */
  function StartGameState(s: GameState, q1: seq<int>, q2: seq<int>): GameState
  {
    var t := InitState(s, q1, q2);
    t.(turn := t.turn.(phase := SkillSelection))
  }

  /**
   * Whatever state a game is left in, starting a new one gives a state that
   * keeps the invariant: both players at their start cells on an empty
   * board, no points, full dice queues and no winner.
   */
  lemma StartGameOk(s: GameState, q1: seq<int>, q2: seq<int>)
    requires |q1| == 3 && |q2| == 3
    ensures var t := StartGameState(s, q1, q2);
      && StateOk(t) && t.turn.phase == SkillSelection && t.turn.currentTurn == 1
      && PosOf(t.p1) == START1 && PosOf(t.p2) == START2
      && t.p1.points == 0 && t.p2.points == 0 && t.winner.None?
      && forall p :: InBounds(p) ==> At(t.grid, p) == Empty
  {
    var t := StartGameState(s, q1, q2);
    assert At(t.grid, START1) == Empty && At(t.grid, START2) == Empty;
  }

  /** The grid with every cell of `cells` set to `m`, in order (one `setTile` each). */
  function PutAll(g: Grid, cells: seq<Pos>, m: Marker): (r: Grid)
    requires IsGrid(g) && forall i :: 0 <= i < |cells| ==> InBounds(cells[i])
    ensures IsGrid(r)
    ensures forall q :: InBounds(q) ==> At(r, q) == if q in cells then m else At(g, q)
    decreases |cells|
  {
    if |cells| == 0 then g
    else
      var init := cells[..|cells| - 1];
      assert forall q :: q in cells <==> q in init || q == cells[|cells| - 1];
      Put(PutAll(g, init, m), cells[|cells| - 1], m)
  }

  /** The fountain indices pick a cell of each player's zone. */
  predicate FountainPicksOk(s: GameState, pick1: nat, pick2: nat)
    requires IsGrid(s.grid)
  {
    pick1 < |FountainZone(s.grid, 1, PosOf(s.p1))| && pick2 < |FountainZone(s.grid, 2, PosOf(s.p2))|
  }

  /**
   * The two calls of `findValidFountainPosition`: player 1's fountain lies
   * in columns 0-2 and player 2's in columns 6-8, each more than three cells
   * (Chebyshev) from its player.
   */
  function Fountains(s: GameState, pick1: nat, pick2: nat): (f: (Pos, Pos))
    requires IsGrid(s.grid) && FountainPicksOk(s, pick1, pick2)
    ensures InBounds(f.0) && f.0.col < BOARD_SIZE / 2 - 1 && ChebyshevDistance(PosOf(s.p1), f.0) > 3
    ensures InBounds(f.1) && f.1.col >= BOARD_SIZE / 2 + 2 && ChebyshevDistance(PosOf(s.p2), f.1) > 3
  {
    var f1 := FountainZone(s.grid, 1, PosOf(s.p1))[pick1];
    var f2 := FountainZone(s.grid, 2, PosOf(s.p2))[pick2];
    FountainZoneIff(s.grid, 1, PosOf(s.p1), f1);
    FountainZoneIff(s.grid, 2, PosOf(s.p2), f2);
    (f1, f2)
  }

  /** The grid once both fountains are set; SeedingSound states where they go. */
  function FountainGrid(s: GameState, pick1: nat, pick2: nat): (g: Grid)
    requires IsGrid(s.grid) && FountainPicksOk(s, pick1, pick2)
    ensures IsGrid(g)
  {
    var (f1, f2) := Fountains(s, pick1, pick2);
    Put(Put(s.grid, f1, Fountain), f2, Fountain)
  }

  /** `getBannedPositions` for the chosen fountains and the players' cells. */
  function Banned(s: GameState, pick1: nat, pick2: nat): set<Pos>
    requires IsGrid(s.grid) && FountainPicksOk(s, pick1, pick2)
  {
    var (f1, f2) := Fountains(s, pick1, pick2);
    BannedPositions(f1, f2, PosOf(s.p1), PosOf(s.p2))
  }

  /** The cells the stones are drawn from. */
  function StoneCandidates(s: GameState, pick1: nat, pick2: nat): seq<Pos>
    requires IsGrid(s.grid) && FountainPicksOk(s, pick1, pick2)
  {
    Available(FountainGrid(s, pick1, pick2), Banned(s, pick1, pick2))
  }

  /** All the random choices of `setupInitialBoard` are usable. */
  predicate SeedPicksOk(s: GameState, pick1: nat, pick2: nat, picks: seq<nat>)
    requires IsGrid(s.grid)
  {
    FountainPicksOk(s, pick1, pick2) && PicksOk(|StoneCandidates(s, pick1, pick2)|, picks, 3)
  }

  /** The three stones of `getRandomPositions(3, banned)`; SeedingSound states the rules they keep. */
  function Stones(s: GameState, pick1: nat, pick2: nat, picks: seq<nat>): (r: seq<Pos>)
    requires IsGrid(s.grid) && SeedPicksOk(s, pick1, pick2, picks)
    ensures forall i :: 0 <= i < |r| ==> InBounds(r[i])
  {
    var avail := StoneCandidates(s, pick1, pick2);
    AvailableIff(FountainGrid(s, pick1, pick2), Banned(s, pick1, pick2));
    DrawSound(avail, picks, 3);
    Draw(avail, picks, 3)
  }

  /**
   * `setupInitialBoard`: both fountains are set, then the three stones,
   * and `first` moves first.
   */
  function SetupState(s: GameState, pick1: nat, pick2: nat, picks: seq<nat>, first: int): GameState
    requires IsGrid(s.grid) && SeedPicksOk(s, pick1, pick2, picks)
  {
    s.(grid := PutAll(FountainGrid(s, pick1, pick2), Stones(s, pick1, pick2, picks), Stone),
       turn := s.turn.(currentTurn := first))
  }

  /** The random choices of the seeding depend only on the grid and the players' cells. */
  lemma SeedPicksSamePlaces(s: GameState, t: GameState, pick1: nat, pick2: nat, picks: seq<nat>)
    requires IsGrid(s.grid) && t.grid == s.grid && PosOf(t.p1) == PosOf(s.p1) && PosOf(t.p2) == PosOf(s.p2)
    ensures SeedPicksOk(t, pick1, pick2, picks) <==> SeedPicksOk(s, pick1, pick2, picks)
  {
  }

  /** Three different cells of a list make it at least three long. */
  lemma ThreeInList(xs: seq<Pos>, a: Pos, b: Pos, c: Pos)
    requires a in xs && b in xs && c in xs && a != b && b != c && a != c
    ensures |xs| >= 3
  {
    var i :| 0 <= i < |xs| && xs[i] == a;
    var j :| 0 <= j < |xs| && xs[j] == b;
    var k :| 0 <= k < |xs| && xs[k] == c;
  }

  /** A cell of the middle column in the top three rows is left for the stones. */
  lemma MiddleCellFree(g: Grid, f1: Pos, f2: Pos, r: int)
    requires IsGrid(g) && f1.col < BOARD_SIZE / 2 - 1 && f2.col >= BOARD_SIZE / 2 + 2 && 0 <= r < 3
    ensures Pos(r, BOARD_SIZE / 2) in Available(g, BannedPositions(f1, f2, START1, START2))
  {
    var q := Pos(r, BOARD_SIZE / 2);
    var banned := BannedPositions(f1, f2, START1, START2);
    assert ChebyshevDistance(START1, q) > 1 && ChebyshevDistance(START2, q) > 1;
    assert q !in banned && InBounds(q);
    AvailableIff(g, banned);
  }

  /** With the players at their start cells, at least three cells are left for the stones. */
  lemma EnoughCandidates(g: Grid, f1: Pos, f2: Pos)
    requires IsGrid(g) && f1.col < BOARD_SIZE / 2 - 1 && f2.col >= BOARD_SIZE / 2 + 2
    ensures |Available(g, BannedPositions(f1, f2, START1, START2))| >= 3
  {
    MiddleCellFree(g, f1, f2, 0);
    MiddleCellFree(g, f1, f2, 1);
    MiddleCellFree(g, f1, f2, 2);
    ThreeInList(Available(g, BannedPositions(f1, f2, START1, START2)),
                Pos(0, BOARD_SIZE / 2), Pos(1, BOARD_SIZE / 2), Pos(2, BOARD_SIZE / 2));
  }

  /**
   * The seeding from the start cells: the fountains are where
   * `findValidFountainPosition` promises, exactly three different stones
   * are drawn, none of them on a fountain or next to (or on) a player, and
   * the new board holds the stones, then the fountains, and is otherwise
   * unchanged.
   */
  lemma SeedingSound(s: GameState, pick1: nat, pick2: nat, picks: seq<nat>)
    requires IsGrid(s.grid) && PosOf(s.p1) == START1 && PosOf(s.p2) == START2
    requires SeedPicksOk(s, pick1, pick2, picks)
    ensures var (f1, f2) := Fountains(s, pick1, pick2);
      var stones := Stones(s, pick1, pick2, picks);
      var g := SetupState(s, pick1, pick2, picks, 1).grid;
      && |stones| == 3 && NoDup(stones)
      && (forall q :: q in stones ==>
            q != f1 && q != f2 && ChebyshevDistance(START1, q) > 1 && ChebyshevDistance(START2, q) > 1)
      && (forall q :: InBounds(q) ==>
            At(g, q) == if q in stones then Stone else if q == f1 || q == f2 then Fountain else At(s.grid, q))
  {
    var (f1, f2) := Fountains(s, pick1, pick2);
    var g1, banned := FountainGrid(s, pick1, pick2), Banned(s, pick1, pick2);
    var avail := StoneCandidates(s, pick1, pick2);
    AvailableIff(g1, banned);
    DrawSound(avail, picks, 3);
    EnoughCandidates(g1, f1, f2);
  }

  /** A player who has not confirmed a skill yet records `skill` and confirms it. */
  function ChooseSkill(s: GameState, playerNum: int, skill: Skill): (t: GameState)
    ensures PosOf(t.p1) == PosOf(s.p1) && PosOf(t.p2) == PosOf(s.p2)
    ensures t.grid == s.grid && t.turn == s.turn
  {
    var ps := if playerNum == 1 then s.p1 else s.p2;
    var chosen := if ps.skillConfirmed then ps else ps.(specialSkill := Some(skill), skillConfirmed := true);
    if playerNum == 1 then s.(p1 := chosen) else s.(p2 := chosen)
  }

  /**
   * Choosing a skill keeps the invariant and confirms the chooser's skill,
   * which a confirmed player can no longer change.
   */
  lemma ChooseSkillKeepsOk(s: GameState, playerNum: int, skill: Skill)
    requires StateOk(s) && s.turn.phase == SkillSelection
    ensures var t := ChooseSkill(s, playerNum, skill);
      && StateOk(t)
      && (if playerNum == 1 then t.p1.skillConfirmed && t.p2 == s.p2 else t.p2.skillConfirmed && t.p1 == s.p1)
      && (s.p1.skillConfirmed ==> t.p1 == s.p1) && (s.p2.skillConfirmed ==> t.p2 == s.p2)
  {
    var t := ChooseSkill(s, playerNum, skill);
    assert Core(t);
  }

  /**
   * `selectSkill`: an unconfirmed player records the skill (and confirms
   * it); once both players have confirmed, the board is seeded and the
   * first roll is awaited.
   */
  function SelectSkillState(s: GameState, playerNum: int, skill: Skill, pick1: nat, pick2: nat, picks: seq<nat>, first: int): GameState
    requires IsGrid(s.grid) && SeedPicksOk(s, pick1, pick2, picks)
  {
    var s1 := ChooseSkill(s, playerNum, skill);
    if s1.p1.skillConfirmed && s1.p2.skillConfirmed then
      var s2 := SetupState(s1, pick1, pick2, picks, first);
      s2.(turn := s2.turn.(phase := Roll))
    else s1
  }

  /**
   * Seeding the board from the skill selection screen keeps the invariant
   * once the game moves on to the first roll: the stones avoid both
   * players and every bomb on the new board was already there.
   */
  lemma SetupKeepsOk(s: GameState, pick1: nat, pick2: nat, picks: seq<nat>, first: int)
    requires StateOk(s) && s.turn.phase == SkillSelection && (first == 1 || first == 2)
    requires SeedPicksOk(s, pick1, pick2, picks)
    ensures var t := SetupState(s, pick1, pick2, picks, first);
      StateOk(t.(turn := t.turn.(phase := Roll)))
  {
    SeedingSound(s, pick1, pick2, picks);
    var t := SetupState(s, pick1, pick2, picks, first);
    var g := t.grid;
    assert g == SetupState(s, pick1, pick2, picks, 1).grid;
    var stones := Stones(s, pick1, pick2, picks);
    var (f1, f2) := Fountains(s, pick1, pick2);
    assert START1 !in stones && START2 !in stones;
    assert At(g, START1) != Stone && At(g, START2) != Stone;
    assert BombsOwned(g, s.bombOwners) by {
      forall p | InBounds(p) && At(g, p) == Bomb
        ensures p in s.bombOwners
      {
        assert At(g, p) == if p in stones then Stone else if p == f1 || p == f2 then Fountain else At(s.grid, p);
      }
    }
  }

  /**
   * Selecting a skill keeps the invariant: until both have chosen, only a
   * skill changes; after the seeding nobody stands on a stone and the game
   * waits for `first` to roll.
   */
  lemma SelectSkillKeepsOk(s: GameState, playerNum: int, skill: Skill, pick1: nat, pick2: nat, picks: seq<nat>, first: int)
    requires StateOk(s) && s.turn.phase == SkillSelection && (first == 1 || first == 2)
    requires SeedPicksOk(s, pick1, pick2, picks)
    ensures var t := SelectSkillState(s, playerNum, skill, pick1, pick2, picks, first);
      && StateOk(t)
      && (t.p1.skillConfirmed && t.p2.skillConfirmed <==> t.turn.phase == Roll)
      && (t.turn.phase == Roll ==> t.turn.currentTurn == first)
  {
    var s1 := ChooseSkill(s, playerNum, skill);
    ChooseSkillKeepsOk(s, playerNum, skill);
    var t := SelectSkillState(s, playerNum, skill, pick1, pick2, picks, first);
    if s1.p1.skillConfirmed && s1.p2.skillConfirmed {
      SetupKeepsOk(s1, pick1, pick2, picks, first);
      var s2 := SetupState(s1, pick1, pick2, picks, first);
      assert t == s2.(turn := s2.turn.(phase := Roll));
    } else {
      assert t == s1;
    }
  }
}
