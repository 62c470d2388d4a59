# Nine Nine — a verified model of the rules engine

Nine Nine is a two-player board game on a 9x9 grid. Each turn a player rolls
a die from a queue of three (or banks one, or spends a banked one) and walks
that many cells in a straight line. Ice gives a free step, a Stone or the
opponent stops the walk, and a walk that reaches the edge can become a fall
off the cliff. After the move the player puts a Stone (or a Bomb or Ice, if
their special skill allows and they can pay) on a cross neighbour, or drills
an adjacent Stone away. Before the first turn each player picks one of eight
special skills; the board is then seeded with two fountains and three stones.
A player loses by being unable to move, by stepping on the opponent's bomb,
by falling off, by having nowhere to place, or to the opponent's Hitokiri or
Sniper.

This project models the rules engine of the original: the `Game` class
(`js/game.js`), the `Board` and `Player` classes (`js/board.js`,
`js/player.js`) and the constants (`js/constants.js`).

- **Constants** (`constants.dfy`): markers, phases, skills, costs, settings
  and the direction sets, with lemmas on their shape.
- **Board** (`board.dfy`) and **Player** (`player.dfy`): classes whose
  methods update their fields in place. Each method states its new state.
- **Games.Game** (`game.dfy`): the game class.
  - One method per operation of `js/game.js`, each proved against a pure
    transition function on a `GameState` snapshot (`St()`).
  - `HandleClick` dispatches a click to the handler of the current phase. It
    is proved to keep the game invariant `Rules.StateOk`.
- **Loops of the original as methods** (`scans.dfy`): the movement walk,
  duplicate removal, neighbour and board scans, the nearest-stone search,
  the Momonga landing search, the Sniper line check and the banned-cell
  blocks.
  - Each is proved equal to a specification function of `movement.dfy` or
    `targets.dfy`.
  - Lemmas there characterise those functions exactly ("a cell is offered
    if and only if ...").
- **Transition functions** (`rules.dfy`, `turns.dfy`, `setup.dfy`,
  `clicks.dfy`): one per operation, each with a lemma that it keeps
  `StateOk`.

`StateOk`, the invariant kept between any two clicks, says:

- both players stand on distinct on-board cells that hold no Stone;
- points and domination counters are never negative;
- every Bomb has a recorded owner;
- the game has a winner whenever it is over, and none while it is in play;
- both dice queues hold three dice while the game is in play;
- every highlight list (movable, fall, placeable, drill and skill-target
  tiles) is exactly what the board and the phase call for, and a target
  screen always has a target.

Modelling choices:

- The flat turn fields of the original (`currentTurn`, `phase`,
  `diceRoll`, `placementType`, `moveMode`, ...) are grouped into a `Turn`
  record. The highlight lists are grouped into a `Highlights` record. Both
  are single fields of the class.
- A click is a logical `Click` (a named button, a skill card or a board
  cell) instead of pixel coordinates.
- Random values are parameters:
  - the dice the generator would produce;
  - the fountain and stone picks, as indices into the candidate lists;
  - the coin for the first player.

  The `Luck` record carries the ones a click may use.
- A winner and its reason are a `WinReason(loser, reason)` value instead of
  the display string.
- The original's `player.js` has no definitions of `initDiceQueue`,
  `shiftDiceQueue`, `stockDice`, `useStock`, `hasStock`, `isDominated`,
  `setSpecialSkill` or the field `skillConfirmed`, which `js/game.js` calls.
  - They are modelled as members of `Players.Player` with the behaviour the
    calls rely on.
  - Their rows cite the calling lines.

## Model

| member | source | states |
|---|---|---|
| Constants.MarkerCharsDistinct | js/constants.js:36-42 | the five tile marker characters are pairwise distinct, so a tile reads back as the marker written |
| Constants.Directions | js/constants.js:113-131 | each move mode walks four distinct unit steps |
| Constants.CrossDirectionsAreOrthogonalSteps | js/constants.js:119-124 | CROSS_DIRECTIONS are exactly the four steps with one zero and one unit component |
| Constants.DiagonalDirectionsAreDiagonalSteps | js/constants.js:126-131 | DIAGONAL_DIRECTIONS are exactly the four steps with two unit components |
| Constants.SkillOrderListsEverySkillOnce | js/constants.js:90-95 | the selection order lists each of the eight skills exactly once |
| Constants.SkillCostKeysAreCostTableKeys | js/constants.js:78-110 | every skill's cost key is a key of SKILL_COSTS |
| Constants.DefaultsAreNonNegative | js/constants.js:45-49 | the default costs cover every key and no cost or setting is negative |
| Geometry.ManhattanDistance | js/game.js:150-152 | zero exactly for the same cell; never less than the row gap or the column gap |
| Geometry.ManhattanMetric | js/game.js:150-152 | the distance is symmetric and satisfies the triangle inequality |
| Geometry.ChebyshevDistance | js/game.js:154-156 | zero exactly for the same cell; at most the Manhattan distance and at least half of it |
| Geometry.StepTowardsEdge | js/game.js:239-271 | a step that stays on the board brings the edge in that direction one step closer, so every walk ends |
| Geometry.Band | js/game.js:90-105 | the nested row and column loops make nine rows of the band width, one cell per iteration |
| Geometry.BandMembers | js/game.js:90-105 | the band loops visit exactly the on-board cells of the band's columns |
| Geometry.BandNoDup | js/game.js:90-105 | the band loops visit no cell twice |
| Geometry.AllCells | js/game.js:134-140 | the whole-board scan visits every on-board cell and only those, 81 in all |
| Geometry.AllCellsNoDup | js/game.js:134-140 | the whole-board scan visits no cell twice |
| Boards.Put | js/board.js:27-33 | writing a cell changes that cell and no other |
| Boards.EmptyCells | js/board.js:9-18 | a new board is a size-by-size grid of Empty cells |
| Boards.Board.constructor | js/board.js:3-7 | a new board is all Empty with no bomb owners |
| Boards.Board.SetTile | js/board.js:27-33 | an on-board write changes exactly that cell, reports success exactly for on-board cells, keeps bomb owners and keeps every bomb owned unless a bomb is written |
| Boards.Board.SetBomb | js/board.js:35-42 | an on-board bomb changes exactly that cell, records its owner so that reading the owner back gives it, and keeps every bomb owned |
| Boards.Board.Reset | js/board.js:52-55 | a reset board is all Empty with no bomb owners |
| Boards.GetTileAgreesWithGrid | js/board.js:20-25 | reading a tile gives the grid value, and a position is valid exactly when it is on the board |
| Players.Player.constructor | js/player.js:3-10 | a new player stands on the start cell with no points, no skill, no dice, no stock and no domination |
| Players.Player.MoveTo | js/player.js:12-15 | only the position changes |
| Players.Player.AddPoints | js/player.js:17-19 | only the points change, by the amount |
| Players.Player.DeductPoints | js/player.js:21-27 | pays exactly when affordable; otherwise nothing changes; points never go negative |
| Players.Player.Reset | js/player.js:37-42 | back on the start cell with no points and no skill, nothing else changed |
| Players.Player.InitDiceQueue | js/game.js:47-48 | the queue becomes the three generated dice |
| Players.Player.ShiftDiceQueue | js/game.js:185 | the front die is returned and a new die is appended; the queue keeps its length |
| Players.Player.StockDice | js/game.js:199-200 | the bank holds the given die, replacing any earlier one |
| Players.Player.UseStock | js/game.js:209 | the banked die is returned and the bank empties |
| Players.Player.SetSpecialSkill | js/game.js:60-61 | the skill is recorded and confirmed |
| Movement.Collect | js/game.js:232-276 | each direction's walk adds at most one movable tile and at most one fall tile |
| Movement.RemoveDuplicates | js/game.js:296-304 | keeps the first occurrence of each cell, in order: same members, no repeats |
| Movement.WalkLanding | js/game.js:233-275 | a walk lands on a standable cell exactly k >= 1 steps from the start in its direction, and a fall tile is the last cell before the edge |
| Movement.CollectSound | js/game.js:232-276 | over distinct directions the collected cells are standable, in bounds and pairwise distinct |
| Movement.CollectMembers | js/game.js:232-276 | a cell is movable (falls) exactly when some direction's walk lands on it (falls from it) |
| Movement.MovableTilesSound | js/game.js:219-280 | every movable and fall tile is on the board, not a Stone and not either player's cell; no tile is both; neither list repeats |
| Movement.IceCountedOnce | js/game.js:264-268 | a straight walk never re-enters a cell, so every Ice cell entered adds exactly one free step |
| Movement.WalkFromIsIceWalk | js/game.js:233-275 | the walk from the player's cell is the reference walk with no Ice counted yet |
| Movement.ClearPathWalk | js/game.js:239-271 | on a clear path a walk with budget k goes exactly k steps |
| Movement.OpenBoardScenario | js/game.js:219-280 | on an empty board, a roll of 3 from (4,0) in cross mode reaches (4,3) and lists no fall tile |
| Movement.StoneBlocksScenario | js/game.js:253-258 | a Stone at (4,2) stops the walk from (4,0) at (4,1) |
| Movement.IceBonusScenario | js/game.js:264-268 | Ice at (4,1) turns a roll of 1 from (4,0) into a landing on (4,2) |
| Movement.NoFallWithoutStepScenario | js/game.js:245-250 | stepping off the board on the first step records no fall tile |
| Targets.Select | js/game.js:366-384 | the selection keeps exactly the candidates the query accepts, never more than there are |
| Targets.SelectNoDup | js/game.js:366-384 | selecting from a list without repeats gives a list without repeats |
| Targets.Around | js/game.js:450-452 | one cell per direction, each one step from the centre in that direction |
| Targets.CrossNeighbours | js/constants.js:119-124 | the cross neighbours of a cell are exactly the cells at Manhattan distance 1 |
| Targets.DiagonalNeighbours | js/constants.js:126-131 | the diagonal neighbours are exactly the cells one row and one column away |
| Targets.PlaceableTilesIff | js/game.js:357-395 | a cell is offered for placement if and only if it is an on-board cross neighbour, not the opponent's cell, and not a Stone (stone) or Empty (bomb, ice) |
| Targets.DrillTargetsIff | js/game.js:443-459 | a cell is a drill target if and only if it is an on-board cross neighbour holding a Stone |
| Targets.SuriashiTargetsIff | js/game.js:574-594 | a cell is a Suriashi target if and only if it is an on-board diagonal neighbour, not a Stone and not the opponent's cell |
| Targets.MeteorTargetsIff | js/game.js:603-623 | a cell is a Meteor target if and only if it is an on-board Empty cell under neither player |
| Targets.HitokiriIffAdjacent | js/game.js:553-563 | Hitokiri applies if and only if the opponent is at Manhattan distance 1 |
| Targets.SniperLine | js/game.js:532-538 | the cells between two aligned cells stay on the board and the line ends exactly on the target |
| Targets.StoneBlocksSniper | js/game.js:534-538 | a Stone strictly between shooter and target blocks the shot |
| Targets.NearestCorrect | js/game.js:632-651 | the scan's minimum is the least Stone distance seen, and it keeps exactly the Stones at that distance |
| Targets.NearestIff | js/game.js:632-651 | the kept Stones are exactly the scanned Stones at the least distance |
| Targets.NearestStonesIff | js/game.js:632-651 | `findNearestStones` returns exactly the Stones at the least Manhattan distance, none on a board without Stones |
| Targets.Candidates | js/game.js:665-668 | four candidates per nearest stone |
| Targets.CandidatesIff | js/game.js:665-668 | a cell is a candidate exactly when it is a cross neighbour of one of the stones |
| Targets.MomongaScanCorrect | js/game.js:663-678 | the seen set is the set of scanned cells and the targets are the scanned legal landings, each once |
| Targets.MomongaLandingsIff | js/game.js:663-678 | the landing scan keeps exactly the on-board, Stone-free cells under neither player next to one of the stones, each once |
| Targets.MomongaTargetsIff | js/game.js:653-683 | a cell is a Momonga target if and only if it is on the board, not a Stone, under neither player, and next to a nearest Stone; no target repeats |
| Targets.FountainBand | js/game.js:90-105 | each player's fountain band is a non-empty range of board columns |
| Targets.FountainZoneIff | js/game.js:86-106 | a cell is a fountain candidate if and only if it lies in the player's band and more than 3 cells (Chebyshev) from the player |
| Targets.FountainZonesFromStart | js/game.js:86-109 | from the start cells both players have a fountain candidate, and the two zones never overlap |
| Targets.Neighbourhood | js/game.js:121-125 | exactly the cells within Chebyshev distance 1 of the centre |
| Targets.BannedPositions | js/game.js:111-128 | banned are exactly both fountains and the cells within Chebyshev distance 1 of either player |
| Targets.AvailableIff | js/game.js:134-140 | the stone candidates are exactly the on-board cells that are not banned, each once |
| Targets.DrawStep | js/game.js:142-145 | one draw takes the picked candidate and draws the rest from what remains |
| Targets.DrawSound | js/game.js:130-148 | the drawn cells are distinct candidates, as many as asked for or as there are, whichever is fewer |
| Targets.DrawnCellsOnBoard | js/game.js:130-148 | every drawn stone lies on the board and is not banned |
| Scans.TileOf | js/board.js:20-25 | reading an on-board tile gives the grid value |
| Scans.WalkDirection | js/game.js:233-275 | the per-direction walk loop ends with the landing of the reference walk |
| Scans.CollectMoves | js/game.js:232-276 | the direction loop builds exactly the collected movable and fall tiles |
| Scans.RemoveDuplicatePositions | js/game.js:296-304 | the loop with its seen set keeps each cell's first occurrence, in order |
| Scans.ScanNeighbours | js/game.js:366-384 | the neighbour loop finds exactly the accepted neighbours, in direction order |
| Scans.ScanNeighbour | js/game.js:367-383 | one neighbour is kept exactly when it is on the board and the query accepts its tile |
| Scans.ScanBoard | js/game.js:611-618 | the row and column loops find exactly the accepted cells of the band, in scan order |
| Scans.ScanRow | js/game.js:612-617 | one row of the scan extends the cells found so far by that row's accepted cells |
| Scans.ScanCell | js/game.js:613-616 | one cell of the scan is kept exactly when the query accepts it |
| Scans.StoneAdjacent | js/game.js:346-354 | the loop reports whether some on-board cross neighbour holds a Stone, that is whether a drill target exists |
| Scans.FindNearestStones | js/game.js:632-651 | the loop returns the nearest-stone list of the specification, so exactly the nearest Stones |
| Scans.NearestRow | js/game.js:637-648 | one row of the search advances the running minimum and kept Stones as the specification does |
| Scans.NearestCell | js/game.js:638-647 | one cell lowers the minimum and restarts the list, or joins the list at equal distance |
| Scans.MomongaLandings | js/game.js:663-678 | the landing loops return exactly the specification's landings |
| Scans.MomongaStone | js/game.js:666-677 | one stone's direction loop advances the seen set and the landings as the specification does |
| Scans.MomongaDirection | js/game.js:666-676 | the neighbour of the stone in one cross direction advances the seen set and the landings by that one candidate |
| Scans.MomongaCandidate | js/game.js:667-676 | a seen cell is skipped; otherwise it is marked seen and kept exactly when it is a legal landing |
| Scans.CheckSniperCondition | js/game.js:516-540 | the loop answers the Sniper condition: aligned on a row, column or diagonal, at least 4 cells apart, no Stone strictly between |
| Scans.LineClear | js/game.js:534-539 | the line-of-sight loop answers true exactly when no cell before step `dist` along the heading holds a Stone |
| Scans.CheckHitokiriCondition | js/game.js:553-563 | true if and only if the opponent is one cross step away |
| Scans.AddNeighbourhood | js/game.js:121-125 | the 3x3 block around the cell is added to the banned set, nothing else |
| Rules.StartStateOk | js/game.js:3-26 | a new game on an empty board satisfies the invariant |
| Rules.GameOverFirstCallWins | js/game.js:719-726 | the first call records the winner, the other player as loser, and the GameOver phase; later calls change nothing |
| Rules.GameOverKeepsOk | js/game.js:719-726 | ending the game keeps the invariant |
| Rules.GameOverEndsOk | js/game.js:719-726 | ending an undecided game from any consistent board gives a state satisfying the invariant |
| Rules.PutKeepsBombsOwned | js/board.js:27-33 | writing anything but a Bomb keeps every bomb owned |
| Rules.PutBombKeepsBombsOwned | js/board.js:35-42 | a Bomb written with its owner keeps every bomb owned |
| Rules.EndTurnEffect | js/game.js:694-708 | the turn passes; the incoming player gains the bonus; only the outgoing player's domination counts down; board, positions and queues stay; every highlight list and the active skill clear |
| Rules.EndTurnKeepsOk | js/game.js:694-708 | ending a turn in play restores the invariant |
| Rules.EndTurnTwice | js/game.js:694-708 | after two turn ends the same player moves; each player gained the bonus once; the mover's domination went down by one |
| Turns.LandGrid | js/game.js:310-334 | landing empties the cell of a Bomb or Fountain and leaves every other cell alone |
| Turns.LandState | js/game.js:306-340 | the mover reaches the cell and pays for a diagonal move only if affordable; a Fountain pays its pickup; the opponent and all other cells are untouched |
| Turns.FindPlaceableKeepsOk | js/game.js:357-395 | showing the placeable cells keeps the invariant: some cell is offered, or the player drills an adjacent Stone, or the game ends |
| Turns.RollKeepsOk | js/game.js:182-191 | a roll keeps the invariant: the mover has the move lists or has lost |
| Turns.RollLosesIffBlocked | js/game.js:182-191 | a roll ends the game, the opponent winning because the mover cannot move, exactly when the mover is blocked in both modes with the rolled die; otherwise the Move phase starts in cross mode with that die |
| Turns.UseStockLosesIffBlocked | js/game.js:205-217 | spending the banked die loses exactly when the mover is blocked with that die, otherwise moves on to the Move phase with it; the bank is empty afterwards |
| Turns.StockKeepsOk | js/game.js:193-203 | banking a die keeps the invariant |
| Turns.UseStockKeepsOk | js/game.js:205-217 | spending the banked die keeps the invariant |
| Turns.ToggleKeepsOk | js/game.js:282-294 | switching move mode keeps the invariant; the lists follow the new mode |
| Turns.FindMovableKeepsOk | js/game.js:219-280 | recomputing the move lists in the Move phase restores the invariant |
| Turns.LandKeepsCore | js/game.js:306-340 | landing on a standable cell keeps the board and player part of the invariant |
| Turns.MoveKeepsOk | js/game.js:306-340 | a move to a listed tile keeps the invariant: the mover steps on a foreign bomb and loses, or lands and places |
| Turns.ForeignBombLoses | js/game.js:310-316 | stepping on a bomb the mover does not own ends the game for the opponent, reason bomb, with the mover and the board left where they were |
| Turns.MoveLands | js/game.js:306-340 | any other move puts the mover on the chosen cell with LandState's record and board and the opponent untouched, then starts placing a Stone: the placement type is stone and the phase is Place, or DrillTarget or GameOver when no cell is free; a GameOver carries only the no-place reason |
| Turns.FindPlaceableKeepsPlayers | js/game.js:357-395 | looking for placeable cells moves nobody, leaves the board and placement type alone, and can only switch to drilling or end the game with the no-place reason |
| Turns.UnaffordableRefused | js/game.js:193-203 | banking a die, switching to diagonal moves (lines 282-287), a paid placement type (lines 416-422) and the drill (lines 461-463) are refused with the state unchanged when unaffordable; banking and switching are refused for that reason only |
| Turns.SkillUnaffordableRefused | js/game.js:479-483 | a dominated player's skill is refused; domination (line 508), Sniper (line 544), Hitokiri (line 567), Suriashi (line 576), Meteor (line 605), Momonga (line 655) and the activated skill are refused with the state unchanged when unaffordable; domination for that reason only |
| Turns.PlaceKeepsOk | js/game.js:397-414 | placing on a listed cell keeps the invariant: no player ends under a Stone and a Bomb gets its owner |
| Turns.PutAndEndKeepsOk | js/game.js:397-414 | putting a marker on a cell under neither player, paying and ending the turn keeps the invariant |
| Turns.SetPlacementKeepsOk | js/game.js:416-441 | choosing a placement type keeps the invariant, whether refused, falling back to stone, or accepted |
| Turns.UseDrillKeepsOk | js/game.js:461-472 | drilling a listed Stone keeps the invariant |
| Turns.DominationKeepsOk | js/game.js:506-514 | Domination keeps the invariant |
| Turns.SniperKeepsOk | js/game.js:542-551 | starting the Sniper shot keeps the invariant |
| Turns.HitokiriKeepsOk | js/game.js:565-572 | Hitokiri keeps the invariant |
| Turns.TargetSkillKeepsOk | js/game.js:574-683 | activating Suriashi, Meteor or Momonga keeps the invariant; a target screen always has a target |
| Turns.ActivateSkillKeepsOk | js/game.js:479-504 | activating the player's skill keeps the invariant |
| Turns.RelocateKeepsOk | js/game.js:596-601 | a Suriashi or Momonga move onto a cell with no Stone and no opponent restores the invariant |
| Turns.MeteorKeepsOk | js/game.js:625-630 | a Meteor on a cell under neither player restores the invariant |
| Turns.ExecuteSkillKeepsOk | js/game.js:596-692 | carrying out a targeted skill on a listed cell keeps the invariant |
| Turns.CancelSkillKeepsOk | js/game.js:962-970 | cancelling the target screen keeps the invariant |
| Setup.StartGameOk | js/game.js:52-56 | a new game from any state satisfies the invariant, on the skill screen; both players are on their start cells with no points, the board is empty, and there is no winner |
| Setup.PutAll | js/game.js:80-82 | after the loop each listed cell holds the marker and every other cell is unchanged |
| Setup.Fountains | js/game.js:72-73 | player 1's fountain is in columns 0-2 and player 2's in columns 6-8, each more than 3 cells from its player |
| Setup.FountainGrid | js/game.js:74-75 | the fountain board stays a 9x9 grid |
| Setup.Stones | js/game.js:78-79 | every drawn stone is on the board |
| Setup.SeedPicksSamePlaces | js/game.js:70-84 | the seeding's random choices depend only on the board and the players' cells |
| Setup.MiddleCellFree | js/game.js:111-148 | each of the top three middle-column cells stays a stone candidate |
| Setup.EnoughCandidates | js/game.js:111-148 | at least three cells are always left for the stones |
| Setup.SeedingSound | js/game.js:70-84 | exactly three distinct stones, none on a fountain or within one cell of a player; the board holds the stones, the fountains, and is otherwise unchanged |
| Setup.ChooseSkill | js/game.js:59-62 | recording a skill changes neither the board, the positions nor the turn |
| Setup.ChooseSkillKeepsOk | js/game.js:59-62 | choosing keeps the invariant and confirms the chooser; a confirmed player's skill never changes |
| Setup.SetupKeepsOk | js/game.js:70-84 | seeding the board keeps the invariant once the first roll is awaited |
| Setup.SelectSkillKeepsOk | js/game.js:58-68 | selecting keeps the invariant; play starts (with `first` to move) exactly when both players have confirmed |
| Clicks.ClickKeepsOk | js/game.js:738-759 | every click, in every phase, keeps the invariant |
| Clicks.ScreenChangeKeepsOk | js/game.js:795-823 | moving between the screens outside a game keeps the invariant |
| Clicks.ScreenClickKeepsOk | js/game.js:795-823 | clicks on the start, settings and game-over screens keep the invariant |
| Clicks.PlayClickKeepsOk | js/game.js:825-994 | clicks during a turn keep the invariant |
| Clicks.SkillSelectionClickKeepsOk | js/game.js:761-793 | skill-card clicks keep the invariant |
| Clicks.SkillTargetClickKeepsOk | js/game.js:959-994 | clicks on the skill-target screen keep the invariant |
| Clicks.CancelClickKeepsOk | js/game.js:962-970 | the Stone button on the target screen keeps the invariant |
| Clicks.TargetClickKeepsOk | js/game.js:972-991 | a listed target cell keeps the invariant |
| Clicks.RollClickKeepsOk | js/game.js:825-861 | Roll and Stock clicks keep the invariant |
| Clicks.MoveClickKeepsOk | js/game.js:863-889 | Move-phase clicks keep the invariant |
| Clicks.PlaceClickKeepsOk | js/game.js:891-923 | Place-phase clicks keep the invariant |
| Clicks.DrillClickKeepsOk | js/game.js:925-957 | Drill-phase clicks keep the invariant |
| Clicks.UnhandledClickChangesNothing | js/game.js:738-1003 | a click no handler takes leaves the whole game unchanged |
| Clicks.FallClickLoses | js/game.js:863-889 | clicking a fall tile loses: the opponent wins and the reason is the fall |
| Clicks.DominatedOnlyRolls | js/game.js:825-861 | for a dominated player only the Roll button works, and it rolls |
| Clicks.CancelSkillIsFree | js/game.js:962-970 | cancelling costs nothing: board and players untouched, no active skill, stone placement resumes |
| Games.Game.constructor | js/game.js:3-26 | a new game on the start screen with an empty board satisfies the invariant |
| Games.Game.Init | js/game.js:31-50 | empty board, new players on their start cells with three dice each, player 1 to move, nothing highlighted |
| Games.Game.CreatePlayers | js/game.js:33-48 | two fresh players on their start cells, each with its three dice |
| Games.Game.StartGame | js/game.js:52-56 | a fresh game on the skill screen that satisfies the invariant |
| Games.Game.SelectSkill | js/game.js:58-68 | follows the skill-selection transition and keeps the invariant |
| Games.Game.ChooseAndSetup | js/game.js:58-68 | the steps of skill selection follow its transition |
| Games.Game.ConfirmSkill | js/game.js:59-62 | an unconfirmed player records and confirms the skill |
| Games.Game.SetupInitialBoard | js/game.js:70-84 | fountains and stones as the seeding transition gives, and `first` to move |
| Games.Game.SeedBoard | js/game.js:72-82 | only the board changes, to the seeded board |
| Games.Game.SeedStones | js/game.js:78-82 | the drawn stones are set on the board and nothing else changes |
| Games.Game.DrawStones | js/game.js:78-79 | the stones are the draw from the unbanned cells, all on the board |
| Games.Game.PlaceFountains | js/game.js:72-75 | the two fountains are the ones the zones give, and the board gains them |
| Games.Game.PlaceStones | js/game.js:80-82 | the setTile loop sets every drawn cell to Stone and nothing else |
| Games.Game.FindValidFountainPosition | js/game.js:86-109 | the picked candidate of the player's band, more than 3 cells from the player |
| Games.Game.GetBannedPositions | js/game.js:111-128 | the banned set is both fountains plus the blocks around both players |
| Games.Game.GetRandomPositions | js/game.js:130-148 | the result is the draw without replacement from the unbanned cells in scan order |
| Games.Game.ClearHighlights | js/game.js:710-717 | every highlight list empties and no skill stays active |
| Games.Game.GameOver | js/game.js:719-726 | only the first call records a winner |
| Games.Game.EndTurn | js/game.js:694-708 | follows the end-of-turn transition, whose effect EndTurnEffect states |
| Games.Game.FindMovableTiles | js/game.js:219-280 | both lists become the resolver's movable and fall tiles for the current mode and roll |
| Games.Game.HasAnyMovableTile | js/game.js:158-180 | true exactly when the player is not blocked in either mode; the saved mode and its lists are restored |
| Games.Game.TryMoveMode | js/game.js:158-180 | one probe reports whether the mode offers any tile |
| Games.Game.RollDice | js/game.js:182-191 | follows the roll transition: the game ends exactly when the mover is blocked (RollLosesIffBlocked), otherwise the Move phase starts |
| Games.Game.DrawDie | js/game.js:183-185 | back to cross mode; the front die becomes the roll and the queue is refilled |
| Games.Game.StockCurrentDice | js/game.js:193-203 | follows the stock transition; refused exactly when unaffordable (UnaffordableRefused) |
| Games.Game.UseStockedDice | js/game.js:205-217 | the banked die replaces the front die, the bank empties, and the roll follows: a loss exactly when blocked with that die (UseStockLosesIffBlocked) |
| Games.Game.ToggleMoveMode | js/game.js:282-294 | diagonal only when affordable; back to cross always |
| Games.Game.FindDrillTargets | js/game.js:443-459 | the drill targets become the adjacent Stones |
| Games.Game.CanUseDrillToSurvive | js/game.js:342-355 | true exactly when not dominated, the drill is affordable and a Stone is adjacent |
| Games.Game.FindPlaceableTiles | js/game.js:357-395 | follows the placeable transition: cells offered, or drill to survive, or game over |
| Games.Game.DrillOrLose | js/game.js:386-394 | with no cell to place on, the player drills if they can and loses otherwise |
| Games.Game.PlaceObject | js/game.js:397-414 | follows the placement transition: a paid placement ends the turn |
| Games.Game.SetPlacementType | js/game.js:416-441 | follows the placement-type transition |
| Games.Game.EnterDrill | js/game.js:426-434 | with an adjacent Stone the game waits for a drill target; otherwise stone placement resumes |
| Games.Game.UseDrill | js/game.js:461-472 | a paid drill empties the cell and ends the turn |
| Games.Game.PayAndPut | js/game.js:400-413 | the marker goes down exactly when paid for, with a bomb owned by the current player; otherwise nothing changes |
| Games.Game.PutTile | js/board.js:27-33 | only the board changes, at that cell |
| Games.Game.PutBomb | js/board.js:35-42 | the cell becomes a Bomb owned by the current player |
| Games.Game.MovePlayer | js/game.js:306-340 | follows the move transition: a foreign bomb loses in place (ForeignBombLoses), any other move lands on the cell (MoveLands) |
| Games.Game.StartPlacing | js/game.js:319-339 | stone placement begins with fresh highlights |
| Games.Game.Arrive | js/game.js:307-328 | the mover moves and pays for a diagonal move when affordable |
| Games.Game.Land | js/game.js:306-334 | follows the landing function, whose effect LandState states |
| Games.Game.ActivateSkill | js/game.js:479-504 | follows the skill activation transition |
| Games.Game.UseDomination | js/game.js:506-514 | when paid, the opponent is dominated for three turns and the turn ends |
| Games.Game.ActivateSniper | js/game.js:542-551 | when affordable and in line of fire, paid and the shot starts |
| Games.Game.ActivateHitokiri | js/game.js:565-572 | when affordable and adjacent, paid and won |
| Games.Game.ActivateSuriashi | js/game.js:574-594 | the Suriashi targets are listed as the target transition gives |
| Games.Game.ActivateMeteor | js/game.js:603-623 | the Meteor targets are listed as the target transition gives |
| Games.Game.ActivateMomonga | js/game.js:653-683 | refused with no Stone; otherwise the Momonga targets are listed |
| Games.Game.ShowSkillTargets | js/game.js:590-593 | with a target the game waits for the pick; otherwise refused |
| Games.Game.ExecuteSuriashi | js/game.js:596-601 | paid when affordable, moved, turn ended |
| Games.Game.ExecuteMeteor | js/game.js:625-630 | paid when affordable, a Stone falls there, turn ended |
| Games.Game.ExecuteMomonga | js/game.js:685-692 | paid when affordable, moved, turn ended |
| Games.Game.CancelSkill | js/game.js:962-970 | the skill is dropped and stone placement resumes |
| Games.Game.HandleClick | js/game.js:738-759 | follows the click transition of the current phase and keeps the invariant |
| Games.Game.HandleStartScreenClick | js/game.js:795-809 | follows the start-screen transition |
| Games.Game.HandleSettingsClick | js/game.js:811-823 | follows the settings transition |
| Games.Game.HandleSkillSelectionClick | js/game.js:761-793 | follows the skill-selection transition |
| Games.Game.PickSkillCard | js/game.js:761-793 | a live card selects its player's skill |
| Games.Game.HandleRollPhaseClick | js/game.js:825-861 | follows the roll-phase transition |
| Games.Game.HandleMovePhaseClick | js/game.js:863-889 | follows the move-phase transition |
| Games.Game.HandlePlacePhaseClick | js/game.js:891-923 | follows the place-phase transition |
| Games.Game.HandleDrillPhaseClick | js/game.js:925-957 | follows the drill-phase transition |
| Games.Game.HandleSkillTargetClick | js/game.js:959-994 | follows the skill-target transition |
| Games.Game.HandleGameOverClick | js/game.js:996-1003 | follows the game-over transition |

## Left out

- Drawing, colours, `SKILL_INFO` display names, hover state and the screen layout constants: they are rendering, not rules.
- Pixel geometry of the buttons and `getCellFromCoords`: a click is a logical button or board cell.
- `generateDiceValue` and `Math.random`: every random value is a parameter. The model does not constrain dice values to 1-3.
- The settings panel and `settings.resetAll`: the Reset button is modelled as handled with no change to the game. Costs and settings are a fixed `Config` per game.
- `gameMode`, player colours and `maxPointsDisplay` (display only).
- The Sniper animation clock (`sniperAnimStart`): the shot sets `sniperAnimating`. The win recorded when the animation ends is not in the modelled files and is not modelled.
- The unused replay phase: no code enters it.
- `winReason` text: modelled as a `WinReason(loser, reason)` value.
- Games.Game.constructor: creates the two players at their start cells at once, where the original sets them to null until `init`. The players are never read before `init`, so every later state agrees.
