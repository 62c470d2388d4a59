/**
 * The game's board scans as the loops they are: the walk in one direction,
 * the collection of movable and fall tiles over the directions of a move
 * mode, duplicate removal, and the neighbour and whole-board scans behind
 * placement, drilling and the skills.  Each loop reads the board object and
 * is proved to compute the value function of `Movement` or `Targets` that
 * states what it finds.
 */
module Scans {
  import opened Wrappers
  import opened Constants
  import opened Boards
  import opened Geometry
  import opened Movement
  import opened Targets

  /** A standard board whose grid value mirrors its tiles. */
  ghost predicate Standard(board: Board)
    reads board, board.tiles
  {
    board.Valid() && board.size == BOARD_SIZE
  }

  /** The tile at an on-board cell, read from the board object. */
  function TileOf(board: Board, p: Pos): (m: Marker)
    reads board, board.tiles
    requires Standard(board) && InBounds(p)
    ensures IsGrid(board.cells) && m == At(board.cells, p)
  {
    board.GetTile(p.row, p.col).value
  }

  /**
   * The inner loop of `findMovableTiles` for one direction: step while the
   * budget lasts, stop in front of a Stone or the opponent, report the last
   * cell before the edge as a fall tile, and let each Ice cell entered for
   * the first time add a step.
   */
  method WalkDirection(board: Board, me: Pos, other: Pos, d: Dir, roll: int) returns (l: Landing)
    requires Standard(board) && InBounds(me) && IsUnit(d)
    ensures IsGrid(board.cells) && l == WalkFrom(board.cells, me, other, d, roll)
  {
    ghost var g := board.cells;
    var steps := roll;
    var cur := me;
    var finalDest: Option<Pos> := None;
    var visitedIce: set<Pos> := {};
    var step := 1;
    while step <= steps
      invariant InBounds(cur)
      invariant finalDest.None? ==> cur == me
      invariant finalDest.Some? ==> finalDest.value == cur
      invariant Walk(g, other, d, cur, finalDest.Some?, steps - step + 1, visitedIce) == WalkFrom(g, me, other, d, roll)
      decreases EdgeDistance(cur, d)
    {
      var next := Step(cur, d);
      if !board.IsValidPosition(next.row, next.col) {
        l := if finalDest.Some? then Fall(cur) else Stay;
        return;
      }
      var tile := TileOf(board, next);
      if tile == Stone || next == other {
        l := if finalDest.Some? then Reach(cur) else Stay;
        return;
      }
      StepTowardsEdge(cur, d);
      finalDest := Some(next);
      cur := next;
      if tile == Ice && next !in visitedIce {
        steps := steps + 1;
        visitedIce := visitedIce + {next};
      }
      step := step + 1;
    }
    l := if finalDest.Some? then Reach(cur) else Stay;
  }

  /**
   * The outer loop of `findMovableTiles`: each direction's walk adds its
   * landing to the movable tiles or its fall tile to the fall tiles.
   */
  method CollectMoves(board: Board, me: Pos, other: Pos, dirs: seq<Dir>, roll: int)
    returns (movable: seq<Pos>, falls: seq<Pos>)
    requires Standard(board) && InBounds(me)
    requires forall d :: d in dirs ==> IsUnit(d)
    ensures IsGrid(board.cells) && (movable, falls) == Collect(board.cells, me, other, dirs, roll)
  {
    movable, falls := [], [];
    for i := 0 to |dirs|
      invariant IsGrid(board.cells)
      invariant (movable, falls) == Collect(board.cells, me, other, dirs[..i], roll)
    {
      assert dirs[..i + 1][..i] == dirs[..i];
      var l := WalkDirection(board, me, other, dirs[i], roll);
      match l
      case Reach(p) => movable := movable + [p];
      case Fall(p) => falls := falls + [p];
      case Stay =>
    }
    assert dirs[..|dirs|] == dirs;
  }

  /** `removeDuplicatePositions`: keeps each cell's first occurrence, remembering the cells seen. */
  method RemoveDuplicatePositions(positions: seq<Pos>) returns (r: seq<Pos>)
    ensures r == RemoveDuplicates(positions)
  {
    var seen: set<Pos> := {};
    r := [];
    for i := 0 to |positions|
      invariant r == RemoveDuplicates(positions[..i])
      invariant forall p :: p in seen <==> p in positions[..i]
    {
      assert positions[..i + 1][..i] == positions[..i];
      assert positions[..i + 1] == positions[..i] + [positions[i]];
      if positions[i] !in seen {
        seen := seen + {positions[i]};
        r := r + [positions[i]];
      }
    }
    assert positions[..|positions|] == positions;
  }

  /**
   * The neighbour loops of `findPlaceableTiles`, `findDrillTargets` and
   * `activateSuriashi`: the on-board cells one step away in each direction
   * of `dirs` that the query accepts, in direction order.
   */
  method ScanNeighbours(board: Board, q: CellQuery, p: Pos, dirs: seq<Dir>) returns (found: seq<Pos>)
    requires Standard(board)
    ensures IsGrid(board.cells) && found == Select(board.cells, q, Around(p, dirs))
  {
    found := [];
    for i := 0 to |dirs|
      invariant IsGrid(board.cells)
      invariant found == Select(board.cells, q, Around(p, dirs[..i]))
    {
      found := ScanNeighbour(board, q, p, dirs, i, found);
    }
    assert dirs[..|dirs|] == dirs;
  }

  /** The loop body for direction `i`: keep the neighbour when it is on the board and the query accepts its tile. */
  method ScanNeighbour(board: Board, q: CellQuery, p: Pos, dirs: seq<Dir>, i: nat, before: seq<Pos>) returns (found: seq<Pos>)
    requires Standard(board) && i < |dirs|
    requires IsGrid(board.cells) && before == Select(board.cells, q, Around(p, dirs[..i]))
    ensures found == Select(board.cells, q, Around(p, dirs[..i + 1]))
  {
    var n := Step(p, dirs[i]);
    AroundSnoc(p, dirs, i);
    SelectSnoc(board.cells, q, Around(p, dirs[..i]), n);
    var keep := board.IsValidPosition(n.row, n.col) && Admits(q, n, TileOf(board, n));
    assert keep == Keeps(board.cells, q, n);
    found := if keep then before + [n] else before;
  }

  /**
   * The row-by-row, column-by-column loops of `activateMeteor` and
   * `findValidFountainPosition`: every cell in columns `lo` up to (but
   * excluding) `hi` that the query accepts, in scan order.
   */
  method ScanBoard(board: Board, q: CellQuery, lo: nat, hi: nat) returns (found: seq<Pos>)
    requires Standard(board) && lo < hi <= BOARD_SIZE
    ensures IsGrid(board.cells) && found == Select(board.cells, q, Band(lo, hi))
  {
    ScanPrefixEnds(lo, hi);
    found := [];
    for r := 0 to BOARD_SIZE
      invariant found == Select(board.cells, q, ScanPrefix(lo, hi, r, lo))
    {
      found := ScanRow(board, q, lo, hi, r, found);
      ScanPrefixNextRow(lo, hi, r);
    }
  }

  /** The column loop for row `r`, extending the cells `before` found in earlier rows. */
  method ScanRow(board: Board, q: CellQuery, lo: nat, hi: nat, r: nat, before: seq<Pos>) returns (found: seq<Pos>)
    requires Standard(board) && lo < hi <= BOARD_SIZE && r < BOARD_SIZE
    requires IsGrid(board.cells) && before == Select(board.cells, q, ScanPrefix(lo, hi, r, lo))
    ensures found == Select(board.cells, q, ScanPrefix(lo, hi, r, hi))
  {
    found := before;
    for c := lo to hi
      invariant found == Select(board.cells, q, ScanPrefix(lo, hi, r, c))
    {
      found := ScanCell(board, q, lo, hi, r, c, found);
    }
  }

  /** The loop body for the cell at row `r`, column `c`: keep it when the query accepts its tile. */
  method ScanCell(board: Board, q: CellQuery, lo: nat, hi: nat, r: nat, c: nat, before: seq<Pos>) returns (found: seq<Pos>)
    requires Standard(board) && lo <= c < hi <= BOARD_SIZE && r < BOARD_SIZE
    requires IsGrid(board.cells) && before == Select(board.cells, q, ScanPrefix(lo, hi, r, c))
    ensures found == Select(board.cells, q, ScanPrefix(lo, hi, r, c + 1))
  {
    var p := Pos(r, c);
    ScanPrefixStep(lo, hi, r, c);
    SelectSnoc(board.cells, q, ScanPrefix(lo, hi, r, c), p);
    found := if Admits(q, p, TileOf(board, p)) then before + [p] else before;
  }

  /**
   * The neighbour loop of `canUseDrillToSurvive`: whether some on-board
   * cross neighbour of `me` holds a Stone, stopping at the first one.
   */
  method StoneAdjacent(board: Board, me: Pos) returns (found: bool)
    requires Standard(board)
    ensures IsGrid(board.cells) && found == (|DrillTargets(board.cells, me)| > 0)
  {
    ghost var around := Around(me, CROSS_DIRECTIONS);
    for i := 0 to |CROSS_DIRECTIONS|
      invariant Select(board.cells, StoneCell, around[..i]) == []
    {
      var n := Pos(me.row + CROSS_DIRECTIONS[i].dr, me.col + CROSS_DIRECTIONS[i].dc);
      assert around[..i + 1] == around[..i] + [n];
      SelectSnoc(board.cells, StoneCell, around[..i], n);
      if board.IsValidPosition(n.row, n.col) && TileOf(board, n) == Stone {
        assert n in DrillTargets(board.cells, me);
        return true;
      }
    }
    assert around[..|CROSS_DIRECTIONS|] == around;
    return false;
  }

  /**
   * `findNearestStones`: the row-major scan that keeps the smallest
   * Manhattan distance to a Stone seen so far (none before the first) and
   * the Stones at that distance.
   */
  method FindNearestStones(board: Board, me: Pos) returns (stones: seq<Pos>)
    requires Standard(board)
    ensures IsGrid(board.cells) && stones == NearestStones(board.cells, me)
  {
    ScanPrefixEnds(0, BOARD_SIZE);
    var minDist: Option<nat> := None;
    stones := [];
    for r := 0 to BOARD_SIZE
      invariant (minDist, stones) == Nearest(board.cells, me, ScanPrefix(0, BOARD_SIZE, r, 0))
    {
      minDist, stones := NearestRow(board, me, r, minDist, stones);
      ScanPrefixNextRow(0, BOARD_SIZE, r);
    }
  }

  /** The column loop of `findNearestStones` for row `r`. */
  method NearestRow(board: Board, me: Pos, r: nat, minDist: Option<nat>, stones: seq<Pos>)
    returns (minDist': Option<nat>, stones': seq<Pos>)
    requires Standard(board) && r < BOARD_SIZE && IsGrid(board.cells)
    requires (minDist, stones) == Nearest(board.cells, me, ScanPrefix(0, BOARD_SIZE, r, 0))
    ensures (minDist', stones') == Nearest(board.cells, me, ScanPrefix(0, BOARD_SIZE, r, BOARD_SIZE))
  {
    minDist', stones' := minDist, stones;
    for c := 0 to BOARD_SIZE
      invariant (minDist', stones') == Nearest(board.cells, me, ScanPrefix(0, BOARD_SIZE, r, c))
    {
      minDist', stones' := NearestCell(board, me, r, c, minDist', stones');
    }
  }

  /** The loop body of `findNearestStones` for the cell at row `r`, column `c`. */
  method NearestCell(board: Board, me: Pos, r: nat, c: nat, minDist: Option<nat>, stones: seq<Pos>)
    returns (minDist': Option<nat>, stones': seq<Pos>)
    requires Standard(board) && r < BOARD_SIZE && c < BOARD_SIZE && IsGrid(board.cells)
    requires (minDist, stones) == Nearest(board.cells, me, ScanPrefix(0, BOARD_SIZE, r, c))
    ensures (minDist', stones') == Nearest(board.cells, me, ScanPrefix(0, BOARD_SIZE, r, c + 1))
  {
    var p := Pos(r, c);
    ScanPrefixStep(0, BOARD_SIZE, r, c);
    NearestSnoc(board.cells, me, ScanPrefix(0, BOARD_SIZE, r, c), p);
    minDist', stones' := minDist, stones;
    if TileOf(board, p) == Stone {
      var dist := ManhattanDistance(me, p);
      if minDist.None? || dist < minDist.value {
        minDist', stones' := Some(dist), [p];
      } else if dist == minDist.value {
        stones' := stones + [p];
      }
    }
  }

  /**
   * The landing loop of `activateMomonga`: for each stone, for each cross
   * direction, a cell already seen is skipped; otherwise it is marked seen
   * and kept when it is on the board, neither player's cell, and not a Stone.
   */
  method MomongaLandings(board: Board, me: Pos, other: Pos, stones: seq<Pos>) returns (targets: seq<Pos>)
    requires Standard(board)
    ensures IsGrid(board.cells) && targets == MomongaScan(board.cells, me, other, Candidates(stones)).0
  {
    var seen: set<Pos> := {};
    targets := [];
    for i := 0 to |stones|
      invariant (targets, seen) == MomongaScan(board.cells, me, other, Candidates(stones[..i]))
    {
      assert stones[..i + 1] == stones[..i] + [stones[i]];
      CandidatesSnoc(stones[..i], stones[i]);
      targets, seen := MomongaStone(board, me, other, Candidates(stones[..i]), stones[i], targets, seen);
    }
    assert stones[..|stones|] == stones;
  }

  /** The direction loop of `activateMomonga` for one stone, after the candidates `cands`. */
  method MomongaStone(board: Board, me: Pos, other: Pos, ghost cands: seq<Pos>, stone: Pos,
                      targets: seq<Pos>, seen: set<Pos>) returns (targets': seq<Pos>, seen': set<Pos>)
    requires Standard(board) && IsGrid(board.cells)
    requires (targets, seen) == MomongaScan(board.cells, me, other, cands)
    ensures (targets', seen') == MomongaScan(board.cells, me, other, cands + Around(stone, CROSS_DIRECTIONS))
  {
    targets', seen' := targets, seen;
    assert cands + Around(stone, CROSS_DIRECTIONS[..0]) == cands;
    for j := 0 to |CROSS_DIRECTIONS|
      invariant (targets', seen') == MomongaScan(board.cells, me, other, cands + Around(stone, CROSS_DIRECTIONS[..j]))
    {
      targets', seen' := MomongaDirection(board, me, other, cands, stone, j, targets', seen');
    }
    assert CROSS_DIRECTIONS[..|CROSS_DIRECTIONS|] == CROSS_DIRECTIONS;
  }

  /** The body of the direction loop of `activateMomonga`: the neighbour of `stone` in direction `j`. */
  method MomongaDirection(board: Board, me: Pos, other: Pos, ghost cands: seq<Pos>, stone: Pos, j: nat,
                          targets: seq<Pos>, seen: set<Pos>) returns (targets': seq<Pos>, seen': set<Pos>)
    requires Standard(board) && IsGrid(board.cells) && j < |CROSS_DIRECTIONS|
    requires (targets, seen) == MomongaScan(board.cells, me, other, cands + Around(stone, CROSS_DIRECTIONS[..j]))
    ensures (targets', seen') == MomongaScan(board.cells, me, other, cands + Around(stone, CROSS_DIRECTIONS[..j + 1]))
  {
    var c := Pos(stone.row + CROSS_DIRECTIONS[j].dr, stone.col + CROSS_DIRECTIONS[j].dc);
    ghost var before := cands + Around(stone, CROSS_DIRECTIONS[..j]);
    AroundAppend(cands, stone, CROSS_DIRECTIONS, j);
    assert c == Step(stone, CROSS_DIRECTIONS[j]);
    assert cands + Around(stone, CROSS_DIRECTIONS[..j + 1]) == before + [c];
    targets', seen' := MomongaCandidate(board, me, other, before, c, targets, seen);
  }

  /** The candidates after direction `j` are those before it plus that direction's neighbour. */
  lemma AroundAppend(cands: seq<Pos>, p: Pos, dirs: seq<Dir>, j: nat)
    requires j < |dirs|
    ensures cands + Around(p, dirs[..j + 1]) == cands + Around(p, dirs[..j]) + [Step(p, dirs[j])]
  {
    AroundSnoc(p, dirs, j);
  }

  /** The neighbours over the first `j + 1` directions end with the neighbour in direction `j`. */
  lemma AroundSnoc(p: Pos, dirs: seq<Dir>, j: nat)
    requires j < |dirs|
    ensures Around(p, dirs[..j + 1]) == Around(p, dirs[..j]) + [Step(p, dirs[j])]
  {
    assert dirs[..j + 1][..j] == dirs[..j];
  }

  /** The loop body of `activateMomonga` for the candidate cell `c`. */
  method MomongaCandidate(board: Board, me: Pos, other: Pos, ghost cands: seq<Pos>, c: Pos,
                          targets: seq<Pos>, seen: set<Pos>) returns (targets': seq<Pos>, seen': set<Pos>)
    requires Standard(board) && IsGrid(board.cells)
    requires (targets, seen) == MomongaScan(board.cells, me, other, cands)
    ensures (targets', seen') == MomongaScan(board.cells, me, other, cands + [c])
  {
    MomongaScanSnoc(board.cells, me, other, cands, c);
    targets', seen' := targets, seen;
    if c in seen {
      return;
    }
    seen' := seen + {c};
    if !board.IsValidPosition(c.row, c.col) || c == other || c == me {
      return;
    }
    if TileOf(board, c) == Stone {
      return;
    }
    targets' := targets + [c];
  }

  /**
   * `checkSniperCondition`: the opponent must share a row, column or
   * diagonal with the shooter, at least four cells away, and the loop looks
   * for a Stone on each cell strictly between them.
   */
  method CheckSniperCondition(board: Board, me: Pos, other: Pos) returns (ok: bool)
    requires Standard(board)
    ensures IsGrid(board.cells) && ok == SniperCondition(board.cells, me, other)
  {
    var dr, dc := other.row - me.row, other.col - me.col;
    if dr != 0 && dc != 0 && Abs(dr) != Abs(dc) {
      return false;
    }
    var dist := if Abs(dr) >= Abs(dc) then Abs(dr) else Abs(dc);
    assert dist == ChebyshevDistance(me, other);
    if dist < 4 {
      return false;
    }
    var stepR := if dr == 0 then 0 else dr / Abs(dr);
    var stepC := if dc == 0 then 0 else dc / Abs(dc);
    UnitQuotient(dr);
    UnitQuotient(dc);
    ok := LineClear(board, me, Heading(me, other), stepR, stepC, dist);
  }

  /** The loop of `checkSniperCondition`: whether no cell strictly before step `dist` holds a Stone. */
  method LineClear(board: Board, me: Pos, h: Dir, stepR: int, stepC: int, dist: int) returns (ok: bool)
    requires Standard(board) && stepR == h.dr && stepC == h.dc && -1 <= stepR <= 1 && -1 <= stepC <= 1 && dist >= 1
    ensures IsGrid(board.cells)
    ensures ok <==> forall j :: 1 <= j < dist ==> TileAt(board.cells, Along(me, h, j)) != Some(Stone)
  {
    for i := 1 to dist
      invariant forall j :: 1 <= j < i ==> TileAt(board.cells, Along(me, h, j)) != Some(Stone)
    {
      var r, c := me.row + stepR * i, me.col + stepC * i;
      GetTileAgreesWithGrid(board, r, c);
      ScaleIsProduct(stepR, i);
      ScaleIsProduct(stepC, i);
      assert Pos(r, c) == Along(me, h, i);
      if board.GetTile(r, c) == Some(Stone) {
        return false;
      }
    }
    return true;
  }

  /** `checkHitokiriCondition`: whether the opponent is one cross step from `me`. */
  method CheckHitokiriCondition(me: Pos, other: Pos) returns (ok: bool)
    ensures ok == HitokiriCondition(me, other)
  {
    ghost var around := Around(me, CROSS_DIRECTIONS);
    for i := 0 to |CROSS_DIRECTIONS|
      invariant forall j :: 0 <= j < i ==> around[j] != other
    {
      if me.row + CROSS_DIRECTIONS[i].dr == other.row && me.col + CROSS_DIRECTIONS[i].dc == other.col {
        assert around[i] == other;
        return true;
      }
    }
    return false;
  }

  /** The inner loops of `getBannedPositions`: the 3x3 block around `pos` added to `banned`. */
  method AddNeighbourhood(banned: set<Pos>, pos: Pos) returns (r: set<Pos>)
    ensures r == banned + Neighbourhood(pos)
  {
    r := banned;
    for dr := -1 to 2
      invariant forall q :: q in r <==> q in banned || (ChebyshevDistance(pos, q) <= 1 && q.row < pos.row + dr)
    {
      for dc := -1 to 2
        invariant forall q :: q in r <==> (q in banned ||
          (ChebyshevDistance(pos, q) <= 1 && (q.row < pos.row + dr || (q.row == pos.row + dr && q.col < pos.col + dc))))
      {
        r := r + {Pos(pos.row + dr, pos.col + dc)};
      }
    }
  }
}
