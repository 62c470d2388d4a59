/**
 * The cells the rules offer as targets: placement and drill neighbours,
 * the Suriashi, Meteor and Momonga skill targets, the Sniper and Hitokiri
 * conditions, and the cells used to seed the board.  Each is a value
 * function of the grid and the players' cells, stated in the order in
 * which the game's loops visit the candidates.
 */
module Targets {
  import opened Wrappers
  import opened Constants
  import opened Boards
  import opened Geometry

  /** What a Place-phase board click puts down. */
  datatype PlacementType = StonePlacement | BombPlacement | IcePlacement | DrillPlacement

  /** The cost key of a placement type; a stone is free. */
  function PlacementCostKey(t: PlacementType): Option<string>
  {
    match t
    case StonePlacement => None
    case BombPlacement => Some("bomb")
    case IcePlacement => Some("ice")
    case DrillPlacement => Some("drill")
  }

  /** Whether a placement of kind `t` may go on a cell holding `m`. */
  predicate PlaceOk(t: PlacementType, m: Marker)
  {
    match t
    case StonePlacement => m != Stone
    case BombPlacement => m == Empty
    case IcePlacement => m == Empty
    case DrillPlacement => false
  }

  /** The test a scan applies to each candidate cell. */
  datatype CellQuery =
    | Placement(other: Pos, kind: PlacementType)
    | StoneCell
    | SuriashiLanding(other: Pos)
    | MeteorTarget(me: Pos, other: Pos)
    | MomongaLanding(me: Pos, other: Pos)
    | FarFrom(center: Pos)
    | NotBanned(banned: set<Pos>)

  /** Whether `q` accepts the on-board cell `p` holding `m`. */
  predicate Admits(q: CellQuery, p: Pos, m: Marker)
  {
    match q
    case Placement(other, kind) => p != other && PlaceOk(kind, m)
    case StoneCell => m == Stone
    case SuriashiLanding(other) => p != other && m != Stone
    case MeteorTarget(me, other) => m == Empty && p != other && p != me
    case MomongaLanding(me, other) => p != other && p != me && m != Stone
    case FarFrom(center) => ChebyshevDistance(center, p) > 3
    case NotBanned(banned) => p !in banned
  }

  /** Whether a scan with query `q` keeps cell `p` of grid `g`. */
  predicate Keeps(g: Grid, q: CellQuery, p: Pos)
    requires IsGrid(g)
  {
    InBounds(p) && Admits(q, p, At(g, p))
  }

  /** The candidates that pass `q`, in order. */
  function Select(g: Grid, q: CellQuery, cells: seq<Pos>): (r: seq<Pos>)
    requires IsGrid(g)
    ensures forall p :: p in r <==> p in cells && Keeps(g, q, p)
    ensures |r| <= |cells|
    decreases |cells|
  {
    if cells == [] then []
    else
      var init, last := cells[..|cells| - 1], cells[|cells| - 1];
      assert cells == init + [last];
      Select(g, q, init) + (if Keeps(g, q, last) then [last] else [])
  }

  /** One more candidate: the selection grows by that candidate when it passes. */
  lemma SelectSnoc(g: Grid, q: CellQuery, cells: seq<Pos>, p: Pos)
    requires IsGrid(g)
    ensures Select(g, q, cells + [p]) == Select(g, q, cells) + (if Keeps(g, q, p) then [p] else [])
  {
    assert (cells + [p])[..|cells|] == cells;
  }

  /** Selecting from a list without repeats gives a list without repeats. */
  lemma {:induction false} SelectNoDup(g: Grid, q: CellQuery, cells: seq<Pos>)
    requires IsGrid(g) && NoDup(cells)
    ensures NoDup(Select(g, q, cells))
    decreases |cells|
  {
    if cells != [] {
      var init, last := cells[..|cells| - 1], cells[|cells| - 1];
      assert cells == init + [last];
      assert NoDup(init) by {
        forall i, j | 0 <= i < j < |init| ensures init[i] != init[j] {
          assert init[i] == cells[i] && init[j] == cells[j];
        }
      }
      SelectNoDup(g, q, init);
      assert last !in init by {
        forall i | 0 <= i < |init| ensures init[i] != last {
          assert init[i] == cells[i];
        }
      }
    }
  }

  /** The cells one step from `p` in each direction of `dirs`, in order. */
  function Around(p: Pos, dirs: seq<Dir>): (r: seq<Pos>)
    ensures |r| == |dirs|
    ensures forall i :: 0 <= i < |dirs| ==> r[i] == Step(p, dirs[i])
    decreases |dirs|
  {
    if dirs == [] then [] else Around(p, dirs[..|dirs| - 1]) + [Step(p, dirs[|dirs| - 1])]
  }

  /** The cross neighbours of `p` are exactly the cells at Manhattan distance 1. */
  lemma CrossNeighbours(p: Pos, q: Pos)
    ensures q in Around(p, CROSS_DIRECTIONS) <==> ManhattanDistance(p, q) == 1
  {
    var a := Around(p, CROSS_DIRECTIONS);
    if ManhattanDistance(p, q) == 1 {
      if q.row == p.row + 1 {
        assert q == a[2];
      } else if q.row == p.row - 1 {
        assert q == a[3];
      } else if q.col == p.col + 1 {
        assert q == a[0];
      } else {
        assert q == a[1];
      }
    }
  }

  /**
   * The diagonal neighbours of `p` are exactly the cells one row and one
   * column away.
   */
  lemma DiagonalNeighbours(p: Pos, q: Pos)
    ensures q in Around(p, DIAGONAL_DIRECTIONS) <==> Abs(q.row - p.row) == 1 && Abs(q.col - p.col) == 1
  {
    var a := Around(p, DIAGONAL_DIRECTIONS);
    if Abs(q.row - p.row) == 1 && Abs(q.col - p.col) == 1 {
      if q.row == p.row - 1 {
        if q.col == p.col - 1 { assert q == a[0]; } else { assert q == a[1]; }
      } else {
        if q.col == p.col - 1 { assert q == a[2]; } else { assert q == a[3]; }
      }
    }
  }

  /** The cells `findPlaceableTiles` offers for a placement of kind `t`. */
  function PlaceableTiles(g: Grid, me: Pos, other: Pos, t: PlacementType): seq<Pos>
    requires IsGrid(g)
  {
    Select(g, Placement(other, t), Around(me, CROSS_DIRECTIONS))
  }

  /**
   * A cell is offered for placement exactly when it is an on-board cross
   * neighbour, not the opponent's cell, and not a Stone (for a stone) or
   * Empty (for a bomb or ice); a drill offers nothing here.
   */
  lemma PlaceableTilesIff(g: Grid, me: Pos, other: Pos, t: PlacementType, p: Pos)
    requires IsGrid(g)
    ensures p in PlaceableTiles(g, me, other, t) <==>
      InBounds(p) && ManhattanDistance(me, p) == 1 && p != other && PlaceOk(t, At(g, p))
  {
    CrossNeighbours(me, p);
  }

  /** The on-board cross neighbours holding a Stone (`findDrillTargets`). */
  function DrillTargets(g: Grid, me: Pos): seq<Pos>
    requires IsGrid(g)
  {
    Select(g, StoneCell, Around(me, CROSS_DIRECTIONS))
  }

  lemma DrillTargetsIff(g: Grid, me: Pos, p: Pos)
    requires IsGrid(g)
    ensures p in DrillTargets(g, me) <==> InBounds(p) && ManhattanDistance(me, p) == 1 && At(g, p) == Stone
  {
    CrossNeighbours(me, p);
  }

  /** The diagonal neighbours Suriashi may step to. */
  function SuriashiTargets(g: Grid, me: Pos, other: Pos): seq<Pos>
    requires IsGrid(g)
  {
    Select(g, SuriashiLanding(other), Around(me, DIAGONAL_DIRECTIONS))
  }

  lemma SuriashiTargetsIff(g: Grid, me: Pos, other: Pos, p: Pos)
    requires IsGrid(g)
    ensures p in SuriashiTargets(g, me, other) <==>
      InBounds(p) && ChebyshevDistance(me, p) == 1 && ManhattanDistance(me, p) == 2 &&
      p != other && At(g, p) != Stone
  {
    DiagonalNeighbours(me, p);
  }

  /** Every Empty cell other than the two players' cells, in scan order (Meteor). */
  function MeteorTargets(g: Grid, me: Pos, other: Pos): seq<Pos>
    requires IsGrid(g)
  {
    Select(g, MeteorTarget(me, other), AllCells())
  }

  lemma MeteorTargetsIff(g: Grid, me: Pos, other: Pos, p: Pos)
    requires IsGrid(g)
    ensures p in MeteorTargets(g, me, other) <==> InBounds(p) && At(g, p) == Empty && p != me && p != other
    ensures NoDup(MeteorTargets(g, me, other))
  {
    AllCellsNoDup();
    SelectNoDup(g, MeteorTarget(me, other), AllCells());
  }

  /** Hitokiri's condition: the opponent is one cross step away. */
  predicate HitokiriCondition(me: Pos, other: Pos)
  {
    other in Around(me, CROSS_DIRECTIONS)
  }

  lemma HitokiriIffAdjacent(me: Pos, other: Pos)
    ensures HitokiriCondition(me, other) <==> ManhattanDistance(me, other) == 1
  {
    CrossNeighbours(me, other);
  }

  /** `b` lies on the same row, column or diagonal as `a`. */
  predicate Aligned(a: Pos, b: Pos)
  {
    var dr, dc := b.row - a.row, b.col - a.col;
    dr == 0 || dc == 0 || Abs(dr) == Abs(dc)
  }

  /**
   * Sniper's condition: the opponent is aligned with the shooter at least
   * four cells away, and no cell strictly between them holds a Stone.
   */
  predicate SniperCondition(g: Grid, me: Pos, other: Pos)
    requires IsGrid(g)
  {
    var dist := ChebyshevDistance(me, other);
    Aligned(me, other) && dist >= 4 &&
    forall i :: 1 <= i < dist ==> TileAt(g, Along(me, Heading(me, other), i)) != Some(Stone)
  }

  /**
   * The line of sight between two aligned cells on the board stays on the
   * board and ends exactly on the target.
   */
  lemma SniperLine(me: Pos, other: Pos, i: int)
    requires InBounds(me) && InBounds(other) && Aligned(me, other)
    requires 0 <= i <= ChebyshevDistance(me, other)
    ensures InBounds(Along(me, Heading(me, other), i))
    ensures Along(me, Heading(me, other), ChebyshevDistance(me, other)) == other
  {
  }

  /** A Stone on a cell strictly between shooter and target blocks the Sniper. */
  lemma StoneBlocksSniper(g: Grid, me: Pos, other: Pos, i: int)
    requires IsGrid(g) && InBounds(me) && InBounds(other) && Aligned(me, other)
    requires 1 <= i < ChebyshevDistance(me, other)
    requires At(g, Along(me, Heading(me, other), i)) == Stone
    ensures !SniperCondition(g, me, other)
  {
    SniperLine(me, other, i);
  }

  /** Every cell of `cells` is on the board. */
  predicate OnBoard(cells: seq<Pos>)
  {
    forall p :: p in cells ==> InBounds(p)
  }

  /**
   * The nearest-stone scan over `cells`: the smallest Manhattan distance
   * from `me` to a Stone seen so far (None before the first Stone) and the
   * Stones at that distance, in scan order.
   */
  function Nearest(g: Grid, me: Pos, cells: seq<Pos>): (r: (Option<nat>, seq<Pos>))
    requires IsGrid(g) && OnBoard(cells)
    decreases |cells|
  {
    if cells == [] then (None, [])
    else
      var init, p := cells[..|cells| - 1], cells[|cells| - 1];
      assert p in cells;
      var (best, stones) := Nearest(g, me, init);
      if At(g, p) != Stone then (best, stones)
      else
        var d := ManhattanDistance(me, p);
        if best.None? || d < best.value then (Some(d), [p])
        else if d == best.value then (best, stones + [p])
        else (best, stones)
  }

  /** One more scanned cell: the scan's step on that cell. */
  lemma NearestSnoc(g: Grid, me: Pos, cells: seq<Pos>, p: Pos)
    requires IsGrid(g) && OnBoard(cells) && InBounds(p)
    ensures OnBoard(cells + [p])
    ensures var (best, stones) := Nearest(g, me, cells);
      var d := ManhattanDistance(me, p);
      Nearest(g, me, cells + [p]) ==
        if At(g, p) != Stone then (best, stones)
        else if best.None? || d < best.value then (Some(d), [p])
        else if d == best.value then (best, stones + [p])
        else (best, stones)
  {
    assert (cells + [p])[..|cells|] == cells;
  }

  /** The Stones of the whole board nearest to `me` (`findNearestStones`). */
  function NearestStones(g: Grid, me: Pos): seq<Pos>
    requires IsGrid(g)
  {
    Nearest(g, me, AllCells()).1
  }

  /**
   * The scan finds the minimum: no Stone in `cells` is nearer than the
   * recorded distance, a Stone is kept exactly when it is at that distance,
   * and there is a distance (and then a kept Stone) exactly when `cells`
   * holds a Stone.
   */
  lemma {:induction false} NearestCorrect(g: Grid, me: Pos, cells: seq<Pos>)
    requires IsGrid(g) && OnBoard(cells)
    ensures var (best, stones) := Nearest(g, me, cells);
      && (best.None? <==> forall q :: q in cells ==> At(g, q) != Stone)
      && (best.Some? <==> stones != [])
      && (best.Some? ==> forall q :: q in cells && At(g, q) == Stone ==> best.value <= ManhattanDistance(me, q))
      && (forall q :: q in stones <==> q in cells && At(g, q) == Stone && best == Some(ManhattanDistance(me, q)))
    decreases |cells|
  {
    if cells != [] {
      var init, p := cells[..|cells| - 1], cells[|cells| - 1];
      assert cells == init + [p];
      NearestCorrect(g, me, init);
    }
  }

  /** The kept Stones are exactly the Stones of `cells` at the smallest distance. */
  lemma NearestIff(g: Grid, me: Pos, cells: seq<Pos>, p: Pos)
    requires IsGrid(g) && OnBoard(cells)
    ensures p in Nearest(g, me, cells).1 <==>
      p in cells && At(g, p) == Stone &&
      forall q :: q in cells && At(g, q) == Stone ==> ManhattanDistance(me, p) <= ManhattanDistance(me, q)
    ensures Nearest(g, me, cells).1 == [] <==> forall q :: q in cells ==> At(g, q) != Stone
  {
    NearestCorrect(g, me, cells);
    var stones := Nearest(g, me, cells).1;
    if p in cells && At(g, p) == Stone &&
      forall q :: q in cells && At(g, q) == Stone ==> ManhattanDistance(me, p) <= ManhattanDistance(me, q)
    {
      var w := stones[0];
      assert w in stones;
      assert ManhattanDistance(me, p) <= ManhattanDistance(me, w);
    }
  }

  /**
   * `findNearestStones` returns exactly the Stones at the smallest Manhattan
   * distance from `me`, and nothing when the board has no Stone.
   */
  lemma NearestStonesIff(g: Grid, me: Pos, p: Pos)
    requires IsGrid(g)
    ensures p in NearestStones(g, me) <==>
      InBounds(p) && At(g, p) == Stone &&
      forall q :: InBounds(q) && At(g, q) == Stone ==> ManhattanDistance(me, p) <= ManhattanDistance(me, q)
    ensures NearestStones(g, me) == [] <==> forall q :: InBounds(q) ==> At(g, q) != Stone
  {
    NearestIff(g, me, AllCells(), p);
  }

  /** The cross neighbours of each stone, stone by stone. */
  function Candidates(stones: seq<Pos>): (r: seq<Pos>)
    ensures |r| == 4 * |stones|
    decreases |stones|
  {
    if stones == [] then []
    else Candidates(stones[..|stones| - 1]) + Around(stones[|stones| - 1], CROSS_DIRECTIONS)
  }

  /** One more stone adds its four cross neighbours to the candidates. */
  lemma CandidatesSnoc(stones: seq<Pos>, s: Pos)
    ensures Candidates(stones + [s]) == Candidates(stones) + Around(s, CROSS_DIRECTIONS)
  {
    assert (stones + [s])[..|stones|] == stones;
  }

  /** A candidate is a cross neighbour of one of the stones. */
  lemma {:induction false} CandidatesIff(stones: seq<Pos>, p: Pos)
    ensures p in Candidates(stones) <==> exists s :: s in stones && ManhattanDistance(s, p) == 1
    decreases |stones|
  {
    if stones != [] {
      var init, last := stones[..|stones| - 1], stones[|stones| - 1];
      assert stones == init + [last];
      CandidatesIff(init, p);
      CrossNeighbours(last, p);
      if p in Candidates(stones) && p !in Candidates(init) {
        assert last in stones && ManhattanDistance(last, p) == 1;
      }
      if s :| s in stones && ManhattanDistance(s, p) == 1 {
        if s != last {
          assert s in init;
        }
      }
    }
  }

  /**
   * The Momonga scan over `cands`: a cell already seen is skipped, every
   * other cell is marked seen and kept when it is a legal landing.
   */
  function MomongaScan(g: Grid, me: Pos, other: Pos, cands: seq<Pos>): (r: (seq<Pos>, set<Pos>))
    requires IsGrid(g)
    decreases |cands|
  {
    if cands == [] then ([], {})
    else
      var init, c := cands[..|cands| - 1], cands[|cands| - 1];
      var (targets, seen) := MomongaScan(g, me, other, init);
      if c in seen then (targets, seen)
      else ((if Keeps(g, MomongaLanding(me, other), c) then targets + [c] else targets), seen + {c})
  }

  /** One more candidate: skipped when seen, otherwise marked seen and kept when it is a legal landing. */
  lemma MomongaScanSnoc(g: Grid, me: Pos, other: Pos, cands: seq<Pos>, c: Pos)
    requires IsGrid(g)
    ensures var (targets, seen) := MomongaScan(g, me, other, cands);
      MomongaScan(g, me, other, cands + [c]) ==
        if c in seen then (targets, seen)
        else ((if Keeps(g, MomongaLanding(me, other), c) then targets + [c] else targets), seen + {c})
  {
    assert (cands + [c])[..|cands|] == cands;
  }

  /**
   * The seen set is the set of scanned cells, and the targets are the
   * scanned legal landings, each once.
   */
  lemma {:induction false} MomongaScanCorrect(g: Grid, me: Pos, other: Pos, cands: seq<Pos>)
    requires IsGrid(g)
    ensures var (targets, seen) := MomongaScan(g, me, other, cands);
      && (forall c :: c in seen <==> c in cands)
      && (forall p :: p in targets <==> p in cands && Keeps(g, MomongaLanding(me, other), p))
      && NoDup(targets)
    decreases |cands|
  {
    if cands != [] {
      var init, c := cands[..|cands| - 1], cands[|cands| - 1];
      assert cands == init + [c];
      MomongaScanCorrect(g, me, other, init);
    }
  }

  /** The scan over the stones' neighbours keeps exactly their legal landings, once each. */
  lemma MomongaLandingsIff(g: Grid, me: Pos, other: Pos, stones: seq<Pos>, p: Pos)
    requires IsGrid(g)
    ensures p in MomongaScan(g, me, other, Candidates(stones)).0 <==>
      InBounds(p) && At(g, p) != Stone && p != me && p != other &&
      exists s :: s in stones && ManhattanDistance(s, p) == 1
    ensures NoDup(MomongaScan(g, me, other, Candidates(stones)).0)
  {
    MomongaScanCorrect(g, me, other, Candidates(stones));
    CandidatesIff(stones, p);
  }

  /** The cells Momonga may land on: free cross neighbours of the nearest Stones. */
  function MomongaTargets(g: Grid, me: Pos, other: Pos): seq<Pos>
    requires IsGrid(g)
  {
    MomongaScan(g, me, other, Candidates(NearestStones(g, me))).0
  }

  /**
   * A cell is a Momonga target exactly when it is on the board, not a Stone,
   * not either player's cell, and a cross neighbour of one of the Stones
   * nearest to the player; no cell is offered twice.
   */
  lemma MomongaTargetsIff(g: Grid, me: Pos, other: Pos, p: Pos)
    requires IsGrid(g)
    ensures p in MomongaTargets(g, me, other) <==>
      InBounds(p) && At(g, p) != Stone && p != me && p != other &&
      exists s :: s in NearestStones(g, me) && ManhattanDistance(s, p) == 1
    ensures NoDup(MomongaTargets(g, me, other))
  {
    MomongaLandingsIff(g, me, other, NearestStones(g, me), p);
  }

  /** The column band `[lo, hi)` in which a player's fountain is placed. */
  function FountainBand(playerNum: int): (band: (nat, nat))
    ensures band.0 < band.1 <= BOARD_SIZE
  {
    if playerNum == 1 then (0, BOARD_SIZE / 2 - 1) else (BOARD_SIZE / 2 + 2, BOARD_SIZE)
  }

  /**
   * The candidate fountain cells of `findValidFountainPosition`: the cells of
   * the player's band more than three cells (Chebyshev) away from `pos`.
   */
  function FountainZone(g: Grid, playerNum: int, pos: Pos): seq<Pos>
    requires IsGrid(g)
  {
    var (lo, hi) := FountainBand(playerNum);
    Select(g, FarFrom(pos), Band(lo, hi))
  }

  lemma FountainZoneIff(g: Grid, playerNum: int, pos: Pos, p: Pos)
    requires IsGrid(g)
    ensures p in FountainZone(g, playerNum, pos) <==>
      InBounds(p) && FountainBand(playerNum).0 <= p.col < FountainBand(playerNum).1 &&
      ChebyshevDistance(pos, p) > 3
  {
    var (lo, hi) := FountainBand(playerNum);
    BandMembers(lo, hi, p);
  }

  /**
   * From the start cells the two zones are non-empty (a corner of each
   * band qualifies), and they never overlap: player 1's band is columns 0-2,
   * player 2's is columns 6-8.
   */
  lemma FountainZonesFromStart(g: Grid, p1: Pos, p2: Pos)
    requires IsGrid(g) && p1 == Pos(BOARD_SIZE / 2, 0) && p2 == Pos(BOARD_SIZE / 2, BOARD_SIZE - 1)
    ensures |FountainZone(g, 1, p1)| > 0 && |FountainZone(g, 2, p2)| > 0
    ensures forall p :: p in FountainZone(g, 1, p1) ==> p !in FountainZone(g, 2, p2)
  {
    FountainZoneIff(g, 1, p1, Pos(0, 0));
    FountainZoneIff(g, 2, p2, Pos(0, BOARD_SIZE - 1));
  }

  /** The 3x3 block of cells centred on `p` (some may lie off the board). */
  function Neighbourhood(p: Pos): (r: set<Pos>)
    ensures forall q :: q in r <==> ChebyshevDistance(p, q) <= 1
  {
    var (r, c) := (p.row, p.col);
    {Pos(r - 1, c - 1), Pos(r - 1, c), Pos(r - 1, c + 1),
     Pos(r, c - 1), Pos(r, c), Pos(r, c + 1),
     Pos(r + 1, c - 1), Pos(r + 1, c), Pos(r + 1, c + 1)}
  }

  /**
   * The cells no stone may be seeded on: both fountains and the 3x3 blocks
   * around both players.
   */
  function BannedPositions(f1: Pos, f2: Pos, p1: Pos, p2: Pos): (r: set<Pos>)
    ensures forall q :: q in r <==>
      (q == f1 || q == f2 || ChebyshevDistance(p1, q) <= 1 || ChebyshevDistance(p2, q) <= 1)
  {
    {f1, f2} + Neighbourhood(p1) + Neighbourhood(p2)
  }

  /** The board cells not banned, in scan order. */
  function Available(g: Grid, banned: set<Pos>): seq<Pos>
    requires IsGrid(g)
  {
    Select(g, NotBanned(banned), AllCells())
  }

  lemma AvailableIff(g: Grid, banned: set<Pos>)
    requires IsGrid(g)
    ensures forall p :: p in Available(g, banned) <==> InBounds(p) && p !in banned
    ensures NoDup(Available(g, banned))
  {
    AllCellsNoDup();
    SelectNoDup(g, NotBanned(banned), AllCells());
  }

  /**
   * The random picks are usable: the pick for draw `i` is an index into the
   * list that is left after `i` draws.
   */
  predicate PicksOk(n: nat, picks: seq<nat>, count: nat)
  {
    |picks| == count && forall i :: 0 <= i < count && i < n ==> picks[i] < n - i
  }

  /**
   * `getRandomPositions`: up to `count` draws without replacement, each
   * removing the picked entry from the list.
   */
  function Draw(avail: seq<Pos>, picks: seq<nat>, count: nat): seq<Pos>
    requires PicksOk(|avail|, picks, count)
    decreases count
  {
    if count == 0 || avail == [] then []
    else
      var k := picks[0];
      [avail[k]] + Draw(avail[..k] + avail[k + 1..], picks[1..], count - 1)
  }

  /** One draw: the picked entry comes first, and the rest is drawn from what remains. */
  lemma DrawStep(avail: seq<Pos>, picks: seq<nat>, count: nat)
    requires PicksOk(|avail|, picks, count) && count > 0 && avail != []
    ensures picks[0] < |avail|
    ensures PicksOk(|avail| - 1, picks[1..], count - 1)
    ensures var rest := avail[..picks[0]] + avail[picks[0] + 1..];
      |rest| == |avail| - 1 && Draw(avail, picks, count) == [avail[picks[0]]] + Draw(rest, picks[1..], count - 1)
  {
  }

  /**
   * The draws are distinct entries of the list, and there are as many as
   * asked for or as the list holds, whichever is fewer.
   */
  lemma {:induction false} DrawSound(avail: seq<Pos>, picks: seq<nat>, count: nat)
    requires PicksOk(|avail|, picks, count) && NoDup(avail)
    ensures var r := Draw(avail, picks, count);
      && (forall p :: p in r ==> p in avail)
      && NoDup(r)
      && |r| == if count <= |avail| then count else |avail|
    decreases count
  {
    if count > 0 && avail != [] {
      var k := picks[0];
      var rest := avail[..k] + avail[k + 1..];
      DrawStep(avail, picks, count);
      assert NoDup(rest) && avail[k] !in rest && forall p :: p in rest ==> p in avail by {
        forall i | 0 <= i < |rest|
          ensures rest[i] == if i < k then avail[i] else avail[i + 1]
        {
        }
      }
      DrawSound(rest, picks[1..], count - 1);
    }
  }

  /** Every stone drawn from the unbanned cells lies on the board. */
  lemma DrawnCellsOnBoard(g: Grid, banned: set<Pos>, picks: seq<nat>, count: nat)
    requires IsGrid(g) && PicksOk(|Available(g, banned)|, picks, count)
    ensures var r := Draw(Available(g, banned), picks, count);
      forall i :: 0 <= i < |r| ==> InBounds(r[i]) && r[i] !in banned
  {
    AvailableIff(g, banned);
    DrawSound(Available(g, banned), picks, count);
  }
}
