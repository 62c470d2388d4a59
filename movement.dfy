/**
 * The movement resolver: where a roll can take the current player.  From
 * the player's cell the resolver walks up to `roll` steps in each direction
 * of the move mode.  Stones and the opponent's cell stop the walk in front
 * of them, leaving the board makes the last cell a "fall" tile, and every
 * Ice cell entered adds one step to the budget.
 */
module Movement {
  import opened Wrappers
  import opened Constants
  import opened Boards
  import opened Geometry

  /** How one direction's walk ends. */
  datatype Landing = Reach(p: Pos) | Fall(p: Pos) | Stay

  /**
   * The walk in direction `d` from `cur`.  `moved` says whether a step was
   * already taken, `left` is the remaining budget, `ice` the Ice cells
   * already counted.
   */
  function Walk(g: Grid, other: Pos, d: Dir, cur: Pos, moved: bool, left: int, ice: set<Pos>): Landing
    requires IsGrid(g) && IsUnit(d) && InBounds(cur)
    decreases EdgeDistance(cur, d)
  {
    if left <= 0 then
      (if moved then Reach(cur) else Stay)
    else
      var next := Step(cur, d);
      if !InBounds(next) then
        (if moved then Fall(cur) else Stay)
      else if At(g, next) == Stone || next == other then
        (if moved then Reach(cur) else Stay)
      else
        var bonus := At(g, next) == Ice && next !in ice;
        Walk(g, other, d, next, true, if bonus then left else left - 1,
             if bonus then ice + {next} else ice)
  }

  /** The walk of one direction from the player's cell with budget `roll`. */
  function WalkFrom(g: Grid, me: Pos, other: Pos, d: Dir, roll: int): Landing
    requires IsGrid(g) && IsUnit(d) && InBounds(me)
  {
    Walk(g, other, d, me, false, roll, {})
  }

  /**
   * The movable and fall tiles collected over `dirs`, in order, before
   * duplicates are removed: each direction adds at most one tile.
   */
  function Collect(g: Grid, me: Pos, other: Pos, dirs: seq<Dir>, roll: int): (r: (seq<Pos>, seq<Pos>))
    requires IsGrid(g) && InBounds(me)
    requires forall d :: d in dirs ==> IsUnit(d)
    ensures |r.0| + |r.1| <= |dirs|
    decreases |dirs|
  {
    if dirs == [] then ([], [])
    else
      var prev := Collect(g, me, other, dirs[..|dirs| - 1], roll);
      match WalkFrom(g, me, other, dirs[|dirs| - 1], roll)
      case Reach(p) => (prev.0 + [p], prev.1)
      case Fall(p) => (prev.0, prev.1 + [p])
      case Stay => prev
  }

  /** Keeps the first occurrence of every cell, in order. */
  function RemoveDuplicates(ps: seq<Pos>): (r: seq<Pos>)
    ensures forall p :: p in r <==> p in ps
    ensures NoDup(r)
    ensures |r| <= |ps|
  {
    if ps == [] then []
    else
      var prefix, last := ps[..|ps| - 1], ps[|ps| - 1];
      assert ps == prefix + [last];
      var kept := RemoveDuplicates(prefix);
      if last in prefix then kept else kept + [last]
  }

  function MovableTiles(g: Grid, me: Pos, other: Pos, mode: DirectionType, roll: int): seq<Pos>
    requires IsGrid(g) && InBounds(me)
  {
    RemoveDuplicates(Collect(g, me, other, Directions(mode), roll).0)
  }

  function FallTiles(g: Grid, me: Pos, other: Pos, mode: DirectionType, roll: int): seq<Pos>
    requires IsGrid(g) && InBounds(me)
  {
    RemoveDuplicates(Collect(g, me, other, Directions(mode), roll).1)
  }

  /** The move mode offers at least one movable or fall tile. */
  predicate HasMove(g: Grid, me: Pos, other: Pos, mode: DirectionType, roll: int)
    requires IsGrid(g) && InBounds(me)
  {
    |MovableTiles(g, me, other, mode, roll)| > 0 || |FallTiles(g, me, other, mode, roll)| > 0
  }

  /** Neither move mode offers anything: the player is blocked. */
  predicate Blocked(g: Grid, me: Pos, other: Pos, roll: int)
    requires IsGrid(g) && InBounds(me)
  {
    !HasMove(g, me, other, Cross, roll) && !HasMove(g, me, other, Diagonal, roll)
  }

  /** A cell the walk may end on: on the board, not a Stone, not the opponent. */
  predicate Standable(g: Grid, other: Pos, p: Pos)
    requires IsGrid(g)
  {
    InBounds(p) && At(g, p) != Stone && p != other
  }

  /**
   * Where a walk ends: on a standable cell that lies in direction `d` from
   * the start (so at least one step was taken), and a fall tile is the last
   * cell before the board's edge.
   */
  lemma {:induction false} WalkLanding(g: Grid, other: Pos, d: Dir, start: Pos, cur: Pos, moved: bool, left: int, ice: set<Pos>)
    requires IsGrid(g) && IsUnit(d) && InBounds(cur)
    requires moved ==> Standable(g, other, cur) && Heading(start, cur) == d
    requires moved ==> exists k :: 1 <= k && cur == Along(start, d, k)
    requires !moved ==> cur == start
    ensures match Walk(g, other, d, cur, moved, left, ice)
      case Reach(p) => Standable(g, other, p) && Heading(start, p) == d && exists k :: 1 <= k && p == Along(start, d, k)
      case Fall(p) =>
        Standable(g, other, p) && Heading(start, p) == d && !InBounds(Step(p, d))
        && exists k :: 1 <= k && p == Along(start, d, k)
      case Stay => true
    decreases EdgeDistance(cur, d)
  {
    if left > 0 {
      var next := Step(cur, d);
      if InBounds(next) && At(g, next) != Stone && next != other {
        var bonus := At(g, next) == Ice && next !in ice;
        assert Heading(start, next) == d;
        if moved {
          var k :| 1 <= k && cur == Along(start, d, k);
          AlongNext(start, d, k);
        } else {
          AlongNext(start, d, 0);
        }
        WalkLanding(g, other, d, start, next, true, if bonus then left else left - 1,
                    if bonus then ice + {next} else ice);
      }
    }
  }

  /** Cells collected over distinct directions are sound and pairwise distinct. */
  lemma {:induction false} CollectSound(g: Grid, me: Pos, other: Pos, dirs: seq<Dir>, roll: int)
    requires IsGrid(g) && InBounds(me)
    requires forall d :: d in dirs ==> IsUnit(d)
    requires DistinctDirs(dirs)
    ensures var r := Collect(g, me, other, dirs, roll);
      && (forall p :: p in r.0 || p in r.1 ==> Standable(g, other, p) && Heading(me, p) in dirs)
      && (forall p :: p in r.0 ==> p !in r.1)
    decreases |dirs|
  {
    if dirs != [] {
      var init, d := dirs[..|dirs| - 1], dirs[|dirs| - 1];
      assert forall e :: e in init ==> e in dirs;
      assert d !in init by {
        forall i | 0 <= i < |init| ensures init[i] != d {
          assert init[i] == dirs[i];
        }
      }
      CollectSound(g, me, other, init, roll);
      WalkLanding(g, other, d, me, me, false, roll, {});
    }
  }

  /**
   * A cell is collected as movable exactly when some direction's walk
   * reaches it, and as a fall tile exactly when some direction's walk falls
   * from it.
   */
  lemma {:induction false} CollectMembers(g: Grid, me: Pos, other: Pos, dirs: seq<Dir>, roll: int)
    requires IsGrid(g) && InBounds(me)
    requires forall d :: d in dirs ==> IsUnit(d)
    ensures forall p :: p in Collect(g, me, other, dirs, roll).0 <==>
      exists d :: d in dirs && WalkFrom(g, me, other, d, roll) == Reach(p)
    ensures forall p :: p in Collect(g, me, other, dirs, roll).1 <==>
      exists d :: d in dirs && WalkFrom(g, me, other, d, roll) == Fall(p)
    ensures Collect(g, me, other, dirs, roll).1 == [] <==>
      forall d :: d in dirs ==> !WalkFrom(g, me, other, d, roll).Fall?
    decreases |dirs|
  {
    if dirs != [] {
      var init := dirs[..|dirs| - 1];
      assert dirs == init + [dirs[|dirs| - 1]];
      CollectMembers(g, me, other, init, roll);
    }
  }

  /**
   * What the resolver offers: every movable and fall tile is on the board,
   * not a Stone, not the opponent's cell and not the player's own cell; no
   * cell is both movable and a fall tile; each list is free of duplicates,
   * and there are at most four tiles (one per direction) in all.
   */
  lemma MovableTilesSound(g: Grid, me: Pos, other: Pos, mode: DirectionType, roll: int)
    requires IsGrid(g) && InBounds(me)
    ensures var mv, fl := MovableTiles(g, me, other, mode, roll), FallTiles(g, me, other, mode, roll);
      && (forall p :: p in mv || p in fl ==> Standable(g, other, p) && p != me)
      && (forall p :: p in mv ==> p !in fl)
      && NoDup(mv) && NoDup(fl)
      && |mv| + |fl| <= 4
  {
    var dirs := Directions(mode);
    CollectSound(g, me, other, dirs, roll);
    var r := Collect(g, me, other, dirs, roll);
    forall p | p in r.0 || p in r.1
      ensures p != me
    {
      assert Heading(me, p) in dirs;
    }
    var mv, fl := MovableTiles(g, me, other, mode, roll), FallTiles(g, me, other, mode, roll);
    forall p | p in mv
      ensures p !in fl
    {
      assert p in r.0;
    }
  }

  /**
   * The walk with every Ice cell adding one step and no set of counted
   * cells: the reference for "each Ice cell entered adds exactly one step".
   */
  function IceWalk(g: Grid, other: Pos, d: Dir, cur: Pos, moved: bool, left: int): Landing
    requires IsGrid(g) && IsUnit(d) && InBounds(cur)
    decreases EdgeDistance(cur, d)
  {
    if left <= 0 then
      (if moved then Reach(cur) else Stay)
    else
      var next := Step(cur, d);
      if !InBounds(next) then
        (if moved then Fall(cur) else Stay)
      else if At(g, next) == Stone || next == other then
        (if moved then Reach(cur) else Stay)
      else
        IceWalk(g, other, d, next, true, if At(g, next) == Ice then left else left - 1)
  }

  /**
   * A straight walk never re-enters a cell, so the set of counted Ice cells
   * never suppresses a bonus: every Ice cell entered adds exactly one step.
   */
  lemma {:induction false} IceCountedOnce(g: Grid, other: Pos, d: Dir, cur: Pos, moved: bool, left: int, ice: set<Pos>)
    requires IsGrid(g) && IsUnit(d) && InBounds(cur)
    requires forall q :: q in ice ==> InBounds(q) && EdgeDistance(q, d) >= EdgeDistance(cur, d)
    ensures Walk(g, other, d, cur, moved, left, ice) == IceWalk(g, other, d, cur, moved, left)
    decreases EdgeDistance(cur, d)
  {
    if left > 0 {
      var next := Step(cur, d);
      if InBounds(next) && At(g, next) != Stone && next != other {
        StepTowardsEdge(cur, d);
        assert next !in ice;
        var bonus := At(g, next) == Ice;
        IceCountedOnce(g, other, d, next, true, if bonus then left else left - 1,
                       if bonus then ice + {next} else ice);
      }
    }
  }

  /** The resolver's walk from the player's cell is the reference walk. */
  lemma WalkFromIsIceWalk(g: Grid, me: Pos, other: Pos, d: Dir, roll: int)
    requires IsGrid(g) && IsUnit(d) && InBounds(me)
    ensures WalkFrom(g, me, other, d, roll) == IceWalk(g, other, d, me, false, roll)
  {
    IceCountedOnce(g, other, d, me, false, roll, {});
  }

  /** One step onto a standable non-Ice cell costs one step of budget. */
  lemma WalkStep(g: Grid, other: Pos, d: Dir, cur: Pos, moved: bool, left: int, ice: set<Pos>)
    requires IsGrid(g) && IsUnit(d) && InBounds(cur) && left > 0
    requires Standable(g, other, Step(cur, d)) && At(g, Step(cur, d)) != Ice
    ensures Walk(g, other, d, cur, moved, left, ice) == Walk(g, other, d, Step(cur, d), true, left - 1, ice)
  {
  }

  /** One step onto an Ice cell not yet counted keeps the budget and counts the cell. */
  lemma WalkIceStep(g: Grid, other: Pos, d: Dir, cur: Pos, moved: bool, left: int, ice: set<Pos>)
    requires IsGrid(g) && IsUnit(d) && InBounds(cur) && left > 0
    requires Standable(g, other, Step(cur, d)) && At(g, Step(cur, d)) == Ice && Step(cur, d) !in ice
    ensures Walk(g, other, d, cur, moved, left, ice) == Walk(g, other, d, Step(cur, d), true, left, ice + {Step(cur, d)})
  {
  }

  /** One step on from the cell `i` steps away is the cell `i + 1` steps away. */
  lemma AlongNext(p: Pos, d: Dir, i: int)
    requires IsUnit(d)
    ensures Step(Along(p, d, i), d) == Along(p, d, i + 1)
    ensures Along(p, d, 0) == p
  {
  }

  /** Going `i` cells on from the next cell is going `i + 1` cells on. */
  lemma AlongStep(cur: Pos, d: Dir, i: int)
    requires IsUnit(d)
    ensures Along(Step(cur, d), d, i) == Along(cur, d, i + 1)
  {
  }

  /** A clear path of `k` cells from `cur` is a clear path of `k - 1` cells from the next cell. */
  lemma ClearPathShift(g: Grid, other: Pos, d: Dir, cur: Pos, k: nat)
    requires IsGrid(g) && IsUnit(d) && k > 0
    requires forall i :: 1 <= i <= k ==> Standable(g, other, Along(cur, d, i)) && At(g, Along(cur, d, i)) != Ice
    ensures forall i :: 1 <= i <= k - 1 ==>
      Standable(g, other, Along(Step(cur, d), d, i)) && At(g, Along(Step(cur, d), d, i)) != Ice
  {
    forall i | 1 <= i <= k - 1
      ensures Standable(g, other, Along(Step(cur, d), d, i)) && At(g, Along(Step(cur, d), d, i)) != Ice
    {
      AlongStep(cur, d, i);
    }
  }

  /**
   * On a clear path (every cell standable and not Ice) a walk with budget
   * `k` goes exactly `k` steps.
   */
  lemma {:induction false} ClearPathWalk(g: Grid, other: Pos, d: Dir, cur: Pos, moved: bool, k: nat, ice: set<Pos>)
    requires IsGrid(g) && IsUnit(d) && InBounds(cur)
    requires moved || k > 0
    requires forall i :: 1 <= i <= k ==> Standable(g, other, Along(cur, d, i)) && At(g, Along(cur, d, i)) != Ice
    ensures Walk(g, other, d, cur, moved, k, ice) == Reach(Along(cur, d, k))
    decreases k
  {
    if k > 0 {
      var next := Step(cur, d);
      assert next == Along(cur, d, 1);
      WalkStep(g, other, d, cur, moved, k, ice);
      ClearPathShift(g, other, d, cur, k);
      ClearPathWalk(g, other, d, next, true, k - 1, ice);
      AlongStep(cur, d, k - 1);
    }
  }

  /**
   * On an empty board a cross-mode walk of 3 from (4,0) goes 3 steps
   * wherever the board allows.  (The cells are passed as variables equal to
   * the scenario's values, which keeps the verifier from unrolling the walk
   * on literal arguments.)
   */
  lemma OpenBoardWalk(g: Grid, me: Pos, other: Pos, d: Dir, roll: int)
    requires IsGrid(g) && forall p :: InBounds(p) ==> At(g, p) == Empty
    requires me == Pos(4, 0) && other == Pos(4, 8) && roll == 3
    requires d in CROSS_DIRECTIONS && d != Dir(0, -1)
    ensures WalkFrom(g, me, other, d, roll) == Reach(Along(me, d, roll))
  {
    forall i | 1 <= i <= roll
      ensures Standable(g, other, Along(me, d, i)) && At(g, Along(me, d, i)) != Ice
    {
      assert InBounds(Along(me, d, i));
    }
    ClearPathWalk(g, other, d, me, false, roll, {});
  }

  /** The cross-mode tiles that the four walks of the open-board scenario give. */
  lemma OpenBoardTiles(g: Grid, me: Pos, other: Pos, roll: int)
    requires IsGrid(g) && InBounds(me)
    requires WalkFrom(g, me, other, Dir(0, 1), roll) == Reach(Pos(4, 3))
    requires WalkFrom(g, me, other, Dir(0, -1), roll) == Stay
    requires WalkFrom(g, me, other, Dir(1, 0), roll).Reach?
    requires WalkFrom(g, me, other, Dir(-1, 0), roll).Reach?
    ensures Pos(4, 3) in MovableTiles(g, me, other, Cross, roll)
    ensures FallTiles(g, me, other, Cross, roll) == []
  {
    var dirs := Directions(Cross);
    CollectMembers(g, me, other, dirs, roll);
  }

  /**
   * On an empty board, from (4,0) with a roll of 3 in cross mode (opponent
   * on its start cell (4,8)), (4,3) is reachable and nothing is a fall tile.
   */
  lemma OpenBoardScenario(g: Grid, me: Pos, other: Pos, roll: int)
    requires IsGrid(g) && forall p :: InBounds(p) ==> At(g, p) == Empty
    requires me == Pos(4, 0) && other == Pos(4, 8) && roll == 3
    ensures Pos(4, 3) in MovableTiles(g, me, other, Cross, roll)
    ensures FallTiles(g, me, other, Cross, roll) == []
  {
    OpenBoardWalk(g, me, other, Dir(0, 1), roll);
    OpenBoardWalk(g, me, other, Dir(1, 0), roll);
    OpenBoardWalk(g, me, other, Dir(-1, 0), roll);
    assert Along(me, Dir(0, 1), roll) == Pos(4, 3);
    assert WalkFrom(g, me, other, Dir(0, -1), roll) == Stay;
    OpenBoardTiles(g, me, other, roll);
  }

  /** A Stone at (4,2) stops the walk from (4,0) towards higher columns at (4,1). */
  lemma StoneBlocksScenario(g: Grid)
    requires IsGrid(g) && At(g, Pos(4, 1)) == Empty && At(g, Pos(4, 2)) == Stone
    ensures WalkFrom(g, Pos(4, 0), Pos(4, 8), Dir(0, 1), 3) == Reach(Pos(4, 1))
  {
    WalkStep(g, Pos(4, 8), Dir(0, 1), Pos(4, 0), false, 3, {});
  }

  /** An Ice cell at (4,1) turns a roll of 1 from (4,0) into a landing on (4,2). */
  lemma IceBonusScenario(g: Grid)
    requires IsGrid(g) && At(g, Pos(4, 1)) == Ice && At(g, Pos(4, 2)) == Empty
    ensures WalkFrom(g, Pos(4, 0), Pos(4, 8), Dir(0, 1), 1) == Reach(Pos(4, 2))
  {
    WalkIceStep(g, Pos(4, 8), Dir(0, 1), Pos(4, 0), false, 1, {});
    WalkStep(g, Pos(4, 8), Dir(0, 1), Pos(4, 1), true, 1, {Pos(4, 1)});
  }

  /** Stepping off the board on the first step records no fall tile. */
  lemma NoFallWithoutStepScenario(g: Grid, other: Pos)
    requires IsGrid(g)
    ensures WalkFrom(g, Pos(0, 0), other, Dir(-1, 0), 2) == Stay
  {
  }
}
