/**
 * Cell arithmetic shared by the rules: unit steps, the two distances the
 * game uses, the heading from one cell to another, and the row-major scan
 * order of the board's nested loops.
 */
module Geometry {
  import opened Constants
  import opened Boards

  function Step(p: Pos, d: Dir): Pos
  {
    Pos(p.row + d.dr, p.col + d.dc)
  }

  function ManhattanDistance(a: Pos, b: Pos): (d: nat)
    ensures d == 0 <==> a == b
    ensures Abs(a.row - b.row) <= d && Abs(a.col - b.col) <= d
  {
    Abs(a.row - b.row) + Abs(a.col - b.col)
  }

  /** The Manhattan distance is a metric: symmetric, and no detour is shorter. */
  lemma ManhattanMetric(a: Pos, b: Pos, c: Pos)
    ensures ManhattanDistance(a, b) == ManhattanDistance(b, a)
    ensures ManhattanDistance(a, c) <= ManhattanDistance(a, b) + ManhattanDistance(b, c)
  {
  }

  function ChebyshevDistance(a: Pos, b: Pos): (d: nat)
    ensures d == 0 <==> a == b
    ensures d <= ManhattanDistance(a, b) <= 2 * d
  {
    var dr, dc := Abs(a.row - b.row), Abs(a.col - b.col);
    if dr >= dc then dr else dc
  }

  function Sign(x: int): int
  {
    if x > 0 then 1 else if x < 0 then -1 else 0
  }

  /** The unit direction (sign of each component) from `a` towards `b`. */
  function Heading(a: Pos, b: Pos): Dir
  {
    Dir(Sign(b.row - a.row), Sign(b.col - a.col))
  }

  /** `s` times `i`, for a step component `s` in -1..1. */
  function Scale(s: int, i: int): int
  {
    if s > 0 then i else if s < 0 then -i else 0
  }

  /** A nonzero number divided by its absolute value is its sign. */
  lemma UnitQuotient(x: int)
    ensures (if x == 0 then 0 else x / Abs(x)) == Sign(x)
  {
    if x < 0 {
      assert x / Abs(x) == x / -x == -1;
    }
  }

  /** Scaling by a step component is multiplication. */
  lemma ScaleIsProduct(s: int, i: int)
    requires -1 <= s <= 1
    ensures Scale(s, i) == s * i
  {
  }

  /** The cell `i` steps from `p` in direction `d`. */
  function Along(p: Pos, d: Dir, i: int): Pos
  {
    Pos(p.row + Scale(d.dr, i), p.col + Scale(d.dc, i))
  }

  /**
   * How many steps in direction `d` stay on the board, plus one: the measure
   * that a straight walk decreases.
   */
  function EdgeDistance(p: Pos, d: Dir): nat
    requires InBounds(p) && IsUnit(d)
  {
    if d.dr == 1 then BOARD_SIZE - p.row
    else if d.dr == -1 then p.row + 1
    else if d.dc == 1 then BOARD_SIZE - p.col
    else p.col + 1
  }

  /** A step that stays on the board brings the edge one step closer. */
  lemma StepTowardsEdge(p: Pos, d: Dir)
    requires InBounds(p) && IsUnit(d) && InBounds(Step(p, d))
    ensures EdgeDistance(Step(p, d), d) == EdgeDistance(p, d) - 1
  {
  }

  predicate NoDup<T(==)>(s: seq<T>)
  {
    forall i, j :: 0 <= i < j < |s| ==> s[i] != s[j]
  }

  /**
   * The cells the loops `for r in 0..9, for c in lo..hi` visit, in visiting
   * order: iteration `k` of the flattened loops is row `k / w`, column
   * `lo + k % w`, for the band width `w`.
   */
  function Band(lo: nat, hi: nat): (cells: seq<Pos>)
    requires lo < hi <= BOARD_SIZE
    ensures |cells| == BOARD_SIZE * (hi - lo)
  {
    seq(BOARD_SIZE * (hi - lo), k => Pos(k / (hi - lo), lo + k % (hi - lo)))
  }

  /** A non-zero multiple of a positive `w` is at least `w` away from zero. */
  lemma MulAwayFromZero(x: int, w: int)
    requires w > 0
    ensures x >= 1 ==> x * w >= w
    ensures x <= -1 ==> x * w <= -w
  {
    if x >= 1 {
      assert x * w == (x - 1) * w + w;
      assert (x - 1) * w >= 0;
    } else if x <= -1 {
      assert x * w == -((-x - 1) * w) - w;
      assert (-x - 1) * w >= 0;
    }
  }

  /** Euclidean division recovers quotient and remainder. */
  lemma DivModOf(q: int, rem: int, w: int)
    requires w > 0 && 0 <= rem < w
    ensures (q * w + rem) / w == q && (q * w + rem) % w == rem
  {
    var k := q * w + rem;
    assert (k / w - q) * w == rem - k % w;
    MulAwayFromZero(k / w - q, w);
  }

  /** An index below `n` rows of width `w` lies in one of those rows. */
  lemma DivBelow(k: int, w: int, n: int)
    requires w > 0 && 0 <= k < n * w
    ensures 0 <= k / w < n
  {
    assert k == (k / w) * w + k % w;
  }

  /** Row `r`, column `c` is visited at iteration `r * w + (c - lo)`. */
  lemma BandAt(lo: nat, hi: nat, r: nat, c: nat)
    requires lo <= c < hi <= BOARD_SIZE && r < BOARD_SIZE
    ensures r * (hi - lo) + (c - lo) < BOARD_SIZE * (hi - lo)
    ensures Band(lo, hi)[r * (hi - lo) + (c - lo)] == Pos(r, c)
  {
    var w := hi - lo;
    assert r * w + (c - lo) < (r + 1) * w <= BOARD_SIZE * w;
    DivModOf(r, c - lo, w);
  }

  /** The band holds exactly the on-board cells of columns `lo` up to (excluding) `hi`. */
  lemma BandMembers(lo: nat, hi: nat, p: Pos)
    requires lo < hi <= BOARD_SIZE
    ensures p in Band(lo, hi) <==> InBounds(p) && lo <= p.col < hi
  {
    var w := hi - lo;
    if p in Band(lo, hi) {
      var k :| 0 <= k < BOARD_SIZE * w && Band(lo, hi)[k] == p;
      DivBelow(k, w, BOARD_SIZE);
    }
    if InBounds(p) && lo <= p.col < hi {
      BandAt(lo, hi, p.row, p.col);
    }
  }

  /** The loops visit no cell twice. */
  lemma BandNoDup(lo: nat, hi: nat)
    requires lo < hi <= BOARD_SIZE
    ensures NoDup(Band(lo, hi))
  {
    var w := hi - lo;
    forall i, j | 0 <= i < j < |Band(lo, hi)|
      ensures Band(lo, hi)[i] != Band(lo, hi)[j]
    {
      assert i == (i / w) * w + i % w;
      assert j == (j / w) * w + j % w;
    }
  }

  /**
   * The cells a row-by-row, column-by-column scan of columns `lo` up to
   * (excluding) `hi` has visited before reaching row `r`, column `c`.
   */
  function ScanPrefix(lo: nat, hi: nat, r: nat, c: nat): seq<Pos>
    requires lo <= c <= hi <= BOARD_SIZE && lo < hi && (r < BOARD_SIZE || (r == BOARD_SIZE && c == lo))
  {
    var w := hi - lo;
    assert r * w + (c - lo) <= BOARD_SIZE * w by {
      if r < BOARD_SIZE {
        assert r * w + (c - lo) <= (r + 1) * w <= BOARD_SIZE * w;
      }
    }
    Band(lo, hi)[..r * w + (c - lo)]
  }

  /** Visiting row `r`, column `c` extends the scan by that one cell. */
  lemma ScanPrefixStep(lo: nat, hi: nat, r: nat, c: nat)
    requires lo <= c < hi <= BOARD_SIZE && r < BOARD_SIZE
    ensures ScanPrefix(lo, hi, r, c + 1) == ScanPrefix(lo, hi, r, c) + [Pos(r, c)]
  {
    var k := r * (hi - lo) + (c - lo);
    BandAt(lo, hi, r, c);
    assert Band(lo, hi)[..k + 1] == Band(lo, hi)[..k] + [Band(lo, hi)[k]];
  }

  /** The end of one row is the start of the next. */
  lemma ScanPrefixNextRow(lo: nat, hi: nat, r: nat)
    requires lo < hi <= BOARD_SIZE && r < BOARD_SIZE
    ensures ScanPrefix(lo, hi, r, hi) == ScanPrefix(lo, hi, r + 1, lo)
  {
    assert r * (hi - lo) + (hi - lo) == (r + 1) * (hi - lo);
  }

  /** The scan starts with no cell and ends having visited the whole band. */
  lemma ScanPrefixEnds(lo: nat, hi: nat)
    requires lo < hi <= BOARD_SIZE
    ensures ScanPrefix(lo, hi, 0, lo) == []
    ensures ScanPrefix(lo, hi, BOARD_SIZE, lo) == Band(lo, hi)
  {
  }

  /** Every board cell, in scan order. */
  function AllCells(): (cells: seq<Pos>)
    ensures |cells| == BOARD_SIZE * BOARD_SIZE
    ensures forall p :: p in cells <==> InBounds(p)
  {
    var cells := Band(0, BOARD_SIZE);
    assert forall p :: p in cells <==> InBounds(p) by {
      forall p ensures p in cells <==> InBounds(p) {
        BandMembers(0, BOARD_SIZE, p);
      }
    }
    cells
  }

  /** The scan visits no cell twice. */
  lemma AllCellsNoDup()
    ensures NoDup(AllCells())
  {
    BandNoDup(0, BOARD_SIZE);
  }
}
