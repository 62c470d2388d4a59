/**
 * The board: a size-by-size grid of tile markers plus the side table that
 * records which player owns each bomb.  `Pos` and `Grid` give the value
 * view of the board that the rules are stated over.
 */
module Boards {
  import opened Wrappers
  import opened Constants

  /** A board cell (possibly off the board). */
  datatype Pos = Pos(row: int, col: int)

  /** A value snapshot of the tile grid, row by row. */
  type Grid = seq<seq<Marker>>

  predicate IsGrid(g: Grid)
  {
    |g| == BOARD_SIZE && forall r :: 0 <= r < |g| ==> |g[r]| == BOARD_SIZE
  }

  predicate InBounds(p: Pos)
  {
    0 <= p.row < BOARD_SIZE && 0 <= p.col < BOARD_SIZE
  }

  function At(g: Grid, p: Pos): Marker
    requires IsGrid(g) && InBounds(p)
  {
    g[p.row][p.col]
  }

  /** The tile at `p`, or None off the board. */
  function TileAt(g: Grid, p: Pos): Option<Marker>
    requires IsGrid(g)
  {
    if InBounds(p) then Some(At(g, p)) else None
  }

  /** The grid with cell `p` replaced by `m`. */
  function Put(g: Grid, p: Pos, m: Marker): (g': Grid)
    requires IsGrid(g) && InBounds(p)
    ensures IsGrid(g') && At(g', p) == m
    ensures forall q :: InBounds(q) && q != p ==> At(g', q) == At(g, q)
  {
    g[p.row := g[p.row][p.col := m]]
  }

  /** The grid of a new or reset board: every cell Empty. */
  function EmptyCells(size: nat): (g: Grid)
    ensures |g| == size && forall r :: 0 <= r < size ==> |g[r]| == size && forall c :: 0 <= c < size ==> g[r][c] == Empty
  {
    seq(size, i => seq(size, j => Empty))
  }

  class Board {
    const size: nat
    var tiles: array2<Marker>
    /** Owner of each bomb, keyed by cell. */
    var bombOwners: map<Pos, int>
    /** The grid as a value, kept equal to `tiles`. */
    ghost var cells: Grid

    ghost predicate Valid()
      reads this, tiles
    {
      && tiles.Length0 == size && tiles.Length1 == size
      && |cells| == size && (forall i :: 0 <= i < size ==> |cells[i]| == size)
      && forall i, j :: 0 <= i < size && 0 <= j < size ==> cells[i][j] == tiles[i, j]
    }

    /** Every Bomb cell has a recorded owner. */
    ghost predicate BombsOwned()
      reads this, tiles
      requires Valid()
    {
      forall r, c :: 0 <= r < size && 0 <= c < size && tiles[r, c] == Bomb ==> Pos(r, c) in bombOwners
    }

    ghost predicate AllEmpty()
      reads this, tiles
      requires Valid()
    {
      forall r, c :: 0 <= r < size && 0 <= c < size ==> tiles[r, c] == Empty
    }

    constructor (size: nat)
      ensures this.size == size && Valid() && fresh(tiles)
      ensures AllEmpty() && bombOwners == map[]
    {
      var t := CreateEmptyBoard(size);
      this.size := size;
      tiles := t;
      bombOwners := map[];
      cells := EmptyCells(size);
    }

    /** A fresh grid with every cell Empty, filled row by row. */
    static method CreateEmptyBoard(size: nat) returns (t: array2<Marker>)
      ensures fresh(t) && t.Length0 == size && t.Length1 == size
      ensures forall r, c :: 0 <= r < size && 0 <= c < size ==> t[r, c] == Empty
    {
      t := new Marker[size, size];
      for r := 0 to size
        invariant forall i, j :: 0 <= i < r && 0 <= j < size ==> t[i, j] == Empty
      {
        for c := 0 to size
          invariant forall i, j :: 0 <= i < r && 0 <= j < size ==> t[i, j] == Empty
          invariant forall j :: 0 <= j < c ==> t[r, j] == Empty
        {
          t[r, c] := Empty;
        }
      }
    }

    predicate IsValidPosition(row: int, col: int)
      reads this
    {
      row >= 0 && row < size && col >= 0 && col < size
    }

    function GetTile(row: int, col: int): Option<Marker>
      reads this, tiles
      requires Valid()
    {
      if IsValidPosition(row, col) then Some(tiles[row, col]) else None
    }

    method SetTile(row: int, col: int, marker: Marker) returns (ok: bool)
      requires Valid()
      modifies tiles, this`cells
      ensures Valid() && bombOwners == old(bombOwners)
      ensures ok == IsValidPosition(row, col)
      ensures cells == if ok then old(cells[row := cells[row][col := marker]]) else old(cells)
      ensures old(BombsOwned()) && marker != Bomb ==> BombsOwned()
    {
      if IsValidPosition(row, col) {
        tiles[row, col] := marker;
        cells := cells[row := cells[row][col := marker]];
        return true;
      }
      return false;
    }

    method SetBomb(row: int, col: int, playerNum: int) returns (ok: bool)
      requires Valid()
      modifies tiles, this`bombOwners, this`cells
      ensures Valid()
      ensures ok == IsValidPosition(row, col)
      ensures cells == if ok then old(cells[row := cells[row][col := Bomb]]) else old(cells)
      ensures bombOwners == if ok then old(bombOwners)[Pos(row, col) := playerNum] else old(bombOwners)
      ensures ok && playerNum != 0 ==> GetBombOwner(row, col) == Some(playerNum)
      ensures old(BombsOwned()) ==> BombsOwned()
    {
      if IsValidPosition(row, col) {
        tiles[row, col] := Bomb;
        bombOwners := bombOwners[Pos(row, col) := playerNum];
        cells := cells[row := cells[row][col := Bomb]];
        return true;
      }
      return false;
    }

    /** The recorded owner; a missing or zero entry reads as None. */
    function GetBombOwner(row: int, col: int): Option<int>
      reads this
    {
      var key := Pos(row, col);
      if key in bombOwners && bombOwners[key] != 0 then Some(bombOwners[key]) else None
    }

    method Reset()
      requires Valid()
      modifies this`tiles, this`bombOwners, this`cells
      ensures Valid() && fresh(tiles) && AllEmpty() && bombOwners == map[]
      ensures BombsOwned() && cells == EmptyCells(size)
    {
      tiles := CreateEmptyBoard(size);
      bombOwners := map[];
      cells := EmptyCells(size);
    }
  }

  /** On a standard board, GetTile reads the grid value. */
  lemma GetTileAgreesWithGrid(b: Board, row: int, col: int)
    requires b.Valid() && b.size == BOARD_SIZE
    ensures IsGrid(b.cells)
    ensures b.GetTile(row, col) == TileAt(b.cells, Pos(row, col))
    ensures b.IsValidPosition(row, col) <==> InBounds(Pos(row, col))
  {
  }
}
