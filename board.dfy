/**
 * The 8x8 board. A `Grid` is a value snapshot of the board (row-major,
 * 0-based inside, addressed through 1-based `Position`s); `ChessBoard` is the
 * mutable object the game owns, an `array2` written in place.
 */
module Board {
  import opened Wrappers
  import opened ChessTypes

  type Grid = g: seq<seq<Option<Piece>>> | |g| == 8 && forall r :: 0 <= r < |g| ==> |g[r]| == 8
    witness seq(8, _ => seq(8, _ => None))

  /** The board's bounds test: both coordinates in 1..8. */
  predicate InBounds(row: int, col: int) {
    1 <= row <= 8 && 1 <= col <= 8
  }

  predicate OnBoard(p: Position) {
    InBounds(p.row, p.col)
  }

  function Get(g: Grid, p: Position): Option<Piece>
    requires OnBoard(p)
  {
    g[p.row - 1][p.col - 1]
  }

  /** The grid with square `p` holding `x` (a piece, or `None` to clear it). */
  function Put(g: Grid, p: Position, x: Option<Piece>): (h: Grid)
    requires OnBoard(p)
    ensures Get(h, p) == x
    ensures forall q {:trigger Get(h, q)} :: OnBoard(q) && q != p ==> Get(h, q) == Get(g, q)
  {
    g[p.row - 1 := g[p.row - 1][p.col - 1 := x]]
  }

  /** Two grids are equal exactly when they agree on all 64 squares. */
  lemma GridExtensionality(g: Grid, h: Grid)
    ensures g == h <==> forall q {:trigger Get(g, q)} {:trigger Get(h, q)} :: OnBoard(q) ==> Get(g, q) == Get(h, q)
  {
    if forall q {:trigger Get(g, q)} {:trigger Get(h, q)} :: OnBoard(q) ==> Get(g, q) == Get(h, q) {
      forall r | 0 <= r < 8
        ensures g[r] == h[r]
      {
        forall c | 0 <= c < 8
          ensures g[r][c] == h[r][c]
        {
          assert Get(g, Pos(r + 1, c + 1)) == Get(h, Pos(r + 1, c + 1));
        }
      }
    }
  }

  const EmptyGrid: Grid := seq(8, _ => seq(8, _ => None))

  /** The home-rank order of pieces across columns 1..8. */
  const BackRank: seq<PieceType> := [ROOK, KNIGHT, BISHOP, QUEEN, KING, BISHOP, KNIGHT, ROOK]

  /** What the standard opening layout puts on square (row, col). */
  function StartSquare(row: int, col: int): Option<Piece>
    requires InBounds(row, col)
  {
    if row == 1 then Some(Piece(WHITE, BackRank[col - 1]))
    else if row == 2 then Some(Piece(WHITE, PAWN))
    else if row == 7 then Some(Piece(BLACK, PAWN))
    else if row == 8 then Some(Piece(BLACK, BackRank[col - 1]))
    else None
  }

  /**
   * The opening layout in progress: pawns placed in the columns before
   * `pawns`, back-rank pieces in the columns before `back`, all else empty.
   */
  ghost predicate PartlySet(g: Grid, pawns: int, back: int) {
    forall q {:trigger Get(g, q)} :: OnBoard(q) ==>
      Get(g, q) == if ((q.row == 2 || q.row == 7) && q.col < pawns) || ((q.row == 1 || q.row == 8) && q.col < back)
                   then StartSquare(q.row, q.col) else None
  }

  /** The standard opening position as a grid. */
  function StartingGrid(): (g: Grid)
    ensures forall p {:trigger Get(g, p)} :: OnBoard(p) ==> Get(g, p) == StartSquare(p.row, p.col)
  {
    var s := seq(8, i requires 0 <= i < 8 => seq(8, j requires 0 <= j < 8 => StartSquare(i + 1, j + 1)));
    assert forall i :: 0 <= i < 8 ==> |s[i]| == 8;
    s
  }

  /** Number of occupied squares in columns `from`..7 (0-based) of one row. */
  function CountRow(row: seq<Option<Piece>>, from: nat): nat
    requires from <= |row|
    decreases |row| - from
  {
    if from == |row| then 0
    else (if row[from].Some? then 1 else 0) + CountRow(row, from + 1)
  }

  /** Number of occupied squares in rows `from`..7 (0-based). */
  function CountGrid(g: Grid, from: nat): nat
    requires from <= 8
    decreases 8 - from
  {
    if from == 8 then 0 else CountRow(g[from], 0) + CountGrid(g, from + 1)
  }

  lemma {:induction false} FullRowCount(row: seq<Option<Piece>>, from: nat)
    requires from <= |row|
    requires forall j :: from <= j < |row| ==> row[j].Some?
    ensures CountRow(row, from) == |row| - from
    decreases |row| - from
  {
    if from < |row| {
      FullRowCount(row, from + 1);
    }
  }

  lemma {:induction false} EmptyRowCount(row: seq<Option<Piece>>, from: nat)
    requires from <= |row|
    requires forall j :: from <= j < |row| ==> row[j].None?
    ensures CountRow(row, from) == 0
    decreases |row| - from
  {
    if from < |row| {
      EmptyRowCount(row, from + 1);
    }
  }

  /**
   * The opening layout: rows 1 and 8 hold R N B Q K B N R (white, black),
   * rows 2 and 7 hold pawns, rows 3..6 are empty, 32 pieces in all.
   */
  lemma StartingLayout()
    ensures forall c :: 1 <= c <= 8 ==>
      Get(StartingGrid(), Pos(1, c)) == Some(Piece(WHITE, BackRank[c - 1])) &&
      Get(StartingGrid(), Pos(2, c)) == Some(Piece(WHITE, PAWN)) &&
      Get(StartingGrid(), Pos(7, c)) == Some(Piece(BLACK, PAWN)) &&
      Get(StartingGrid(), Pos(8, c)) == Some(Piece(BLACK, BackRank[c - 1]))
    ensures forall r, c :: 3 <= r <= 6 && 1 <= c <= 8 ==> Get(StartingGrid(), Pos(r, c)).None?
    ensures CountGrid(StartingGrid(), 0) == 32
  {
    var g := StartingGrid();
    forall r | r in {0, 1, 6, 7} ensures CountRow(g[r], 0) == 8 {
      forall j | 0 <= j < 8 ensures g[r][j].Some? {
        assert Get(g, Pos(r + 1, j + 1)).Some?;
      }
      FullRowCount(g[r], 0);
    }
    forall r | 2 <= r <= 5 ensures CountRow(g[r], 0) == 0 {
      forall j | 0 <= j < 8 ensures g[r][j].None? {
        assert Get(g, Pos(r + 1, j + 1)).None?;
      }
      EmptyRowCount(g[r], 0);
    }
    assert CountGrid(g, 8) == 0;
    assert CountGrid(g, 7) == 8;
    assert CountGrid(g, 6) == 16;
    assert CountGrid(g, 5) == 16;
    assert CountGrid(g, 4) == 16;
    assert CountGrid(g, 3) == 16;
    assert CountGrid(g, 2) == 16;
    assert CountGrid(g, 1) == 24;
  }

  /**
   * The mutable board: an 8x8 array of optional pieces, row r / column c of
   * the game stored at index [r-1, c-1]. `grid` is the board's contents as a
   * value; `Valid()` ties every cell to it.
   */
  class ChessBoard {
    var cells: array2<Option<Piece>>
    ghost var grid: Grid

    ghost predicate Valid()
      reads this, cells
    {
      cells.Length0 == 8 && cells.Length1 == 8 &&
      forall r, c :: 0 <= r < 8 && 0 <= c < 8 ==> cells[r, c] == grid[r][c]
    }

    /** The board's contents as a value, read off the array. */
    method Snapshot() returns (g: Grid)
      requires Valid()
      ensures g == grid
    {
      var a := cells;
      g := seq(8, i requires 0 <= i < 8 && a.Length0 == 8 && a.Length1 == 8 reads a =>
        seq(8, j requires 0 <= j < 8 reads a => a[i, j]));
      GridExtensionality(g, grid);
    }

    /** A fresh board has no pieces. */
    constructor ()
      ensures Valid() && fresh(cells)
      ensures grid == EmptyGrid
    {
      cells := new Option<Piece>[8, 8]((_, _) => None);
      grid := EmptyGrid;
    }

    /** Puts `piece` on `p`, replacing whatever stood there (`None`, Java's `null`, clears it); no other square changes. */
    method AddPiece(p: Position, piece: Option<Piece>)
      requires Valid() && OnBoard(p)
      modifies this, cells
      ensures Valid() && cells == old(cells)
      ensures grid == Put(old(grid), p, piece)
    {
      cells[p.row - 1, p.col - 1] := piece;
      grid := Put(grid, p, piece);
    }

    /** Clears square `p`; no other square changes. */
    method RemovePiece(p: Position)
      requires Valid() && OnBoard(p)
      modifies this, cells
      ensures Valid() && cells == old(cells)
      ensures grid == Put(old(grid), p, None)
    {
      cells[p.row - 1, p.col - 1] := None;
      grid := Put(grid, p, None);
    }

    /** The piece on `p`, or `None` for an empty square. */
    function GetPiece(p: Position): (x: Option<Piece>)
      reads this, cells
      requires Valid() && OnBoard(p)
      ensures x == Get(grid, p)
    {
      cells[p.row - 1, p.col - 1]
    }

    /** Discards the old contents and lays out the standard opening position. */
    method ResetBoard()
      requires Valid()
      modifies this
      ensures Valid() && fresh(cells)
      ensures grid == StartingGrid()
    {
      cells := new Option<Piece>[8, 8]((_, _) => None);
      grid := EmptyGrid;
      PlacePawns();
      PlaceBackRanks();
      GridExtensionality(grid, StartingGrid());
    }

    /** Fills rows 2 and 7 with pawns, column by column. */
    method PlacePawns()
      requires Valid() && PartlySet(grid, 1, 1)
      modifies this, cells
      ensures Valid() && cells == old(cells) && PartlySet(grid, 9, 1)
    {
      for i := 1 to 9
        invariant Valid() && cells == old(cells) && PartlySet(grid, i, 1)
      {
        AddPiece(Pos(2, i), Some(Piece(WHITE, PAWN)));
        AddPiece(Pos(7, i), Some(Piece(BLACK, PAWN)));
      }
    }

    /** Fills rows 1 and 8 with the back-rank pieces, column by column. */
    method PlaceBackRanks()
      requires Valid() && PartlySet(grid, 9, 1)
      modifies this, cells
      ensures Valid() && cells == old(cells) && PartlySet(grid, 9, 9)
    {
      for i := 1 to 9
        invariant Valid() && cells == old(cells) && PartlySet(grid, 9, i)
      {
        AddPiece(Pos(1, i), Some(Piece(WHITE, BackRank[i - 1])));
        AddPiece(Pos(8, i), Some(Piece(BLACK, BackRank[i - 1])));
      }
    }

    /** Board equality: every one of the 64 cells compares equal. */
    method Equals(other: ChessBoard) returns (same: bool)
      requires Valid() && other.Valid()
      ensures same <==> grid == other.grid
    {
      var r := 0;
      while r < 8
        invariant 0 <= r <= 8
        invariant forall i, j :: 0 <= i < r && 0 <= j < 8 ==> cells[i, j] == other.cells[i, j]
      {
        var c := 0;
        while c < 8
          invariant 0 <= c <= 8
          invariant forall j :: 0 <= j < c ==> cells[r, j] == other.cells[r, j]
        {
          if cells[r, c] != other.cells[r, c] {
            assert Get(grid, Pos(r + 1, c + 1)) != Get(other.grid, Pos(r + 1, c + 1));
            return false;
          }
          c := c + 1;
        }
        r := r + 1;
      }
      GridExtensionality(grid, other.grid);
      return true;
    }
  }
}
