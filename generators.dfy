/**
 * The standalone move generators: objects that append the moves of one kind
 * of piece to a list they own. The list is never cleared, so calling a
 * generator twice returns the earlier moves followed by the new ones.
 * Each generator is proved against the pure generators of `Pieces`.
 */
module Generators {
  import opened Wrappers
  import opened ChessTypes
  import opened Board
  import Pieces

  // ---------------------------------------------------------------------
  // Appending in steps.

  /** The moves `f` gives for each element of `xs`, one element after another. */
  function Joined<X>(xs: seq<X>, f: X -> seq<Move>): seq<Move> {
    if xs == [] then [] else f(xs[0]) + Joined(xs[1..], f)
  }

  /** Appending is associative. */
  lemma AppendAssoc<T>(a: seq<T>, b: seq<T>, c: seq<T>)
    ensures (a + b) + c == a + (b + c)
  {
  }

  /** Appending the moves of one more element extends the joined moves by that element. */
  lemma {:induction false} JoinedSnoc<X>(xs: seq<X>, x: X, f: X -> seq<Move>)
    ensures Joined(xs + [x], f) == Joined(xs, f) + f(x)
    decreases |xs|
  {
    if xs == [] {
      assert ([] + [x])[1..] == [];
    } else {
      assert (xs + [x])[1..] == xs[1..] + [x];
      JoinedSnoc(xs[1..], x, f);
    }
  }

  /** One step of appending: `m` holds the moves of `xs` after `m0`; `m2` adds those of `x`. */
  lemma JoinedStep<X>(xs: seq<X>, x: X, f: X -> seq<Move>, m0: seq<Move>, m: seq<Move>, m2: seq<Move>)
    requires m == m0 + Joined(xs, f) && m2 == m + f(x)
    ensures m2 == m0 + Joined(xs + [x], f)
  {
    JoinedSnoc(xs, x, f);
  }

  /** Four steps of appending, one per element `x0` … `x3`, append the moves of all four. */
  lemma JoinedFour<X>(x0: X, x1: X, x2: X, x3: X, f: X -> seq<Move>,
                      m0: seq<Move>, m1: seq<Move>, m2: seq<Move>, m3: seq<Move>, m4: seq<Move>)
    requires m1 == m0 + f(x0) && m2 == m1 + f(x1) && m3 == m2 + f(x2) && m4 == m3 + f(x3)
    ensures m4 == m0 + Joined([x0, x1, x2, x3], f)
  {
    var p0: seq<X> := [];
    JoinedStep(p0, x0, f, m0, m0, m1);
    var p1 := p0 + [x0];
    JoinedStep(p1, x1, f, m0, m1, m2);
    var p2 := p1 + [x1];
    JoinedStep(p2, x2, f, m0, m2, m3);
    var p3 := p2 + [x2];
    JoinedStep(p3, x3, f, m0, m3, m4);
    assert p3 + [x3] == [x0, x1, x2, x3];
  }

  /** Eight steps of appending, one per element `x0` … `x7`, append the moves of all eight. */
  lemma JoinedEight<X>(x0: X, x1: X, x2: X, x3: X, x4: X, x5: X, x6: X, x7: X, f: X -> seq<Move>,
                       m0: seq<Move>, m1: seq<Move>, m2: seq<Move>, m3: seq<Move>, m4: seq<Move>,
                       m5: seq<Move>, m6: seq<Move>, m7: seq<Move>, m8: seq<Move>)
    requires m1 == m0 + f(x0) && m2 == m1 + f(x1) && m3 == m2 + f(x2) && m4 == m3 + f(x3)
    requires m5 == m4 + f(x4) && m6 == m5 + f(x5) && m7 == m6 + f(x6) && m8 == m7 + f(x7)
    ensures m8 == m0 + Joined([x0, x1, x2, x3, x4, x5, x6, x7], f)
  {
    var p0: seq<X> := [];
    JoinedStep(p0, x0, f, m0, m0, m1);
    var p1 := p0 + [x0];
    JoinedStep(p1, x1, f, m0, m1, m2);
    var p2 := p1 + [x1];
    JoinedStep(p2, x2, f, m0, m2, m3);
    var p3 := p2 + [x2];
    JoinedStep(p3, x3, f, m0, m3, m4);
    var p4 := p3 + [x3];
    JoinedStep(p4, x4, f, m0, m4, m5);
    var p5 := p4 + [x4];
    JoinedStep(p5, x5, f, m0, m5, m6);
    var p6 := p5 + [x5];
    JoinedStep(p6, x6, f, m0, m6, m7);
    var p7 := p6 + [x6];
    JoinedStep(p7, x7, f, m0, m7, m8);
    assert p7 + [x7] == [x0, x1, x2, x3, x4, x5, x6, x7];
  }

  // ---------------------------------------------------------------------
  // The rook generator.

  /** Appends the rook's moves ray by ray: +row, -row, +col, -col. */
  class RookMoves {
    var moves: seq<Move>

    constructor()
      ensures moves == []
    {
      moves := [];
    }

    /**
     * Appends the moves of the piece on `position`, walked as a rook, and
     * returns the whole list. On a fresh generator the result is exactly the
     * rook moves of the pure generator, in the same order.
     */
    method PieceMoves(board: ChessBoard, position: Position) returns (result: seq<Move>)
      requires board.Valid() && OnBoard(position) && Get(board.grid, position).Some?
      modifies this
      ensures moves == old(moves) + Pieces.PieceMoves(board.grid, position, Piece(Get(board.grid, position).value.color, ROOK))
      ensures result == moves
    {
      var piece := board.GetPiece(position);
      var row := position.row;
      var col := position.col;
      ghost var m0 := moves;
      CheckMoves(board, position, piece.value, row, col, 1, 0);
      ghost var m1 := moves;
      CheckMoves(board, position, piece.value, row, col, -1, 0);
      ghost var m2 := moves;
      CheckMoves(board, position, piece.value, row, col, 0, 1);
      ghost var m3 := moves;
      CheckMoves(board, position, piece.value, row, col, 0, -1);
      RookChain(board.grid, position, piece.value.color, m0, m1, m2, m3, moves);
      result := moves;
    }

    /**
     * Walks one ray from (row, col) in steps of (rowMove, colMove), appending
     * every empty square and then the first occupied square if an enemy holds it.
     */
    method CheckMoves(board: ChessBoard, position: Position, piece: Piece, row: int, col: int, rowMove: int, colMove: int)
      requires board.Valid() && Pieces.IsUnit((rowMove, colMove))
      modifies this
      ensures moves == old(moves) + Pieces.Ray(board.grid, position, piece.color, row + rowMove, col + colMove, (rowMove, colMove))
    {
      ghost var g := board.grid;
      ghost var d: Pieces.Dir := (rowMove, colMove);
      ghost var ray := Pieces.Ray(g, position, piece.color, row + rowMove, col + colMove, d);
      var i := row + rowMove;
      var j := col + colMove;
      while InBounds(i, j)
        invariant board.grid == g
        invariant old(moves) + ray == moves + Pieces.Ray(g, position, piece.color, i, j, d)
        decreases Pieces.RayRoom(i, j, d)
      {
        var next := Pos(i, j);
        var target := board.GetPiece(next);
        if target.None? {
          RayPassesEmpty(g, position, piece.color, i, j, d);
          moves := moves + [Move(position, next, None)];
          i := i + rowMove;
          j := j + colMove;
        } else if target.value.color != piece.color {
          moves := moves + [Move(position, next, None)];
          break;
        } else if target.value.color == piece.color {
          break;
        }
      }
    }
  }

  /** On an empty square the ray moves there and walks on. */
  lemma RayPassesEmpty(g: Grid, from: Position, color: TeamColor, row: int, col: int, d: Pieces.Dir)
    requires InBounds(row, col) && Get(g, Pos(row, col)).None?
    ensures Pieces.Ray(g, from, color, row, col, d) ==
      [Move(from, Pos(row, col), None)] + Pieces.Ray(g, from, color, row + d.0, col + d.1, d)
  {
  }

  /** The ray of each direction, starting next to `from`. */
  function RayFrom(g: Grid, from: Position, color: TeamColor): Pieces.Dir -> seq<Move> {
    (d: Pieces.Dir) => Pieces.Ray(g, from, color, from.row + d.0, from.col + d.1, d)
  }

  /** A slide is its rays one after another. */
  lemma {:induction false} SlideJoined(g: Grid, from: Position, color: TeamColor, dirs: seq<Pieces.Dir>)
    ensures Pieces.Slide(g, from, color, dirs) == Joined(dirs, RayFrom(g, from, color))
    decreases |dirs|
  {
    if dirs != [] {
      SlideJoined(g, from, color, dirs[1..]);
    }
  }

  /** Appending the rook's four rays, +row, -row, +col, -col, one after another appends its pure moves. */
  lemma RookChain(g: Grid, from: Position, color: TeamColor, m0: seq<Move>, m1: seq<Move>, m2: seq<Move>, m3: seq<Move>, m4: seq<Move>)
    requires m1 == m0 + Pieces.Ray(g, from, color, from.row + 1, from.col, (1, 0))
    requires m2 == m1 + Pieces.Ray(g, from, color, from.row - 1, from.col, (-1, 0))
    requires m3 == m2 + Pieces.Ray(g, from, color, from.row, from.col + 1, (0, 1))
    requires m4 == m3 + Pieces.Ray(g, from, color, from.row, from.col - 1, (0, -1))
    ensures m4 == m0 + Pieces.PieceMoves(g, from, Piece(color, ROOK))
  {
    JoinedFour<Pieces.Dir>((1, 0), (-1, 0), (0, 1), (0, -1), RayFrom(g, from, color), m0, m1, m2, m3, m4);
    RookJoined(g, from, color);
  }

  /** A rook's pure moves are its four rays, +row, -row, +col, -col, one after another. */
  lemma RookJoined(g: Grid, from: Position, color: TeamColor)
    ensures Pieces.PieceMoves(g, from, Piece(color, ROOK)) == Joined<Pieces.Dir>([(1, 0), (-1, 0), (0, 1), (0, -1)], RayFrom(g, from, color))
  {
    SlideJoined(g, from, color, Pieces.RookDirs);
  }

  // ---------------------------------------------------------------------
  // The knight generator.

  /** Appends the knight's moves, one offset at a time in a fixed order. */
  class KnightMoves {
    var moves: seq<Move>

    constructor()
      ensures moves == []
    {
      moves := [];
    }

    /**
     * Appends the moves of the piece on `position`, jumped as a knight, and
     * returns the whole list. On a fresh generator the result is exactly the
     * knight moves of the pure generator, in the same order.
     */
    method PieceMoves(board: ChessBoard, position: Position) returns (result: seq<Move>)
      requires board.Valid() && OnBoard(position) && Get(board.grid, position).Some?
      modifies this
      ensures moves == old(moves) + Pieces.PieceMoves(board.grid, position, Piece(Get(board.grid, position).value.color, KNIGHT))
      ensures result == moves
    {
      var piece := board.GetPiece(position);
      var row := position.row;
      var col := position.col;
      ghost var g := board.grid;
      ghost var m0 := moves;
      CheckMoves(board, position, piece.value, row, col, 2, 1);
      ghost var m1 := moves;
      assert m1 == m0 + Pieces.StepTo(g, position, piece.value.color, Pos(row + 2, col + 1));
      CheckMoves(board, position, piece.value, row, col, 2, -1);
      ghost var m2 := moves;
      assert m2 == m1 + Pieces.StepTo(g, position, piece.value.color, Pos(row + 2, col - 1));
      CheckMoves(board, position, piece.value, row, col, -2, 1);
      ghost var m3 := moves;
      assert m3 == m2 + Pieces.StepTo(g, position, piece.value.color, Pos(row - 2, col + 1));
      CheckMoves(board, position, piece.value, row, col, -2, -1);
      ghost var m4 := moves;
      assert m4 == m3 + Pieces.StepTo(g, position, piece.value.color, Pos(row - 2, col - 1));
      CheckMoves(board, position, piece.value, row, col, 1, 2);
      ghost var m5 := moves;
      assert m5 == m4 + Pieces.StepTo(g, position, piece.value.color, Pos(row + 1, col + 2));
      CheckMoves(board, position, piece.value, row, col, 1, -2);
      ghost var m6 := moves;
      assert m6 == m5 + Pieces.StepTo(g, position, piece.value.color, Pos(row + 1, col - 2));
      CheckMoves(board, position, piece.value, row, col, -1, 2);
      ghost var m7 := moves;
      assert m7 == m6 + Pieces.StepTo(g, position, piece.value.color, Pos(row - 1, col + 2));
      CheckMoves(board, position, piece.value, row, col, -1, -2);
      ghost var m8 := moves;
      assert m8 == m7 + Pieces.StepTo(g, position, piece.value.color, Pos(row - 1, col - 2));
      KnightChain(g, position, piece.value.color, m0, m1, m2, m3, m4, m5, m6, m7, m8);
      result := moves;
    }

    /**
     * Appends the jump to (row + rowMove, col + colMove) when that square is
     * on the board and empty or held by an enemy; appends nothing otherwise.
     */
    method CheckMoves(board: ChessBoard, position: Position, piece: Piece, row: int, col: int, rowMove: int, colMove: int)
      requires board.Valid()
      modifies this
      ensures moves == old(moves) + Pieces.StepTo(board.grid, position, piece.color, Pos(row + rowMove, col + colMove))
    {
      var i := row + rowMove;
      var j := col + colMove;
      var next := Pos(i, j);
      if InBounds(i, j) {
        var target := board.GetPiece(next);
        if target.None? {
          moves := moves + [Move(position, next, None)];
        } else if target.value.color != piece.color {
          moves := moves + [Move(position, next, None)];
        }
      }
    }
  }

  /** The step onto each offset from `from`. */
  function StepFrom(g: Grid, from: Position, color: TeamColor): Pieces.Offset -> seq<Move> {
    (d: Pieces.Offset) => Pieces.StepTo(g, from, color, Pos(from.row + d.0, from.col + d.1))
  }

  /** The step moves are the single steps one after another. */
  lemma {:induction false} StepJoined(g: Grid, from: Position, color: TeamColor, offsets: seq<Pieces.Offset>)
    ensures Pieces.Step(g, from, color, offsets) == Joined(offsets, StepFrom(g, from, color))
    decreases |offsets|
  {
    if offsets != [] {
      StepJoined(g, from, color, offsets[1..]);
    }
  }

  /** Appending the eight knight jumps in the generator's order appends the knight's pure moves. */
  lemma KnightChain(g: Grid, from: Position, color: TeamColor, m0: seq<Move>, m1: seq<Move>, m2: seq<Move>, m3: seq<Move>,
    m4: seq<Move>, m5: seq<Move>, m6: seq<Move>, m7: seq<Move>, m8: seq<Move>)
    requires m1 == m0 + Pieces.StepTo(g, from, color, Pos(from.row + 2, from.col + 1))
    requires m2 == m1 + Pieces.StepTo(g, from, color, Pos(from.row + 2, from.col - 1))
    requires m3 == m2 + Pieces.StepTo(g, from, color, Pos(from.row - 2, from.col + 1))
    requires m4 == m3 + Pieces.StepTo(g, from, color, Pos(from.row - 2, from.col - 1))
    requires m5 == m4 + Pieces.StepTo(g, from, color, Pos(from.row + 1, from.col + 2))
    requires m6 == m5 + Pieces.StepTo(g, from, color, Pos(from.row + 1, from.col - 2))
    requires m7 == m6 + Pieces.StepTo(g, from, color, Pos(from.row - 1, from.col + 2))
    requires m8 == m7 + Pieces.StepTo(g, from, color, Pos(from.row - 1, from.col - 2))
    ensures m8 == m0 + Pieces.PieceMoves(g, from, Piece(color, KNIGHT))
  {
    JoinedEight<Pieces.Offset>((2, 1), (2, -1), (-2, 1), (-2, -1), (1, 2), (1, -2), (-1, 2), (-1, -2), StepFrom(g, from, color),
                m0, m1, m2, m3, m4, m5, m6, m7, m8);
    KnightJoined(g, from, color);
  }

  /** A knight's pure moves are its eight single steps, in the generator's order, one after another. */
  lemma KnightJoined(g: Grid, from: Position, color: TeamColor)
    ensures Pieces.PieceMoves(g, from, Piece(color, KNIGHT)) ==
      Joined<Pieces.Offset>([(2, 1), (2, -1), (-2, 1), (-2, -1), (1, 2), (1, -2), (-1, 2), (-1, -2)], StepFrom(g, from, color))
  {
    StepJoined(g, from, color, Pieces.KnightOffsets);
  }

  // ---------------------------------------------------------------------
  // The pawn generator.

  /** Appends a pawn's moves: forward, the double step, then captures to the left and the right. */
  class PawnMoves {
    var moves: seq<Move>

    constructor()
      ensures moves == []
    {
      moves := [];
    }

    /**
     * Appends the moves of the pawn on `position` and returns the whole list.
     * On a fresh generator the result holds exactly the pawn moves of the
     * pure generator, each once, in the generator's own order.
     */
    method PieceMoves(board: ChessBoard, position: Position) returns (result: seq<Move>)
      requires board.Valid() && OnBoard(position) && Get(board.grid, position).Some?
      modifies this
      ensures moves == old(moves) + PawnScan(board.grid, position, Get(board.grid, position).value.color, position.row, position.col)
      ensures result == moves
    {
      var piece := board.GetPiece(position);
      var row := position.row;
      var col := position.col;
      CheckMoves(board, position, piece.value, row, col);
      result := moves;
    }

    /**
     * Appends the moves of a `piece.color` pawn standing at (row, col) and
     * moving as `position`: one step forward onto an empty square, two steps
     * from the start row across two empty squares, then the diagonal
     * captures onto enemies, left before right. A landing on the last rank
     * comes as the four promotions.
     */
    method CheckMoves(board: ChessBoard, position: Position, piece: Piece, row: int, col: int)
      requires board.Valid()
      modifies this
      ensures moves == old(moves) + PawnScan(board.grid, position, piece.color, row, col)
    {
      if piece.color == WHITE {
        WhiteMoves(board, position, piece, row, col);
      }
      if piece.color == BLACK {
        BlackMoves(board, position, piece, row, col);
      }
    }

    /** The white half of `CheckMoves`: forward is up the board, promotion on row 8. */
    method WhiteMoves(board: ChessBoard, position: Position, piece: Piece, row: int, col: int)
      requires board.Valid() && piece.color == WHITE
      modifies this
      ensures moves == old(moves) + PawnScan(board.grid, position, piece.color, row, col)
    {
      ghost var g := board.grid;
      ghost var m0 := moves;
      var next := Pos(row + 1, col);
      if InBounds(row + 1, col) {
        if board.GetPiece(next).None? {
          if next.row == 8 {
            Promote(position, next);
          } else if next.row != 8 {
            moves := moves + [Move(position, next, None)];
          }
        }
      }
      assert moves == m0 + Advance(g, position, piece.color, row, col);
      ghost var m1 := moves;
      next := Pos(row + 2, col);
      if InBounds(row + 2, col) {
        if row == 2 && board.GetPiece(next).None? && board.GetPiece(Pos(row + 1, col)).None? {
          moves := moves + [Move(position, next, None)];
        }
      }
      assert moves == m1 + DoubleAdvance(g, position, piece.color, row, col);
      ghost var m2 := moves;
      var i := -1;
      while i <= 1
        invariant i == -1 || i == 1 || i == 3
        invariant board.grid == g
        invariant moves == m2 + CapturesBefore(g, position, piece.color, row, col, i)
      {
        ghost var before := moves;
        next := Pos(row + 1, col + i);
        if InBounds(row + 1, col + i) {
          if board.GetPiece(next).Some? && board.GetPiece(next).value.color != piece.color {
            if next.row == 8 {
              Promote(position, next);
            } else {
              moves := moves + [Move(position, next, None)];
            }
          }
        }
        assert moves == before + CaptureSide(g, position, piece.color, row, col, i);
        CapturesStep(g, position, piece.color, row, col, i);
        AppendAssoc(m2, CapturesBefore(g, position, piece.color, row, col, i), CaptureSide(g, position, piece.color, row, col, i));
        i := i + 2;
      }
      PawnScanJoin(g, position, piece.color, row, col, m0, m1, m2, moves);
    }

    /** The black half of `CheckMoves`: forward is down the board, promotion on row 1. */
    method BlackMoves(board: ChessBoard, position: Position, piece: Piece, row: int, col: int)
      requires board.Valid() && piece.color == BLACK
      modifies this
      ensures moves == old(moves) + PawnScan(board.grid, position, piece.color, row, col)
    {
      ghost var g := board.grid;
      ghost var m0 := moves;
      var next := Pos(row - 1, col);
      if InBounds(row - 1, col) {
        if board.GetPiece(next).None? {
          if next.row == 1 {
            Promote(position, next);
          } else if next.row != 1 {
            moves := moves + [Move(position, next, None)];
          }
        }
      }
      assert moves == m0 + Advance(g, position, piece.color, row, col);
      ghost var m1 := moves;
      next := Pos(row - 2, col);
      if InBounds(row - 2, col) {
        if row == 7 && board.GetPiece(next).None? && board.GetPiece(Pos(row - 1, col)).None? {
          moves := moves + [Move(position, next, None)];
        }
      }
      assert moves == m1 + DoubleAdvance(g, position, piece.color, row, col);
      ghost var m2 := moves;
      var i := -1;
      while i <= 1
        invariant i == -1 || i == 1 || i == 3
        invariant board.grid == g
        invariant moves == m2 + CapturesBefore(g, position, piece.color, row, col, i)
      {
        ghost var before := moves;
        next := Pos(row - 1, col + i);
        if InBounds(row - 1, col + i) {
          if board.GetPiece(next).Some? && board.GetPiece(next).value.color != piece.color {
            if next.row == 1 {
              Promote(position, next);
            } else {
              moves := moves + [Move(position, next, None)];
            }
          }
        }
        assert moves == before + CaptureSide(g, position, piece.color, row, col, i);
        CapturesStep(g, position, piece.color, row, col, i);
        AppendAssoc(m2, CapturesBefore(g, position, piece.color, row, col, i), CaptureSide(g, position, piece.color, row, col, i));
        i := i + 2;
      }
      PawnScanJoin(g, position, piece.color, row, col, m0, m1, m2, moves);
    }

    /** Appends the four promotions of the move from `position` to `next`: bishop, rook, knight, queen. */
    method Promote(position: Position, next: Position)
      modifies this
      ensures moves == old(moves) + PromoteAll(position, next)
    {
      moves := moves + [Move(position, next, Some(BISHOP))];
      moves := moves + [Move(position, next, Some(ROOK))];
      moves := moves + [Move(position, next, Some(KNIGHT))];
      moves := moves + [Move(position, next, Some(QUEEN))];
    }
  }

  /** The four promotions in the generator's order: bishop, rook, knight, queen. */
  function PromoteAll(from: Position, to: Position): seq<Move> {
    [Move(from, to, Some(BISHOP)), Move(from, to, Some(ROOK)), Move(from, to, Some(KNIGHT)), Move(from, to, Some(QUEEN))]
  }

  /** A pawn landing on `to`: the four promotions on the last rank, else one plain move. */
  function Landing(from: Position, to: Position, color: TeamColor): seq<Move> {
    if Pieces.IsPromotionRank(color, to.row) then PromoteAll(from, to) else [Move(from, to, None)]
  }

  /** The generator's landing offers the same moves as the pure one, as many of them, in another order. */
  lemma LandingSameMoves(from: Position, to: Position, color: TeamColor, m: Move)
    ensures m in Landing(from, to, color) <==> m in Pieces.PawnLanding(from, to, color)
    ensures |Landing(from, to, color)| == |Pieces.PawnLanding(from, to, color)|
  {
  }

  /** The step forward from (row, col) onto an empty square. */
  function Advance(g: Grid, from: Position, color: TeamColor, row: int, col: int): seq<Move> {
    var next := Pos(row + Pieces.Forward(color), col);
    if InBounds(next.row, next.col) && Get(g, next).None? then Landing(from, next, color) else []
  }

  /** The double step from the start row across two empty squares. */
  function DoubleAdvance(g: Grid, from: Position, color: TeamColor, row: int, col: int): seq<Move> {
    var two := Pos(row + 2 * Pieces.Forward(color), col);
    if InBounds(two.row, two.col) && row == Pieces.PawnStartRow(color) && Get(g, two).None? &&
       Get(g, Pos(row + Pieces.Forward(color), col)).None?
    then [Move(from, two, None)] else []
  }

  /** The diagonal capture onto column `col + side`, if an enemy stands there. */
  function CaptureSide(g: Grid, from: Position, color: TeamColor, row: int, col: int, side: int): seq<Move> {
    var target := Pos(row + Pieces.Forward(color), col + side);
    if InBounds(target.row, target.col) && Get(g, target).Some? && Get(g, target).value.color != color
    then Landing(from, target, color) else []
  }

  /** The captures the generator has tried before side `i`: none, the left one, or both. */
  function CapturesBefore(g: Grid, from: Position, color: TeamColor, row: int, col: int, i: int): seq<Move> {
    if i <= -1 then []
    else if i <= 1 then CaptureSide(g, from, color, row, col, -1)
    else CaptureSide(g, from, color, row, col, -1) + CaptureSide(g, from, color, row, col, 1)
  }

  /** Trying side `i` adds its capture to those tried before. */
  lemma CapturesStep(g: Grid, from: Position, color: TeamColor, row: int, col: int, i: int)
    requires i == -1 || i == 1
    ensures CapturesBefore(g, from, color, row, col, i + 2) ==
      CapturesBefore(g, from, color, row, col, i) + CaptureSide(g, from, color, row, col, i)
  {
    if i == -1 {
      assert [] + CaptureSide(g, from, color, row, col, -1) == CaptureSide(g, from, color, row, col, -1);
    }
  }

  /** Forward, double step and both captures appended in turn append the whole scan. */
  lemma PawnScanJoin(g: Grid, from: Position, color: TeamColor, row: int, col: int,
                     m0: seq<Move>, m1: seq<Move>, m2: seq<Move>, m3: seq<Move>)
    requires m1 == m0 + Advance(g, from, color, row, col)
    requires m2 == m1 + DoubleAdvance(g, from, color, row, col)
    requires m3 == m2 + CapturesBefore(g, from, color, row, col, 3)
    ensures m3 == m0 + PawnScan(g, from, color, row, col)
  {
    AppendFour(m0, m1, m2, m3, Advance(g, from, color, row, col), DoubleAdvance(g, from, color, row, col),
               CaptureSide(g, from, color, row, col, -1), CaptureSide(g, from, color, row, col, 1));
  }

  /** Appending `a`, then `b`, then `c` and `d` together appends all four in turn. */
  lemma AppendFour<T>(m0: seq<T>, m1: seq<T>, m2: seq<T>, m3: seq<T>, a: seq<T>, b: seq<T>, c: seq<T>, d: seq<T>)
    requires m1 == m0 + a && m2 == m1 + b && m3 == m2 + (c + d)
    ensures m3 == m0 + (a + b + c + d)
  {
    AppendAssoc(m0 + a, b, c + d);
    AppendAssoc(m0, a, b + (c + d));
    assert a + (b + (c + d)) == a + b + c + d;
  }

  /** A pawn's moves in the generator's order: forward, double step, capture left, capture right. */
  function PawnScan(g: Grid, from: Position, color: TeamColor, row: int, col: int): seq<Move> {
    Advance(g, from, color, row, col) + DoubleAdvance(g, from, color, row, col) +
    CaptureSide(g, from, color, row, col, -1) + CaptureSide(g, from, color, row, col, 1)
  }

  /**
   * The generator yields the same moves as the pure pawn generator, and as
   * many: the two lists differ only in order.
   */
  lemma PawnScanSameMoves(g: Grid, from: Position, color: TeamColor, m: Move)
    ensures m in PawnScan(g, from, color, from.row, from.col) <==> m in Pieces.PawnMoves(g, from, color)
    ensures |PawnScan(g, from, color, from.row, from.col)| == |Pieces.PawnMoves(g, from, color)|
  {
    var dir := Pieces.Forward(color);
    var next := Pos(from.row + dir, from.col);
    var two := Pos(from.row + 2 * dir, from.col);
    var single :=
      if OnBoard(next) && Get(g, next).None? then Pieces.PawnLanding(from, next, color) else [];
    var double :=
      if from.row == Pieces.PawnStartRow(color) && OnBoard(two) && Get(g, next).None? && Get(g, two).None?
      then [Move(from, two, None)] else [];
    var right, left := Pieces.PawnCapture(g, from, color, 1), Pieces.PawnCapture(g, from, color, -1);
    assert Pieces.PawnMoves(g, from, color) == single + double + right + left;
    var a, d := Advance(g, from, color, from.row, from.col), DoubleAdvance(g, from, color, from.row, from.col);
    var l, r := CaptureSide(g, from, color, from.row, from.col, -1), CaptureSide(g, from, color, from.row, from.col, 1);
    assert PawnScan(g, from, color, from.row, from.col) == a + d + l + r;
    LandingSameMoves(from, next, color, m);
    assert (m in a <==> m in single) && |a| == |single|;
    assert d == double;
    CaptureSideSame(g, from, color, -1, m);
    CaptureSideSame(g, from, color, 1, m);
  }

  /** One capture of the generator offers the same moves as the pure generator's capture on that side. */
  lemma CaptureSideSame(g: Grid, from: Position, color: TeamColor, side: int, m: Move)
    ensures m in CaptureSide(g, from, color, from.row, from.col, side) <==> m in Pieces.PawnCapture(g, from, color, side)
    ensures |CaptureSide(g, from, color, from.row, from.col, side)| == |Pieces.PawnCapture(g, from, color, side)|
  {
    LandingSameMoves(from, Pos(from.row + Pieces.Forward(color), from.col + side), color, m);
  }

  /**
   * The order differs, though: when the step forward promotes, the generator
   * offers the bishop first where the pure generator offers the queen.
   */
  lemma PawnScanOrderDiffers(g: Grid, from: Position, color: TeamColor)
    requires OnBoard(Pos(from.row + Pieces.Forward(color), from.col))
    requires Get(g, Pos(from.row + Pieces.Forward(color), from.col)).None?
    requires Pieces.IsPromotionRank(color, from.row + Pieces.Forward(color))
    ensures PawnScan(g, from, color, from.row, from.col)[0].promotion == Some(BISHOP)
    ensures Pieces.PawnMoves(g, from, color)[0].promotion == Some(QUEEN)
  {
  }
}
