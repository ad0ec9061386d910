/**
 * The game: a board, the side to move and a turn counter. Every query that
 * tries a move does so on the live board and takes it back afterwards; the
 * contracts below say that the board comes back exactly and that each query
 * answers what the rules in `Rules` define.
 */
module Game {
  import opened Wrappers
  import opened ChessTypes
  import opened Board
  import opened Pieces
  import opened Rules

  /** The side the counter says is to move once turn `turn` has been played. */
  function TeamAfterTurn(turn: int): TeamColor {
    if turn % 2 == 0 then WHITE else BLACK
  }

  /** Successive turns hand the move to alternate sides. */
  lemma TeamAfterTurnAlternates(turn: int)
    ensures TeamAfterTurn(turn + 1) == Opponent(TeamAfterTurn(turn))
  {
  }

  /** Whether some move of `ms` ends on `target`; never when `target` is `None`. */
  method EndsOn(ms: seq<Move>, target: Option<Position>) returns (found: bool)
    ensures found <==> exists m :: m in ms && Some(m.end) == target
  {
    for k := 0 to |ms|
      invariant forall j :: 0 <= j < k ==> Some(ms[j].end) != target
    {
      if Some(ms[k].end) == target {
        return true;
      }
    }
    return false;
  }

  /** What `MakeMove` reports: success, or the message of the rejected move. */
  datatype MoveOutcome = Moved | InvalidMove(message: string)

  class ChessGame {
    var team: TeamColor
    var board: ChessBoard
    var turn: int

    ghost predicate Valid()
      reads this, board, board.cells
    {
      board.Valid() && turn >= 1
    }

    /**
     * The side to move follows the turn counter: white on odd turns, black
     * on even ones. A new game starts so, and every move played keeps it so.
     */
    ghost predicate TurnParity()
      reads this
    {
      team == TeamAfterTurn(turn - 1)
    }

    /** A new game: white to move, turn 1, the standard opening position. */
    constructor ()
      ensures Valid() && fresh(board) && fresh(board.cells)
      ensures team == WHITE && turn == 1 && TurnParity()
      ensures board.grid == StartingGrid()
    {
      team := WHITE;
      turn := 1;
      board := new ChessBoard();
      new;
      board.ResetBoard();
    }

    /** Hands the move to `t` without touching the turn counter. */
    method SetTeamTurn(t: TeamColor)
      modifies this
      ensures team == t && turn == old(turn) && board == old(board)
    {
      team := t;
    }

    /** Replaces the board the game plays on. */
    method SetBoard(b: ChessBoard)
      modifies this
      ensures board == b && team == old(team) && turn == old(turn)
    {
      board := b;
    }

    /** Two games are equal when the side to move and all 64 squares agree. */
    method Equals(other: ChessGame) returns (same: bool)
      requires Valid() && other.Valid()
      ensures same <==> team == other.team && board.grid == other.board.grid
    {
      if team != other.team {
        return false;
      }
      same := board.Equals(other.board);
    }

    /** The 64 squares, each once, in row-major order. */
    method AllPiecePositions() returns (ps: seq<Position>)
      ensures |ps| == 64
      ensures forall p :: p in ps <==> OnBoard(p)
      ensures forall i, j :: 0 <= i < j < |ps| ==> Before(ps[i], ps[j])
    {
      ps := [];
      for row := 1 to 9
        invariant |ps| == (row - 1) * 8
        invariant forall p :: p in ps <==> OnBoard(p) && p.row < row
        invariant forall i, j :: 0 <= i < j < |ps| ==> Before(ps[i], ps[j])
      {
        for col := 1 to 9
          invariant |ps| == (row - 1) * 8 + col - 1
          invariant forall p :: p in ps <==> OnBoard(p) && (p.row < row || (p.row == row && p.col < col))
          invariant forall i, j :: 0 <= i < j < |ps| ==> Before(ps[i], ps[j])
        {
          ps := ps + [Pos(row, col)];
        }
      }
    }

    /** The squares holding a `color` piece, in row-major order. */
    method TeamPiecePositions(color: TeamColor) returns (ps: seq<Position>)
      requires Valid()
      ensures forall p :: p in ps <==> OnBoard(p) && OwnedBy(board.grid, p, color)
      ensures forall i, j :: 0 <= i < j < |ps| ==> Before(ps[i], ps[j])
    {
      ghost var g := board.grid;
      ps := [];
      for row := 1 to 9
        invariant forall p :: p in ps <==> OnBoard(p) && p.row < row && OwnedBy(g, p, color)
        invariant forall i, j :: 0 <= i < j < |ps| ==> Before(ps[i], ps[j])
      {
        for col := 1 to 9
          invariant forall p :: p in ps <==>
            OnBoard(p) && (p.row < row || (p.row == row && p.col < col)) && OwnedBy(g, p, color)
          invariant forall i, j :: 0 <= i < j < |ps| ==> Before(ps[i], ps[j])
        {
          var pos := Pos(row, col);
          var piece := board.GetPiece(pos);
          if piece.Some? && piece.value.color == color {
            ps := ps + [pos];
          }
        }
      }
    }

    /** The first `color` king in row-major order, or `None` when the side has no king. */
    method FindKing(color: TeamColor) returns (king: Option<Position>)
      requires Valid()
      ensures king.Some? ==> IsFirstKing(board.grid, color, king.value)
      ensures king.None? ==> forall q :: OnBoard(q) ==> !IsKingOf(board.grid, q, color)
    {
      ghost var g := board.grid;
      var all := AllPiecePositions();
      for i := 0 to 64
        invariant forall j :: 0 <= j < i ==> !IsKingOf(g, all[j], color)
      {
        var piece := board.GetPiece(all[i]);
        if piece.Some? && piece.value.kind == KING && piece.value.color == color {
          forall q | OnBoard(q) && Before(q, all[i]) ensures !IsKingOf(g, q, color) {
            var j :| 0 <= j < 64 && all[j] == q;
            assert j < i;
          }
          return Some(all[i]);
        }
      }
      forall q | OnBoard(q) ensures !IsKingOf(g, q, color) {
        var j :| 0 <= j < 64 && all[j] == q;
      }
      return None;
    }

    /**
     * `color` is in check exactly when some opposing piece has a pseudo-legal
     * move onto the first `color` king; without a king it is never in check.
     */
    method IsInCheck(color: TeamColor) returns (check: bool)
      requires Valid()
      ensures check == InCheck(board.grid, color)
    {
      ghost var g := board.grid;
      var kingPos := FindKing(color);
      var all := AllPiecePositions();
      InCheckByScan(g, color, kingPos, all);
      for i := 0 to 64
        invariant kingPos.Some? ==> AllPrefix(Quiet(g, color, kingPos.value), all, i)
      {
        var pos := all[i];
        assert pos in all;
        var piece := board.GetPiece(pos);
        if piece.Some? && piece.value.color != color {
          var snapshot := board.Snapshot();
          var hit := EndsOn(PieceMoves(snapshot, pos, piece.value), kingPos);
          if hit {
            AllPrefixBroken(Quiet(g, color, kingPos.value), all, i);
            return true;
          }
        }
      }
      return false;
    }

    /** Plays `move` by `piece` on the board, promoting if the move says so. */
    method TestMove(move: Move, piece: Piece)
      requires Valid() && OnBoard(move.start) && OnBoard(move.end)
      modifies board, board.cells
      ensures board.cells == old(board.cells) && Valid()
      ensures board.grid == ApplyMove(old(board.grid), move, piece)
    {
      ghost var g := board.grid;
      if move.promotion.Some? {
        board.AddPiece(move.end, Some(Piece(piece.color, move.promotion.value)));
      } else {
        board.AddPiece(move.end, Some(piece));
      }
      board.RemovePiece(move.start);
    }

    /** Takes back `move`: `piece` back on the start square, `captured` back on the end square. */
    method UndoMove(move: Move, piece: Piece, captured: Option<Piece>)
      requires Valid() && OnBoard(move.start) && OnBoard(move.end)
      modifies board, board.cells
      ensures board.cells == old(board.cells) && Valid()
      ensures board.grid == Rules.UndoMove(old(board.grid), move, piece, captured)
    {
      ghost var g := board.grid;
      board.RemovePiece(move.end);
      board.AddPiece(move.start, Some(piece));
      if captured.Some? {
        board.AddPiece(move.end, captured);
      }
    }

    /**
     * Tries `move` and reports whether `color` is out of check afterwards;
     * the board is put back exactly as it was.
     */
    method MoveRemovesCheck(move: Move, piece: Piece, color: TeamColor) returns (removes: bool)
      requires Valid() && OnBoard(move.start) && OnBoard(move.end)
      requires Get(board.grid, move.start) == Some(piece)
      modifies board, board.cells
      ensures board.cells == old(board.cells) && Valid()
      ensures removes == !InCheck(ApplyMove(old(board.grid), move, piece), color)
      ensures board.grid == old(board.grid)
    {
      ghost var g := board.grid;
      var captured := board.GetPiece(move.end);
      TestMove(move, piece);
      var stillInCheck := IsInCheck(color);
      UndoMove(move, piece, captured);
      UndoRestores(g, move, piece);
      removes := !stillInCheck;
    }

    /**
     * The legal moves from `start`: none for an empty square, otherwise the
     * piece's pseudo-legal moves that do not leave its side in check. The
     * board is put back exactly as it was.
     */
    method ValidMoves(start: Position) returns (r: Option<set<Move>>)
      requires Valid() && OnBoard(start)
      modifies board, board.cells
      ensures board.cells == old(board.cells) && Valid()
      ensures r == LegalMoves(old(board.grid), start)
      ensures board.grid == old(board.grid)
    {
      ghost var g := board.grid;
      var p := board.GetPiece(start);
      if p.None? {
        return None;
      }
      var piece := p.value;
      var snapshot := board.Snapshot();
      var ms := PieceMoves(snapshot, start, piece);
      assert forall j :: 0 <= j < |ms| ==> ms[j] in ms;
      var valid := KeepSafe(ms, piece);
      LegalByScan(old(board.grid), start, piece);
      return Some(valid);
    }

    /**
     * Tries each move of `ms`, all made by `piece`, and keeps those that do
     * not leave the mover's side in check; the board is put back exactly as
     * it was.
     */
    method KeepSafe(ms: seq<Move>, piece: Piece) returns (valid: set<Move>)
      requires Valid()
      requires forall j :: 0 <= j < |ms| ==>
        OnBoard(ms[j].start) && OnBoard(ms[j].end) && Get(board.grid, ms[j].start) == Some(piece)
      modifies board, board.cells
      ensures board.cells == old(board.cells) && Valid()
      ensures valid == Kept(Safe(old(board.grid), piece), ms, |ms|)
      ensures board.grid == old(board.grid)
    {
      valid := {};
      for i := 0 to |ms|
        invariant board.grid == old(board.grid) && board.cells == old(board.cells) && Valid()
        invariant valid == Kept(Safe(old(board.grid), piece), ms, i)
      {
        var safe := MoveRemovesCheck(ms[i], piece, piece.color);
        if safe {
          valid := valid + {ms[i]};
        }
      }
    }

    /**
     * Tries the moves of `ms`, all made by `piece`, in order and stops at the
     * first one that gets `color` out of check; the board is put back
     * exactly as it was.
     */
    method AnyRemovesCheck(ms: seq<Move>, piece: Piece, color: TeamColor) returns (escapes: bool)
      requires Valid()
      requires forall j :: 0 <= j < |ms| ==>
        OnBoard(ms[j].start) && OnBoard(ms[j].end) && Get(board.grid, ms[j].start) == Some(piece)
      modifies board, board.cells
      ensures board.cells == old(board.cells) && Valid()
      ensures escapes == !AllPrefix(LeavesInCheck(old(board.grid), piece, color), ms, |ms|)
      ensures board.grid == old(board.grid)
    {
      ghost var f := LeavesInCheck(board.grid, piece, color);
      for k := 0 to |ms|
        invariant board.grid == old(board.grid) && board.cells == old(board.cells) && Valid()
        invariant AllPrefix(f, ms, k)
      {
        var removes := MoveRemovesCheck(ms[k], piece, color);
        if removes {
          AllPrefixBroken(f, ms, k);
          return true;
        }
      }
      return false;
    }

    /**
     * Whether some pseudo-legal move of `piece` on `pos` gets `color` out of
     * check; the board is put back exactly as it was.
     */
    method PieceEscapes(pos: Position, piece: Piece, color: TeamColor) returns (escapes: bool)
      requires Valid() && OnBoard(pos) && Get(board.grid, pos) == Some(piece)
      modifies board, board.cells
      ensures board.cells == old(board.cells) && Valid()
      ensures escapes == !NoEscapeFrom(old(board.grid), pos, color)
      ensures board.grid == old(board.grid)
    {
      var snapshot := board.Snapshot();
      var ms := PieceMoves(snapshot, pos, piece);
      assert forall j :: 0 <= j < |ms| ==> ms[j] in ms;
      escapes := AnyRemovesCheck(ms, piece, color);
      NoEscapeByScan(old(board.grid), pos, color);
    }

    /**
     * Whether some piece of `color` standing on a square of `ps`, tried in
     * order, has a pseudo-legal move that gets `color` out of check; the
     * board is put back exactly as it was.
     */
    method AnyPieceEscapes(ps: seq<Position>, color: TeamColor) returns (escapes: bool)
      requires Valid() && forall j :: 0 <= j < |ps| ==> OnBoard(ps[j])
      modifies board, board.cells
      ensures board.cells == old(board.cells) && Valid()
      ensures escapes == !AllPrefix(Stuck(old(board.grid), color), ps, |ps|)
      ensures board.grid == old(board.grid)
    {
      ghost var g := board.grid;
      for i := 0 to |ps|
        invariant board.grid == g && board.cells == old(board.cells) && Valid()
        invariant AllPrefix(Stuck(g, color), ps, i)
      {
        var p := board.GetPiece(ps[i]);
        if p.None? {
          continue;
        }
        var escapes := PieceEscapes(ps[i], p.value, color);
        if escapes {
          AllPrefixBroken(Stuck(g, color), ps, i);
          return true;
        }
      }
      return false;
    }

    /**
     * `color` is checkmated: in check, and no pseudo-legal move of any of its
     * pieces gets it out. The board is put back exactly as it was.
     */
    method IsInCheckmate(color: TeamColor) returns (mate: bool)
      requires Valid()
      modifies board, board.cells
      ensures board.cells == old(board.cells) && Valid()
      ensures mate == Checkmate(old(board.grid), color)
      ensures board.grid == old(board.grid)
    {
      ghost var g := board.grid;
      var check := IsInCheck(color);
      if !check {
        return false;
      }
      var ps := TeamPiecePositions(color);
      CheckmateByScan(g, color, ps);
      var escapes := AnyPieceEscapes(ps, color);
      return !escapes;
    }

    /**
     * `color` is stalemated: not in check, and none of its pieces has a legal
     * move. The board is put back exactly as it was.
     */
    method IsInStalemate(color: TeamColor) returns (stale: bool)
      requires Valid()
      modifies board, board.cells
      ensures board.cells == old(board.cells) && Valid()
      ensures stale == Stalemate(old(board.grid), color)
      ensures board.grid == old(board.grid)
    {
      ghost var g := board.grid;
      var check := IsInCheck(color);
      if check {
        return false;
      }
      var ps := TeamPiecePositions(color);
      StalemateByScan(g, color, ps);
      for i := 0 to |ps|
        invariant board.grid == g && board.cells == old(board.cells) && Valid()
        invariant AllPrefix(Idle(g), ps, i)
      {
        var moves := ValidMoves(ps[i]);
        if moves.Some? && moves.value != {} {
          AllPrefixBroken(Idle(g), ps, i);
          return false;
        }
      }
      return true;
    }

    /**
     * Plays `move` for the side to move. It is rejected, with the board, the
     * side to move and the counter untouched, when the start square is empty,
     * when the piece there belongs to the other side, or when the move is not
     * among the piece's legal moves. Otherwise the move is played and the
     * side to move is taken from the parity of the counter, which advances.
     */
    method MakeMove(move: Move) returns (outcome: MoveOutcome)
      requires Valid() && OnBoard(move.start)
      modifies this, board, board.cells
      ensures board == old(board) && Valid()
      ensures var g := old(board.grid);
        match Get(g, move.start)
        case None =>
          outcome == InvalidMove("start position null") &&
          board.grid == g && team == old(team) && turn == old(turn)
        case Some(piece) =>
          if piece.color != old(team) then
            outcome == InvalidMove("wrong team") &&
            board.grid == g && team == old(team) && turn == old(turn)
          else if move !in LegalSet(g, move.start, piece) then
            outcome == InvalidMove("Invalid move") &&
            board.grid == g && team == old(team) && turn == old(turn)
          else
            outcome == Moved && board.grid == ApplyMove(g, move, piece) &&
            team == TeamAfterTurn(old(turn)) && turn == old(turn) + 1 && TurnParity()
    {
      ghost var g := board.grid;
      var p := board.GetPiece(move.start);
      if p.None? {
        return InvalidMove("start position null");
      }
      var piece := p.value;
      if piece.color != team {
        return InvalidMove("wrong team");
      }
      var valid := ValidMoves(move.start);
      if move !in valid.value {
        return InvalidMove("Invalid move");
      }
      LegalMovesSound(g, move.start, move);
      TestMove(move, piece);
      team := if turn % 2 == 0 then WHITE else BLACK;
      turn := turn + 1;
      return Moved;
    }

    /**
     * `MakeMove` as the turn rule intends it: the same checks and the same
     * board change, but the move then passes to the opponent of the side
     * that moved, whatever `SetTeamTurn` did to the side to move earlier.
     */
    method MakeMoveAlternating(move: Move) returns (outcome: MoveOutcome)
      requires Valid() && OnBoard(move.start)
      modifies this, board, board.cells
      ensures board == old(board) && Valid()
      ensures var g := old(board.grid);
        match Get(g, move.start)
        case None =>
          outcome == InvalidMove("start position null") &&
          board.grid == g && team == old(team) && turn == old(turn)
        case Some(piece) =>
          if piece.color != old(team) then
            outcome == InvalidMove("wrong team") &&
            board.grid == g && team == old(team) && turn == old(turn)
          else if move !in LegalSet(g, move.start, piece) then
            outcome == InvalidMove("Invalid move") &&
            board.grid == g && team == old(team) && turn == old(turn)
          else
            outcome == Moved && board.grid == ApplyMove(g, move, piece) &&
            team == Opponent(old(team)) && turn == old(turn) + 1
    {
      ghost var g := board.grid;
      var p := board.GetPiece(move.start);
      if p.None? {
        return InvalidMove("start position null");
      }
      var piece := p.value;
      if piece.color != team {
        return InvalidMove("wrong team");
      }
      var valid := ValidMoves(move.start);
      if move !in valid.value {
        return InvalidMove("Invalid move");
      }
      LegalMovesSound(g, move.start, move);
      TestMove(move, piece);
      team := Opponent(team);
      turn := turn + 1;
      return Moved;
    }
  }

  // ---------------------------------------------------------------------
  // A concrete opening: e7-e5 is legal in the starting position.

  /** A slider whose first square in every direction is off the board or its own side's yields nothing. */
  lemma {:induction false} SlideBlocked(g: Grid, from: Position, color: TeamColor, dirs: seq<Dir>)
    requires forall d :: d in dirs ==>
      var q := Pos(from.row + d.0, from.col + d.1);
      !OnBoard(q) || (Get(g, q).Some? && Get(g, q).value.color == color)
    ensures Slide(g, from, color, dirs) == []
  {
    if dirs != [] {
      SlideBlocked(g, from, color, dirs[1..]);
    }
  }

  /** A stepping piece whose offsets move at most `reach` rows forward never lands further than that. */
  lemma {:induction false} StepReach(g: Grid, from: Position, color: TeamColor, offsets: seq<Offset>, reach: int)
    requires forall o :: o in offsets ==> o.0 <= reach
    ensures forall m :: m in Step(g, from, color, offsets) ==> m.end.row <= from.row + reach
  {
    if offsets != [] {
      StepReach(g, from, color, offsets[1..], reach);
    }
  }

  /** White's first four rows are as the opening left them, and no white piece stands further up. */
  ghost predicate WhiteHome(h: Grid) {
    (forall q {:trigger Get(h, q)} :: OnBoard(q) && q.row <= 4 ==> Get(h, q) == StartSquare(q.row, q.col)) &&
    (forall q {:trigger Get(h, q)} :: OnBoard(q) && 3 <= q.row ==> !OwnedBy(h, q, WHITE))
  }

  /** From row 1 of such a board, a queen, bishop or rook is walled in by its own side. */
  lemma HomeSlidersBlocked(h: Grid, p: Position)
    requires WhiteHome(h) && OnBoard(p) && p.row == 1
    requires Get(h, p).value.kind in {QUEEN, BISHOP, ROOK}
    ensures PieceMoves(h, p, Get(h, p).value) == []
  {
    var kind := Get(h, p).value.kind;
    if kind == QUEEN {
      SlideBlocked(h, p, WHITE, QueenDirs);
    } else if kind == BISHOP {
      SlideBlocked(h, p, WHITE, BishopDirs);
    } else {
      SlideBlocked(h, p, WHITE, RookDirs);
    }
  }

  /** From row 1 of such a board, every piece is walled in or steps at most two rows. */
  lemma HomeRankStaysLow(h: Grid, p: Position, m: Move)
    requires WhiteHome(h) && OnBoard(p) && p.row == 1
    requires m in PieceMoves(h, p, Get(h, p).value)
    ensures m.end.row <= 4
  {
    var kind := Get(h, p).value.kind;
    if kind == KING {
      StepReach(h, p, WHITE, KingOffsets, 1);
    } else if kind == KNIGHT {
      StepReach(h, p, WHITE, KnightOffsets, 2);
    } else {
      HomeSlidersBlocked(h, p);
    }
  }

  /** A white pawn on row 2 reaches row 4 at most. */
  lemma PawnRankStaysLow(h: Grid, p: Position, m: Move)
    requires WhiteHome(h) && OnBoard(p) && p.row == 2
    requires m in PieceMoves(h, p, Get(h, p).value)
    ensures m.end.row <= 4
  {
  }

  /** While white has not moved, no white move ends beyond row 4. */
  lemma WhiteMovesStayLow(h: Grid, p: Position, m: Move)
    requires WhiteHome(h) && OnBoard(p) && OwnedBy(h, p, WHITE)
    requires m in PieceMoves(h, p, Get(h, p).value)
    ensures m.end.row <= 4
  {
    if p.row == 1 {
      HomeRankStaysLow(h, p, m);
    } else {
      PawnRankStaysLow(h, p, m);
    }
  }

  /** While white's first four rows are as they started, black is never in check. */
  lemma BlackSafeWhileWhiteHome(h: Grid)
    requires WhiteHome(h)
    ensures !InCheck(h, BLACK)
  {
    if InCheck(h, BLACK) {
      var k :| IsFirstKing(h, BLACK, k) && exists p {:trigger Attacks(h, p, BLACK, k)} :: OnBoard(p) && Attacks(h, p, BLACK, k);
      var p :| OnBoard(p) && Attacks(h, p, BLACK, k);
      var m :| m in PieceMoves(h, p, Get(h, p).value) && m.end == k;
      WhiteMovesStayLow(h, p, m);
      assert false;
    }
  }

  /** Black's king's-pawn double push, e7-e5. */
  const KingsPawn: Move := Move(Pos(7, 5), Pos(5, 5), None)

  /** The opening generates e7-e5 for the black pawn on e7. */
  lemma KingsPawnGenerated()
    ensures KingsPawn in PieceMoves(StartingGrid(), Pos(7, 5), Piece(BLACK, PAWN))
  {
  }

  /** After e7-e5 white's side of the board is untouched. */
  lemma KingsPawnKeepsWhiteHome()
    ensures WhiteHome(ApplyMove(StartingGrid(), KingsPawn, Piece(BLACK, PAWN)))
  {
    var g := StartingGrid();
    var h := ApplyMove(g, KingsPawn, Piece(BLACK, PAWN));
    forall q | OnBoard(q) && 3 <= q.row ensures !OwnedBy(h, q, WHITE) {
      if q != KingsPawn.start && q != KingsPawn.end {
        assert Get(h, q) == Get(g, q);
      }
    }
    forall q | OnBoard(q) && q.row <= 4 ensures Get(h, q) == StartSquare(q.row, q.col) {
      if q != KingsPawn.end {
        assert Get(h, q) == Get(g, q);
      }
    }
  }

  /** e7-e5 is a legal move from the opening position. */
  lemma KingsPawnLegal()
    ensures KingsPawn in LegalSet(StartingGrid(), Pos(7, 5), Piece(BLACK, PAWN))
  {
    KingsPawnGenerated();
    KingsPawnKeepsWhiteHome();
    BlackSafeWhileWhiteHome(ApplyMove(StartingGrid(), KingsPawn, Piece(BLACK, PAWN)));
  }

  /**
   * A new game handed to black with `SetTeamTurn`: black's e7-e5 is
   * accepted, and `MakeMove` leaves black to move again, because turn 1 is odd.
   */
  method BlackMovesTwice() returns (outcome: MoveOutcome, next: TeamColor)
    ensures outcome == Moved && next == BLACK
  {
    var game := new ChessGame();
    game.SetTeamTurn(BLACK);
    KingsPawnLegal();
    outcome := game.MakeMove(KingsPawn);
    next := game.team;
  }

  /** The same opening under `MakeMoveAlternating`: black's e7-e5 is accepted and hands the game to white. */
  method BlackThenWhite() returns (outcome: MoveOutcome, next: TeamColor)
    ensures outcome == Moved && next == WHITE
  {
    var game := new ChessGame();
    game.SetTeamTurn(BLACK);
    KingsPawnLegal();
    outcome := game.MakeMoveAlternating(KingsPawn);
    next := game.team;
  }
}
