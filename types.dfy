/** Small wrapper types shared by the rules engine and the server store. */
module Wrappers {

  /** The Java `null` / present-value distinction. */
  datatype Option<+T> = None | Some(value: T)
}

/**
 * The value types of the rules engine: colours, piece kinds, pieces,
 * board coordinates and moves. All of them are immutable and compared
 * structurally, which is how the engine's `equals` methods compare them.
 */
module ChessTypes {
  import opened Wrappers

  datatype TeamColor = WHITE | BLACK

  datatype PieceType = KING | QUEEN | BISHOP | KNIGHT | ROOK | PAWN

  /**
   * A piece knows its colour and kind, never its square. Datatype equality
   * compares exactly those two fields, as `ChessPiece.equals` does.
   */
  datatype Piece = Piece(color: TeamColor, kind: PieceType)

  /** A 1-based (row, column) pair; it carries no bounds check of its own. */
  datatype Position = Pos(row: int, col: int)

  /** A move from `start` to `end`; `promotion` is `None` unless a pawn promotes. */
  datatype Move = Move(start: Position, end: Position, promotion: Option<PieceType>)

  function Opponent(c: TeamColor): (o: TeamColor)
    ensures o != c
  {
    if c == WHITE then BLACK else WHITE
  }

  /** The four promotion choices, in the order the engine emits them. */
  const PromotionKinds: seq<PieceType> := [QUEEN, ROOK, BISHOP, KNIGHT]
}
