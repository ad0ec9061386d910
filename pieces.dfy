/**
 * Pseudo-legal move generation: what each kind of piece may do from a square
 * of a board snapshot, ignoring whether its own king is left in check.
 * Sliding pieces walk rays, knights and kings step, pawns have their own rules.
 */
module Pieces {
  import opened Wrappers
  import opened ChessTypes
  import opened Board

  /** A square-to-square offset: (rows, columns). */
  type Offset = (int, int)

  /** A ray direction: one step of -1, 0 or +1 on each axis, not standing still. */
  type Dir = d: Offset | IsUnit(d) witness (1, 0)

  const QueenDirs: seq<Dir> := [(1, 0), (-1, 0), (0, 1), (0, -1), (1, 1), (1, -1), (-1, 1), (-1, -1)]
  const BishopDirs: seq<Dir> := [(1, 1), (1, -1), (-1, 1), (-1, -1)]
  const RookDirs: seq<Dir> := [(1, 0), (-1, 0), (0, 1), (0, -1)]
  const KnightOffsets: seq<Offset> := [(2, 1), (2, -1), (-2, 1), (-2, -1), (1, 2), (1, -2), (-1, 2), (-1, -2)]
  const KingOffsets: seq<Offset> := [(1, 1), (1, 0), (1, -1), (0, 1), (0, -1), (-1, 1), (-1, 0), (-1, -1)]

  predicate IsUnit(d: Offset) {
    -1 <= d.0 <= 1 && -1 <= d.1 <= 1 && d != (0, 0)
  }

  /** `x` moved `k` steps along an axis whose step is `s` (-1, 0 or +1). */
  function Along(x: int, s: int, k: int): int {
    if s == 1 then x + k else if s == -1 then x - k else x
  }

  /** Squares left on a ray before it runs off the board from (row, col). */
  function RayRoom(row: int, col: int, d: Dir): int {
    (if d.0 == 1 then 9 - row else if d.0 == -1 then row else 0) +
    (if d.1 == 1 then 9 - col else if d.1 == -1 then col else 0)
  }

  /** The square may be entered by a `color` piece: empty or held by the other side. */
  predicate Enterable(g: Grid, p: Position, color: TeamColor)
    requires OnBoard(p)
  {
    Get(g, p).None? || Get(g, p).value.color != color
  }

  /**
   * The moves of a sliding piece of colour `color` standing on `from` along
   * direction `d`, starting the walk at (row, col): every empty square in
   * turn, then the first occupied square if it holds an enemy, then nothing.
   */
  function Ray(g: Grid, from: Position, color: TeamColor, row: int, col: int, d: Dir): seq<Move>
    decreases RayRoom(row, col, d)
  {
    if !InBounds(row, col) then []
    else
      var next := Pos(row, col);
      match Get(g, next)
      case None => [Move(from, next, None)] + Ray(g, from, color, row + d.0, col + d.1, d)
      case Some(target) => if target.color != color then [Move(from, next, None)] else []
  }

  /** The rays of a sliding piece, one after another in the order of `dirs`. */
  function Slide(g: Grid, from: Position, color: TeamColor, dirs: seq<Dir>): (ms: seq<Move>)
    ensures forall m {:trigger m in ms} :: m in ms ==>
      m.start == from && m.promotion.None? && OnBoard(m.end) && Enterable(g, m.end, color)
  {
    if dirs == [] then []
    else
      RayMovesSound(g, from, color, from.row + dirs[0].0, from.col + dirs[0].1, dirs[0]);
      Ray(g, from, color, from.row + dirs[0].0, from.col + dirs[0].1, dirs[0]) + Slide(g, from, color, dirs[1..])
  }

  /** The plain move from `from` onto `to`, present exactly when `to` is on the board and enterable. */
  function StepTo(g: Grid, from: Position, color: TeamColor, to: Position): (ms: seq<Move>)
    ensures |ms| <= 1
    ensures forall m {:trigger m in ms} :: m in ms <==>
      m == Move(from, to, None) && OnBoard(to) && Enterable(g, to, color)
  {
    if OnBoard(to) && Enterable(g, to, color) then [Move(from, to, None)] else []
  }

  /** The stepping moves of a knight or king, in the order of `offsets`. */
  function Step(g: Grid, from: Position, color: TeamColor, offsets: seq<Offset>): (ms: seq<Move>)
    ensures forall m {:trigger m in ms} :: m in ms ==>
      m.start == from && m.promotion.None? && OnBoard(m.end) && Enterable(g, m.end, color)
  {
    if offsets == [] then [] else StepTo(g, from, color, Pos(from.row + offsets[0].0, from.col + offsets[0].1)) + Step(g, from, color, offsets[1..])
  }

  /** The row a `color` pawn promotes on: 8 for white, 1 for black. */
  predicate IsPromotionRank(color: TeamColor, row: int) {
    (color == WHITE && row == 8) || (color == BLACK && row == 1)
  }

  /** One move per promotion choice, queen first. */
  function Promotions(from: Position, to: Position): seq<Move> {
    [Move(from, to, Some(QUEEN)), Move(from, to, Some(ROOK)), Move(from, to, Some(BISHOP)), Move(from, to, Some(KNIGHT))]
  }

  /** A pawn landing on `to`: four promotion moves on the last rank, else one plain move. */
  function PawnLanding(from: Position, to: Position, color: TeamColor): (ms: seq<Move>)
    ensures forall m {:trigger m in ms} :: m in ms ==> m.start == from && m.end == to
  {
    if IsPromotionRank(color, to.row) then Promotions(from, to) else [Move(from, to, None)]
  }

  function Forward(color: TeamColor): int {
    if color == WHITE then 1 else -1
  }

  function PawnStartRow(color: TeamColor): int {
    if color == WHITE then 2 else 7
  }

  /** The diagonal capture onto column `from.col + side`, if an enemy stands there. */
  function PawnCapture(g: Grid, from: Position, color: TeamColor, side: int): (ms: seq<Move>)
    ensures forall m {:trigger m in ms} :: m in ms ==> m.start == from && OnBoard(m.end) && Enterable(g, m.end, color)
  {
    var target := Pos(from.row + Forward(color), from.col + side);
    if OnBoard(target) && Get(g, target).Some? && Get(g, target).value.color != color
    then PawnLanding(from, target, color)
    else []
  }

  /** Pawn moves: single push, double push from the start row, captures to the right then the left. */
  function PawnMoves(g: Grid, from: Position, color: TeamColor): (ms: seq<Move>)
    ensures forall m {:trigger m in ms} :: m in ms ==> m.start == from && OnBoard(m.end) && Enterable(g, m.end, color)
  {
    var dir := Forward(color);
    var next := Pos(from.row + dir, from.col);
    var two := Pos(from.row + 2 * dir, from.col);
    var single :=
      if OnBoard(next) && Get(g, next).None? then PawnLanding(from, next, color) else [];
    var double :=
      if from.row == PawnStartRow(color) && OnBoard(two) && Get(g, next).None? && Get(g, two).None?
      then [Move(from, two, None)] else [];
    single + double + PawnCapture(g, from, color, 1) + PawnCapture(g, from, color, -1)
  }

  /**
   * The pseudo-legal moves of `piece` standing on `pos`, by kind. Every move
   * starts on `pos` and ends on a board square that is empty or held by the
   * other side.
   */
  function PieceMoves(g: Grid, pos: Position, piece: Piece): (ms: seq<Move>)
    ensures forall m {:trigger m in ms} :: m in ms ==> m.start == pos && OnBoard(m.end) && Enterable(g, m.end, piece.color)
  {
    match piece.kind
    case KING => Step(g, pos, piece.color, KingOffsets)
    case QUEEN => Slide(g, pos, piece.color, QueenDirs)
    case BISHOP => Slide(g, pos, piece.color, BishopDirs)
    case ROOK => Slide(g, pos, piece.color, RookDirs)
    case KNIGHT => Step(g, pos, piece.color, KnightOffsets)
    case PAWN => PawnMoves(g, pos, piece.color)
  }

  // ---------------------------------------------------------------------
  // What the generators produce, square by square.

  /** Square `k` of the ray that starts at (row, col) and steps by `d` (square 0 is (row, col)). */
  function RaySquare(row: int, col: int, d: Dir, k: int): Position {
    Pos(Along(row, d.0, k), Along(col, d.1, k))
  }

  /** Squares 0..k-1 of the ray that starts at (row, col) are on the board and empty. */
  predicate ClearBefore(g: Grid, row: int, col: int, d: Dir, k: int)
    decreases k
  {
    k <= 0 ||
    (OnBoard(Pos(row, col)) && Get(g, Pos(row, col)).None? && ClearBefore(g, row + d.0, col + d.1, d, k - 1))
  }

  /** A `color` slider may stop on square `k` of the ray: the squares before it are empty and it is enterable. */
  predicate RayStop(g: Grid, color: TeamColor, row: int, col: int, d: Dir, k: int) {
    0 <= k && ClearBefore(g, row, col, d, k) &&
    OnBoard(RaySquare(row, col, d, k)) && Enterable(g, RaySquare(row, col, d, k), color)
  }

  /**
   * A ray yields exactly the plain moves to the squares a slider can reach:
   * every square whose predecessors on the ray are empty, provided it is
   * empty or an enemy's. Nothing past the first occupied square is produced.
   */
  lemma RayExactly(g: Grid, from: Position, color: TeamColor, row: int, col: int, d: Dir, m: Move)
    ensures m in Ray(g, from, color, row, col, d) <==>
      m.start == from && m.promotion.None? &&
      exists k :: RayStop(g, color, row, col, d, k) && m.end == RaySquare(row, col, d, k)
  {
    if m in Ray(g, from, color, row, col, d) {
      RaySound(g, from, color, row, col, d, m);
    }
    if m.start == from && m.promotion.None? && exists k :: RayStop(g, color, row, col, d, k) && m.end == RaySquare(row, col, d, k) {
      var k :| RayStop(g, color, row, col, d, k) && m.end == RaySquare(row, col, d, k);
      RayComplete(g, from, color, row, col, d, k);
    }
  }

  /** Every move of a ray is a plain move from `from` onto one of the ray's stops. */
  lemma {:induction false} RaySound(g: Grid, from: Position, color: TeamColor, row: int, col: int, d: Dir, m: Move)
    requires m in Ray(g, from, color, row, col, d)
    ensures m.start == from && m.promotion.None?
    ensures exists k :: RayStop(g, color, row, col, d, k) && m.end == RaySquare(row, col, d, k)
    decreases RayRoom(row, col, d)
  {
    var first := Pos(row, col);
    assert RaySquare(row, col, d, 0) == first;
    if Get(g, first).Some? || m == Move(from, first, None) {
      assert RayStop(g, color, row, col, d, 0);
    } else {
      RaySound(g, from, color, row + d.0, col + d.1, d, m);
      var k :| RayStop(g, color, row + d.0, col + d.1, d, k) && m.end == RaySquare(row + d.0, col + d.1, d, k);
      RayStopShift(g, color, row, col, d, k);
    }
  }

  /** Every move of a ray starts on `from`, promotes nothing, and ends on a square the mover may enter. */
  lemma RayMovesSound(g: Grid, from: Position, color: TeamColor, row: int, col: int, d: Dir)
    ensures forall m {:trigger m in Ray(g, from, color, row, col, d)} :: m in Ray(g, from, color, row, col, d) ==>
      m.start == from && m.promotion.None? && OnBoard(m.end) && Enterable(g, m.end, color)
  {
    forall m | m in Ray(g, from, color, row, col, d)
      ensures m.start == from && m.promotion.None? && OnBoard(m.end) && Enterable(g, m.end, color)
    {
      RaySound(g, from, color, row, col, d, m);
    }
  }

  /** Every stop of a ray is reached by the ray's plain move onto it. */
  lemma {:induction false} RayComplete(g: Grid, from: Position, color: TeamColor, row: int, col: int, d: Dir, k: int)
    requires RayStop(g, color, row, col, d, k)
    ensures Move(from, RaySquare(row, col, d, k), None) in Ray(g, from, color, row, col, d)
    decreases k
  {
    RayStopFirst(g, color, row, col, d, k);
    if k > 0 {
      RayStopShift(g, color, row, col, d, k - 1);
      RayComplete(g, from, color, row + d.0, col + d.1, d, k - 1);
      var rest := Ray(g, from, color, row + d.0, col + d.1, d);
      assert Ray(g, from, color, row, col, d) == [Move(from, Pos(row, col), None)] + rest;
    } else {
      assert RaySquare(row, col, d, 0) == Pos(row, col);
    }
  }

  /** A stop on a ray needs its first square on the board, and empty unless it is the stop itself. */
  lemma RayStopFirst(g: Grid, color: TeamColor, row: int, col: int, d: Dir, k: int)
    requires RayStop(g, color, row, col, d, k)
    ensures OnBoard(Pos(row, col)) && (k > 0 ==> Get(g, Pos(row, col)).None?)
    ensures k == 0 ==> Enterable(g, Pos(row, col), color)
  {
    assert RaySquare(row, col, d, 0) == Pos(row, col);
  }

  /**
   * Past an empty first square, stopping on square `k` of the rest of the
   * ray is stopping on square `k + 1` of the whole ray.
   */
  lemma RayStopShift(g: Grid, color: TeamColor, row: int, col: int, d: Dir, k: int)
    requires 0 <= k && OnBoard(Pos(row, col)) && Get(g, Pos(row, col)).None?
    ensures RayStop(g, color, row + d.0, col + d.1, d, k) <==> RayStop(g, color, row, col, d, k + 1)
    ensures RaySquare(row + d.0, col + d.1, d, k) == RaySquare(row, col, d, k + 1)
  {
    assert RaySquare(row + d.0, col + d.1, d, k) == RaySquare(row, col, d, k + 1);
  }

  /** `to` is `from` shifted by `d`, on the board, and enterable by `color`. */
  predicate StepReaches(g: Grid, from: Position, color: TeamColor, d: Offset, to: Position) {
    to == Pos(from.row + d.0, from.col + d.1) && OnBoard(to) && Enterable(g, to, color)
  }

  /** A stepping piece yields exactly the plain moves onto in-bounds, enterable offset squares. */
  lemma {:induction false} StepExactly(g: Grid, from: Position, color: TeamColor, offsets: seq<Offset>, m: Move)
    ensures m in Step(g, from, color, offsets) <==>
      m.start == from && m.promotion.None? &&
      exists i :: 0 <= i < |offsets| && StepReaches(g, from, color, offsets[i], m.end)
  {
    if offsets != [] {
      StepExactly(g, from, color, offsets[1..], m);
      if m in Step(g, from, color, offsets[1..]) {
        var i :| 0 <= i < |offsets[1..]| && StepReaches(g, from, color, offsets[1..][i], m.end);
        assert StepReaches(g, from, color, offsets[i + 1], m.end);
      }
      if m.start == from && m.promotion.None? && exists i :: 0 <= i < |offsets| && StepReaches(g, from, color, offsets[i], m.end) {
        var i :| 0 <= i < |offsets| && StepReaches(g, from, color, offsets[i], m.end);
        if i > 0 {
          assert StepReaches(g, from, color, offsets[1..][i - 1], m.end);
        }
      }
    }
  }

  /** One square forward onto an empty square. */
  predicate SinglePush(g: Grid, from: Position, color: TeamColor, to: Position) {
    OnBoard(to) && to == Pos(from.row + Forward(color), from.col) && Get(g, to).None?
  }

  /** Two squares forward from the start row, across two empty squares. */
  predicate DoublePush(g: Grid, from: Position, color: TeamColor, to: Position) {
    OnBoard(to) && to == Pos(from.row + 2 * Forward(color), from.col) && from.row == PawnStartRow(color) &&
    Get(g, Pos(from.row + Forward(color), from.col)).None? && Get(g, to).None?
  }

  /** One square forward diagonally onto an enemy piece. */
  predicate DiagonalCapture(g: Grid, from: Position, color: TeamColor, to: Position) {
    OnBoard(to) && to.row == from.row + Forward(color) && (to.col == from.col + 1 || to.col == from.col - 1) &&
    Get(g, to).Some? && Get(g, to).value.color != color
  }

  /** The squares a `color` pawn on `from` may move to. */
  predicate PawnReaches(g: Grid, from: Position, color: TeamColor, to: Position) {
    SinglePush(g, from, color, to) || DoublePush(g, from, color, to) || DiagonalCapture(g, from, color, to)
  }

  /** The promotion a pawn move to `to` carries: one of the four kinds on the last rank, none elsewhere. */
  predicate PromotionFits(color: TeamColor, to: Position, promotion: Option<PieceType>) {
    if IsPromotionRank(color, to.row)
    then promotion.Some? && promotion.value in PromotionKinds
    else promotion.None?
  }

  /**
   * A pawn yields exactly the moves to the squares it reaches; those on its
   * promotion rank carry one of the four promotion kinds, all others none.
   */
  lemma PawnExactly(g: Grid, from: Position, color: TeamColor, m: Move)
    ensures m in PawnMoves(g, from, color) <==>
      m.start == from && PawnReaches(g, from, color, m.end) && PromotionFits(color, m.end, m.promotion)
  {
    var dir := Forward(color);
    var next := Pos(from.row + dir, from.col);
    var two := Pos(from.row + 2 * dir, from.col);
    var single :=
      if OnBoard(next) && Get(g, next).None? then PawnLanding(from, next, color) else [];
    var double :=
      if from.row == PawnStartRow(color) && OnBoard(two) && Get(g, next).None? && Get(g, two).None?
      then [Move(from, two, None)] else [];
    var right, left := PawnCapture(g, from, color, 1), PawnCapture(g, from, color, -1);
    assert PawnMoves(g, from, color) == single + double + right + left;
    assert m in PawnMoves(g, from, color) <==> m in single || m in double || m in right || m in left;
    LandingExactly(from, next, color, m);
    assert m in single <==> m.start == from && SinglePush(g, from, color, m.end) && PromotionFits(color, m.end, m.promotion);
    assert m in double <==> m.start == from && DoublePush(g, from, color, m.end) && PromotionFits(color, m.end, m.promotion);
    CaptureExactly(g, from, color, m);
  }

  /** The two capture branches together yield exactly the diagonal captures. */
  lemma CaptureExactly(g: Grid, from: Position, color: TeamColor, m: Move)
    ensures m in PawnCapture(g, from, color, 1) || m in PawnCapture(g, from, color, -1) <==>
      m.start == from && DiagonalCapture(g, from, color, m.end) && PromotionFits(color, m.end, m.promotion)
  {
    var dir := Forward(color);
    LandingExactly(from, Pos(from.row + dir, from.col + 1), color, m);
    LandingExactly(from, Pos(from.row + dir, from.col - 1), color, m);
  }

  /** The moves of a pawn landing on `to` are those from `from` to `to` with the promotion its rank calls for. */
  lemma LandingExactly(from: Position, to: Position, color: TeamColor, m: Move)
    ensures m in PawnLanding(from, to, color) <==>
      m.start == from && m.end == to && PromotionFits(color, to, m.promotion)
  {
    if m.start == from && m.end == to && IsPromotionRank(color, to.row) && m.promotion.Some? && m.promotion.value in PromotionKinds {
      assert m.promotion.value in {QUEEN, ROOK, BISHOP, KNIGHT};
    }
  }

  /**
   * A pawn move onto its promotion rank comes as exactly four moves, one per
   * promotion kind, and never as a plain move.
   */
  lemma PromotionIsFourfold(g: Grid, from: Position, color: TeamColor, to: Position)
    requires PawnReaches(g, from, color, to) && IsPromotionRank(color, to.row)
    ensures (set m | m in PawnMoves(g, from, color) && m.end == to) ==
      {Move(from, to, Some(QUEEN)), Move(from, to, Some(ROOK)), Move(from, to, Some(BISHOP)), Move(from, to, Some(KNIGHT))}
    ensures Move(from, to, None) !in PawnMoves(g, from, color)
  {
    forall m ensures m in PawnMoves(g, from, color) && m.end == to <==>
      m in {Move(from, to, Some(QUEEN)), Move(from, to, Some(ROOK)), Move(from, to, Some(BISHOP)), Move(from, to, Some(KNIGHT))}
    {
      PromotionMove(g, from, color, to, m);
    }
    PawnExactly(g, from, color, Move(from, to, None));
  }

  /** One move of `PromotionIsFourfold`: it lands on `to` exactly when it is one of the four promotions. */
  lemma PromotionMove(g: Grid, from: Position, color: TeamColor, to: Position, m: Move)
    requires PawnReaches(g, from, color, to) && IsPromotionRank(color, to.row)
    ensures m in PawnMoves(g, from, color) && m.end == to <==>
      m in {Move(from, to, Some(QUEEN)), Move(from, to, Some(ROOK)), Move(from, to, Some(BISHOP)), Move(from, to, Some(KNIGHT))}
  {
    PawnExactly(g, from, color, m);
    if m.end == to {
      PromotionOnRank(color, to, m.promotion);
      assert m in PawnMoves(g, from, color) <==> m.start == from && PromotionFits(color, to, m.promotion);
    }
  }

  /** On the promotion rank the promotion a move carries is one of the four kinds. */
  lemma PromotionOnRank(color: TeamColor, to: Position, promotion: Option<PieceType>)
    requires IsPromotionRank(color, to.row)
    ensures PromotionFits(color, to, promotion) <==>
      promotion in {Some(QUEEN), Some(ROOK), Some(BISHOP), Some(KNIGHT)}
  {
  }

  /** The double push is never a promotion: it always ends on row 4 (white) or 5 (black). */
  lemma DoublePushPlain(g: Grid, from: Position, color: TeamColor, m: Move)
    requires m in PawnMoves(g, from, color) && m.end.row == from.row + 2 * Forward(color)
    ensures from.row == PawnStartRow(color) && m.promotion.None?
    ensures Get(g, Pos(from.row + Forward(color), from.col)).None? && Get(g, m.end).None?
  {
    PawnExactly(g, from, color, m);
  }

  /** No move stays put: the mover's own square is never a target. */
  lemma NoNullMove(g: Grid, pos: Position, piece: Piece, m: Move)
    requires OnBoard(pos) && Get(g, pos) == Some(piece)
    requires m in PieceMoves(g, pos, piece)
    ensures m.start == pos && m.end != pos
  {
  }
}
