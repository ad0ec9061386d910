/**
 * The game-level rules as functions of a board snapshot: what a trial move
 * does to the board and how it is undone, where a side's king is, check,
 * the legal-move filter, checkmate and stalemate. `ChessGame` is proved
 * against these.
 */
module Rules {
  import opened Wrappers
  import opened ChessTypes
  import opened Board
  import opened Pieces

  /** The piece that lands on the end square: the promoted kind if the move names one. */
  function Landed(m: Move, piece: Piece): Piece {
    if m.promotion.Some? then Piece(piece.color, m.promotion.value) else piece
  }

  /** The board after `piece` plays `m`: the landed piece on the end square, then the start square cleared. */
  function ApplyMove(g: Grid, m: Move, piece: Piece): Grid
    requires OnBoard(m.start) && OnBoard(m.end)
  {
    Put(Put(g, m.end, Some(Landed(m, piece))), m.start, None)
  }

  /** Taking back `m`: clear the end square, put `piece` back on the start, then restore any captured piece. */
  function UndoMove(g: Grid, m: Move, piece: Piece, captured: Option<Piece>): Grid
    requires OnBoard(m.start) && OnBoard(m.end)
  {
    var h := Put(Put(g, m.end, None), m.start, Some(piece));
    if captured.Some? then Put(h, m.end, captured) else h
  }

  /**
   * A move changes exactly two squares: the start square is emptied and the
   * end square holds the moved piece, or a piece of its colour of the
   * promotion kind.
   */
  lemma ApplyMoveEffect(g: Grid, m: Move, piece: Piece)
    requires OnBoard(m.start) && OnBoard(m.end) && m.start != m.end
    ensures Get(ApplyMove(g, m, piece), m.start).None?
    ensures Get(ApplyMove(g, m, piece), m.end) ==
      Some(if m.promotion.Some? then Piece(piece.color, m.promotion.value) else piece)
    ensures forall q {:trigger Get(ApplyMove(g, m, piece), q)} :: OnBoard(q) && q != m.start && q != m.end ==>
      Get(ApplyMove(g, m, piece), q) == Get(g, q)
  {
  }

  /**
   * Undoing a trial move with the piece that stood on the start square and
   * whatever stood on the end square gives back the board exactly, whether
   * or not the move captured or promoted.
   */
  lemma UndoRestores(g: Grid, m: Move, piece: Piece)
    requires OnBoard(m.start) && OnBoard(m.end) && Get(g, m.start) == Some(piece)
    ensures UndoMove(ApplyMove(g, m, piece), m, piece, Get(g, m.end)) == g
  {
    var h := UndoMove(ApplyMove(g, m, piece), m, piece, Get(g, m.end));
    forall q | OnBoard(q) ensures Get(h, q) == Get(g, q) {
    }
    GridExtensionality(h, g);
  }

  /** `p` comes before `q` in the row-major scan (row 1 first, column 1 first). */
  predicate Before(p: Position, q: Position) {
    p.row < q.row || (p.row == q.row && p.col < q.col)
  }

  predicate IsKingOf(g: Grid, p: Position, color: TeamColor)
    requires OnBoard(p)
  {
    Get(g, p) == Some(Piece(color, KING))
  }

  /** The piece on `from` belongs to the other side and has a pseudo-legal move ending on `target`. */
  ghost predicate Attacks(g: Grid, from: Position, color: TeamColor, target: Position)
    requires OnBoard(from)
  {
    Get(g, from).Some? && Get(g, from).value.color != color &&
    exists m {:trigger m in PieceMoves(g, from, Get(g, from).value)} ::
      m in PieceMoves(g, from, Get(g, from).value) && m.end == target
  }

  /** `k` is the first `color` king in row-major order. */
  ghost predicate IsFirstKing(g: Grid, color: TeamColor, k: Position) {
    OnBoard(k) && IsKingOf(g, k, color) &&
    forall q {:trigger IsKingOf(g, q, color)} :: OnBoard(q) && Before(q, k) ==> !IsKingOf(g, q, color)
  }

  /** A side has at most one first king. */
  lemma FirstKingUnique(g: Grid, color: TeamColor, k1: Position, k2: Position)
    requires IsFirstKing(g, color, k1) && IsFirstKing(g, color, k2)
    ensures k1 == k2
  {
    assert !Before(k1, k2) && !Before(k2, k1);
  }

  /**
   * `color` is in check: some opposing piece has a pseudo-legal move onto the
   * first `color` king. A side without a king is never in check.
   */
  ghost predicate InCheck(g: Grid, color: TeamColor) {
    exists k :: IsFirstKing(g, color, k) && exists p {:trigger Attacks(g, p, color, k)} :: OnBoard(p) && Attacks(g, p, color, k)
  }

  /** The moves of `piece` from `pos` that do not leave its own side in check. */
  ghost function LegalSet(g: Grid, pos: Position, piece: Piece): set<Move>
    requires OnBoard(pos)
  {
    set m | m in PieceMoves(g, pos, piece) && !InCheck(ApplyMove(g, m, piece), piece.color)
  }

  /** The legal moves from `pos`: `None` for an empty square, else the filtered set (possibly empty). */
  ghost function LegalMoves(g: Grid, pos: Position): Option<set<Move>>
    requires OnBoard(pos)
  {
    match Get(g, pos)
    case None => None
    case Some(piece) => Some(LegalSet(g, pos, piece))
  }

  /** `pos` holds a piece of `color`. */
  predicate OwnedBy(g: Grid, pos: Position, color: TeamColor)
    requires OnBoard(pos)
  {
    Get(g, pos).Some? && Get(g, pos).value.color == color
  }

  /** Every pseudo-legal move of the piece on `pos` leaves `color` in check. */
  ghost predicate NoEscapeFrom(g: Grid, pos: Position, color: TeamColor)
    requires OnBoard(pos)
  {
    Get(g, pos).Some? ==>
      forall m {:trigger m in PieceMoves(g, pos, Get(g, pos).value)} :: m in PieceMoves(g, pos, Get(g, pos).value) ==>
        InCheck(ApplyMove(g, m, Get(g, pos).value), color)
  }

  /** `f` holds of each of the first `n` elements of `s`, checked last to first. */
  ghost predicate AllPrefix<T>(f: T -> bool, s: seq<T>, n: nat)
    requires n <= |s|
  {
    n == 0 || (AllPrefix(f, s, n - 1) && f(s[n - 1]))
  }

  lemma {:induction false} AllPrefixMeans<T>(f: T -> bool, s: seq<T>, n: nat)
    requires n <= |s|
    ensures AllPrefix(f, s, n) <==> forall j :: 0 <= j < n ==> f(s[j])
  {
    if n > 0 {
      AllPrefixMeans(f, s, n - 1);
    }
  }

  /** One element that fails `f` breaks every prefix that contains it. */
  lemma AllPrefixBroken<T>(f: T -> bool, s: seq<T>, k: nat)
    requires k < |s| && !f(s[k])
    ensures !AllPrefix(f, s, |s|)
  {
    AllPrefixMeans(f, s, |s|);
  }

  /** The elements among the first `n` of `s` that satisfy `f`, gathered into a set. */
  ghost function Kept<T>(f: T -> bool, s: seq<T>, n: nat): set<T>
    requires n <= |s|
  {
    if n == 0 then {}
    else Kept(f, s, n - 1) + (if f(s[n - 1]) then {s[n - 1]} else {})
  }

  lemma {:induction false} KeptMeans<T>(f: T -> bool, s: seq<T>, n: nat)
    requires n <= |s|
    ensures forall x :: x in Kept(f, s, n) <==> (exists j :: 0 <= j < n && s[j] == x) && f(x)
  {
    if n > 0 {
      KeptMeans(f, s, n - 1);
    }
  }

  /** Over the whole sequence, `Kept` is the members that satisfy `f`. */
  lemma KeptMembers<T>(f: T -> bool, s: seq<T>)
    ensures forall x :: x in Kept(f, s, |s|) <==> x in s && f(x)
  {
    KeptMeans(f, s, |s|);
    forall x | x in s ensures exists j :: 0 <= j < |s| && s[j] == x {
      var j :| 0 <= j < |s| && s[j] == x;
    }
  }

  /** Playing a move with `piece` leaves `color` in check. */
  ghost function LeavesInCheck(g: Grid, piece: Piece, color: TeamColor): Move -> bool {
    (m: Move) => OnBoard(m.start) && OnBoard(m.end) && InCheck(ApplyMove(g, m, piece), color)
  }

  /** No move of the piece on a square gets `color` out of check. */
  ghost function Stuck(g: Grid, color: TeamColor): Position -> bool {
    (p: Position) => OnBoard(p) && NoEscapeFrom(g, p, color)
  }

  /** Nothing on the square attacks `k`. */
  ghost function Quiet(g: Grid, color: TeamColor, k: Position): Position -> bool {
    (p: Position) => OnBoard(p) && !Attacks(g, p, color, k)
  }

  /**
   * Check as the game finds it: given the first `color` king, or the news
   * that there is none, the side is in check exactly when there is a king
   * and some square in the scan is not quiet.
   */
  lemma InCheckByScan(g: Grid, color: TeamColor, king: Option<Position>, all: seq<Position>)
    requires king.Some? ==> IsFirstKing(g, color, king.value)
    requires king.None? ==> forall q {:trigger IsKingOf(g, q, color)} :: OnBoard(q) ==> !IsKingOf(g, q, color)
    requires forall p {:trigger p in all} :: p in all <==> OnBoard(p)
    ensures InCheck(g, color) <==> king.Some? && !AllPrefix(Quiet(g, color, king.value), all, |all|)
  {
    if king.Some? {
      var f := Quiet(g, color, king.value);
      AllPrefixMembers(f, all);
      if InCheck(g, color) {
        var k :| IsFirstKing(g, color, k) && exists p {:trigger Attacks(g, p, color, k)} :: OnBoard(p) && Attacks(g, p, color, k);
        FirstKingUnique(g, color, k, king.value);
        var p :| OnBoard(p) && Attacks(g, p, color, k);
        assert p in all && !f(p);
      }
      if !AllPrefix(f, all, |all|) {
        var p :| p in all && !f(p);
        assert Attacks(g, p, color, king.value);
      }
    } else if InCheck(g, color) {
      assert false;
    }
  }

  /** Playing a move with `piece` does not leave the mover's side in check. */
  ghost function Safe(g: Grid, piece: Piece): Move -> bool {
    (m: Move) => OnBoard(m.start) && OnBoard(m.end) && !InCheck(ApplyMove(g, m, piece), piece.color)
  }

  /** The square has no legal move to offer: empty, or a piece whose legal moves are none. */
  ghost function Idle(g: Grid): Position -> bool {
    (p: Position) => OnBoard(p) && !(LegalMoves(g, p).Some? && LegalMoves(g, p).value != {})
  }

  /** The legal moves are the generated moves kept, one by one, when they leave the mover safe. */
  lemma LegalByScan(g: Grid, pos: Position, piece: Piece)
    requires OnBoard(pos)
    ensures LegalSet(g, pos, piece) == Kept(Safe(g, piece), PieceMoves(g, pos, piece), |PieceMoves(g, pos, piece)|)
  {
    var ms := PieceMoves(g, pos, piece);
    KeptMembers(Safe(g, piece), ms);
  }

  /** In check, checkmate is every owned square in turn being one no move escapes from. */
  lemma CheckmateByScan(g: Grid, color: TeamColor, ps: seq<Position>)
    requires InCheck(g, color)
    requires forall p {:trigger p in ps} {:trigger OwnedBy(g, p, color)} :: p in ps <==> OnBoard(p) && OwnedBy(g, p, color)
    ensures Checkmate(g, color) <==> AllPrefix(Stuck(g, color), ps, |ps|)
  {
    AllPrefixMembers(Stuck(g, color), ps);
  }

  /** Out of check, stalemate is every owned square in turn having no legal move. */
  lemma StalemateByScan(g: Grid, color: TeamColor, ps: seq<Position>)
    requires !InCheck(g, color)
    requires forall p {:trigger p in ps} {:trigger OwnedBy(g, p, color)} :: p in ps <==> OnBoard(p) && OwnedBy(g, p, color)
    ensures Stalemate(g, color) <==> AllPrefix(Idle(g), ps, |ps|)
  {
    AllPrefixMembers(Idle(g), ps);
    forall p | OnBoard(p) && OwnedBy(g, p, color) ensures Idle(g)(p) <==> LegalMoves(g, p) == Some({}) {
      assert LegalMoves(g, p).Some?;
    }
  }

  /** No escape from `pos` is the same as every generated move, in order, leaving `color` in check. */
  lemma NoEscapeByScan(g: Grid, pos: Position, color: TeamColor)
    requires OnBoard(pos) && Get(g, pos).Some?
    ensures var piece := Get(g, pos).value;
      var ms := PieceMoves(g, pos, piece);
      NoEscapeFrom(g, pos, color) <==> AllPrefix(LeavesInCheck(g, piece, color), ms, |ms|)
  {
    var piece := Get(g, pos).value;
    var ms := PieceMoves(g, pos, piece);
    var f := LeavesInCheck(g, piece, color);
    AllPrefixMembers(f, ms);
    forall m | m in ms ensures f(m) <==> InCheck(ApplyMove(g, m, piece), color) {
    }
  }

  /** `AllPrefix` over the whole sequence says `f` holds of every member. */
  lemma AllPrefixMembers<T>(f: T -> bool, s: seq<T>)
    ensures AllPrefix(f, s, |s|) <==> forall x :: x in s ==> f(x)
  {
    AllPrefixMeans(f, s, |s|);
    if forall j :: 0 <= j < |s| ==> f(s[j]) {
      forall x | x in s ensures f(x) {
        var j :| 0 <= j < |s| && s[j] == x;
      }
    }
  }

  /** Checkmate as the game decides it: in check, and no move of any `color` piece gets out of it. */
  ghost predicate Checkmate(g: Grid, color: TeamColor) {
    InCheck(g, color) &&
      forall p {:trigger OwnedBy(g, p, color)} :: OnBoard(p) && OwnedBy(g, p, color) ==> NoEscapeFrom(g, p, color)
  }

  /** Stalemate as the game decides it: not in check, and no `color` piece has a legal move. */
  ghost predicate Stalemate(g: Grid, color: TeamColor) {
    !InCheck(g, color) &&
      forall p {:trigger OwnedBy(g, p, color)} :: OnBoard(p) && OwnedBy(g, p, color) ==> LegalMoves(g, p) == Some({})
  }

  /**
   * Checkmate is check with no legal move anywhere: the escape test the game
   * runs agrees with asking every `color` square for its legal moves.
   */
  lemma CheckmateIsCheckWithoutLegalMoves(g: Grid, color: TeamColor)
    ensures Checkmate(g, color) <==>
      InCheck(g, color) &&
      forall p {:trigger OwnedBy(g, p, color)} :: OnBoard(p) && OwnedBy(g, p, color) ==> LegalMoves(g, p) == Some({})
  {
    forall p | OnBoard(p) && OwnedBy(g, p, color)
      ensures NoEscapeFrom(g, p, color) <==> LegalMoves(g, p) == Some({})
    {
      NoEscapeIsNoLegalMove(g, p, color);
    }
  }

  lemma NoEscapeIsNoLegalMove(g: Grid, p: Position, color: TeamColor)
    requires OnBoard(p) && OwnedBy(g, p, color)
    ensures NoEscapeFrom(g, p, color) <==> LegalMoves(g, p) == Some({})
  {
    var piece := Get(g, p).value;
    assert LegalMoves(g, p) == Some(LegalSet(g, p, piece));
    if LegalSet(g, p, piece) != {} {
      var m :| m in LegalSet(g, p, piece);
      assert !InCheck(ApplyMove(g, m, piece), color);
    } else {
      forall m | m in PieceMoves(g, p, piece) ensures InCheck(ApplyMove(g, m, piece), color) {
        assert m !in LegalSet(g, p, piece);
      }
    }
  }

  /** A side is never both checkmated and stalemated. */
  lemma MateAndStalemateExclusive(g: Grid, color: TeamColor)
    ensures !(Checkmate(g, color) && Stalemate(g, color))
  {
  }

  /** Every legal move is a pseudo-legal move of the piece after which its own side is not in check. */
  lemma LegalMovesSound(g: Grid, pos: Position, m: Move)
    requires OnBoard(pos) && LegalMoves(g, pos).Some? && m in LegalMoves(g, pos).value
    ensures Get(g, pos).Some?
    ensures m in PieceMoves(g, pos, Get(g, pos).value) && m.start == pos && m.end != pos
    ensures !InCheck(ApplyMove(g, m, Get(g, pos).value), Get(g, pos).value.color)
  {
  }
}
