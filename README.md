# Chess rules engine and game-server store, modelled in Dafny

This project models the core of a two-player chess server.

- **Rules engine.** The board, piece move generation, legal-move filtering by "simulate, test for check, undo", the check, checkmate and stalemate queries, and the turn state machine.
- **Per-piece generator classes.** `RookMoves`, `KnightMoves` and `PawnMoves` collect moves into a list field.
- **In-memory store.** Users, auth tokens and games.
- **Services.** Registering a user and creating a game go through these.

Files:

- `types.dfy` holds colours, piece kinds, pieces, positions and moves.
- `board.dfy` holds the board: `Grid` is the board as a value, and the class `ChessBoard` wraps the mutable `array2`.
- `pieces.dfy` holds `ChessPiece.pieceMoves` as pure functions over a `Grid`, with lemmas that say exactly which moves each piece kind yields.
- `rules.dfy` holds the meaning of applying and undoing a move, check, legal moves, checkmate and stalemate, and the lemmas that connect the game's scanning loops to them.
- `game.dfy` holds the class `ChessGame`. Its methods are proved against the functions in `rules.dfy`, and simulation restores the board.
- `generators.dfy` holds the three generator classes. Each is proved to append what the pure generator yields. The rook and the knight append it in the same order; the pawn appends the same moves in a different order.
- `store.dfy` holds `DataAccess` and `InMemoryDataAccess`. Each is a class with map fields and a game-ID counter; a thrown `DataAccessException` becomes `Thrown(message)`.
- `services.dfy` holds `UserService.register`, `RegisterService.register` and `GameService.createGame`.

Java `null` is modelled as `Option`.

Three behaviours of the code are kept as written:

- **Generator list field.** `ChessPiece.pieceMoves` builds a fresh list on every call. The generator classes `RookMoves`, `KnightMoves` and `PawnMoves` never clear their `moves` field, so each generator method's contract is `moves == old(moves) + …`.
- **Turn passing.** In chess a move passes to the other colour. The code derives the side to move from the parity of a counter instead, so `MakeMove` keeps that rule. The alternating rule is `MakeMoveAlternating`; see "## Findings".
- **`InMemoryDataAccess`.** It is declared to implement `DataAccess`, but `DataAccess` is a class with its own maps. The two are modelled as two independent classes with the same behaviour.

## Model

| member | source | states |
|---|---|---|
| Board.Put | shared/src/main/java/chess/ChessBoard.java:28-34 | writing a square gives that square the new content and leaves every other square as it was |
| Board.InBounds | shared/src/main/java/chess/ChessBoard.java:47-49 | definition: a row and column are on the board exactly when both lie in 1..8 |
| Board.GridExtensionality | shared/src/main/java/chess/ChessBoard.java:92-101 | two boards are equal exactly when all 64 squares agree (`Arrays.deepEquals`) |
| Board.StartSquare | shared/src/main/java/chess/ChessBoard.java:55-83 | definition: the opening content of each square, R N B Q K B N R on rows 1 and 8, pawns on rows 2 and 7, nothing elsewhere |
| Board.StartingGrid | shared/src/main/java/chess/ChessBoard.java:55-83 | every square of the opening grid holds what the opening layout puts there |
| Board.StartingLayout | shared/src/main/java/chess/ChessBoard.java:55-83 | rows 1 and 8 hold R N B Q K B N R (white, black), rows 2 and 7 hold pawns, rows 3 to 6 are empty, 32 pieces in all |
| Board.ChessBoard.constructor | shared/src/main/java/chess/ChessBoard.java:13-16 | a new board has no pieces |
| Board.ChessBoard.Snapshot | shared/src/main/java/chess/ChessBoard.java:18-20 | reading the array off yields exactly the board's contents |
| Board.ChessBoard.AddPiece | shared/src/main/java/chess/ChessBoard.java:28-30 | the square now holds the given value (a piece, or empty for Java's `null`); no other square changes and the array is written in place |
| Board.ChessBoard.RemovePiece | shared/src/main/java/chess/ChessBoard.java:32-34 | the square is now empty; no other square changes |
| Board.ChessBoard.GetPiece | shared/src/main/java/chess/ChessBoard.java:43-45 | returns the last value stored on the square, `None` for an empty one |
| Board.ChessBoard.ResetBoard | shared/src/main/java/chess/ChessBoard.java:55-83 | a fresh array holding exactly the opening position |
| Board.ChessBoard.PlacePawns | shared/src/main/java/chess/ChessBoard.java:58-61 | fills rows 2 and 7 with white and black pawns column by column, keeping the rest of the partial layout |
| Board.ChessBoard.PlaceBackRanks | shared/src/main/java/chess/ChessBoard.java:62-82 | fills rows 1 and 8 with the back-rank pieces, completing the opening layout |
| Board.ChessBoard.Equals | shared/src/main/java/chess/ChessBoard.java:92-101 | true exactly when the two boards agree on every square |
| Pieces.Slide | shared/src/main/java/chess/ChessPiece.java:62-88 | every sliding move starts on the piece's square, carries no promotion and ends on an on-board square that is empty or an enemy's |
| Pieces.Ray | shared/src/main/java/chess/ChessPiece.java:71-85 | definition: one ray walk, a plain move onto each empty square in turn, then onto the first occupied square only if it holds an enemy, then stop |
| Pieces.StepTo | shared/src/main/java/chess/ChessPiece.java:96-105 | a step yields at most one move, and yields it exactly when the target is on the board and empty or an enemy's |
| Pieces.Step | shared/src/main/java/chess/ChessPiece.java:91-108 | every stepping move is a plain move from the square to an on-board, enterable square |
| Pieces.PawnLanding | shared/src/main/java/chess/ChessPiece.java:129-133 | every landing move goes from the pawn's square to the landing square |
| Pieces.IsPromotionRank | shared/src/main/java/chess/ChessPiece.java:165-168 | definition: row 8 is the promotion rank for white and row 1 for black |
| Pieces.Promotions | shared/src/main/java/chess/ChessPiece.java:170-175 | definition: the four promotion moves onto a square, queen, rook, bishop, knight in that order |
| Pieces.PawnCapture | shared/src/main/java/chess/ChessPiece.java:145-161 | a capture move ends on an on-board square held by the other side |
| Pieces.PawnMoves | shared/src/main/java/chess/ChessPiece.java:119-163 | every pawn move starts on the pawn's square and ends on an on-board, enterable square |
| Pieces.PieceMoves | shared/src/main/java/chess/ChessPiece.java:41-60 | every generated move of any kind starts on the piece's square and ends on an on-board square that is empty or an enemy's |
| Pieces.RayExactly | shared/src/main/java/chess/ChessPiece.java:67-86 | a ray yields exactly the plain moves onto the squares whose predecessors are empty and which are empty or an enemy's, stopping at the first occupied square |
| Pieces.RaySound | shared/src/main/java/chess/ChessPiece.java:71-85 | every move of a ray is a plain move onto one of the ray's stops |
| Pieces.RayMovesSound | shared/src/main/java/chess/ChessPiece.java:71-85 | every move of a ray starts on the piece's square and ends on an on-board, enterable square |
| Pieces.RayComplete | shared/src/main/java/chess/ChessPiece.java:71-85 | every stop of the ray is yielded as a move |
| Pieces.StepExactly | shared/src/main/java/chess/ChessPiece.java:91-108 | a stepping piece yields exactly the plain moves onto the offset squares that are on the board and enterable |
| Pieces.PawnExactly | shared/src/main/java/chess/ChessPiece.java:119-163 | a pawn yields exactly the single push, the double push from the start row and the diagonal captures; moves onto the promotion rank carry one of the four promotion kinds, all others none |
| Pieces.CaptureExactly | shared/src/main/java/chess/ChessPiece.java:145-161 | the two capture branches together yield exactly the diagonal moves onto enemy pieces |
| Pieces.LandingExactly | shared/src/main/java/chess/ChessPiece.java:165-175 | a landing yields exactly the moves to the square with the promotion its rank calls for |
| Pieces.PromotionIsFourfold | shared/src/main/java/chess/ChessPiece.java:170-175 | a pawn move onto the promotion rank comes as exactly four moves (queen, rook, bishop, knight) and never as a plain move |
| Pieces.PromotionMove | shared/src/main/java/chess/ChessPiece.java:170-175 | a move onto the promotion rank is generated exactly when it is one of the four promotions |
| Pieces.PromotionOnRank | shared/src/main/java/chess/ChessPiece.java:165-168 | on the promotion rank (8 for white, 1 for black) a fitting promotion is exactly one of the four kinds |
| Pieces.DoublePushPlain | shared/src/main/java/chess/ChessPiece.java:136-143 | a two-square push starts on the start row, crosses two empty squares and never promotes |
| Pieces.NoNullMove | shared/src/main/java/chess/ChessPiece.java:41-60 | no generated move ends on the square it starts from |
| Rules.ApplyMoveEffect | shared/src/main/java/chess/ChessGame.java:181-192 | after a trial move the start square is empty, the end square holds the piece (or the promoted piece) and every other square is unchanged |
| Rules.ApplyMove | shared/src/main/java/chess/ChessGame.java:181-192 | definition: the landed or promoted piece is written to the end square, then the start square is cleared |
| Rules.UndoMove | shared/src/main/java/chess/ChessGame.java:194-203 | definition: the end square is cleared, the piece goes back to the start square, and a captured piece, if any, goes back to the end square |
| Rules.UndoRestores | shared/src/main/java/chess/ChessGame.java:194-203 | undoing a trial move with the piece captured beforehand restores the board exactly |
| Rules.FirstKingUnique | shared/src/main/java/chess/ChessGame.java:168-178 | the king the row-major scan finds first is unique |
| Rules.InCheckByScan | shared/src/main/java/chess/ChessGame.java:86-99 | the scan over all squares for an enemy move ending on the king decides check, and a missing king is never in check |
| Rules.InCheck | shared/src/main/java/chess/ChessGame.java:86-99 | definition: there is a first king of the colour in row-major order and some opposing piece has a pseudo-legal move ending on it |
| Rules.LegalByScan | shared/src/main/java/chess/ChessGame.java:53-63 | keeping the generated moves after which the mover is not in check yields exactly the legal moves |
| Rules.LegalSet | shared/src/main/java/chess/ChessGame.java:53-63 | definition: the piece's pseudo-legal moves after which its own colour is not in check |
| Rules.LegalMoves | shared/src/main/java/chess/ChessGame.java:47-64 | definition: `None` for an empty square, otherwise the legal set, possibly empty |
| Rules.CheckmateByScan | shared/src/main/java/chess/ChessGame.java:101-119 | when in check, checkmate holds exactly when no piece of the scanned list has a move that escapes check |
| Rules.StalemateByScan | shared/src/main/java/chess/ChessGame.java:121-133 | when not in check, stalemate holds exactly when no piece of the scanned list has a legal move |
| Rules.Checkmate | shared/src/main/java/chess/ChessGame.java:101-119 | definition: in check, and every pseudo-legal move of every piece of the colour leaves it in check |
| Rules.Stalemate | shared/src/main/java/chess/ChessGame.java:121-133 | definition: not in check, and every square the colour occupies has an empty legal set |
| Rules.NoEscapeByScan | shared/src/main/java/chess/ChessGame.java:112-116 | a piece has no escape exactly when every generated move, in order, leaves the side in check |
| Rules.CheckmateIsCheckWithoutLegalMoves | shared/src/main/java/chess/ChessGame.java:101-119 | checkmate is check with no legal move for any piece of that side |
| Rules.NoEscapeIsNoLegalMove | shared/src/main/java/chess/ChessGame.java:136-142 | a piece has no check-removing move exactly when its legal-move set is empty |
| Rules.MateAndStalemateExclusive | shared/src/main/java/chess/ChessGame.java:101-124 | a position is never both checkmate and stalemate |
| Rules.LegalMovesSound | shared/src/main/java/chess/ChessGame.java:47-64 | a legal move is one of the piece's generated moves, does not stay put, and does not leave the mover in check |
| Game.TeamAfterTurnAlternates | shared/src/main/java/chess/ChessGame.java:82 | consecutive counter values give opposite sides to move |
| Game.TeamAfterTurn | shared/src/main/java/chess/ChessGame.java:82 | definition: the colour the counter selects, white for an even counter and black for an odd one |
| Game.EndsOn | shared/src/main/java/chess/ChessGame.java:91-95 | true exactly when some move ends on the king's square, never when there is no king |
| Game.ChessGame.constructor | shared/src/main/java/chess/ChessGame.java:12-18 | a new game has white to move, turn 1 and the opening position |
| Game.ChessGame.SetTeamTurn | shared/src/main/java/chess/ChessGame.java:21 | sets the side to move and leaves the counter and the board alone |
| Game.ChessGame.SetBoard | shared/src/main/java/chess/ChessGame.java:22 | replaces the board and nothing else |
| Game.ChessGame.Equals | shared/src/main/java/chess/ChessGame.java:25-34 | true exactly when the sides to move and all squares agree |
| Game.ChessGame.AllPiecePositions | shared/src/main/java/chess/ChessGame.java:158-166 | all 64 squares, each once, in row-major order |
| Game.ChessGame.TeamPiecePositions | shared/src/main/java/chess/ChessGame.java:144-156 | exactly the squares holding that side's pieces, in row-major order |
| Game.ChessGame.FindKing | shared/src/main/java/chess/ChessGame.java:168-178 | the first king of that colour in row-major order, or `None` when there is none |
| Game.ChessGame.IsInCheck | shared/src/main/java/chess/ChessGame.java:86-99 | the answer is whether some enemy piece has a generated move onto the king |
| Game.ChessGame.TestMove | shared/src/main/java/chess/ChessGame.java:181-192 | the board becomes the board with the move applied, promotion included |
| Game.ChessGame.UndoMove | shared/src/main/java/chess/ChessGame.java:194-203 | the board becomes the board with the move taken back and the captured piece reinstated |
| Game.ChessGame.MoveRemovesCheck | shared/src/main/java/chess/ChessGame.java:136-142 | the answer is whether the move leaves the side out of check; the board is restored |
| Game.ChessGame.ValidMoves | shared/src/main/java/chess/ChessGame.java:47-64 | `None` for an empty square, otherwise exactly the legal moves; the board is restored |
| Game.ChessGame.KeepSafe | shared/src/main/java/chess/ChessGame.java:53-62 | keeps exactly the listed moves after which the mover is not in check; the board is restored |
| Game.ChessGame.AnyRemovesCheck | shared/src/main/java/chess/ChessGame.java:112-116 | true exactly when some listed move gets the side out of check; the board is restored |
| Game.ChessGame.PieceEscapes | shared/src/main/java/chess/ChessGame.java:106-117 | true exactly when the piece has a move out of check; the board is restored |
| Game.ChessGame.AnyPieceEscapes | shared/src/main/java/chess/ChessGame.java:106-118 | true exactly when some listed piece has a move out of check; the board is restored |
| Game.ChessGame.IsInCheckmate | shared/src/main/java/chess/ChessGame.java:101-119 | the answer is checkmate of the position before the call; the board is restored |
| Game.ChessGame.IsInStalemate | shared/src/main/java/chess/ChessGame.java:121-133 | the answer is stalemate of the position before the call; the board is restored |
| Game.ChessGame.MakeMove | shared/src/main/java/chess/ChessGame.java:67-83 | rejects an empty start square, a piece of the wrong side, or an illegal move, changing nothing; otherwise applies the move, takes the side to move from the counter's parity and advances the counter |
| Game.ChessGame.MakeMoveAlternating | shared/src/main/java/chess/ChessGame.java:67-83 | the same checks and board change, with the move then passing to the opponent of the side that moved |
| Game.BlackMovesTwice | shared/src/main/java/chess/ChessGame.java:82 | after handing a new game to black, black's e7-e5 is accepted and black is to move again |
| Game.BlackThenWhite | shared/src/main/java/chess/ChessGame.java:67-83 | with the alternating rule, black's e7-e5 is accepted and white is to move |
| Generators.RookMoves.constructor | shared/src/main/java/chess/RookMoves.java:6 | the move list starts empty |
| Generators.RookMoves.PieceMoves | shared/src/main/java/chess/RookMoves.java:7-17 | appends to the list exactly the rook moves `ChessPiece.pieceMoves` yields, in the same order, and returns the whole list |
| Generators.RookMoves.CheckMoves | shared/src/main/java/chess/RookMoves.java:18-32 | the walk appends exactly the ray in that direction: the empty squares, then an enemy square, then stops |
| Generators.RookChain | shared/src/main/java/chess/RookMoves.java:11-14 | the four directional walks in turn add up to the rook's moves |
| Generators.RookJoined | shared/src/main/java/chess/ChessPiece.java:51-53 | the rook's moves are its four rays joined in the order (1,0), (-1,0), (0,1), (0,-1) |
| Generators.SlideJoined | shared/src/main/java/chess/ChessPiece.java:67-86 | sliding moves are the rays of the directions joined in order |
| Generators.KnightMoves.constructor | shared/src/main/java/chess/KnightMoves.java:6 | the move list starts empty |
| Generators.KnightMoves.PieceMoves | shared/src/main/java/chess/KnightMoves.java:7-20 | appends to the list exactly the knight moves `ChessPiece.pieceMoves` yields, in the same order, and returns the whole list |
| Generators.KnightMoves.CheckMoves | shared/src/main/java/chess/KnightMoves.java:21-32 | appends the one move onto the offset square when it is on the board and empty or an enemy's, else nothing |
| Generators.KnightChain | shared/src/main/java/chess/KnightMoves.java:11-18 | the eight offset checks in turn add up to the knight's moves |
| Generators.KnightJoined | shared/src/main/java/chess/ChessPiece.java:54-57 | the knight's moves are its eight offsets' steps joined in order |
| Generators.StepJoined | shared/src/main/java/chess/ChessPiece.java:95-106 | stepping moves are the offsets' single steps joined in order |
| Generators.PawnMoves.constructor | shared/src/main/java/chess/PawnMoves.java:7 | the move list starts empty |
| Generators.PawnMoves.PieceMoves | shared/src/main/java/chess/PawnMoves.java:8-14 | appends the pawn's forward, double, left-capture and right-capture moves and returns the whole list |
| Generators.PawnMoves.CheckMoves | shared/src/main/java/chess/PawnMoves.java:16-85 | appends the pawn scan for the piece's colour |
| Generators.PawnMoves.WhiteMoves | shared/src/main/java/chess/PawnMoves.java:17-49 | white's forward, start and capture blocks append exactly the white pawn scan |
| Generators.PawnMoves.BlackMoves | shared/src/main/java/chess/PawnMoves.java:51-84 | black's forward, start and capture blocks append exactly the black pawn scan |
| Generators.PawnMoves.Promote | shared/src/main/java/chess/PawnMoves.java:86-91 | appends the bishop, rook, knight and queen promotions, in that order |
| Generators.PromoteAll | shared/src/main/java/chess/PawnMoves.java:86-91 | definition: the four promotion moves in the generator's order, bishop, rook, knight, queen |
| Generators.Landing | shared/src/main/java/chess/PawnMoves.java:22-26 | definition: on row 8 for white or row 1 for black the four promotions, otherwise one plain move |
| Generators.Advance | shared/src/main/java/chess/PawnMoves.java:19-28 | definition: the single step forward, present only when the square ahead is on the board and empty |
| Generators.DoubleAdvance | shared/src/main/java/chess/PawnMoves.java:30-35 | definition: the double step, present only from row 2 (white) or 7 (black) with both squares ahead on the board and empty |
| Generators.CaptureSide | shared/src/main/java/chess/PawnMoves.java:37-48 | definition: the diagonal move onto column `col + side`, present only when an enemy piece stands there |
| Generators.PawnScan | shared/src/main/java/chess/PawnMoves.java:16-85 | definition: forward step, double step, left capture, then right capture, in the generator's order |
| Generators.LandingSameMoves | shared/src/main/java/chess/PawnMoves.java:86-91 | the generator's landing and the engine's landing yield the same moves, as many of them |
| Generators.CaptureSideSame | shared/src/main/java/chess/PawnMoves.java:37-48 | one capture side of the generator yields the same moves as the engine's, as many of them |
| Generators.PawnScanSameMoves | shared/src/main/java/chess/PawnMoves.java:16-85 | the pawn generator yields the same moves as `ChessPiece.pieceMoves` and the same number of them |
| Generators.PawnScanOrderDiffers | shared/src/main/java/chess/PawnMoves.java:86-91 | the two orders differ: on a promotion push the generator lists a bishop first and the engine a queen |
| Store.NewGame | server/src/main/java/dataaccess/DataAccess.java:63 | a created game has the given ID and name, no players and no state |
| Store.ValuesOf | server/src/main/java/dataaccess/DataAccess.java:67-69 | the list holds every stored game and nothing else, one entry per ID |
| Store.DataAccess.constructor | server/src/main/java/dataaccess/DataAccess.java:11-14 | empty maps and the counter at 1 |
| Store.DataAccess.ClearDatabase | server/src/main/java/dataaccess/DataAccess.java:16-25 | empties all three maps and restarts game IDs at 1 |
| Store.DataAccess.CreateUser | server/src/main/java/dataaccess/DataAccess.java:28-31 | throws "Invalid user" exactly when the user or its name is missing, changing nothing; otherwise stores the user under its name, which `GetUser` then returns |
| Store.DataAccess.GetUser | server/src/main/java/dataaccess/DataAccess.java:33-37 | the stored user, or "User not found" exactly when the name is missing or unknown |
| Store.DataAccess.CreateAuth | server/src/main/java/dataaccess/DataAccess.java:40-43 | throws "Invalid auth" exactly when the record or its token is missing; otherwise stores it under its token |
| Store.DataAccess.GetAuth | server/src/main/java/dataaccess/DataAccess.java:45-49 | the stored record, or "Auth not found" exactly when the token is missing or unknown |
| Store.DataAccess.DeleteAuth | server/src/main/java/dataaccess/DataAccess.java:51-56 | throws "Auth not found" exactly when the token is missing or unknown; otherwise removes that token only |
| Store.DataAccess.CreateGame | server/src/main/java/dataaccess/DataAccess.java:60-65 | throws "Invalid game name" exactly for a missing name; otherwise stores a fresh game under the counter's value, which was not in use, and advances the counter |
| Store.DataAccess.ListGames | server/src/main/java/dataaccess/DataAccess.java:67-69 | every stored game once, nothing else |
| Store.InMemoryDataAccess.constructor | server/src/main/java/dataaccess/InMemoryDataAccess.java:10-13 | empty maps and the counter at 1 |
| Store.InMemoryDataAccess.ClearDatabase | server/src/main/java/dataaccess/InMemoryDataAccess.java:16-25 | empties all three maps and restarts game IDs at 1 |
| Store.InMemoryDataAccess.CreateUser | server/src/main/java/dataaccess/InMemoryDataAccess.java:27-31 | throws "Invalid user" exactly when the user or its name is missing; otherwise stores the user under its name |
| Store.InMemoryDataAccess.GetUser | server/src/main/java/dataaccess/InMemoryDataAccess.java:33-38 | the stored user, or "User not found" |
| Store.InMemoryDataAccess.CreateAuth | server/src/main/java/dataaccess/InMemoryDataAccess.java:40-44 | throws "Invalid auth" exactly when the record or its token is missing; otherwise stores it, making the token valid |
| Store.InMemoryDataAccess.GetAuth | server/src/main/java/dataaccess/InMemoryDataAccess.java:46-51 | the stored record, or "Auth not found" |
| Store.InMemoryDataAccess.DeleteAuth | server/src/main/java/dataaccess/InMemoryDataAccess.java:53-59 | throws "Auth not found" exactly when the token was not valid; otherwise the token is no longer valid and nothing else changes |
| Store.InMemoryDataAccess.IsValidAuthToken | server/src/main/java/dataaccess/InMemoryDataAccess.java:61-64 | a token is valid exactly when it is present and `GetAuth` finds it |
| Store.InMemoryDataAccess.CreateGame | server/src/main/java/dataaccess/InMemoryDataAccess.java:66-72 | throws "Invalid game name" for a missing name; otherwise stores a fresh game under the counter's value (unused while all IDs were issued) and advances the counter |
| Store.InMemoryDataAccess.ListGames | server/src/main/java/dataaccess/InMemoryDataAccess.java:74-77 | every stored game once, nothing else |
| Store.InMemoryDataAccess.GetGameByID | server/src/main/java/dataaccess/InMemoryDataAccess.java:79-82 | the game stored under the ID, `None` exactly when absent; a found game carries that ID |
| Store.InMemoryDataAccess.UpdateGame | server/src/main/java/dataaccess/InMemoryDataAccess.java:84-89 | ignores `None`; otherwise stores the game under its own ID; all IDs stay issued exactly when that ID was already issued |
| Services.Registration | server/src/main/java/service/UserService.java:25-55 | registration succeeds exactly for a complete request with an unknown username, returning that name and the token; every failure is a bad request, a taken name or an unexpected failure |
| Services.NewUser | server/src/main/java/service/UserService.java:41 | the stored user carries the request's name, password and e-mail |
| Services.RegisterUser | server/src/main/java/service/UserService.java:25-55 | the answer is `Registration`; a failure changes nothing; a success adds exactly one user and one token for them; the store's exceptions cannot occur |
| Services.UserService.constructor | server/src/main/java/service/UserService.java:16-18 | the service keeps the store it was given |
| Services.UserService.Register | server/src/main/java/service/UserService.java:25-55 | the answer is `Registration`; a failure changes nothing; a success adds exactly the user and their token |
| Services.RegisterService.constructor | server/src/main/java/service/RegisterService.java:15-17 | the service keeps the store it was given |
| Services.RegisterService.Register | server/src/main/java/service/RegisterService.java:19-49 | the answer is `Registration`; a failure changes nothing; a success adds exactly the user and their token |
| Services.RegisterTwiceTaken | server/src/main/java/service/UserService.java:33-38 | once a name is registered, a second complete request for it is "Error: already taken" |
| Services.LowerChar | server/src/main/java/service/GameService.java:35 | capital ASCII letters become the small letter 32 code points up; all other characters are kept |
| Services.ContainsAt | server/src/main/java/service/GameService.java:35 | the substring search succeeds exactly when the text occurs at some index |
| Services.IsBlank | server/src/main/java/service/GameService.java:21 | definition: `String.isBlank`, every character is Java whitespace (the empty string included) |
| Services.ToLower | server/src/main/java/service/GameService.java:35 | the result has the length of the input and lower-cases it character by character |
| Services.Contains | server/src/main/java/service/GameService.java:35 | definition: the substring search used on the lowered message |
| Services.StoreFailure | server/src/main/java/service/GameService.java:34-36 | a store message mentioning "auth" in any case becomes "Error: unauthorized", any other "Error: " plus the message |
| Services.AuthNotFoundUnauthorized | server/src/main/java/service/GameService.java:35 | the store's "Auth not found" is reported as "Error: unauthorized" |
| Services.GameCreation | server/src/main/java/service/GameService.java:19-40 | creation succeeds exactly for a present, non-blank name and a known token, with the counter's next ID; a missing or blank name is a bad request and an unknown token is unauthorized |
| Services.GameCreationErrors | server/src/main/java/service/GameService.java:19-40 | every failure is "Error: bad request" or "Error: unauthorized" |
| Services.GameService.constructor | server/src/main/java/service/GameService.java:12-14 | the service keeps the store it was given |
| Services.GameService.CreateGame | server/src/main/java/service/GameService.java:19-40 | the answer is `GameCreation`; a failure changes nothing; a success stores exactly one new empty game under an ID not in use |

## Left out

- ChessPosition, ChessMove and InvalidMoveException are not part of this model. Positions and moves are value datatypes with structural equality, and a rejected move is an `InvalidMove(message)` outcome rather than an exception.
- `toString` and `hashCode` of the board, piece and game are not modelled; they involve string rendering and hashing only.
- Board.ChessBoard.GetPiece: it requires an on-board position. Off-board indexing throws `ArrayIndexOutOfBoundsException` in Java, which is not modelled. The same holds for `AddPiece`, `RemovePiece`, `TestMove`, `UndoMove`, `ValidMoves` and `MakeMove`.
- Board.ChessBoard.Snapshot: `getBoard` hands out the array itself. Aliasing through that reference is not modelled; the model returns the contents as a value.
- Board.ChessBoard.ResetBoard: the final contents are proved. The Java order of writes (pawn pairs per column, then rooks, knights, bishops, queens, kings) is not kept, because the writes touch disjoint squares.
- Game.ChessGame.MakeMove: `turn` is an unbounded integer. Java's 32-bit wrap-around after 2^31 moves is not modelled.
- Game.ChessGame.ValidMoves: Java returns a `HashSet`; the model returns a mathematical set of moves.
- Generators.RookMoves.PieceMoves: it requires a piece on the square. Java would throw `NullPointerException` on an empty square, once the first occupied square is reached. The same holds for `KnightMoves.PieceMoves` and `PawnMoves.PieceMoves`.
- Generators.RookMoves.PieceMoves: Java returns the `moves` field itself, so a list obtained from an earlier call keeps growing on later calls. The model returns a value copy of the field, so that aliasing is not captured. The same holds for `KnightMoves.PieceMoves` and `PawnMoves.PieceMoves`.
- Generators.RookMoves.CheckMoves: it requires a unit step (each component -1, 0 or +1, not both 0). The Java method accepts any step: a (0, 0) step from an empty square loops forever, and a longer step skips squares. Its only callers (shared/src/main/java/chess/RookMoves.java:11-14) pass unit steps.
- Generators.PawnScanSameMoves: the pawn generator and `ChessPiece.pieceMoves` are proved to yield the same moves and the same number of them. A multiset equality is not stated.
- The king, queen and bishop use `ChessPiece.pieceMoves` only, and have no generator class in the source.
- Store.DataAccess.ClearDatabase: the `catch` that wraps a failure as "Error clearing database" is not modelled, because clearing maps cannot fail.
- Store.DataAccess.CreateGame: `nextGameID` is an unbounded integer. Java's 32-bit wrap-around after 2^31 games is not modelled.
- Store.InMemoryDataAccess.CreateGame: the returned ID is unused only while every stored ID has been issued. `UpdateGame` may store a game under a later ID, which `CreateGame` then overwrites.
- Store.InMemoryDataAccess.ListGames: a stored game holds a `ChessGame` by reference. Membership compares references rather than calling `ChessGame.equals`.
- Services.RegisterUser: the random UUID token and the text of the `NullPointerException` raised by a `null` request are parameters.
- Services.RegisterUser: the "database failure" catch is kept but proved unreachable, because the store only throws on a missing username or token. The `catch (Exception)` path is reached only through a `null` request.
- Services.GameService.CreateGame: two pieces of the source are left out, both unreachable. One is the `auth == null` test at server/src/main/java/service/GameService.java:27-29, because `getAuth` never returns `null`. The other is the generic `catch (Exception)`, because no step after the `null` check throws anything but a `DataAccessException`.
- Services.LowerChar: only ASCII letters are lowered. Java's full Unicode `toLowerCase` maps no other character onto the letters of "auth", so the "auth" test gives the same answer.
- Services.GameService.CreateGame: the services are modelled over `DataAccess` only, as declared in the source. The MySQL store, the HTTP handlers, the client and `UserService.login`/`logout` (empty placeholders) are not part of this model.
- Password hashing, JSON marshalling and game serialisation are not part of this model.

## Findings

| source | as written | input that shows it | evidently intended | confidence | as-written member | corrected member |
|---|---|---|---|---|---|---|
| shared/src/main/java/chess/ChessGame.java:82 | after a move the side to move is recomputed as `turn % 2 == 0 ? WHITE : BLACK`, ignoring which side moved | a new game, `setTeamTurn(BLACK)`, then black plays e7-e5 (accepted): black is to move again | the move passes to the opponent of the side that moved | medium, not executed | Game.BlackMovesTwice | Game.ChessGame.MakeMoveAlternating |
