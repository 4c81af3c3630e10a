# Chess rules engine and game server state, in Dafny

This project models the core of a chess client/server written in Java. The model covers three parts:

- **The rules engine.** It has an 8x8 board of optional pieces, value-compared pieces with a hash code, and the move generators of the three calculator revisions the repository carries (`piececalculators`, `pieceCalculators` and `MoveCalculators`). It also has the game: turn handling, the check test, the legal-move filter and committing a move.
- **The server's in-memory stores.** Games, auth tokens and users each live in a finite map. On top of them sit the join, logout, clear and list services.
- **Two small helpers.** The client's board renderer has a cell-text helper and a highlight helper. The SQL layer has a classifier for connection failures.

Everything is written as immutable datatypes and pure functions. A Java exception becomes the `Err` arm of a `Result`, and a thrown call changes nothing. Each calculator's loops are kept as Dafny methods. Each method is proved to compute one shared reference definition: a slider walks each direction until it is blocked, and a jumper tries each offset once. The revisions are proved equal to each other through that reference.

The attack loop of `isInCheck` generates the moves of each opposing piece in row-major order and stops at the first fault or the first hit on the king. The model first lists the 64 per-square generator results (`ChessGames.Outcomes`) and then scans that list in the same order, stopping at the same point. The generators are pure, so the answer is the same.

Some behaviours of the source are modelled as written and exposed as lemmas:

- The game constructor never sets the turn. A fresh game therefore has no side to move, and `validMoves` answers null everywhere.
- `setBoard` assigns the field to itself. The game that `validMoves` builds for each simulated move keeps an empty board. It is never in check, so the filter keeps every generated move (`ChessGames.ValidMovesArePieceMoves`).
- `makeMove` places the original piece on the destination whatever promotion the move names (`ChessGames.MakeMoveIgnoresPromotion`).
- The `pieceCalculators` pawn emits the four forward promotions without checking that the square is empty, even when it holds a friendly piece (`InlineCalculators.PawnPromotesOntoOwnPiece`). The `MoveCalculators` pawn does check (`MoveCalculators.PawnRevisionsDiffer`). The two also part on an empty origin: the `pieceCalculators` pawn reads a null colour, steps down the board and may offer promotions that the other does not (`MoveCalculators.PawnRevisionsDifferOnEmpty`). For a square holding a piece, the two agree everywhere else (`MoveCalculators.PawnRevisionsAgree`).
- The `pieceCalculators` pawn reads the square one step ahead before any bounds test. A pawn on its own far rank therefore faults with an array index error. `ChessPieces.PieceMoves` returns that fault as `IndexOutOfBounds`, and `isInCheck`, `validMoves` and `makeMove` pass it on.

`ChessPiece.pieceMoves` is modelled with the king, bishop and pawn generators of `pieceCalculators`, the package the class imports, and with the `piececalculators` rook, queen and knight. That second half is an assumption of the model, recorded under "Left out".

Files:

- Data and helpers: `wrappers.dfy` (Option/Result), `chess_types.dfy`, `chess_board.dfy`.
- Reference generators and size facts: `piece_move_calculator.dfy`.
- The three calculator revisions: `base_calculators.dfy`, `inline_calculators.dfy`, `move_calculators.dfy`.
- Counts for a piece alone on the board: `move_counts.dfy`.
- Pieces and the game: `chess_piece.dfy`, `chess_game.dfy`.
- Server records, stores and services: `server_model.dfy`, `memory_daos.dfy`, `services.dfy`.
- Helpers: `ui_utils.dfy`, `sql_dao_utils.dfy`.

## Model

| member | source | states |
|---|---|---|
| ChessBoard.NewBoard | shared/src/main/java/chess/ChessBoard.java:12-14 | A fresh board has all 64 squares empty and holds only real squares. |
| ChessBoard.AddPiece | shared/src/main/java/chess/ChessBoard.java:22-24 | The square written reads back as the written piece, and writing null clears it. Every other square is unchanged. Only real squares can be written, because the source indexes an 8x8 array. |
| ChessBoard.ColorOnSquare | shared/src/main/java/chess/ChessBoard.java:37-45 | The colour is null exactly when the square is empty. Otherwise it is the team of the piece there. |
| ChessBoard.ColorAfterAdd | shared/src/main/java/chess/ChessBoard.java:22-45 | After a piece is placed, its square reports that piece's team and every other square reports what it did before. |
| ChessBoard.SquareRoundTrip | shared/src/main/java/chess/ChessBoard.java:12-14 | The row-major indices 0..63 and the 64 real squares are in a one-to-one correspondence, as the 8x8 array's cells are. |
| ChessBoard.BoardExtensionality | shared/src/main/java/chess/ChessBoard.java:11-35 | Two boards are equal exactly when `getPiece` agrees on all 64 squares. |
| ChessPieces.Equals | shared/src/main/java/chess/ChessPiece.java:23-33 | `equals` is true exactly for a non-null piece with the same team and kind. |
| ChessPieces.EqualsIsEquivalence | shared/src/main/java/chess/ChessPiece.java:23-33 | Piece equality is reflexive, symmetric and transitive. |
| ChessPieces.WrapInt32 | shared/src/main/java/chess/ChessPiece.java:35-38 | Java int arithmetic: the result lies in the 32-bit signed range and is congruent to the input modulo 2^32. |
| ChessPieces.HashCode | shared/src/main/java/chess/ChessPiece.java:35-38 | The hash code is a 32-bit signed value. |
| ChessPieces.HashCodePolynomial | shared/src/main/java/chess/ChessPiece.java:35-38 | The hash is 961 + 31·h(team) + h(kind) modulo 2^32, which is `Objects.hash` over the two enum hashes. |
| ChessPieces.HashAgreesWithEquals | shared/src/main/java/chess/ChessPiece.java:23-38 | Pieces that are equal have equal hash codes. |
| ChessPieces.PieceMoves | shared/src/main/java/chess/ChessPiece.java:73-83 | The call faults exactly for a pawn whose one-step square is off the board, and the fault is the array index error. Every other kind answers a move set. |
| ChessPieces.DispatchByKind | shared/src/main/java/chess/ChessPiece.java:73-83 | The generator is chosen by the kind alone. Two pieces of one kind get the same moves from the same square. |
| ChessPieces.PieceMovesShape | shared/src/main/java/chess/ChessPiece.java:73-83 | Every generated move starts on the origin and ends on another real square. For every kind but the pawn, it ends on a square that is empty or holds the other team, and it carries no promotion. |
| ChessPieces.SlideEndsElsewhere | shared/src/main/java/chess/piececalculators/SteppingMoveCalculator.java:18-39 | A sliding move has no promotion and ends on an enterable real square at least one step from the origin. |
| PieceMoveCalculator.SlideByDirection | shared/src/main/java/chess/piececalculators/SteppingMoveCalculator.java:18-40 | A move is in a slider's set exactly when the walk along one of its directions emits it. |
| PieceMoveCalculator.RaySound | shared/src/main/java/chess/piececalculators/SteppingMoveCalculator.java:21-38 | Every emitted square lies on the board behind empty squares only, and it is empty or holds the other colour. |
| PieceMoveCalculator.RayShape | shared/src/main/java/chess/piececalculators/SteppingMoveCalculator.java:21-39 | Every emitted move starts on the origin with no promotion. It ends on the direction's line, as many steps out as its king-step distance. |
| PieceMoveCalculator.RayComplete | shared/src/main/java/chess/piececalculators/SteppingMoveCalculator.java:30-32 | Every square that is reached through empty squares, and is itself enterable, is emitted. |
| PieceMoveCalculator.RayMembers | shared/src/main/java/chess/piececalculators/SteppingMoveCalculator.java:21-39 | One direction emits exactly the reachable enterable squares: walk while empty, and take the first occupied square only if it holds the other colour. |
| PieceMoveCalculator.SlideMembers | shared/src/main/java/chess/piececalculators/SteppingMoveCalculator.java:18-41 | The full characterisation of a slider's set, both directions of the if-and-only-if. |
| PieceMoveCalculator.SlideStopsAtFirstPiece | shared/src/main/java/chess/piececalculators/SteppingMoveCalculator.java:33-38 | No square beyond the first occupied one in a direction is emitted. |
| PieceMoveCalculator.JumpOne | shared/src/main/java/chess/piececalculators/JumpingMoveCalculator.java:25-30 | One offset yields at most one move. |
| PieceMoveCalculator.JumpMembers | shared/src/main/java/chess/piececalculators/JumpingMoveCalculator.java:19-32 | A jumper emits exactly the enterable on-board targets of its offsets, each starting on the origin with no promotion. It has at most one move per offset. |
| PieceMoveCalculator.RaySize | shared/src/main/java/chess/piececalculators/SteppingMoveCalculator.java:21-39 | A walk started k squares out emits at most 8 - k moves. |
| PieceMoveCalculator.SlideSize | shared/src/main/java/chess/piececalculators/SteppingMoveCalculator.java:18-40 | Each direction contributes at most 7 moves. |
| PieceMoveCalculator.SlideSameDirections | shared/src/main/java/chess/MoveCalculators/RookMoveCalculator.java:15-17 | Two direction tables that list the same directions, in any order, give the same moves. |
| PieceMoveCalculator.JumpSameOffsets | shared/src/main/java/chess/MoveCalculators/KingMoveCalculator.java:13-17 | Two offset tables that list the same offsets, in any order, give the same moves. |
| BaseCalculators.IsRealPositionIsSquare | shared/src/main/java/chess/piececalculators/PieceMoveCalculator.java:10-12 | The bounds test holds exactly for the 64 squares of the board. It fails for any row or column outside 1..8, whatever the board holds. |
| BaseCalculators.DirectionTables | shared/src/main/java/chess/piececalculators/QueenCalculator.java:10-14 | The bishop's table is exactly the four diagonals and the rook's exactly the four orthogonals. The queen's is their union, which is all eight unit directions. |
| BaseCalculators.OffsetTables | shared/src/main/java/chess/piececalculators/KingCalculator.java:5-8 | The king's offsets are exactly the eight neighbours and the knight's exactly the eight L-shaped jumps, each listed once. |
| BaseCalculators.SteppingGetMoves | shared/src/main/java/chess/piececalculators/SteppingMoveCalculator.java:13-42 | The sliding base's nested loops compute the reference slider set. |
| BaseCalculators.StepOut | shared/src/main/java/chess/piececalculators/SteppingMoveCalculator.java:19-39 | The walk along one direction collects exactly one direction's reference ray: every empty square up to the first occupied one, then that square when its colour differs from the origin's. |
| BaseCalculators.StepLook | shared/src/main/java/chess/piececalculators/SteppingMoveCalculator.java:22-38 | One look ahead either ends the walk holding exactly what remains of the ray, or records the next empty square and leaves the rest of the ray to the next step. |
| BaseCalculators.JumpingGetMoves | shared/src/main/java/chess/piececalculators/JumpingMoveCalculator.java:14-34 | The jumping base's loop computes the reference jumper set. |
| BaseCalculators.KnightGetMoves | shared/src/main/java/chess/piececalculators/KnightCalculator.java:12-32 | The knight's literal table, walked by the knight's loop, gives exactly the reference jumper set over the knight's offsets. |
| BaseCalculators.KnightLoop | shared/src/main/java/chess/piececalculators/KnightCalculator.java:17-30 | The knight's `for` loop over any table of offsets collects exactly the reference jumper set: each on-board target that is empty or holds the other colour. |
| BaseCalculators.KnightJump | shared/src/main/java/chess/piececalculators/KnightCalculator.java:18-29 | One pass of the knight's loop records the target exactly when it is a real square that is empty or holds the other colour. |
| BaseCalculators.BishopMoves | shared/src/main/java/chess/piececalculators/BishopCalculator.java:10-14 | Every bishop move changes row and column by the same non-zero amount. |
| BaseCalculators.RookMoves | shared/src/main/java/chess/piececalculators/RookCalculator.java:3-7 | Every rook move keeps exactly one of the row and the column. |
| BaseCalculators.BishopGetMoves | shared/src/main/java/chess/piececalculators/BishopCalculator.java:10-14 | The bishop is the sliding base over the diagonal table. |
| BaseCalculators.RookGetMoves | shared/src/main/java/chess/piececalculators/RookCalculator.java:3-7 | The rook is the sliding base over the orthogonal table. |
| BaseCalculators.QueenGetMoves | shared/src/main/java/chess/piececalculators/QueenCalculator.java:10-14 | The queen is the sliding base over the eight-direction table. |
| BaseCalculators.KingGetMoves | shared/src/main/java/chess/piececalculators/KingCalculator.java:3-9 | The king is the jumping base over the neighbour table. |
| BaseCalculators.QueenIsRookPlusBishop | shared/src/main/java/chess/piececalculators/QueenCalculator.java:10-14 | The queen's moves are the union of the rook's and the bishop's from the same square on the same board. |
| BaseCalculators.KingMovesAdjacent | shared/src/main/java/chess/piececalculators/KingCalculator.java:3-9 | The king has at most 8 moves. A move is the king's exactly when it goes to an enterable real square at king-step distance 1 with no promotion. |
| BaseCalculators.KnightMovesJump | shared/src/main/java/chess/piececalculators/KnightCalculator.java:15-31 | The knight has at most 8 moves. A move is the knight's exactly when it is an L-shaped jump to an enterable real square with no promotion, whatever lies between. |
| InlineCalculators.IsRealPositionAgrees | shared/src/main/java/chess/pieceCalculators/pieceMoveCalculator.java:12-14 | This revision's bounds test agrees with the other revision's on every input, and fails for row or column 0 or 9. |
| InlineCalculators.WalkDirections | shared/src/main/java/chess/pieceCalculators/BishopCalculator.java:17-41 | The inline walk over a direction table computes the reference slider set. |
| InlineCalculators.WalkOne | shared/src/main/java/chess/pieceCalculators/BishopCalculator.java:18-38 | The inline walk along one direction collects exactly one direction's reference ray: every empty square up to the first occupied one, then that square when its colour differs from the origin's. |
| InlineCalculators.WalkLook | shared/src/main/java/chess/pieceCalculators/BishopCalculator.java:21-36 | One look ahead of the inline walk either ends it holding exactly what remains of the ray, or records the next empty square and leaves the rest to the next step. |
| InlineCalculators.BishopGetMoves | shared/src/main/java/chess/pieceCalculators/BishopCalculator.java:12-43 | The inline bishop equals the `piececalculators` bishop. |
| InlineCalculators.KingGetMoves | shared/src/main/java/chess/pieceCalculators/KingCalculator.java:12-34 | The inline king equals the `piececalculators` king. |
| InlineCalculators.PawnStepDirection | shared/src/main/java/chess/pieceCalculators/PawnCalculator.java:14-19 | The pawn steps +1 for White and -1 otherwise. |
| InlineCalculators.AddAllPromotions | shared/src/main/java/chess/pieceCalculators/PawnCalculator.java:94-100 | Adding the promotions to a square gives exactly four moves. |
| InlineCalculators.PromotionMembers | shared/src/main/java/chess/pieceCalculators/PawnCalculator.java:94-100 | Those moves are exactly the moves to that square promoting to bishop, knight, queen or rook. |
| InlineCalculators.ForwardMembers | shared/src/main/java/chess/pieceCalculators/PawnCalculator.java:29-53 | From the starting rank, the pawn moves one step if that square is empty, and two steps if both squares are empty. Elsewhere, a promotion row ahead gives the four promotions, unchecked. Otherwise the one step is taken when the square is empty. |
| InlineCalculators.AttackMembers | shared/src/main/java/chess/pieceCalculators/PawnCalculator.java:63-81 | A diagonal is taken exactly when it is a real square holding a piece of the other colour. On row 1 or 8 the capture becomes the four promotions. |
| InlineCalculators.PawnMovesShape | shared/src/main/java/chess/pieceCalculators/PawnCalculator.java:9-81 | Every pawn move ends on a real square one row ahead within one column, or two ahead from the starting rank. It carries a promotion exactly when it ends on row 1 or 8, and that promotion is one of the four kinds. |
| InlineCalculators.PawnStartingRank | shared/src/main/java/chess/pieceCalculators/PawnCalculator.java:37-44 | On the starting rank, the one-step is emitted iff its square is empty, and the two-step iff both squares are empty. No move promotes. |
| InlineCalculators.PawnPromotesForward | shared/src/main/java/chess/pieceCalculators/PawnCalculator.java:45-47 | With a promotion row ahead, all four promotions forward are emitted and the plain step is not. |
| InlineCalculators.PawnQuietStep | shared/src/main/java/chess/pieceCalculators/PawnCalculator.java:48-50 | Off the starting rank, with no promotion row ahead, the plain step is emitted iff its square is empty. |
| InlineCalculators.PawnCaptures | shared/src/main/java/chess/pieceCalculators/PawnCalculator.java:55-84 | A diagonal capture appears plain off the promotion rows and as each of the four promotions on them, exactly when the square holds the other colour. |
| InlineCalculators.PawnPromotesOntoOwnPiece | shared/src/main/java/chess/pieceCalculators/PawnCalculator.java:46-47 | A White pawn on (7,1) with its own rook on (8,1) is still offered the queen promotion onto that rook. |
| MoveCalculators.WalkDirections | shared/src/main/java/chess/MoveCalculators/RookMoveCalculator.java:23-41 | This revision's walk over a direction table computes the reference slider set. |
| MoveCalculators.WalkDirection | shared/src/main/java/chess/MoveCalculators/RookMoveCalculator.java:24-40 | Given the mover's team, the walk along one direction collects exactly one direction's reference ray: every empty square up to the first occupied one, then that square when its colour differs from the origin's. |
| MoveCalculators.WalkLook | shared/src/main/java/chess/MoveCalculators/RookMoveCalculator.java:27-38 | One pass of the loop body either ends the walk holding exactly what remains of the ray, or records the next empty square and leaves the rest to the next step. |
| MoveCalculators.StepOffsets | shared/src/main/java/chess/MoveCalculators/KingMoveCalculator.java:23-31 | This revision's offset loop computes the reference jumper set. |
| MoveCalculators.RookGetMoves | shared/src/main/java/chess/MoveCalculators/RookMoveCalculator.java:11-44 | This rook equals the `piececalculators` rook. |
| MoveCalculators.BishopGetMoves | shared/src/main/java/chess/MoveCalculators/BishopMoveCalculator.java:11-36 | This bishop equals the `piececalculators` bishop. |
| MoveCalculators.KingGetMoves | shared/src/main/java/chess/MoveCalculators/KingMoveCalculator.java:11-34 | This king equals the `piececalculators` king. |
| MoveCalculators.KnightGetMoves | shared/src/main/java/chess/MoveCalculators/KnightMoveCalculator.java:11-33 | This knight equals the `piececalculators` knight. |
| MoveCalculators.PromotionPiecesChoice | shared/src/main/java/chess/MoveCalculators/PawnMoveCalculator.java:20-24 | The promotion list holds rook, knight, bishop and queen exactly for White on row 7 or Black on row 2. Otherwise it holds only null. |
| MoveCalculators.FanOutMembers | shared/src/main/java/chess/MoveCalculators/PawnMoveCalculator.java:26-57 | Each reached square is emitted once per entry of the promotion list, and nothing else is emitted. |
| MoveCalculators.PawnPass | shared/src/main/java/chess/MoveCalculators/PawnMoveCalculator.java:28-56 | One pass of the promotion loop emits the reached squares with that pass's promotion. |
| MoveCalculators.PawnGetMoves | shared/src/main/java/chess/MoveCalculators/PawnMoveCalculator.java:11-60 | The promotion loop computes the fan-out of the reached squares over the promotion list. |
| MoveCalculators.TargetMembers | shared/src/main/java/chess/MoveCalculators/PawnMoveCalculator.java:28-56 | A square is reached exactly in three cases. It is the empty square ahead. It is a diagonal holding another team. Or, from the starting rank, it is two ahead with both squares empty. |
| MoveCalculators.PawnMembers | shared/src/main/java/chess/MoveCalculators/PawnMoveCalculator.java:26-57 | A move is generated exactly when it starts on the pawn, ends on a reached square, and names an entry of the promotion list. |
| MoveCalculators.PawnForwardNeedsEmpty | shared/src/main/java/chess/MoveCalculators/PawnMoveCalculator.java:28-31 | A forward move, with any promotion, needs its square on the board and empty. |
| MoveCalculators.PawnRevisionsAgree | shared/src/main/java/chess/MoveCalculators/PawnMoveCalculator.java:11-60 | For a square holding a piece, both pawn generators give the same set whenever the inline one can run and the forward promotion square is empty. |
| MoveCalculators.PawnRevisionsDiffer | shared/src/main/java/chess/pieceCalculators/PawnCalculator.java:45-47 | They differ on a forward promotion onto an occupied square: the inline pawn offers it and this one does not. |
| MoveCalculators.PawnRevisionsDifferOnEmpty | shared/src/main/java/chess/pieceCalculators/PawnCalculator.java:14-19 | They differ on an empty origin: on an empty board the inline pawn on (2,1) steps down onto row 1 and offers the queen promotion, and this one does not. |
| MoveCounts.RayThroughEmpty | shared/src/main/java/chess/piececalculators/SteppingMoveCalculator.java:30-32 | An empty square adds its move and the walk continues; that move is not among the later ones. |
| MoveCounts.RayOnEmptyBoard | shared/src/main/java/chess/piececalculators/SteppingMoveCalculator.java:21-32 | With nothing in the way, a direction emits one move per square up to the edge. |
| MoveCounts.RaysDisjoint | shared/src/main/java/chess/piececalculators/SteppingMoveCalculator.java:18-40 | Different directions never emit the same move. |
| MoveCounts.SlideCountAlone | shared/src/main/java/chess/piececalculators/SteppingMoveCalculator.java:18-41 | A slider alone on the board has exactly as many moves as the summed distance to the edge along its directions. |
| MoveCounts.JumpCountAlone | shared/src/main/java/chess/piececalculators/JumpingMoveCalculator.java:19-32 | A jumper alone on the board has exactly one move per offset that lands on the board. |
| MoveCounts.RookAloneCount | shared/src/main/java/chess/piececalculators/RookCalculator.java:3-7 | A rook alone on the board has exactly 14 moves on every square. |
| MoveCounts.BishopAloneCount | shared/src/main/java/chess/piececalculators/BishopCalculator.java:10-14 | A bishop alone on (4,4) has exactly 13 moves. |
| MoveCounts.QueenAloneCount | shared/src/main/java/chess/piececalculators/QueenCalculator.java:10-14 | A queen alone on (4,4) has exactly 27 moves. |
| MoveCounts.KingAloneCount | shared/src/main/java/chess/piececalculators/KingCalculator.java:3-9 | A king alone on (1,1) has exactly 3 moves. |
| MoveCounts.KnightAloneCount | shared/src/main/java/chess/piececalculators/KnightCalculator.java:15-31 | A knight alone on (1,1) has exactly 2 moves. |
| ChessGames.NewGame | shared/src/main/java/chess/ChessGame.java:17-19 | A fresh game has an empty board and no side to move. |
| ChessGames.SetTeamTurn | shared/src/main/java/chess/ChessGame.java:24-35 | The turn read back is the turn set, and the board is unchanged. |
| ChessGames.SetBoard | shared/src/main/java/chess/ChessGame.java:206-208 | Setting the board leaves both the board and the turn as they were. |
| ChessGames.SetBoardIgnoresArgument | shared/src/main/java/chess/ChessGame.java:206-208 | The board read back after `setBoard(b)` is `b` only when `b` already was the game's board. |
| ChessGames.MakeSimulationBoard | shared/src/main/java/chess/ChessGame.java:45-59 | The copy is a fresh valid board with an equal piece on exactly the occupied squares of the live board. It equals the live board whenever that board is valid. |
| ChessGames.FindKing | shared/src/main/java/chess/ChessGame.java:137-150 | The search finds the team's first king in row-major order, or reports that there is none. |
| ChessGames.ScanForCheckMeaning | shared/src/main/java/chess/ChessGame.java:153-171 | The scan answers true only if some opposing piece's moves end on the king, and false only if none do. It faults only if some opposing generator faults. When no generator faults, the scan always answers. |
| ChessGames.IsInCheckMeaning | shared/src/main/java/chess/ChessGame.java:132-171 | When no opposing generator faults, `isInCheck` answers, and it answers true exactly when the team has a king and some opposing piece has a move ending on that king. Any fault it raises is an opposing generator's array fault. |
| ChessGames.NoKingNoCheck | shared/src/main/java/chess/ChessGame.java:137-171 | A team with no king on the board is never in check. |
| ChessGames.EmptyBoardNoCheck | shared/src/main/java/chess/ChessGame.java:132-174 | Nothing is in check on an empty board. |
| ChessGames.SimulationErrors | shared/src/main/java/chess/ChessGame.java:81-90 | A simulated move can fault only with the array index error. |
| ChessGames.SimulationNeverInCheck | shared/src/main/java/chess/ChessGame.java:81-90 | Because the simulated game keeps its empty board, no simulated move leaves the mover in check. |
| ChessGames.ValidMovesNull | shared/src/main/java/chess/ChessGame.java:68-74 | The answer is null exactly for an empty square or a piece of the side not to move. That includes every square of a fresh game. |
| ChessGames.ValidMovesArePieceMoves | shared/src/main/java/chess/ChessGame.java:77-95 | For a piece of the side to move, the answer is exactly its generated moves, or the generator's fault. |
| ChessGames.ValidMovesSubset | shared/src/main/java/chess/ChessGame.java:77-95 | Any move set answered is a subset of the piece's generated moves. |
| ChessGames.SimulateMove | shared/src/main/java/chess/ChessGame.java:81-90 | The loop body copies the board, moves the piece on the copy, and asks a new game whether the mover is in check. |
| ChessGames.ValidMovesLoop | shared/src/main/java/chess/ChessGame.java:68-96 | The loop over the generated moves, in any order, computes the filtered set. It never touches the live board. |
| ChessGames.KeepOutOfCheck | shared/src/main/java/chess/ChessGame.java:80-93 | The filter keeps exactly the generated moves whose simulation leaves the mover out of check. It faults exactly when some simulation faults, and then with the array fault. |
| ChessGames.MakeMoveEffect | shared/src/main/java/chess/ChessGame.java:104-124 | `makeMove` succeeds exactly for a generated move of a piece of the side to move. Afterwards the destination holds the moving piece and the origin is empty. All other squares are unchanged, and the turn passes to the other team. |
| ChessGames.MakeMoveErrors | shared/src/main/java/chess/ChessGame.java:105-115 | An empty start or a piece of the wrong side is refused with "That isn't your piece". A move its generator does not produce is refused with "This move is invalid". |
| ChessGames.MakeMoveIgnoresPromotion | shared/src/main/java/chess/ChessGame.java:117-119 | A White pawn moving from (7,1) to (8,1) with a queen promotion leaves a pawn on (8,1). |
| MemoryDaos.GetAllGames | server/src/main/java/dataaccess/MemoryGameDAO.java:14-16 | The list has one entry per stored id and holds every stored record and nothing else. In a store that files each record under its own id, each record appears once and no id appears twice. |
| MemoryDaos.GetGame | server/src/main/java/dataaccess/MemoryGameDAO.java:19-25 | A lookup fails with "Game not found" exactly for an absent id. Otherwise it returns the record filed under that id. |
| MemoryDaos.CreateGame | server/src/main/java/dataaccess/MemoryGameDAO.java:28-33 | Creation fails with "Game already exists" exactly for a present id. Otherwise it adds exactly that id and keeps records filed under their ids. |
| MemoryDaos.UpdateGame | server/src/main/java/dataaccess/MemoryGameDAO.java:37-42 | An update fails with "Game not found" exactly for an absent id. Otherwise it keeps the same ids. |
| MemoryDaos.ClearGame | server/src/main/java/dataaccess/MemoryGameDAO.java:45-47 | Clearing empties the store. |
| MemoryDaos.CreateThenGet | server/src/main/java/dataaccess/MemoryGameDAO.java:28-33 | A created game is found under its id, and other ids answer as before. |
| MemoryDaos.UpdateThenGet | server/src/main/java/dataaccess/MemoryGameDAO.java:37-42 | An updated game reads back as the new record, and other ids answer as before. |
| MemoryDaos.ClearThenGet | server/src/main/java/dataaccess/MemoryGameDAO.java:45-47 | After clearing, every lookup fails with "Game not found". |
| MemoryDaos.GetAuthToken | server/src/main/java/dataaccess/MemoryAuthDAO.java:12-14 | A token lookup answers the stored data exactly for a present token, and null otherwise, including for a null token. |
| MemoryDaos.CreateAuthToken | server/src/main/java/dataaccess/MemoryAuthDAO.java:17-22 | Creating a token fails with "Error: Token already exists." exactly for a present token. Otherwise it adds exactly that token, and every token already stored keeps its record. |
| MemoryDaos.DeleteAuthToken | server/src/main/java/dataaccess/MemoryAuthDAO.java:25-30 | Deleting fails with "Error: Token not found." exactly for an absent token. Otherwise it removes exactly that token. |
| MemoryDaos.ClearAuth | server/src/main/java/dataaccess/MemoryAuthDAO.java:33-35 | Clearing empties the token store. |
| MemoryDaos.AuthRoundTrips | server/src/main/java/dataaccess/MemoryAuthDAO.java:12-30 | A created token reads back and every other token reads as before. A deleted token reads back null, and other tokens are unaffected. |
| MemoryDaos.GetUser | server/src/main/java/dataaccess/MemoryUserDAO.java:12-14 | A user lookup answers the stored user exactly for a known name, and null otherwise. |
| MemoryDaos.CreateUser | server/src/main/java/dataaccess/MemoryUserDAO.java:17-22 | Creating a user fails with "User already exists" exactly for a known name. Otherwise it adds exactly that name. |
| MemoryDaos.ClearUser | server/src/main/java/dataaccess/MemoryUserDAO.java:26-28 | Clearing empties the user store. |
| MemoryDaos.CreateUserThenGet | server/src/main/java/dataaccess/MemoryUserDAO.java:12-22 | A created user reads back, and other names answer as before. |
| Services.JoinGameErrors | server/src/main/java/service/JoinGameService.java:19-43 | The checks run in a fixed order: a non-positive id, an unknown token, a colour other than WHITE/BLACK, an absent game (the store's "Game not found"), then a taken seat. Each gets its own message. |
| Services.JoinGameSuccess | server/src/main/java/service/JoinGameService.java:45-51 | A join that passes every check succeeds and changes only the requested seat, which becomes the caller's username. The id, name, game, other seat, other games and other stores are untouched. |
| Services.LogoutEffect | server/src/main/java/service/LogoutService.java:13-25 | A null token gives "Auth token is missing." and an unknown one gives "Error: unauthorized". Otherwise logout answers true and removes that token only. |
| Services.Clear | server/src/main/java/service/ClearService.java:19-23 | Clearing empties all three stores. |
| Services.ClearEffect | server/src/main/java/service/ClearService.java:19-23 | After clearing, no user, game or token is found, and clearing again changes nothing. |
| Services.GameList | server/src/main/java/service/GameListService.java:21-28 | Listing fails with "Error: unauthorized" exactly for an unknown token. Otherwise it answers every stored game, as many as are stored, and leaves the stores alone. |
| UiUtils.IsHighlightedPosition | client/src/main/java/ui/UIUtils.java:56-62 | A null collection highlights nothing. Otherwise a square is highlighted exactly when some move starts or ends on it. |
| UiUtils.GetPieceString | client/src/main/java/ui/UIUtils.java:64-77 | The cell text is always three characters with blanks at both ends, and it is blank in the middle exactly for an empty square. |
| UiUtils.PieceStringRoundTrip | client/src/main/java/ui/UIUtils.java:68-76 | The middle letter reads back as the piece's kind: K, Q, B, N, R, P. |
| UiUtils.PieceStringByKind | client/src/main/java/ui/UIUtils.java:64-77 | Two pieces print alike exactly when they are of the same kind, so the text is one-to-one over kinds. |
| SqlDaoUtils.StartsWithSlice | server/src/main/java/dataaccess/SQLDAOUtils.java:10 | `startsWith` holds exactly when the prefix equals the string's first characters. |
| SqlDaoUtils.ContainsAt | server/src/main/java/dataaccess/SQLDAOUtils.java:13-18 | `contains` holds exactly when the phrase occurs at some index. |
| SqlDaoUtils.ToLower | server/src/main/java/dataaccess/SQLDAOUtils.java:8 | Lower-casing keeps the length and lowers each capital letter. |
| SqlDaoUtils.ToLowerIdempotent | server/src/main/java/dataaccess/SQLDAOUtils.java:8 | Lower-casing leaves no capital behind, so doing it twice equals doing it once. |
| SqlDaoUtils.NormalMessage | server/src/main/java/dataaccess/SQLDAOUtils.java:8 | A null message is read as the empty string, and any other message is lower-cased. |
| SqlDaoUtils.ContainsPhrases | server/src/main/java/dataaccess/SQLDAOUtils.java:13-18 | The six `contains` tests together hold exactly when one of the six phrases occurs in the message. |
| SqlDaoUtils.IsConnectionIssue | server/src/main/java/dataaccess/SQLDAOUtils.java:6-19 | The exception is a connection issue exactly when its state begins with "08", or when its lower-cased message contains one of the six network phrases. |
| SqlDaoUtils.ConnectionIssueCases | server/src/main/java/dataaccess/SQLDAOUtils.java:7-18 | With a null state, a null message is never an issue. A state of class 08 is an issue whatever the message. The answer does not depend on the message's case. |

## Left out

- `ChessBoard.resetBoard`, `ChessGame.isInCheckmate` and `ChessGame.isInStalemate` only throw "Not implemented", so there is no behaviour to model.
- `pieceCalculators/RookCalculator.java` is an unfinished rook that steps both axes at once and never looks at occupancy. It is not part of this model. As the source stands, `ChessPiece.java` imports only `chess.pieceCalculators.*`, so its `new RookCalculator()` (line 78) names this unfinished rook, and its `new QueenCalculator()` and `new KnightCalculator()` (lines 76 and 79) name classes that package does not declare. The model assumes instead that `pieceMoves` dispatches the rook, queen and knight to the working `piececalculators` classes. So `ChessPieces.PieceMoves` does not model the unfinished rook's moves, and it does not model the failure to resolve the queen and knight.
- `ChessPosition` and `ChessMove` are not part of this model. They are taken to be value types compared field by field, as `validMoves.contains` and the hash sets need.
- The calculators call `ChessBoard` methods (`getColorOnSquare`, `getTeamOnSquare`, `isBoarded`) that are not part of this model. They are taken to be `checkColorOnSquare` and the 1..8 bounds test.
- The piece getters and the `GameData`, `AuthData` and `UserData` records are datatype fields, with no separate members.
- The null default arm of `pieceMoves` cannot be reached, because a piece kind is never null here.
- ChessPieces.HashCode: the enums' own hash codes are identity hashes chosen by the virtual machine, so they are parameters rather than constants.
- SqlDaoUtils.ToLower: only the ASCII capitals A-Z are lowered. Java's `toLowerCase` also maps other Unicode letters, using the default locale.
- Services.JoinGameSuccess: it assumes the store files every record under its own id. `CreateGame` and `UpdateGame` preserve that, but a map built by other means need not satisfy it.
- The null-game branch of `joinGame` (JoinGameService.java lines 35-37) cannot be reached with the in-memory store, whose `getGame` already throws "Game not found". That is the error the model returns.
- Iteration order of `HashMap` and `HashSet` is not modelled. `MemoryDaos.GetAllGames` and `ChessGames.ValidMovesLoop` accept any order, and their contracts hold for all of them.
- The SQL data access objects, the WebSocket handler, the HTTP handlers and facade, and the terminal REPLs and `drawBoard` are not modelled. They are I/O over JDBC, Jetty, Spark or the console.
- Registration, login and game creation are not modelled. They depend on BCrypt hashing, random UUIDs and the unimplemented `resetBoard`.
- Concurrency is not modelled. Every store is used by one caller at a time.
