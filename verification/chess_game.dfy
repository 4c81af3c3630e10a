/** `ChessGame`: whose turn it is, the live board, the check test, the filter that keeps
    the moves that do not leave the mover in check, and the move that commits one of them.

    Three behaviours of the class are kept as written. The constructor never sets the
    turn, so a fresh game has no side to move and offers no moves. `setBoard` assigns the
    field to itself, so the game built for each simulated move keeps its own empty board,
    is never in check, and the filter keeps every generated move. `makeMove` puts the
    original piece on the destination whatever promotion the move names. */
module ChessGames {
  import opened Wrappers
  import opened ChessTypes
  import opened ChessBoard
  import opened ChessPieces

  datatype Game = Game(whosTurn: Option<TeamColor>, gameBoard: Board)

  /** The constructor: an empty board and a turn that is never assigned. */
  function NewGame(): (g: Game)
    ensures g.whosTurn == None && g.gameBoard.Valid()
    ensures forall p | OnBoard(p) :: GetPiece(g.gameBoard, p) == None
  {
    Game(None, NewBoard())
  }

  function GetTeamTurn(g: Game): Option<TeamColor>
  {
    g.whosTurn
  }

  function GetBoard(g: Game): Board
  {
    g.gameBoard
  }

  /** `setTeamTurn`: the turn read back is the one set, and the board is untouched. */
  function SetTeamTurn(g: Game, team: Option<TeamColor>): (r: Game)
    ensures GetTeamTurn(r) == team && GetBoard(r) == GetBoard(g)
  {
    g.(whosTurn := team)
  }

  /** `setBoard` assigns the field to itself: the argument is dropped. */
  function SetBoard(g: Game, board: Board): (r: Game)
    ensures GetBoard(r) == GetBoard(g) && GetTeamTurn(r) == GetTeamTurn(g)
  {
    g
  }

  /** Setting a board and reading it back does not give that board unless it already
      was the game's board. */
  lemma SetBoardIgnoresArgument(g: Game, board: Board)
    ensures GetBoard(SetBoard(g, board)) == board <==> GetBoard(g) == board
  {
  }

  /** `makeSimulationBoard`: a fresh board that receives, square by square in row-major
      order, a new piece of the same team and kind as each piece of the live board. */
  method MakeSimulationBoard(g: Game) returns (simulationBoard: Board)
    ensures simulationBoard.Valid()
    ensures forall p | OnBoard(p) :: GetPiece(simulationBoard, p) == GetPiece(g.gameBoard, p)
    ensures g.gameBoard.Valid() ==> simulationBoard == g.gameBoard
  {
    simulationBoard := NewBoard();
    for row := 1 to 9
      invariant simulationBoard.Valid()
      invariant forall p | OnBoard(p) ::
                  GetPiece(simulationBoard, p) == if p.row < row then GetPiece(g.gameBoard, p) else None
    {
      for col := 1 to 9
        invariant simulationBoard.Valid()
        invariant forall p | OnBoard(p) ::
                    GetPiece(simulationBoard, p)
                    == if p.row < row || (p.row == row && p.col < col) then GetPiece(g.gameBoard, p) else None
      {
        var position := Position(row, col);
        var piece := GetPiece(g.gameBoard, position);
        if piece != None {
          simulationBoard := AddPiece(simulationBoard, position,
                                      Some(Piece(piece.value.teamColor, piece.value.pieceType)));
        }
      }
    }
    if g.gameBoard.Valid() {
      BoardExtensionality(simulationBoard, g.gameBoard);
    }
  }

  /** The first square from row-major index `i` on that holds `t`'s king. */
  function FindKing(b: Board, t: TeamColor, i: int): (r: Option<Position>)
    requires 0 <= i <= 64
    ensures r.Some? ==> && OnBoard(r.value) && i <= SquareIndex(r.value) < 64
                        && GetPiece(b, r.value) == Some(Piece(t, King))
    ensures r.Some? ==> forall j | i <= j < SquareIndex(r.value) :: GetPiece(b, Square(j)) != Some(Piece(t, King))
    ensures r.None? ==> forall j | i <= j < 64 :: GetPiece(b, Square(j)) != Some(Piece(t, King))
    decreases 64 - i
  {
    if i == 64 then None
    else
      SquareRoundTrip(i, Square(i));
      if GetPiece(b, Square(i)) == Some(Piece(t, King)) then Some(Square(i))
      else FindKing(b, t, i + 1)
  }

  /** Some move of `moves` ends on `k`. */
  predicate Hits(moves: set<Move>, k: Position)
  {
    exists m | m in moves :: m.endPosition == k
  }

  /** What the attack loop of `isInCheck` learns at the square with row-major index `j`:
      nothing when it does not hold a piece of `opposing`, otherwise that piece's
      generator result. The generators are pure, so looking them up in order is the
      loop's own calling of them in order. */
  function Outcome(b: Board, opposing: TeamColor, j: int): Option<Result<set<Move>, ChessError>>
    requires 0 <= j < 64
  {
    var piece := GetPiece(b, Square(j));
    if piece.Some? && piece.value.teamColor == opposing then Some(PieceMoves(b, piece.value, Square(j)))
    else None
  }

  /** The outcomes of all 64 squares, in row-major order. */
  function Outcomes(b: Board, opposing: TeamColor): (r: seq<Option<Result<set<Move>, ChessError>>>)
    ensures |r| == 64 && forall j | 0 <= j < 64 :: r[j] == Outcome(b, opposing, j)
  {
    seq(64, j requires 0 <= j < 64 => Outcome(b, opposing, j))
  }

  /** The square with index `j` holds an opposing piece whose generator throws. */
  predicate Throws(outcomes: seq<Option<Result<set<Move>, ChessError>>>, j: int)
    requires 0 <= j < |outcomes|
  {
    outcomes[j].Some? && outcomes[j].value.Err?
  }

  /** The square with index `j` holds an opposing piece with a move ending on `k`. */
  predicate Attacks(outcomes: seq<Option<Result<set<Move>, ChessError>>>, k: Position, j: int)
    requires 0 <= j < |outcomes|
  {
    outcomes[j].Some? && outcomes[j].value.Ok? && Hits(outcomes[j].value.value, k)
  }

  /** The attack loop of `isInCheck` from row-major index `i` on: each opposing piece has
      its moves generated, a throw ends the loop, and the first piece with a move onto
      the king answers true. A missing king is hit by nothing. */
  function ScanForCheck(outcomes: seq<Option<Result<set<Move>, ChessError>>>, king: Option<Position>, i: int)
    : Result<bool, ChessError>
    requires 0 <= i <= |outcomes|
    decreases |outcomes| - i
  {
    if i == |outcomes| then Ok(false)
    else
      match outcomes[i]
      case None => ScanForCheck(outcomes, king, i + 1)
      case Some(Err(e)) => Err(e)
      case Some(Ok(possibleMoves)) =>
        if king.Some? && Hits(possibleMoves, king.value) then Ok(true)
        else ScanForCheck(outcomes, king, i + 1)
  }

  /** `isInCheck`: find the team's king, then look for an opposing piece that reaches it. */
  function IsInCheck(g: Game, teamColor: TeamColor): Result<bool, ChessError>
  {
    ScanForCheck(Outcomes(g.gameBoard, Opponent(teamColor)), FindKing(g.gameBoard, teamColor, 0), 0)
  }

  /** The scan answers true only when some later opposing piece reaches the king. */
  lemma {:induction false} ScanTrue(outcomes: seq<Option<Result<set<Move>, ChessError>>>, king: Option<Position>, i: int)
    requires 0 <= i <= |outcomes|
    ensures ScanForCheck(outcomes, king, i) == Ok(true) ==>
              king.Some? && exists j | i <= j < |outcomes| :: Attacks(outcomes, king.value, j)
    decreases |outcomes| - i
  {
    if i < |outcomes| && ScanForCheck(outcomes, king, i) == Ok(true) {
      if king.Some? && Attacks(outcomes, king.value, i) {
      } else {
        ScanTrue(outcomes, king, i + 1);
      }
    }
  }

  /** The scan answers false only when no later opposing piece reaches the king. */
  lemma {:induction false} ScanFalse(outcomes: seq<Option<Result<set<Move>, ChessError>>>, king: Option<Position>, i: int)
    requires 0 <= i <= |outcomes|
    ensures ScanForCheck(outcomes, king, i) == Ok(false) ==>
              king.None? || forall j | i <= j < |outcomes| :: !Attacks(outcomes, king.value, j)
    decreases |outcomes| - i
  {
    if i < |outcomes| && ScanForCheck(outcomes, king, i) == Ok(false) && king.Some? {
      ScanFalse(outcomes, king, i + 1);
    }
  }

  /** The scan throws only what a later opposing generator throws. */
  lemma {:induction false} ScanErr(outcomes: seq<Option<Result<set<Move>, ChessError>>>, king: Option<Position>, i: int)
    requires 0 <= i <= |outcomes|
    ensures ScanForCheck(outcomes, king, i).Err? ==>
              exists j | i <= j < |outcomes| :: Throws(outcomes, j)
                                               && outcomes[j].value.error == ScanForCheck(outcomes, king, i).error
    decreases |outcomes| - i
  {
    if i < |outcomes| && ScanForCheck(outcomes, king, i).Err? {
      if !Throws(outcomes, i) {
        ScanErr(outcomes, king, i + 1);
      }
    }
  }

  /** When no later opposing piece throws, the scan answers. */
  lemma {:induction false} ScanAnswers(outcomes: seq<Option<Result<set<Move>, ChessError>>>, king: Option<Position>, i: int)
    requires 0 <= i <= |outcomes|
    ensures (forall j | i <= j < |outcomes| :: !Throws(outcomes, j)) ==> ScanForCheck(outcomes, king, i).Ok?
    decreases |outcomes| - i
  {
    if i < |outcomes| && forall j | i <= j < |outcomes| :: !Throws(outcomes, j) {
      assert !Throws(outcomes, i);
      ScanAnswers(outcomes, king, i + 1);
    }
  }

  /** Every generator throws only the array fault. */
  lemma OutcomeErrors(b: Board, opposing: TeamColor, j: int)
    requires 0 <= j < 64
    ensures Throws(Outcomes(b, opposing), j) ==> Outcomes(b, opposing)[j].value.error == IndexOutOfBounds
  {
  }

  /** The scan of a board answers true only if some opposing piece's moves end on the
      king, and false only if none do. It throws only the array fault, and only if some
      opposing generator throws; when none does, it answers. */
  lemma ScanForCheckMeaning(b: Board, opposing: TeamColor, king: Option<Position>)
    ensures var outcomes := Outcomes(b, opposing);
            && (ScanForCheck(outcomes, king, 0) == Ok(true) ==>
                  king.Some? && exists j | 0 <= j < 64 :: Attacks(outcomes, king.value, j))
            && (ScanForCheck(outcomes, king, 0) == Ok(false) ==>
                  king.None? || forall j | 0 <= j < 64 :: !Attacks(outcomes, king.value, j))
            && (ScanForCheck(outcomes, king, 0).Err? ==>
                  ScanForCheck(outcomes, king, 0).error == IndexOutOfBounds
                  && exists j | 0 <= j < 64 :: Throws(outcomes, j))
            && ((forall j | 0 <= j < 64 :: !Throws(outcomes, j)) ==> ScanForCheck(outcomes, king, 0).Ok?)
  {
    var outcomes := Outcomes(b, opposing);
    ScanTrue(outcomes, king, 0);
    ScanFalse(outcomes, king, 0);
    ScanErr(outcomes, king, 0);
    ScanAnswers(outcomes, king, 0);
    if ScanForCheck(outcomes, king, 0).Err? {
      var j :| 0 <= j < 64 && Throws(outcomes, j) && outcomes[j].value.error == ScanForCheck(outcomes, king, 0).error;
      OutcomeErrors(b, opposing, j);
    }
  }

  /** `isInCheck` of a game, stated directly: when no opposing generator throws, it
      answers, and it answers true exactly when the team has a king and some opposing
      piece has a move ending on it. Whenever it throws, it is the array fault of some
      opposing generator. */
  lemma IsInCheckMeaning(g: Game, t: TeamColor)
    ensures var outcomes := Outcomes(g.gameBoard, Opponent(t));
            var king := FindKing(g.gameBoard, t, 0);
            && ((forall j | 0 <= j < 64 :: !Throws(outcomes, j)) ==>
                  && IsInCheck(g, t).Ok?
                  && (IsInCheck(g, t) == Ok(true) <==>
                        king.Some? && exists j | 0 <= j < 64 :: Attacks(outcomes, king.value, j)))
            && (IsInCheck(g, t).Err? ==>
                  IsInCheck(g, t).error == IndexOutOfBounds && exists j | 0 <= j < 64 :: Throws(outcomes, j))
  {
    var outcomes := Outcomes(g.gameBoard, Opponent(t));
    var king := FindKing(g.gameBoard, t, 0);
    var r := ScanForCheck(outcomes, king, 0);
    assert IsInCheck(g, t) == r;
    ScanForCheckMeaning(g.gameBoard, Opponent(t), king);
    if forall j | 0 <= j < 64 :: !Throws(outcomes, j) {
      assert r.Ok?;
      if !r.value {
        assert r == Ok(false);
      }
    }
  }

  /** A team without a king on the board is never in check. */
  lemma NoKingNoCheck(g: Game, t: TeamColor)
    requires forall p | OnBoard(p) :: GetPiece(g.gameBoard, p) != Some(Piece(t, King))
    ensures IsInCheck(g, t) != Ok(true)
  {
    ScanForCheckMeaning(g.gameBoard, Opponent(t), FindKing(g.gameBoard, t, 0));
  }

  /** Nothing is in check on an empty board. */
  lemma EmptyBoardNoCheck(g: Game, t: TeamColor)
    requires forall p | OnBoard(p) :: GetPiece(g.gameBoard, p) == None
    ensures IsInCheck(g, t) == Ok(false)
  {
    var b := g.gameBoard;
    var king := FindKing(b, t, 0);
    assert king.None?;
    var outcomes := Outcomes(b, Opponent(t));
    assert forall j | 0 <= j < 64 :: !Throws(outcomes, j);
    ScanForCheckMeaning(b, Opponent(t), king);
    var r := ScanForCheck(outcomes, king, 0);
    assert r.Ok?;
    assert r != Ok(true);
    assert !r.value;
  }

  /** One iteration of `validMoves`' loop: move the piece on a copy of the board, build a
      new game with that board and the current turn, and ask whether the mover is in
      check there. An off-board square throws, as the array would. */
  function Simulate(g: Game, m: Move, t: TeamColor): Result<bool, ChessError>
  {
    if !OnBoard(m.startPosition) || !OnBoard(m.endPosition) then Err(IndexOutOfBounds)
    else
      var simulationBoard := AddPiece(AddPiece(g.gameBoard, m.endPosition, GetPiece(g.gameBoard, m.startPosition)),
                                      m.startPosition, None);
      var simulationGame := SetTeamTurn(SetBoard(NewGame(), simulationBoard), g.whosTurn);
      IsInCheck(simulationGame, t)
  }

  /** A simulation throws only the array fault. */
  lemma SimulationErrors(g: Game, m: Move, t: TeamColor)
    ensures Simulate(g, m, t).Err? ==> Simulate(g, m, t).error == IndexOutOfBounds
  {
    if OnBoard(m.startPosition) && OnBoard(m.endPosition) {
      var simulationBoard := AddPiece(AddPiece(g.gameBoard, m.endPosition, GetPiece(g.gameBoard, m.startPosition)),
                                      m.startPosition, None);
      var simulationGame := SetTeamTurn(SetBoard(NewGame(), simulationBoard), g.whosTurn);
      ScanForCheckMeaning(simulationGame.gameBoard, Opponent(t), FindKing(simulationGame.gameBoard, t, 0));
    }
  }

  /** Because the simulated game keeps its empty board, no simulated move ever leaves the
      mover in check. */
  lemma SimulationNeverInCheck(g: Game, m: Move, t: TeamColor)
    requires OnBoard(m.startPosition) && OnBoard(m.endPosition)
    ensures Simulate(g, m, t) == Ok(false)
  {
    var simulationBoard := AddPiece(AddPiece(g.gameBoard, m.endPosition, GetPiece(g.gameBoard, m.startPosition)),
                                    m.startPosition, None);
    EmptyBoardNoCheck(SetTeamTurn(SetBoard(NewGame(), simulationBoard), g.whosTurn), t);
  }

  /** `validMoves`: no moves (null) for an empty square or a piece whose team is not to
      move; otherwise the piece's generated moves that survive the simulation. A throw in
      the generator or in a simulation propagates. */
  function ValidMoves(g: Game, startPosition: Position): Result<Option<set<Move>>, ChessError>
  {
    if !OnBoard(startPosition) then Err(IndexOutOfBounds)
    else
      var pieceToMove := GetPiece(g.gameBoard, startPosition);
      if pieceToMove.None? || Some(pieceToMove.value.teamColor) != g.whosTurn then Ok(None)
      else
        var t := pieceToMove.value.teamColor;
        match PieceMoves(g.gameBoard, pieceToMove.value, startPosition)
        case Err(e) => Err(e)
        case Ok(movesToCheck) =>
          if exists m | m in movesToCheck :: Simulate(g, m, t).Err? then Err(IndexOutOfBounds)
          else Ok(Some(set m | m in movesToCheck && Simulate(g, m, t) == Ok(false)))
  }

  /** `validMoves` answers null exactly for an empty square or a piece of the side not to
      move; so a fresh game, whose turn is unset, answers null everywhere. */
  lemma ValidMovesNull(g: Game, startPosition: Position)
    requires OnBoard(startPosition)
    ensures ValidMoves(g, startPosition) == Ok(None) <==>
              || GetPiece(g.gameBoard, startPosition).None?
              || Some(GetPiece(g.gameBoard, startPosition).value.teamColor) != g.whosTurn
    ensures g.whosTurn == None ==> ValidMoves(g, startPosition) == Ok(None)
  {
  }

  /** For a piece of the side to move, `validMoves` is exactly the generated moves: the
      filter removes nothing, and it throws only when the generator does. */
  lemma ValidMovesArePieceMoves(g: Game, startPosition: Position)
    requires OnBoard(startPosition) && GetPiece(g.gameBoard, startPosition).Some?
    requires Some(GetPiece(g.gameBoard, startPosition).value.teamColor) == g.whosTurn
    ensures var generated := PieceMoves(g.gameBoard, GetPiece(g.gameBoard, startPosition).value, startPosition);
            && (generated.Err? ==> ValidMoves(g, startPosition) == Err(generated.error))
            && (generated.Ok? ==> ValidMoves(g, startPosition) == Ok(Some(generated.value)))
  {
    var piece := GetPiece(g.gameBoard, startPosition).value;
    var generated := PieceMoves(g.gameBoard, piece, startPosition);
    if generated.Ok? {
      forall m | m in generated.value ensures Simulate(g, m, piece.teamColor) == Ok(false) {
        PieceMovesShape(g.gameBoard, piece, startPosition, m);
        SimulationNeverInCheck(g, m, piece.teamColor);
      }
      assert (set m | m in generated.value && Simulate(g, m, piece.teamColor) == Ok(false)) == generated.value;
    }
  }

  /** `validMoves` keeps only generated moves. */
  lemma ValidMovesSubset(g: Game, startPosition: Position)
    requires ValidMoves(g, startPosition).Ok? && ValidMoves(g, startPosition).value.Some?
    ensures OnBoard(startPosition) && GetPiece(g.gameBoard, startPosition).Some?
    ensures var generated := PieceMoves(g.gameBoard, GetPiece(g.gameBoard, startPosition).value, startPosition);
            generated.Ok? && ValidMoves(g, startPosition).value.value <= generated.value
  {
  }

  /** The moves of `moves` whose simulation leaves the mover out of check. */
  function Kept(g: Game, moves: set<Move>, t: TeamColor): set<Move>
  {
    set m | m in moves && Simulate(g, m, t) == Ok(false)
  }

  /** Filtering one more move adds it exactly when its simulation is out of check. */
  lemma KeptStep(g: Game, done: set<Move>, move: Move, t: TeamColor)
    ensures Kept(g, done + {move}, t)
            == Kept(g, done, t) + if Simulate(g, move, t) == Ok(false) then {move} else {}
  {
  }

  /** The body of `validMoves`' loop for one move: copy the live board, move the piece on
      the copy, and ask a new game holding the copy whether the mover is in check. */
  method SimulateMove(g: Game, move: Move, t: TeamColor) returns (inCheck: Result<bool, ChessError>)
    ensures inCheck == Simulate(g, move, t)
  {
    var simulationBoard := MakeSimulationBoard(g);
    if !OnBoard(move.startPosition) || !OnBoard(move.endPosition) {
      return Err(IndexOutOfBounds);
    }
    simulationBoard := AddPiece(simulationBoard, move.endPosition, GetPiece(simulationBoard, move.startPosition));
    simulationBoard := AddPiece(simulationBoard, move.startPosition, None);
    var simulationGame := SetTeamTurn(SetBoard(NewGame(), simulationBoard), g.whosTurn);
    inCheck := IsInCheck(simulationGame, t);
  }

  /** The state of the filter loop: `done` and `remaining` split the generated moves, no
      simulation so far has thrown, and `validMoves` holds the kept moves of `done`. */
  ghost predicate Filtering(g: Game, movesToCheck: set<Move>, t: TeamColor,
                            remaining: set<Move>, done: set<Move>, validMoves: set<Move>)
  {
    && remaining !! done && remaining + done == movesToCheck
    && (forall m | m in done :: Simulate(g, m, t).Ok?)
    && validMoves == Kept(g, done, t)
  }

  /** Simulating one more move without a throw keeps the loop state, the move joining the
      kept ones exactly when the mover is out of check. */
  lemma FilterStep(g: Game, movesToCheck: set<Move>, t: TeamColor, remaining: set<Move>,
                   done: set<Move>, validMoves: set<Move>, move: Move, inCheck: Result<bool, ChessError>)
    requires Filtering(g, movesToCheck, t, remaining, done, validMoves)
    requires move in remaining && inCheck == Simulate(g, move, t) && inCheck.Ok?
    ensures Filtering(g, movesToCheck, t, remaining - {move}, done + {move},
                      if inCheck == Ok(false) then validMoves + {move} else validMoves)
  {
    var rest := remaining - {move};
    var doneNow := done + {move};
    assert rest !! doneNow && rest + doneNow == movesToCheck;
    assert forall m | m in doneNow :: Simulate(g, m, t).Ok? by {
      forall m | m in doneNow ensures Simulate(g, m, t).Ok? {
        if m != move {
          assert m in done;
        }
      }
    }
    KeptStep(g, done, move, t);
  }

  /** With nothing remaining, every move was simulated without a throw and the kept moves
      are the filter's answer. */
  lemma FilterDone(g: Game, movesToCheck: set<Move>, t: TeamColor, done: set<Move>, validMoves: set<Move>)
    requires Filtering(g, movesToCheck, t, {}, done, validMoves)
    ensures !exists m | m in movesToCheck :: Simulate(g, m, t).Err?
    ensures validMoves == Kept(g, movesToCheck, t)
  {
    assert done == movesToCheck;
  }

  /** The `for` loop of `validMoves` over the generated moves: each move, in whatever
      order the set yields them, is simulated and kept when the mover is not in check; the
      first simulation that throws ends the call. */
  method KeepOutOfCheck(g: Game, movesToCheck: set<Move>, t: TeamColor) returns (r: Result<set<Move>, ChessError>)
    ensures r.Err? <==> exists m | m in movesToCheck :: Simulate(g, m, t).Err?
    ensures r.Err? ==> r.error == IndexOutOfBounds
    ensures r.Ok? ==> r.value == Kept(g, movesToCheck, t)
  {
    var remaining := movesToCheck;
    ghost var done: set<Move> := {};
    var validMoves: set<Move> := {};
    while remaining != {}
      invariant Filtering(g, movesToCheck, t, remaining, done, validMoves)
      decreases |remaining|
    {
      var move :| move in remaining;
      var inCheck := SimulateMove(g, move, t);
      if inCheck.Err? {
        SimulationErrors(g, move, t);
        assert move in movesToCheck && Simulate(g, move, t).Err?;
        return Err(inCheck.error);
      }
      FilterStep(g, movesToCheck, t, remaining, done, validMoves, move, inCheck);
      if inCheck == Ok(false) {
        validMoves := validMoves + {move};
      }
      remaining := remaining - {move};
      done := done + {move};
    }
    FilterDone(g, movesToCheck, t, done, validMoves);
    return Ok(validMoves);
  }

  /** `validMoves` as the source writes it: the null and error exits, then the loop over
      the generated moves. */
  method ValidMovesLoop(g: Game, startPosition: Position) returns (r: Result<Option<set<Move>>, ChessError>)
    ensures r == ValidMoves(g, startPosition)
  {
    if !OnBoard(startPosition) {
      return Err(IndexOutOfBounds);
    }
    var pieceToMove := GetPiece(g.gameBoard, startPosition);
    if pieceToMove.None? || Some(pieceToMove.value.teamColor) != g.whosTurn {
      return Ok(None);
    }
    var t := pieceToMove.value.teamColor;
    var generated := PieceMoves(g.gameBoard, pieceToMove.value, startPosition);
    if generated.Err? {
      return Err(generated.error);
    }
    var kept := KeepOutOfCheck(g, generated.value, t);
    if kept.Err? {
      return Err(kept.error);
    }
    return Ok(Some(kept.value));
  }

  /** The side that moves next. */
  function NextTurn(whosTurn: Option<TeamColor>): TeamColor
  {
    if whosTurn == Some(White) then Black else White
  }

  /** `makeMove`: reject a move from an empty square or of the side not to move, or one
      that `validMoves` does not list; otherwise put the moving piece on the destination,
      empty the origin and hand the turn over. */
  function MakeMove(g: Game, move: Move): Result<Game, ChessError>
  {
    var startPosition := move.startPosition;
    if !OnBoard(startPosition) then Err(IndexOutOfBounds)
    else
      var pieceToMove := GetPiece(g.gameBoard, startPosition);
      if pieceToMove.None? || Some(pieceToMove.value.teamColor) != g.whosTurn then
        Err(InvalidMove("That isn't your piece"))
      else
        match ValidMoves(g, startPosition)
        case Err(e) => Err(e)
        case Ok(validMoves) =>
          if validMoves.None? || move !in validMoves.value then Err(InvalidMove("This move is invalid"))
          else if !OnBoard(move.endPosition) then Err(IndexOutOfBounds)
          else
            var board := AddPiece(AddPiece(g.gameBoard, move.endPosition, pieceToMove), startPosition, None);
            Ok(Game(Some(NextTurn(g.whosTurn)), board))
  }

  /** `makeMove` succeeds exactly for a generated move of a piece of the side to move. On
      success the destination holds the moving piece itself, whatever promotion the move
      names, the origin is empty, every other square is unchanged, and the turn passes to
      the other team. */
  lemma MakeMoveEffect(g: Game, move: Move)
    requires OnBoard(move.startPosition)
    ensures var piece := GetPiece(g.gameBoard, move.startPosition);
            MakeMove(g, move).Ok? <==>
              && piece.Some? && Some(piece.value.teamColor) == g.whosTurn
              && PieceMoves(g.gameBoard, piece.value, move.startPosition).Ok?
              && move in PieceMoves(g.gameBoard, piece.value, move.startPosition).value
    ensures MakeMove(g, move).Ok? ==>
              var piece := GetPiece(g.gameBoard, move.startPosition);
              var after := MakeMove(g, move).value;
              && OnBoard(move.endPosition)
              && GetPiece(after.gameBoard, move.endPosition) == piece
              && GetPiece(after.gameBoard, move.startPosition) == None
              && (forall p | OnBoard(p) && p != move.startPosition && p != move.endPosition ::
                    GetPiece(after.gameBoard, p) == GetPiece(g.gameBoard, p))
              && after.whosTurn == Some(Opponent(piece.value.teamColor))
  {
    var piece := GetPiece(g.gameBoard, move.startPosition);
    if piece.Some? && Some(piece.value.teamColor) == g.whosTurn {
      ValidMovesArePieceMoves(g, move.startPosition);
      var generated := PieceMoves(g.gameBoard, piece.value, move.startPosition);
      if generated.Ok? && move in generated.value {
        PieceMovesShape(g.gameBoard, piece.value, move.startPosition, move);
      }
    }
  }

  /** `makeMove` rejects with "That isn't your piece" a move from an empty square or of
      the side not to move, and with "This move is invalid" a move of the side to move that
      its generator does not produce. */
  lemma MakeMoveErrors(g: Game, move: Move)
    requires OnBoard(move.startPosition)
    ensures var piece := GetPiece(g.gameBoard, move.startPosition);
            (piece.None? || Some(piece.value.teamColor) != g.whosTurn) ==>
              MakeMove(g, move) == Err(InvalidMove("That isn't your piece"))
    ensures var piece := GetPiece(g.gameBoard, move.startPosition);
            (&& piece.Some? && Some(piece.value.teamColor) == g.whosTurn
             && PieceMoves(g.gameBoard, piece.value, move.startPosition).Ok?
             && move !in PieceMoves(g.gameBoard, piece.value, move.startPosition).value) ==>
              MakeMove(g, move) == Err(InvalidMove("This move is invalid"))
  {
    var piece := GetPiece(g.gameBoard, move.startPosition);
    if piece.Some? && Some(piece.value.teamColor) == g.whosTurn {
      ValidMovesArePieceMoves(g, move.startPosition);
    }
  }

  /** The promotion named by a move is ignored: a White pawn on (7,1) moving to the empty
      (8,1) with a queen promotion leaves a pawn on (8,1). */
  lemma MakeMoveIgnoresPromotion()
    ensures var g := Game(Some(White), Board(map[Position(7, 1) := Piece(White, Pawn)]));
            var move := Move(Position(7, 1), Position(8, 1), Some(Queen));
            && MakeMove(g, move).Ok?
            && GetPiece(MakeMove(g, move).value.gameBoard, Position(8, 1)) == Some(Piece(White, Pawn))
  {
    var g := Game(Some(White), Board(map[Position(7, 1) := Piece(White, Pawn)]));
    var move := Move(Position(7, 1), Position(8, 1), Some(Queen));
    InlineCalculators.PawnPromotesForward(g.gameBoard, Position(7, 1));
    MakeMoveEffect(g, move);
  }
}
