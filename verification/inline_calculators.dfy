/** The `pieceCalculators` revision of the move generators: a bishop and a king written as
    inline loops over their own tables, and the pawn generator with its forward and
    diagonal helpers. The bishop and king are proved to compute the same sets as the
    `piececalculators` revision. The pawn reads its colour from the board, and its
    forward helper looks up the one-step square before testing that it is on the board,
    so it may only be called where that square is real. */
module InlineCalculators {
  import opened Wrappers
  import opened ChessTypes
  import opened ChessBoard
  import opened PieceMoveCalculator
  import BaseCalculators

  /** This revision's own copy of the bounds test. */
  predicate IsRealPosition(p: Position)
  {
    p.row <= 8 && p.row >= 1 && p.col <= 8 && p.col >= 1
  }

  /** Both revisions' bounds tests agree on every position, and both reject row or column
      0 and 9. */
  lemma IsRealPositionAgrees(p: Position)
    ensures IsRealPosition(p) == BaseCalculators.IsRealPosition(p)
    ensures p.row == 0 || p.row == 9 || p.col == 0 || p.col == 9 ==> !IsRealPosition(p)
  {
  }

  /** The walk of `BishopCalculator.getMoves` over a table of directions: an empty
      square is recorded and the walk goes on; an occupied square holding another colour
      is recorded and stops the walk; a same-colour square stops it unrecorded. */
  method WalkDirections(b: Board, o: Position, potentialMoves: seq<Offset>) returns (moves: set<Move>)
    requires OnBoard(o) && AllUnit(potentialMoves)
    ensures moves == SlideMoves(b, o, potentialMoves)
  {
    ghost var rays := Rays(b, o, potentialMoves);
    moves := {};
    for i := 0 to |potentialMoves|
      invariant moves == UnionAll(rays[..i])
    {
      var found := WalkOne(b, o, potentialMoves[i]);
      moves := moves + found;
      assert rays[..i + 1][..i] == rays[..i];
    }
    assert rays[..|potentialMoves|] == rays;
  }

  /** The inner `while` of `BishopCalculator.getMoves`, for one direction. */
  method WalkOne(b: Board, o: Position, jump: Offset) returns (found: set<Move>)
    requires OnBoard(o) && IsUnit(jump)
    ensures found == Ray(b, o, jump, 1)
  {
    found := {};
    var step := 1;
    ghost var rest := Ray(b, o, jump, 1);
    while true
      invariant 1 <= step <= 8
      invariant rest == Ray(b, o, jump, step)
      invariant Ray(b, o, jump, 1) == found + rest
      decreases 8 - step
    {
      var added, stop := WalkLook(b, o, jump, step);
      found := found + added;
      if stop {
        break;
      }
      step := step + 1;
      rest := Ray(b, o, jump, step);
    }
  }

  /** One pass of the body of `WalkOne`'s loop: an off-board square stops the walk, an
      empty one is recorded and the walk goes on, an occupied one of the other colour is
      recorded and stops the walk, and anything else stops it. */
  method WalkLook(b: Board, o: Position, jump: Offset, step: int) returns (added: set<Move>, stop: bool)
    requires OnBoard(o) && IsUnit(jump) && 1 <= step <= 8
    ensures !stop ==> step <= 7 && Ray(b, o, jump, step) == added + Ray(b, o, jump, step + 1)
    ensures stop ==> Ray(b, o, jump, step) == added
  {
    var testPosition := Along(o, jump, step);
    RayStep(b, o, jump, step);
    if !IsRealPosition(testPosition) {
      return {}, true;
    }
    if GetPiece(b, testPosition) == None {
      added, stop := {Move(o, testPosition, None)}, false;
    } else if GetPiece(b, testPosition) != None
              && ColorOnSquare(b, testPosition) != ColorOnSquare(b, o) {
      added, stop := {Move(o, testPosition, None)}, true;
    } else {
      added, stop := {}, true;
    }
  }


  /** `BishopCalculator.getMoves`: the walk over the four diagonals, in the same order as
      the other revision's table. */
  method BishopGetMoves(b: Board, o: Position) returns (moves: set<Move>)
    requires OnBoard(o)
    ensures moves == BaseCalculators.BishopMoves(b, o)
  {
    var potentialMoves := [Offset(1, 1), Offset(-1, -1), Offset(1, -1), Offset(-1, 1)];
    assert potentialMoves == BaseCalculators.BishopDirections;
    moves := WalkDirections(b, o, potentialMoves);
  }

  /** `KingCalculator.getMoves`: the eight neighbours tried inline, in the same order as
      the other revision's table. */
  method KingGetMoves(b: Board, o: Position) returns (moves: set<Move>)
    requires OnBoard(o)
    ensures moves == BaseCalculators.KingMoves(b, o)
  {
    var potentialMoves :=
      [Offset(1, 0), Offset(1, 1), Offset(0, 1), Offset(-1, 0),
       Offset(-1, -1), Offset(0, -1), Offset(-1, 1), Offset(1, -1)];
    assert potentialMoves == BaseCalculators.KingOffsets;
    ghost var jumps := Jumps(b, o, potentialMoves);
    moves := {};
    for i := 0 to |potentialMoves|
      invariant moves == UnionAll(jumps[..i])
    {
      var found := TryNeighbour(b, o, potentialMoves[i]);
      moves := moves + found;
      assert jumps[..i + 1][..i] == jumps[..i];
    }
    assert jumps[..|potentialMoves|] == jumps;
  }

  /** One pass of the king's loop: the neighbour is recorded when it is a real position
      that is empty or holds a colour other than the origin's. */
  method TryNeighbour(b: Board, o: Position, jump: Offset) returns (found: set<Move>)
    requires OnBoard(o)
    ensures found == JumpOne(b, o, jump)
  {
    found := {};
    var testPosition := Position(o.row + jump.dRow, o.col + jump.dCol);
    if IsRealPosition(testPosition) {
      if GetPiece(b, testPosition) == None {
        found := {Move(o, testPosition, None)};
      } else if ColorOnSquare(b, testPosition) != ColorOnSquare(b, o) {
        found := {Move(o, testPosition, None)};
      }
    }
  }

  /** Pawns of the team on the square move up the board for White and down for anyone
      else, including an empty origin. */
  function PawnStepDirection(c: Option<TeamColor>): (r: int)
    ensures r == 1 || r == -1
    ensures r == 1 <==> c == Some(White)
  {
    if c == Some(White) then 1 else -1
  }

  /** Rows 1 and 8, where a pawn arrives to promote. */
  predicate IsPromotionRow(p: Position)
  {
    p.row == 1 || p.row == 8
  }

  /** A White pawn on row 2 or a Black pawn on row 7 has not moved yet. */
  predicate IsStartingTurn(o: Position, c: Option<TeamColor>)
  {
    (o.row == 2 && c == Some(White)) || (o.row == 7 && c == Some(Black))
  }

  /** The kinds a pawn may promote to. */
  const PromotionKinds: set<PieceType> := {Bishop, Knight, Queen, Rook}

  /** `m` is one of the four promotions from `o` to `t`. */
  predicate IsPromotionTo(o: Position, t: Position, m: Move)
  {
    && m.startPosition == o && m.endPosition == t
    && m.promotion.Some? && m.promotion.value in PromotionKinds
  }

  /** `addAllPromotions`: the four promotion choices to one target. */
  function AddAllPromotions(o: Position, t: Position): (r: set<Move>)
    ensures |r| == 4
  {
    var r := {Move(o, t, Some(Bishop)), Move(o, t, Some(Knight)),
              Move(o, t, Some(Queen)), Move(o, t, Some(Rook))};
    assert |r| == 4 by {
      assert r == {Move(o, t, Some(Bishop))} + {Move(o, t, Some(Knight))}
                 + {Move(o, t, Some(Queen))} + {Move(o, t, Some(Rook))};
    }
    r
  }

  /** The four choices are exactly the promotions from `o` to `t`. */
  lemma PromotionMembers(o: Position, t: Position, m: Move)
    ensures m in AddAllPromotions(o, t) <==> IsPromotionTo(o, t, m)
  {
  }

  /** The square one step ahead of the pawn on `o`. */
  function OneStep(b: Board, o: Position): Position
    requires OnBoard(o)
  {
    Position(o.row + PawnStepDirection(ColorOnSquare(b, o)), o.col)
  }

  /** The square two steps ahead of the pawn on `o`. */
  function TwoStep(b: Board, o: Position): Position
    requires OnBoard(o)
  {
    var dir := PawnStepDirection(ColorOnSquare(b, o));
    Position(o.row + dir + dir, o.col)
  }

  /** The diagonal square ahead of the pawn on `o`, `side` columns across. */
  function Diagonal(b: Board, o: Position, side: int): Position
    requires OnBoard(o)
  {
    Position(o.row + PawnStepDirection(ColorOnSquare(b, o)), o.col + side)
  }

  /** The pawn may be asked for its moves only where the one-step square is real: the
      forward helper looks it up before testing it. */
  predicate PawnCallable(b: Board, o: Position)
  {
    OnBoard(o) && OnBoard(OneStep(b, o))
  }

  /** `getForwardMoves`. */
  function GetForwardMoves(b: Board, o: Position, dir: int, c: Option<TeamColor>): set<Move>
    requires OnBoard(o) && c == ColorOnSquare(b, o) && dir == PawnStepDirection(c)
    requires OnBoard(Position(o.row + dir, o.col))
  {
    var one := Position(o.row + dir, o.col);
    var two := Position(o.row + dir + dir, o.col);
    if IsStartingTurn(o, c) then
      if GetPiece(b, one) == None && IsRealPosition(one) then
        {Move(o, one, None)}
        + if GetPiece(b, two) == None && IsRealPosition(two) then {Move(o, two, None)} else {}
      else {}
    else if IsPromotionRow(one) then AddAllPromotions(o, one)
    else if GetPiece(b, one) == None && IsRealPosition(one) then {Move(o, one, None)}
    else {}
  }

  /** From the starting rank: one step onto an empty square, and two onto an empty square
      past an empty one. Elsewhere: the four promotions onto row 1 or 8, whatever stands
      there, or one step onto an empty square. */
  lemma ForwardMembers(b: Board, o: Position, m: Move)
    requires PawnCallable(b, o)
    ensures var c := ColorOnSquare(b, o);
            var one := OneStep(b, o);
            var two := TwoStep(b, o);
            m in GetForwardMoves(b, o, PawnStepDirection(c), c) <==>
              if IsStartingTurn(o, c) then
                || (m == Move(o, one, None) && GetPiece(b, one) == None)
                || (m == Move(o, two, None) && GetPiece(b, one) == None && GetPiece(b, two) == None)
              else if IsPromotionRow(one) then IsPromotionTo(o, one, m)
              else m == Move(o, one, None) && GetPiece(b, one) == None
  {
    PromotionMembers(o, OneStep(b, o), m);
  }

  /** One diagonal of `getAttackMoves`. */
  function AttackOne(b: Board, o: Position, t: Position, c: Option<TeamColor>): set<Move>
  {
    if IsRealPosition(t) then
      if ColorOnSquare(b, t) != c && GetPiece(b, t) != None then
        if IsPromotionRow(t) then AddAllPromotions(o, t) else {Move(o, t, None)}
      else {}
    else {}
  }

  /** A diagonal is entered when it is real and holds a piece whose colour is not the
      pawn's: with the four promotions on row 1 or 8, as a plain capture elsewhere. */
  lemma AttackMembers(b: Board, o: Position, t: Position, c: Option<TeamColor>, m: Move)
    ensures m in AttackOne(b, o, t, c) <==>
              && OnBoard(t) && GetPiece(b, t) != None && ColorOnSquare(b, t) != c
              && if IsPromotionRow(t) then IsPromotionTo(o, t, m) else m == Move(o, t, None)
  {
    PromotionMembers(o, t, m);
  }

  /** `getAttackMoves`: the left diagonal, then the right. */
  function GetAttackMoves(b: Board, o: Position, dir: int, c: Option<TeamColor>): set<Move>
  {
    AttackOne(b, o, Position(o.row + dir, o.col - 1), c)
    + AttackOne(b, o, Position(o.row + dir, o.col + 1), c)
  }

  /** `PawnCalculator.getMoves`: the forward moves and the diagonal captures of the pawn
      whose colour is read from its square. */
  function PawnMoves(b: Board, o: Position): set<Move>
    requires PawnCallable(b, o)
  {
    var c := ColorOnSquare(b, o);
    var dir := PawnStepDirection(c);
    GetForwardMoves(b, o, dir, c) + GetAttackMoves(b, o, dir, c)
  }

  /** A pawn move is a forward move or a capture on one of the two diagonals. */
  lemma PawnMembers(b: Board, o: Position, m: Move)
    requires PawnCallable(b, o)
    ensures m in PawnMoves(b, o) <==>
              || m in GetForwardMoves(b, o, PawnStepDirection(ColorOnSquare(b, o)), ColorOnSquare(b, o))
              || m in AttackOne(b, o, Diagonal(b, o, -1), ColorOnSquare(b, o))
              || m in AttackOne(b, o, Diagonal(b, o, 1), ColorOnSquare(b, o))
  {
  }

  /** Every pawn move starts on `o`, ends on a real square one row ahead (two from the
      starting rank) and at most one column across, and carries a promotion, to one of
      the four kinds, exactly when it ends on row 1 or 8. */
  lemma PawnMovesShape(b: Board, o: Position, m: Move)
    requires PawnCallable(b, o) && m in PawnMoves(b, o)
    ensures m.startPosition == o && OnBoard(m.endPosition)
    ensures -1 <= m.endPosition.col - o.col <= 1
    ensures m.endPosition.row == OneStep(b, o).row
            || (m.endPosition == TwoStep(b, o) && IsStartingTurn(o, ColorOnSquare(b, o)))
    ensures m.promotion.Some? <==> IsPromotionRow(m.endPosition)
    ensures m.promotion.Some? ==> m.promotion.value in PromotionKinds
  {
    var c := ColorOnSquare(b, o);
    var dir := PawnStepDirection(c);
    PawnMembers(b, o, m);
    ForwardMembers(b, o, m);
    AttackMembers(b, o, Diagonal(b, o, -1), c, m);
    AttackMembers(b, o, Diagonal(b, o, 1), c, m);
  }

  /** On the starting rank the pawn steps once exactly when the square ahead is empty,
      and twice exactly when both squares ahead are empty; it never promotes there. */
  lemma PawnStartingRank(b: Board, o: Position)
    requires PawnCallable(b, o) && IsStartingTurn(o, ColorOnSquare(b, o))
    ensures OnBoard(TwoStep(b, o))
    ensures Move(o, OneStep(b, o), None) in PawnMoves(b, o) <==> GetPiece(b, OneStep(b, o)) == None
    ensures Move(o, TwoStep(b, o), None) in PawnMoves(b, o) <==>
              GetPiece(b, OneStep(b, o)) == None && GetPiece(b, TwoStep(b, o)) == None
    ensures forall m | m in PawnMoves(b, o) :: m.promotion == None
  {
    var c := ColorOnSquare(b, o);
    var dir := PawnStepDirection(c);
    var left := Diagonal(b, o, -1);
    var right := Diagonal(b, o, 1);
    PawnMembers(b, o, Move(o, OneStep(b, o), None));
    ForwardMembers(b, o, Move(o, OneStep(b, o), None));
    AttackMembers(b, o, left, c, Move(o, OneStep(b, o), None));
    AttackMembers(b, o, right, c, Move(o, OneStep(b, o), None));
    PawnMembers(b, o, Move(o, TwoStep(b, o), None));
    ForwardMembers(b, o, Move(o, TwoStep(b, o), None));
    AttackMembers(b, o, left, c, Move(o, TwoStep(b, o), None));
    AttackMembers(b, o, right, c, Move(o, TwoStep(b, o), None));
    forall m | m in PawnMoves(b, o) ensures m.promotion == None {
      PawnMovesShape(b, o, m);
    }
  }

  /** Off the starting rank, a step onto row 1 or 8 yields all four promotions whether
      or not the square ahead is empty. */
  lemma PawnPromotesForward(b: Board, o: Position)
    requires PawnCallable(b, o) && !IsStartingTurn(o, ColorOnSquare(b, o))
    requires IsPromotionRow(OneStep(b, o))
    ensures forall k | k in PromotionKinds :: Move(o, OneStep(b, o), Some(k)) in PawnMoves(b, o)
    ensures Move(o, OneStep(b, o), None) !in PawnMoves(b, o)
  {
    var c := ColorOnSquare(b, o);
    var dir := PawnStepDirection(c);
    var left := Diagonal(b, o, -1);
    var right := Diagonal(b, o, 1);
    PawnMembers(b, o, Move(o, OneStep(b, o), None));
    ForwardMembers(b, o, Move(o, OneStep(b, o), None));
    AttackMembers(b, o, left, c, Move(o, OneStep(b, o), None));
    AttackMembers(b, o, right, c, Move(o, OneStep(b, o), None));
    forall k | k in PromotionKinds ensures Move(o, OneStep(b, o), Some(k)) in PawnMoves(b, o) {
      PawnMembers(b, o, Move(o, OneStep(b, o), Some(k)));
      ForwardMembers(b, o, Move(o, OneStep(b, o), Some(k)));
    }
  }

  /** Off the starting rank and away from rows 1 and 8, the pawn steps forward exactly
      when the square ahead is empty. */
  lemma PawnQuietStep(b: Board, o: Position)
    requires PawnCallable(b, o) && !IsStartingTurn(o, ColorOnSquare(b, o))
    requires !IsPromotionRow(OneStep(b, o))
    ensures Move(o, OneStep(b, o), None) in PawnMoves(b, o) <==> GetPiece(b, OneStep(b, o)) == None
  {
    var c := ColorOnSquare(b, o);
    var dir := PawnStepDirection(c);
    var left := Diagonal(b, o, -1);
    var right := Diagonal(b, o, 1);
    PawnMembers(b, o, Move(o, OneStep(b, o), None));
    ForwardMembers(b, o, Move(o, OneStep(b, o), None));
    AttackMembers(b, o, left, c, Move(o, OneStep(b, o), None));
    AttackMembers(b, o, right, c, Move(o, OneStep(b, o), None));
  }

  /** A diagonal square is entered exactly when it is real and holds a piece whose colour
      is not the pawn's; on row 1 or 8 it is entered with each of the four promotions. */
  lemma PawnCaptures(b: Board, o: Position, side: int, k: PieceType)
    requires PawnCallable(b, o) && (side == -1 || side == 1)
    ensures var t := Diagonal(b, o, side);
            var enters := OnBoard(t) && GetPiece(b, t) != None
                          && ColorOnSquare(b, t) != ColorOnSquare(b, o);
            && (Move(o, t, None) in PawnMoves(b, o) <==> enters && !IsPromotionRow(t))
            && (k in PromotionKinds ==>
                  (Move(o, t, Some(k)) in PawnMoves(b, o) <==> enters && IsPromotionRow(t)))
  {
    var c := ColorOnSquare(b, o);
    var dir := PawnStepDirection(c);
    var t := Diagonal(b, o, side);
    var left := Diagonal(b, o, -1);
    var right := Diagonal(b, o, 1);
    PawnMembers(b, o, Move(o, t, None));
    PawnMembers(b, o, Move(o, t, Some(k)));
    ForwardMembers(b, o, Move(o, t, None));
    ForwardMembers(b, o, Move(o, t, Some(k)));
    AttackMembers(b, o, left, c, Move(o, t, None));
    AttackMembers(b, o, left, c, Move(o, t, Some(k)));
    AttackMembers(b, o, right, c, Move(o, t, None));
    AttackMembers(b, o, right, c, Move(o, t, Some(k)));
  }

  /** The forward promotion does not look at the square ahead: a White pawn on (7,1)
      facing its own rook on (8,1) is offered the four promotions onto the rook. */
  lemma PawnPromotesOntoOwnPiece()
    ensures var b := Board(map[Position(7, 1) := Piece(White, Pawn),
                               Position(8, 1) := Piece(White, Rook)]);
            && PawnCallable(b, Position(7, 1))
            && Move(Position(7, 1), Position(8, 1), Some(Queen)) in PawnMoves(b, Position(7, 1))
  {
    var b := Board(map[Position(7, 1) := Piece(White, Pawn),
                       Position(8, 1) := Piece(White, Rook)]);
    PawnPromotesForward(b, Position(7, 1));
  }
}
