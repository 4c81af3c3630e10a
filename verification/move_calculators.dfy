/** The `MoveCalculators` revision of the move generators: rook and bishop walks, king
    and knight single-offset loops, each over its own table, and a pawn generator that
    repeats its target checks once per entry of a promotion list. The sliders, king and
    knight are proved to compute the same sets as the `piececalculators` revision; the
    pawn is related to the `pieceCalculators` pawn, which it matches except where that
    one promotes onto an occupied square. The revision's bounds helper `isBoarded` is not
    part of this model; it is taken to be the 1..8 test. */
module MoveCalculators {
  import opened Wrappers
  import opened ChessTypes
  import opened ChessBoard
  import opened PieceMoveCalculator
  import BaseCalculators
  import InlineCalculators

  /** The walk of `RookMoveCalculator.getMoves` and `BishopMoveCalculator.getMoves`:
      an empty square is recorded, an occupied one is recorded when its team differs from
      the mover's and ends the walk, and the step grows after each empty square. */
  method WalkDirections(b: Board, o: Position, moveDirections: seq<Offset>) returns (moves: set<Move>)
    requires OnBoard(o) && AllUnit(moveDirections)
    ensures moves == SlideMoves(b, o, moveDirections)
  {
    var team := ColorOnSquare(b, o);
    ghost var rays := Rays(b, o, moveDirections);
    moves := {};
    for i := 0 to |moveDirections|
      invariant moves == UnionAll(rays[..i])
    {
      var found := WalkDirection(b, o, moveDirections[i], team);
      moves := moves + found;
      assert rays[..i + 1][..i] == rays[..i];
    }
    assert rays[..|moveDirections|] == rays;
  }

  /** The inner `while` of the rook and bishop walks, for one direction, given the
      mover's team read once before the loops. */
  method WalkDirection(b: Board, o: Position, direction: Offset, team: Option<TeamColor>)
    returns (found: set<Move>)
    requires OnBoard(o) && IsUnit(direction) && team == ColorOnSquare(b, o)
    ensures found == Ray(b, o, direction, 1)
  {
    found := {};
    var step := 1;
    ghost var rest := Ray(b, o, direction, 1);
    while true
      invariant 1 <= step <= 8
      invariant rest == Ray(b, o, direction, step)
      invariant Ray(b, o, direction, 1) == found + rest
      decreases 8 - step
    {
      var added, stop := WalkLook(b, o, direction, step, team);
      found := found + added;
      if stop {
        break;
      }
      step := step + 1;
      rest := Ray(b, o, direction, step);
    }
  }

  /** One pass of the body of `WalkDirection`'s loop, up to the step increment: an
      off-board square stops the walk, an empty one is recorded, and an occupied one is
      recorded when its team differs from the mover's and stops the walk. */
  method WalkLook(b: Board, o: Position, direction: Offset, step: int, team: Option<TeamColor>)
    returns (added: set<Move>, stop: bool)
    requires OnBoard(o) && IsUnit(direction) && 1 <= step <= 8 && team == ColorOnSquare(b, o)
    ensures !stop ==> step <= 7 && Ray(b, o, direction, step) == added + Ray(b, o, direction, step + 1)
    ensures stop ==> Ray(b, o, direction, step) == added
  {
    var nextPosition := Along(o, direction, step);
    RayStep(b, o, direction, step);
    if !OnBoard(nextPosition) {
      return {}, true;
    }
    if GetPiece(b, nextPosition) == None {
      added, stop := {Move(o, nextPosition, None)}, false;
    } else {
      added := {};
      if ColorOnSquare(b, nextPosition) != team {
        added := {Move(o, nextPosition, None)};
      }
      stop := true;
    }
  }


  /** The loop of `KingMoveCalculator.getMoves` and `KnightMoveCalculator.getMoves`:
      off-board targets are skipped, and a target is recorded when it is empty or held by
      a team other than the mover's. */
  method StepOffsets(b: Board, o: Position, moveOffsets: seq<Offset>) returns (moves: set<Move>)
    requires OnBoard(o)
    ensures moves == JumpMoves(b, o, moveOffsets)
  {
    var team := ColorOnSquare(b, o);
    ghost var jumps := Jumps(b, o, moveOffsets);
    moves := {};
    for i := 0 to |moveOffsets|
      invariant moves == UnionAll(jumps[..i])
    {
      var found := TryOffset(b, o, moveOffsets[i], team);
      moves := moves + found;
      assert jumps[..i + 1][..i] == jumps[..i];
    }
    assert jumps[..|moveOffsets|] == jumps;
  }

  /** One pass of the king and knight loop, for one offset. */
  method TryOffset(b: Board, o: Position, offset: Offset, team: Option<TeamColor>)
    returns (found: set<Move>)
    requires OnBoard(o) && team == ColorOnSquare(b, o)
    ensures found == JumpOne(b, o, offset)
  {
    found := {};
    var nextPosition := Position(o.row + offset.dRow, o.col + offset.dCol);
    if OnBoard(nextPosition) {
      if GetPiece(b, nextPosition) == None || ColorOnSquare(b, nextPosition) != team {
        found := {Move(o, nextPosition, None)};
      }
    }
  }

  /** `RookMoveCalculator.getMoves`: the four orthogonals, in another order than the other
      revision's table, giving the same moves. */
  method RookGetMoves(b: Board, o: Position) returns (moves: set<Move>)
    requires OnBoard(o)
    ensures moves == BaseCalculators.RookMoves(b, o)
  {
    var moveDirections := [Offset(-1, 0), Offset(1, 0), Offset(0, -1), Offset(0, 1)];
    moves := WalkDirections(b, o, moveDirections);
    SlideSameDirections(b, o, moveDirections, BaseCalculators.RookDirections);
  }

  /** `BishopMoveCalculator.getMoves`: the four diagonals, in another order. */
  method BishopGetMoves(b: Board, o: Position) returns (moves: set<Move>)
    requires OnBoard(o)
    ensures moves == BaseCalculators.BishopMoves(b, o)
  {
    var moveDirections := [Offset(-1, 1), Offset(1, 1), Offset(1, -1), Offset(-1, -1)];
    moves := WalkDirections(b, o, moveDirections);
    SlideSameDirections(b, o, moveDirections, BaseCalculators.BishopDirections);
  }

  /** `KingMoveCalculator.getMoves`: the eight neighbours, in another order. */
  method KingGetMoves(b: Board, o: Position) returns (moves: set<Move>)
    requires OnBoard(o)
    ensures moves == BaseCalculators.KingMoves(b, o)
  {
    var moveOffsets :=
      [Offset(-1, -1), Offset(-1, 0), Offset(-1, 1), Offset(0, -1),
       Offset(0, 1), Offset(1, -1), Offset(1, 0), Offset(1, 1)];
    moves := StepOffsets(b, o, moveOffsets);
    JumpSameOffsets(b, o, moveOffsets, BaseCalculators.KingOffsets);
  }

  /** `KnightMoveCalculator.getMoves`: the eight L-shaped jumps, in another order. */
  method KnightGetMoves(b: Board, o: Position) returns (moves: set<Move>)
    requires OnBoard(o)
    ensures moves == BaseCalculators.KnightMoves(b, o)
  {
    var moveOffsets :=
      [Offset(-2, -1), Offset(-2, 1), Offset(2, -1), Offset(2, 1),
       Offset(-1, -2), Offset(1, -2), Offset(-1, 2), Offset(1, 2)];
    moves := StepOffsets(b, o, moveOffsets);
    JumpSameOffsets(b, o, moveOffsets, BaseCalculators.KnightOffsets);
  }

  /** The promotion list: the four promotion kinds for a White pawn on row 7 or a Black
      pawn on row 2, about to reach the far rank, and otherwise the single "no promotion". */
  function PromotionPieces(team: Option<TeamColor>, row: int): (r: seq<Option<PieceType>>)
    ensures |r| == 1 || |r| == 4
  {
    if (team == Some(White) && row == 7) || (team == Some(Black) && row == 2) then
      [Some(Rook), Some(Knight), Some(Bishop), Some(Queen)]
    else [None]
  }

  /** The list promotes, to exactly the four kinds, precisely for a White pawn on row 7 or a
      Black pawn on row 2; otherwise it holds only "no promotion". */
  lemma PromotionPiecesChoice(team: Option<TeamColor>, row: int, k: PieceType)
    ensures var promote := (team == Some(White) && row == 7) || (team == Some(Black) && row == 2);
            && (None in PromotionPieces(team, row) <==> !promote)
            && (Some(k) in PromotionPieces(team, row) <==> promote && k in InlineCalculators.PromotionKinds)
  {
  }

  /** The square ahead, when it is real and empty. */
  function ForwardTarget(b: Board, o: Position): set<Position>
    requires OnBoard(o)
  {
    var forwardPosition := Position(o.row + InlineCalculators.PawnStepDirection(ColorOnSquare(b, o)), o.col);
    if OnBoard(forwardPosition) && GetPiece(b, forwardPosition) == None then {forwardPosition} else {}
  }

  /** The diagonal ahead `side` columns across, when it is real and holds a piece of
      another team. */
  function AttackTarget(b: Board, o: Position, side: int): set<Position>
    requires OnBoard(o)
  {
    var team := ColorOnSquare(b, o);
    var attack := Position(o.row + InlineCalculators.PawnStepDirection(team), o.col + side);
    if OnBoard(attack) && GetPiece(b, attack) != None && ColorOnSquare(b, attack) != team
    then {attack} else {}
  }

  /** The square two ahead, for a pawn on its starting rank with both squares ahead real
      and empty. */
  function DoubleTarget(b: Board, o: Position): set<Position>
    requires OnBoard(o)
  {
    var team := ColorOnSquare(b, o);
    var moveIncrement := InlineCalculators.PawnStepDirection(team);
    var forwardPosition := Position(o.row + moveIncrement, o.col);
    var doubleForwardPosition := Position(o.row + moveIncrement * 2, o.col);
    if && OnBoard(doubleForwardPosition)
       && ((team == Some(White) && o.row == 2) || (team == Some(Black) && o.row == 7))
       && GetPiece(b, doubleForwardPosition) == None
       && GetPiece(b, forwardPosition) == None
    then {doubleForwardPosition} else {}
  }

  /** The squares the pawn on `o` may enter. */
  function PawnTargets(b: Board, o: Position): set<Position>
    requires OnBoard(o)
  {
    ForwardTarget(b, o) + AttackTarget(b, o, -1) + AttackTarget(b, o, 1) + DoubleTarget(b, o)
  }

  /** One pass of the promotion loop: a move to each target, carrying `piece`. */
  function Tagged(o: Position, targets: set<Position>, piece: Option<PieceType>): set<Move>
  {
    set t | t in targets :: Move(o, t, piece)
  }

  /** Tagging distributes over a union of targets. */
  lemma TaggedUnion(o: Position, targets: set<Position>, more: set<Position>, piece: Option<PieceType>)
    ensures Tagged(o, targets + more, piece) == Tagged(o, targets, piece) + Tagged(o, more, piece)
  {
  }

  /** Tagging no target or one target. */
  lemma TaggedSmall(o: Position, t: Position, piece: Option<PieceType>)
    ensures Tagged(o, {}, piece) == {}
    ensures Tagged(o, {t}, piece) == {Move(o, t, piece)}
  {
    assert Move(o, t, piece) in Tagged(o, {t}, piece);
  }

  /** All passes of the promotion loop, one per list entry. */
  function FanOut(o: Position, targets: set<Position>, pieces: seq<Option<PieceType>>): set<Move>
    decreases |pieces|
  {
    if |pieces| == 0 then {}
    else FanOut(o, targets, pieces[..|pieces| - 1]) + Tagged(o, targets, pieces[|pieces| - 1])
  }

  /** The loop emits every target once with every entry of the promotion list and nothing
      else. */
  lemma {:induction false} FanOutMembers(o: Position, targets: set<Position>,
                                        pieces: seq<Option<PieceType>>, m: Move)
    ensures m in FanOut(o, targets, pieces) <==>
              m.startPosition == o && m.endPosition in targets && m.promotion in pieces
    decreases |pieces|
  {
    if |pieces| > 0 {
      var n := |pieces| - 1;
      FanOutMembers(o, targets, pieces[..n], m);
      if m.promotion in pieces && m.promotion !in pieces[..n] {
        assert m.promotion == pieces[n];
      }
      if m.promotion in pieces[..n] {
        var i :| 0 <= i < n && pieces[..n][i] == m.promotion;
        assert pieces[i] == m.promotion;
      }
    }
  }

  /** `PawnMoveCalculator.getMoves` as a set: every target, once per promotion-list entry. */
  function PawnMoves(b: Board, o: Position): set<Move>
    requires OnBoard(o)
  {
    FanOut(o, PawnTargets(b, o), PromotionPieces(ColorOnSquare(b, o), o.row))
  }

  /** One pass of the `PawnMoveCalculator.getMoves` loop body for one promotion-list
      entry: test the square ahead, the two diagonals and the double step, in that order,
      and record each that passes with that entry as its promotion. */
  method PawnPass(b: Board, o: Position, piece: Option<PieceType>) returns (moves: set<Move>)
    requires OnBoard(o)
    ensures moves == Tagged(o, PawnTargets(b, o), piece)
  {
    var team := ColorOnSquare(b, o);
    var moveIncrement := if team == Some(White) then 1 else -1;
    var forward := TryForward(b, o, team, moveIncrement, piece);
    var left := TryAttack(b, o, team, moveIncrement, -1, piece);
    var right := TryAttack(b, o, team, moveIncrement, 1, piece);
    var double := TryDouble(b, o, team, moveIncrement, piece);
    moves := forward + left + right + double;
    ghost var f := ForwardTarget(b, o);
    ghost var l := AttackTarget(b, o, -1);
    ghost var r := AttackTarget(b, o, 1);
    TaggedUnion(o, f, l, piece);
    TaggedUnion(o, f + l, r, piece);
    TaggedUnion(o, f + l + r, DoubleTarget(b, o), piece);
  }

  /** The pass's first test: the square ahead, when real and empty. */
  method TryForward(b: Board, o: Position, team: Option<TeamColor>, moveIncrement: int,
                    piece: Option<PieceType>) returns (found: set<Move>)
    requires OnBoard(o) && team == ColorOnSquare(b, o)
    requires moveIncrement == InlineCalculators.PawnStepDirection(team)
    ensures found == Tagged(o, ForwardTarget(b, o), piece)
  {
    found := {};
    var forwardPosition := Position(o.row + moveIncrement, o.col);
    if OnBoard(forwardPosition) && GetPiece(b, forwardPosition) == None {
      found := {Move(o, forwardPosition, piece)};
    }
    TaggedSmall(o, forwardPosition, piece);
  }

  /** The pass's diagonal tests: the square ahead `side` columns across, when real and
      held by another team. */
  method TryAttack(b: Board, o: Position, team: Option<TeamColor>, moveIncrement: int, side: int,
                   piece: Option<PieceType>) returns (found: set<Move>)
    requires OnBoard(o) && team == ColorOnSquare(b, o)
    requires moveIncrement == InlineCalculators.PawnStepDirection(team)
    ensures found == Tagged(o, AttackTarget(b, o, side), piece)
  {
    found := {};
    var attack := Position(o.row + moveIncrement, o.col + side);
    if OnBoard(attack) && GetPiece(b, attack) != None && ColorOnSquare(b, attack) != team {
      found := {Move(o, attack, piece)};
    }
    TaggedSmall(o, attack, piece);
  }

  /** The pass's last test: two squares ahead from the starting rank, both empty. */
  method TryDouble(b: Board, o: Position, team: Option<TeamColor>, moveIncrement: int,
                   piece: Option<PieceType>) returns (found: set<Move>)
    requires OnBoard(o) && team == ColorOnSquare(b, o)
    requires moveIncrement == InlineCalculators.PawnStepDirection(team)
    ensures found == Tagged(o, DoubleTarget(b, o), piece)
  {
    found := {};
    var forwardPosition := Position(o.row + moveIncrement, o.col);
    var doubleForwardPosition := Position(o.row + moveIncrement * 2, o.col);
    if && OnBoard(doubleForwardPosition)
       && ((team == Some(White) && o.row == 2) || (team == Some(Black) && o.row == 7))
       && GetPiece(b, doubleForwardPosition) == None
       && GetPiece(b, forwardPosition) == None
    {
      found := {Move(o, doubleForwardPosition, piece)};
    }
    TaggedSmall(o, doubleForwardPosition, piece);
  }

  /** `PawnMoveCalculator.getMoves`: build the promotion list, then run one pass of the
      loop body per entry. */
  method PawnGetMoves(b: Board, o: Position) returns (moves: set<Move>)
    requires OnBoard(o)
    ensures moves == PawnMoves(b, o)
  {
    var team := ColorOnSquare(b, o);
    var promote := (team == Some(White) && o.row == 7) || (team == Some(Black) && o.row == 2);
    var promotionPieces := [None];
    if promote {
      promotionPieces := [Some(Rook), Some(Knight), Some(Bishop), Some(Queen)];
    }
    assert promotionPieces == PromotionPieces(team, o.row);
    ghost var targets := PawnTargets(b, o);
    moves := {};
    for i := 0 to |promotionPieces|
      invariant moves == FanOut(o, targets, promotionPieces[..i])
    {
      var pass := PawnPass(b, o, promotionPieces[i]);
      moves := moves + pass;
      assert promotionPieces[..i + 1][..i] == promotionPieces[..i];
    }
    assert promotionPieces[..|promotionPieces|] == promotionPieces;
  }

  /** A square is a pawn target exactly when it is the empty real square ahead, a real
      diagonal ahead held by another team, or, from the starting rank, the empty real square
      two ahead past an empty square. */
  lemma TargetMembers(b: Board, o: Position, t: Position)
    requires OnBoard(o)
    ensures t in PawnTargets(b, o) <==>
              || (t == InlineCalculators.OneStep(b, o) && OnBoard(t) && GetPiece(b, t) == None)
              || (&& (t == InlineCalculators.Diagonal(b, o, -1) || t == InlineCalculators.Diagonal(b, o, 1))
                  && OnBoard(t) && GetPiece(b, t) != None && ColorOnSquare(b, t) != ColorOnSquare(b, o))
              || (&& t == InlineCalculators.TwoStep(b, o)
                  && InlineCalculators.IsStartingTurn(o, ColorOnSquare(b, o))
                  && OnBoard(t) && GetPiece(b, t) == None
                  && GetPiece(b, InlineCalculators.OneStep(b, o)) == None)
  {
  }

  /** A pawn move starts on the pawn's square, ends on a target, and carries an entry of
      the promotion list; every such combination is offered. */
  lemma PawnMembers(b: Board, o: Position, m: Move)
    requires OnBoard(o)
    ensures m in PawnMoves(b, o) <==>
              && m.startPosition == o && m.endPosition in PawnTargets(b, o)
              && m.promotion in PromotionPieces(ColorOnSquare(b, o), o.row)
  {
    FanOutMembers(o, PawnTargets(b, o), PromotionPieces(ColorOnSquare(b, o), o.row), m);
  }

  /** Unlike the other revision, this pawn never steps onto an occupied square, even to
      promote: the square ahead is entered, with any promotion, only when it is empty. */
  lemma PawnForwardNeedsEmpty(b: Board, o: Position, p: Option<PieceType>)
    requires OnBoard(o)
    ensures Move(o, InlineCalculators.OneStep(b, o), p) in PawnMoves(b, o) ==>
              OnBoard(InlineCalculators.OneStep(b, o)) && GetPiece(b, InlineCalculators.OneStep(b, o)) == None
  {
    var one := InlineCalculators.OneStep(b, o);
    PawnMembers(b, o, Move(o, one, p));
    TargetMembers(b, o, one);
  }

  /** The two pawn revisions offer the same moves for a piece whose forward square, when
      it lies on row 1 or 8, is empty. */
  lemma {:induction false} PawnRevisionsAgree(b: Board, o: Position)
    requires InlineCalculators.PawnCallable(b, o) && GetPiece(b, o) != None
    requires InlineCalculators.IsPromotionRow(InlineCalculators.OneStep(b, o)) ==>
               GetPiece(b, InlineCalculators.OneStep(b, o)) == None
    ensures InlineCalculators.PawnMoves(b, o) == PawnMoves(b, o)
  {
    forall m ensures m in InlineCalculators.PawnMoves(b, o) <==> m in PawnMoves(b, o) {
      PawnMoveAgrees(b, o, m);
    }
  }

  /** The two revisions agree on one move, under the conditions of `PawnRevisionsAgree`. */
  lemma PawnMoveAgrees(b: Board, o: Position, m: Move)
    requires InlineCalculators.PawnCallable(b, o) && GetPiece(b, o) != None
    requires InlineCalculators.IsPromotionRow(InlineCalculators.OneStep(b, o)) ==>
               GetPiece(b, InlineCalculators.OneStep(b, o)) == None
    ensures m in InlineCalculators.PawnMoves(b, o) <==> m in PawnMoves(b, o)
  {
    var c := ColorOnSquare(b, o);
    var left := InlineCalculators.Diagonal(b, o, -1);
    var right := InlineCalculators.Diagonal(b, o, 1);
    InlineCalculators.PawnMembers(b, o, m);
    InlineCalculators.ForwardMembers(b, o, m);
    InlineCalculators.AttackMembers(b, o, left, c, m);
    InlineCalculators.AttackMembers(b, o, right, c, m);
    PawnMembers(b, o, m);
    TargetMembers(b, o, m.endPosition);
    if m.promotion.Some? {
      PromotionPiecesChoice(c, o.row, m.promotion.value);
    } else {
      PromotionPiecesChoice(c, o.row, Pawn);
    }
  }

  /** Where the revisions part: a White pawn on (7,1) facing its own rook on (8,1) is
      offered the promotion onto the rook by the `pieceCalculators` pawn, not by this one. */
  lemma PawnRevisionsDiffer()
    ensures var b := Board(map[Position(7, 1) := Piece(White, Pawn),
                               Position(8, 1) := Piece(White, Rook)]);
            var m := Move(Position(7, 1), Position(8, 1), Some(Queen));
            && InlineCalculators.PawnCallable(b, Position(7, 1))
            && m in InlineCalculators.PawnMoves(b, Position(7, 1))
            && m !in PawnMoves(b, Position(7, 1))
  {
    var b := Board(map[Position(7, 1) := Piece(White, Pawn),
                       Position(8, 1) := Piece(White, Rook)]);
    InlineCalculators.PawnPromotesOntoOwnPiece();
    PawnForwardNeedsEmpty(b, Position(7, 1), Some(Queen));
  }

  /** The revisions also part on an empty origin: the `pieceCalculators` pawn reads a
      null colour, steps down the board from (2,1) onto row 1 and offers the promotions,
      while this pawn's list for a null colour holds only the unpromoted entry. */
  lemma PawnRevisionsDifferOnEmpty()
    ensures var b := Board(map[]);
            var m := Move(Position(2, 1), Position(1, 1), Some(Queen));
            && InlineCalculators.PawnCallable(b, Position(2, 1))
            && m in InlineCalculators.PawnMoves(b, Position(2, 1))
            && m !in PawnMoves(b, Position(2, 1))
  {
    var b := Board(map[]);
    var o := Position(2, 1);
    assert ColorOnSquare(b, o) == None;
    assert InlineCalculators.OneStep(b, o) == Position(1, 1);
    InlineCalculators.PawnPromotesForward(b, o);
    assert Queen in InlineCalculators.PromotionKinds;
    PawnMembers(b, o, Move(o, Position(1, 1), Some(Queen)));
    PromotionPiecesChoice(None, 2, Queen);
  }
}
