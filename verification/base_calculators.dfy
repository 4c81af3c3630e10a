/** The `piececalculators` revision of the move generators: a sliding base that walks
    each direction of a table, a jumping base that tries each offset of a table once,
    the bishop, rook, queen and king as tables for those bases, and a knight that
    writes the single-offset loop out again over its own literal table. Each generator
    is proved to compute the shared reference sets, and each table is characterised
    geometrically. */
module BaseCalculators {
  import opened Wrappers
  import opened ChessTypes
  import opened ChessBoard
  import opened PieceMoveCalculator

  /** The interface's bounds test for the 8x8 array. */
  predicate IsRealPosition(p: Position)
  {
    p.row <= 8 && p.row >= 1 && p.col <= 8 && p.col >= 1
  }

  /** The real positions are exactly the 64 squares of the row-major enumeration, so the
      test holds for every square and fails for any row or column outside 1..8. */
  lemma IsRealPositionIsSquare(p: Position)
    ensures IsRealPosition(p) <==> exists i :: 0 <= i < 64 && Square(i) == p
  {
    SquareRoundTrip(0, p);
    if exists i :: 0 <= i < 64 && Square(i) == p {
      var i :| 0 <= i < 64 && Square(i) == p;
      SquareRoundTrip(i, p);
    }
  }

  const BishopDirections: seq<Offset> := [Offset(1, 1), Offset(-1, -1), Offset(1, -1), Offset(-1, 1)]

  const RookDirections: seq<Offset> := [Offset(1, 0), Offset(-1, 0), Offset(0, 1), Offset(0, -1)]

  const QueenDirections: seq<Offset> :=
    [Offset(0, 1), Offset(1, 0), Offset(1, 1), Offset(0, -1),
     Offset(-1, 0), Offset(1, -1), Offset(-1, 1), Offset(-1, -1)]

  const KingOffsets: seq<Offset> :=
    [Offset(1, 0), Offset(1, 1), Offset(0, 1), Offset(-1, 0),
     Offset(-1, -1), Offset(0, -1), Offset(-1, 1), Offset(1, -1)]

  const KnightOffsets: seq<Offset> :=
    [Offset(2, -1), Offset(2, 1), Offset(1, -2), Offset(1, 2),
     Offset(-2, 1), Offset(-2, -1), Offset(-1, 2), Offset(-1, -2)]

  /** An offset that moves one square along a diagonal. */
  predicate IsDiagonal(d: Offset)
  {
    Abs(d.dCol) == 1 && Abs(d.dRow) == 1
  }

  /** An offset that moves one square along a row or a column. */
  predicate IsOrthogonal(d: Offset)
  {
    Abs(d.dCol) + Abs(d.dRow) == 1
  }

  /** An offset of the L-shaped knight jump. */
  predicate IsKnightJump(d: Offset)
  {
    (Abs(d.dCol) == 1 && Abs(d.dRow) == 2) || (Abs(d.dCol) == 2 && Abs(d.dRow) == 1)
  }

  /** Every slider table holds unit directions only, so each may be walked. */
  lemma SliderTablesUnit()
    ensures AllUnit(BishopDirections) && AllUnit(RookDirections) && AllUnit(QueenDirections)
  {
  }

  /** The bishop table is exactly the four diagonals, the rook table exactly the four
      orthogonals, and the queen table exactly their union: every unit direction. */
  lemma DirectionTables(d: Offset)
    ensures d in BishopDirections <==> IsDiagonal(d)
    ensures d in RookDirections <==> IsOrthogonal(d)
    ensures d in QueenDirections <==> d in RookDirections || d in BishopDirections
    ensures d in QueenDirections <==> IsUnit(d)
  {
  }

  /** The king table is exactly the eight unit neighbours, the knight table exactly the
      eight L-shaped jumps; neither lists an offset twice. */
  lemma OffsetTables(d: Offset)
    ensures d in KingOffsets <==> IsUnit(d)
    ensures d in KnightOffsets <==> IsKnightJump(d)
    ensures |KingOffsets| == 8 && |KnightOffsets| == 8
    ensures forall i, j | 0 <= i < j < 8 :: KingOffsets[i] != KingOffsets[j]
    ensures forall i, j | 0 <= i < j < 8 :: KnightOffsets[i] != KnightOffsets[j]
  {
  }

  /** `SteppingMoveCalculator.getMoves`: for each direction, step outward until the walk
      leaves the board; record empty squares and keep going; at the first occupied square
      record it when its colour differs from the origin's, then stop. */
  method SteppingGetMoves(b: Board, o: Position, dirs: seq<Offset>) returns (moves: set<Move>)
    requires OnBoard(o) && AllUnit(dirs)
    ensures moves == SlideMoves(b, o, dirs)
  {
    ghost var rays := Rays(b, o, dirs);
    moves := {};
    for i := 0 to |dirs|
      invariant moves == UnionAll(rays[..i])
    {
      var found := StepOut(b, o, dirs[i]);
      moves := moves + found;
      assert rays[..i + 1][..i] == rays[..i];
    }
    assert rays[..|dirs|] == rays;
  }

  /** The inner loop of `SteppingMoveCalculator.getMoves`, for one direction. */
  method StepOut(b: Board, o: Position, jump: Offset) returns (found: set<Move>)
    requires OnBoard(o) && IsUnit(jump)
    ensures found == Ray(b, o, jump, 1)
  {
    found := {};
    var step := 1;
    ghost var rest := Ray(b, o, jump, 1);
    while true
      invariant 1 <= step <= 8
      invariant rest == Ray(b, o, jump, step)
      invariant Ray(b, o, jump, 1) == found + rest
      decreases 8 - step
    {
      var added, stop := StepLook(b, o, jump, step);
      found := found + added;
      if stop {
        break;
      }
      step := step + 1;
      rest := Ray(b, o, jump, step);
    }
  }

  /** One pass of the body of `StepOut`'s loop: an off-board square stops the walk, an
      empty one is recorded and the walk goes on, and an occupied one is recorded when its
      colour differs from the origin's and stops the walk. */
  method StepLook(b: Board, o: Position, jump: Offset, step: int) returns (added: set<Move>, stop: bool)
    requires OnBoard(o) && IsUnit(jump) && 1 <= step <= 8
    ensures !stop ==> step <= 7 && Ray(b, o, jump, step) == added + Ray(b, o, jump, step + 1)
    ensures stop ==> Ray(b, o, jump, step) == added
  {
    var testPosition := Along(o, jump, step);
    RayStep(b, o, jump, step);
    if !IsRealPosition(testPosition) {
      return {}, true;
    }
    if GetPiece(b, testPosition) == None {
      return {Move(o, testPosition, None)}, false;
    }
    added := {};
    if ColorOnSquare(b, testPosition) != ColorOnSquare(b, o) {
      added := {Move(o, testPosition, None)};
    }
    stop := true;
  }


  /** `JumpingMoveCalculator.getMoves`: each offset's target is recorded when it is a
      real position that is empty or holds a colour other than the origin's. */
  method JumpingGetMoves(b: Board, o: Position, offs: seq<Offset>) returns (moves: set<Move>)
    requires OnBoard(o)
    ensures moves == JumpMoves(b, o, offs)
  {
    ghost var jumps := Jumps(b, o, offs);
    moves := {};
    for i := 0 to |offs|
      invariant moves == UnionAll(jumps[..i])
    {
      var found := TryOffset(b, o, offs[i]);
      moves := moves + found;
      assert jumps[..i + 1][..i] == jumps[..i];
    }
    assert jumps[..|offs|] == jumps;
  }

  /** One pass of `JumpingMoveCalculator.getMoves`, for one offset. */
  method TryOffset(b: Board, o: Position, jump: Offset) returns (found: set<Move>)
    requires OnBoard(o)
    ensures found == JumpOne(b, o, jump)
  {
    found := {};
    var testPosition := Position(o.row + jump.dRow, o.col + jump.dCol);
    if IsRealPosition(testPosition) {
      if GetPiece(b, testPosition) == None {
        found := {Move(o, testPosition, None)};
      } else if ColorOnSquare(b, testPosition) != ColorOnSquare(b, o) {
        found := {Move(o, testPosition, None)};
      }
    }
  }

  /** `KnightCalculator.getMoves`: the knight's literal table, walked by the knight's own
      loop. */
  method KnightGetMoves(b: Board, o: Position) returns (moves: set<Move>)
    requires OnBoard(o)
    ensures moves == KnightMoves(b, o)
  {
    var potentialMoves :=
      [Offset(2, -1), Offset(2, 1), Offset(1, -2), Offset(1, 2),
       Offset(-2, 1), Offset(-2, -1), Offset(-1, 2), Offset(-1, -2)];
    assert potentialMoves == KnightOffsets;
    moves := KnightLoop(b, o, potentialMoves);
  }

  /** The `for` loop of `KnightCalculator.getMoves`: each offset's target is recorded when
      it is a real position that is empty or holds a colour other than the origin's. */
  method KnightLoop(b: Board, o: Position, potentialMoves: seq<Offset>) returns (moves: set<Move>)
    requires OnBoard(o)
    ensures moves == JumpMoves(b, o, potentialMoves)
  {
    ghost var jumps := Jumps(b, o, potentialMoves);
    moves := {};
    for i := 0 to |potentialMoves|
      invariant moves == UnionAll(jumps[..i])
    {
      var found := KnightJump(b, o, potentialMoves[i]);
      moves := moves + found;
      assert jumps[..i + 1][..i] == jumps[..i];
    }
    assert jumps[..|potentialMoves|] == jumps;
  }

  /** One pass of the knight's loop: the target is recorded when it is a real position
      that is empty or holds a colour other than the origin's. */
  method KnightJump(b: Board, o: Position, jump: Offset) returns (found: set<Move>)
    requires OnBoard(o)
    ensures found == JumpOne(b, o, jump)
  {
    found := {};
    var testPosition := Position(o.row + jump.dRow, o.col + jump.dCol);
    if IsRealPosition(testPosition) {
      if GetPiece(b, testPosition) == None {
        found := {Move(o, testPosition, None)};
      } else if ColorOnSquare(b, testPosition) != ColorOnSquare(b, o) {
        found := {Move(o, testPosition, None)};
      }
    }
  }

  /** The bishop: slide along the diagonals. Each move changes row and column by the same
      non-zero amount. */
  function BishopMoves(b: Board, o: Position): (r: set<Move>)
    requires OnBoard(o)
    ensures forall m | m in r ::
              Abs(m.endPosition.row - o.row) == Abs(m.endPosition.col - o.col) > 0
  {
    var r := SlideMoves(b, o, BishopDirections);
    forall m | m in r
      ensures Abs(m.endPosition.row - o.row) == Abs(m.endPosition.col - o.col) > 0
    {
      SlideMembers(b, o, BishopDirections, m);
    }
    r
  }

  /** The rook: slide along rows and columns. Each move keeps the row or the column. */
  function RookMoves(b: Board, o: Position): (r: set<Move>)
    requires OnBoard(o)
    ensures forall m | m in r ::
              (m.endPosition.row == o.row) != (m.endPosition.col == o.col)
  {
    var r := SlideMoves(b, o, RookDirections);
    forall m | m in r
      ensures (m.endPosition.row == o.row) != (m.endPosition.col == o.col)
    {
      SlideMembers(b, o, RookDirections, m);
    }
    r
  }

  /** The queen: slide along all eight directions. */
  function QueenMoves(b: Board, o: Position): (r: set<Move>)
    requires OnBoard(o)
  {
    SlideMoves(b, o, QueenDirections)
  }

  /** The king: one step to any neighbour. */
  function KingMoves(b: Board, o: Position): (r: set<Move>)
    requires OnBoard(o)
  {
    JumpMoves(b, o, KingOffsets)
  }

  /** The knight: one L-shaped jump. */
  function KnightMoves(b: Board, o: Position): (r: set<Move>)
    requires OnBoard(o)
  {
    JumpMoves(b, o, KnightOffsets)
  }

  method BishopGetMoves(b: Board, o: Position) returns (moves: set<Move>)
    requires OnBoard(o)
    ensures moves == BishopMoves(b, o)
  {
    moves := SteppingGetMoves(b, o, BishopDirections);
  }

  method RookGetMoves(b: Board, o: Position) returns (moves: set<Move>)
    requires OnBoard(o)
    ensures moves == RookMoves(b, o)
  {
    moves := SteppingGetMoves(b, o, RookDirections);
  }

  method QueenGetMoves(b: Board, o: Position) returns (moves: set<Move>)
    requires OnBoard(o)
    ensures moves == QueenMoves(b, o)
  {
    moves := SteppingGetMoves(b, o, QueenDirections);
  }

  method KingGetMoves(b: Board, o: Position) returns (moves: set<Move>)
    requires OnBoard(o)
    ensures moves == KingMoves(b, o)
  {
    moves := JumpingGetMoves(b, o, KingOffsets);
  }

  /** The offset that leads from `o` to `t`. */
  function OffsetTo(o: Position, t: Position): (d: Offset)
    ensures Jump(o, d) == t
  {
    Offset(t.col - o.col, t.row - o.row)
  }

  /** A jump lands on `t` exactly when its offset is the one leading there. */
  lemma JumpTableHit(o: Position, offs: seq<Offset>, t: Position)
    ensures (exists i :: 0 <= i < |offs| && Jump(o, offs[i]) == t) <==> OffsetTo(o, t) in offs
  {
    if OffsetTo(o, t) in offs {
      var i :| 0 <= i < |offs| && offs[i] == OffsetTo(o, t);
      assert Jump(o, offs[i]) == t;
    }
  }

  /** Queen moves are the rook's moves together with the bishop's, from the same square
      on the same board. */
  lemma QueenIsRookPlusBishop(b: Board, o: Position)
    requires OnBoard(o)
    ensures QueenMoves(b, o) == RookMoves(b, o) + BishopMoves(b, o)
  {
    forall d ensures d in QueenDirections <==> d in RookDirections || d in BishopDirections {
      DirectionTables(d);
    }
    SlideUnion(b, o, QueenDirections, RookDirections, BishopDirections);
  }

  /** King moves are exactly the enterable real squares at king-step distance 1, at most
      eight of them, none promoting. */
  lemma KingMovesAdjacent(b: Board, o: Position, m: Move)
    requires OnBoard(o)
    ensures |KingMoves(b, o)| <= 8
    ensures m in KingMoves(b, o) <==>
              && m.startPosition == o && m.promotion == None
              && OnBoard(m.endPosition) && Enterable(b, o, m.endPosition)
              && Chebyshev(o, m.endPosition) == 1
  {
    JumpMembers(b, o, KingOffsets, m);
    JumpTableHit(o, KingOffsets, m.endPosition);
    OffsetTables(OffsetTo(o, m.endPosition));
  }

  /** Knight moves are exactly the enterable real squares one L-shaped jump away, whatever
      stands in between, at most eight of them, none promoting. */
  lemma KnightMovesJump(b: Board, o: Position, m: Move)
    requires OnBoard(o)
    ensures |KnightMoves(b, o)| <= 8
    ensures m in KnightMoves(b, o) <==>
              && m.startPosition == o && m.promotion == None
              && OnBoard(m.endPosition) && Enterable(b, o, m.endPosition)
              && IsKnightJump(OffsetTo(o, m.endPosition))
  {
    JumpMembers(b, o, KnightOffsets, m);
    JumpTableHit(o, KnightOffsets, m.endPosition);
    OffsetTables(OffsetTo(o, m.endPosition));
  }
}
