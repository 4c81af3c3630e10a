/** `ChessPiece`: a team and a kind compared by value, a hash code built from the two
    enum hashes, and the dispatch from kind to move generator. The pawn is the
    `pieceCalculators` pawn of the package the class imports. The king and bishop are
    written with the `piececalculators` functions, which equal the `pieceCalculators`
    king and bishop by `InlineCalculators.KingGetMoves` and
    `InlineCalculators.BishopGetMoves`. The rook, queen and knight are taken from the
    working `piececalculators` revision. */
module ChessPieces {
  import opened Wrappers
  import opened ChessTypes
  import opened ChessBoard
  import opened PieceMoveCalculator
  import BaseCalculators
  import InlineCalculators

  /** `equals` against a possibly null argument: true exactly for a piece with the same
      team and kind, which for a value type is the same piece. */
  function Equals(p: Piece, other: Option<Piece>): (r: bool)
    ensures r <==> other == Some(p)
  {
    match other
    case None => false
    case Some(q) => p.teamColor == q.teamColor && p.pieceType == q.pieceType
  }

  /** Equality is an equivalence on pieces. */
  lemma EqualsIsEquivalence(p: Piece, q: Piece, s: Piece)
    ensures Equals(p, Some(p))
    ensures Equals(p, Some(q)) <==> Equals(q, Some(p))
    ensures Equals(p, Some(q)) && Equals(q, Some(s)) ==> Equals(p, Some(s))
  {
  }

  const Int32Modulus: int := 0x1_0000_0000

  /** Java's `int` arithmetic: reduce to the 32-bit two's-complement range. */
  function WrapInt32(x: int): (r: int)
    ensures -0x8000_0000 <= r < 0x8000_0000
    ensures (x - r) % Int32Modulus == 0
  {
    (x + 0x8000_0000) % Int32Modulus - 0x8000_0000
  }

  /** `hashCode`, that is `Objects.hash(teamColor, pieceType)`: the polynomial
      `31 * (31 * 1 + h(team)) + h(kind)` in 32-bit arithmetic. The enums' own hash codes
      are identity hashes chosen by the virtual machine, so they are parameters. */
  function HashCode(p: Piece, teamHash: TeamColor -> int, kindHash: PieceType -> int): (r: int)
    ensures -0x8000_0000 <= r < 0x8000_0000
  {
    WrapInt32(31 * WrapInt32(31 * 1 + teamHash(p.teamColor)) + kindHash(p.pieceType))
  }

  /** The hash is the polynomial over the two enum hashes, up to 32-bit wrap-around. */
  lemma HashCodePolynomial(p: Piece, teamHash: TeamColor -> int, kindHash: PieceType -> int)
    ensures (HashCode(p, teamHash, kindHash)
             - (961 + 31 * teamHash(p.teamColor) + kindHash(p.pieceType))) % Int32Modulus == 0
  {
    var a := 31 + teamHash(p.teamColor);
    var w := WrapInt32(a);
    var c := 31 * w + kindHash(p.pieceType);
    var r := WrapInt32(c);
    var q1 := (a - w) / Int32Modulus;
    var q2 := (c - r) / Int32Modulus;
    assert a - w == q1 * Int32Modulus;
    assert c - r == q2 * Int32Modulus;
    assert r - (31 * a + kindHash(p.pieceType)) == (-31 * q1 - q2) * Int32Modulus;
  }

  /** Pieces equal under `equals` have equal hash codes. */
  lemma HashAgreesWithEquals(p: Piece, q: Piece, teamHash: TeamColor -> int, kindHash: PieceType -> int)
    requires Equals(p, Some(q))
    ensures HashCode(p, teamHash, kindHash) == HashCode(q, teamHash, kindHash)
  {
  }

  /** `pieceMoves`: the kind picks the generator. The pawn generator of this revision reads
      the one-step square before any bounds test, which throws when that square is off
      the board. */
  function PieceMoves(b: Board, p: Piece, o: Position): (r: Result<set<Move>, ChessError>)
    requires OnBoard(o)
    ensures r.Err? <==> p.pieceType == Pawn && !InlineCalculators.PawnCallable(b, o)
    ensures r.Err? ==> r.error == IndexOutOfBounds
  {
    match p.pieceType
    case King => Ok(BaseCalculators.KingMoves(b, o))
    case Queen => Ok(BaseCalculators.QueenMoves(b, o))
    case Bishop => Ok(BaseCalculators.BishopMoves(b, o))
    case Rook => Ok(BaseCalculators.RookMoves(b, o))
    case Knight => Ok(BaseCalculators.KnightMoves(b, o))
    case Pawn =>
      if InlineCalculators.PawnCallable(b, o) then Ok(InlineCalculators.PawnMoves(b, o))
      else Err(IndexOutOfBounds)
  }

  /** The generator depends on the kind alone: the mover's team is read from the board,
      not from the piece asked. */
  lemma DispatchByKind(b: Board, p: Piece, q: Piece, o: Position)
    requires OnBoard(o) && p.pieceType == q.pieceType
    ensures PieceMoves(b, p, o) == PieceMoves(b, q, o)
  {
  }

  /** Every generated move starts on the origin and ends on another real square. Apart
      from the pawn's forward promotion, no move ends on a square of the origin's colour. */
  lemma PieceMovesShape(b: Board, p: Piece, o: Position, m: Move)
    requires OnBoard(o) && PieceMoves(b, p, o).Ok? && m in PieceMoves(b, p, o).value
    ensures m.startPosition == o && OnBoard(m.endPosition) && m.endPosition != o
    ensures p.pieceType != Pawn ==> Enterable(b, o, m.endPosition)
    ensures p.pieceType != Pawn ==> m.promotion == None
  {
    match p.pieceType
    case King =>
      BaseCalculators.KingMovesAdjacent(b, o, m);
    case Knight =>
      BaseCalculators.KnightMovesJump(b, o, m);
    case Queen =>
      BaseCalculators.SliderTablesUnit();
      SlideEndsElsewhere(b, o, BaseCalculators.QueenDirections, m);
    case Bishop =>
      BaseCalculators.SliderTablesUnit();
      SlideEndsElsewhere(b, o, BaseCalculators.BishopDirections, m);
    case Rook =>
      BaseCalculators.SliderTablesUnit();
      SlideEndsElsewhere(b, o, BaseCalculators.RookDirections, m);
    case Pawn =>
      InlineCalculators.PawnMovesShape(b, o, m);
  }

  /** A slide ends on an enterable real square at least one step away. */
  lemma SlideEndsElsewhere(b: Board, o: Position, dirs: seq<Offset>, m: Move)
    requires OnBoard(o) && AllUnit(dirs) && m in SlideMoves(b, o, dirs)
    ensures m.startPosition == o && m.promotion == None
    ensures OnBoard(m.endPosition) && m.endPosition != o && Enterable(b, o, m.endPosition)
  {
    SlideMembers(b, o, dirs, m);
    var i :| 0 <= i < |dirs| && SlideTarget(b, o, dirs[i], m);
    var k :| 1 <= k && Reaches(b, o, dirs[i], k) && m.endPosition == Along(o, dirs[i], k);
    ChebyshevAlong(o, dirs[i], k);
  }
}
