/** The chessboard: an 8x8 grid of optional pieces, modelled as a map from the occupied
    squares to their pieces. Placing "no piece" clears a square. */
module ChessBoard {
  import opened Wrappers
  import opened ChessTypes

  datatype Board = Board(grid: map<Position, Piece>) {
    /** Only real squares are ever occupied. */
    predicate Valid()
    {
      forall p | p in grid :: OnBoard(p)
    }
  }

  /** The square with row-major index `i`: index 0 is (1,1), index 63 is (8,8). */
  function Square(i: int): Position
    requires 0 <= i < 64
  {
    Position(i / 8 + 1, i % 8 + 1)
  }

  /** The row-major index of a square. */
  function SquareIndex(p: Position): int
  {
    8 * (p.row - 1) + (p.col - 1)
  }

  /** `Square` and `SquareIndex` are inverse bijections between 0..63 and the 64 squares. */
  lemma SquareRoundTrip(i: int, p: Position)
    ensures 0 <= i < 64 ==> OnBoard(Square(i)) && SquareIndex(Square(i)) == i
    ensures OnBoard(p) ==> 0 <= SquareIndex(p) < 64 && Square(SquareIndex(p)) == p
  {
    if OnBoard(p) {
      var k := SquareIndex(p);
      assert k == 8 * (k / 8) + k % 8;
    }
  }

  /** The constructor: an empty 8x8 array. */
  function NewBoard(): (r: Board)
    ensures r.Valid()
    ensures forall p | OnBoard(p) :: GetPiece(r, p) == None
  {
    Board(map[])
  }

  function GetPiece(b: Board, p: Position): Option<Piece>
    requires OnBoard(p)
  {
    if p in b.grid then Some(b.grid[p]) else None
  }

  /** Overwrites one square; `None` clears it. */
  function AddPiece(b: Board, p: Position, piece: Option<Piece>): (r: Board)
    requires OnBoard(p)
    ensures b.Valid() ==> r.Valid()
    ensures GetPiece(r, p) == piece
    ensures forall q | OnBoard(q) && q != p :: GetPiece(r, q) == GetPiece(b, q)
  {
    match piece
    case None => Board(b.grid - {p})
    case Some(x) => Board(b.grid[p := x])
  }

  /** The team of the piece on a square, or `None` for an empty square. */
  function ColorOnSquare(b: Board, p: Position): (r: Option<TeamColor>)
    requires OnBoard(p)
    ensures r.None? <==> GetPiece(b, p).None?
    ensures r.Some? ==> r.value == GetPiece(b, p).value.teamColor
  {
    match GetPiece(b, p)
    case None => None
    case Some(x) => Some(x.teamColor)
  }

  /** Reading back a square just written yields the written piece's team. */
  lemma ColorAfterAdd(b: Board, p: Position, x: Piece, q: Position)
    requires OnBoard(p) && OnBoard(q)
    ensures ColorOnSquare(AddPiece(b, p, Some(x)), q)
            == if q == p then Some(x.teamColor) else ColorOnSquare(b, q)
  {
  }

  /** Two valid boards are equal exactly when they agree on all 64 squares. */
  lemma {:induction false} BoardExtensionality(a: Board, b: Board)
    requires a.Valid() && b.Valid()
    ensures a == b <==> forall i | 0 <= i < 64 :: GetPiece(a, Square(i)) == GetPiece(b, Square(i))
  {
    if forall i | 0 <= i < 64 :: GetPiece(a, Square(i)) == GetPiece(b, Square(i)) {
      forall p | OnBoard(p)
        ensures GetPiece(a, p) == GetPiece(b, p)
      {
        SquareRoundTrip(0, p);
        assert GetPiece(a, Square(SquareIndex(p))) == GetPiece(b, Square(SquareIndex(p)));
      }
      assert a.grid.Keys == b.grid.Keys by {
        forall p ensures p in a.grid <==> p in b.grid {
          if p in a.grid { assert GetPiece(a, p).Some?; }
          if p in b.grid { assert GetPiece(b, p).Some?; }
        }
      }
      forall p | p in a.grid ensures a.grid[p] == b.grid[p] {
        assert GetPiece(a, p) == GetPiece(b, p);
      }
      assert a.grid == b.grid;
    } else {
      var i :| 0 <= i < 64 && GetPiece(a, Square(i)) != GetPiece(b, Square(i));
    }
  }
}
