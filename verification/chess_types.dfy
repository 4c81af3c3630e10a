/** The value types of the rules engine: teams, piece kinds, pieces, squares and moves.
    Positions and moves compare structurally, which is what the engine's hash sets and
    `contains` checks rely on. */
module ChessTypes {
  import opened Wrappers

  datatype TeamColor = White | Black

  datatype PieceType = King | Queen | Bishop | Knight | Rook | Pawn

  /** A piece is its team and its kind and nothing else. */
  datatype Piece = Piece(teamColor: TeamColor, pieceType: PieceType)

  /** A 1-indexed coordinate. Off-board values are representable because the move
      generators build them and then test them. */
  datatype Position = Position(row: int, col: int)

  datatype Move = Move(startPosition: Position, endPosition: Position, promotion: Option<PieceType>)

  /** What the engine throws: its own checked exception, or an array index fault. */
  datatype ChessError = InvalidMove(message: string) | IndexOutOfBounds

  /** The squares the board's 8x8 array can be indexed with. */
  predicate OnBoard(p: Position)
  {
    1 <= p.row <= 8 && 1 <= p.col <= 8
  }

  function Opponent(t: TeamColor): TeamColor
  {
    if t == White then Black else White
  }
}
