/** The two pure helpers of the terminal board renderer: which squares to highlight for a
    set of legal moves, and the three-character cell text for a piece. The drawing itself
    writes escape sequences to the console and is not modelled. */
module UiUtils {
  import opened Wrappers
  import opened ChessTypes

  /** Some move of the list starts or ends on `pos`. */
  ghost predicate Touches(pos: Position, moves: seq<Move>)
  {
    exists i | 0 <= i < |moves| :: moves[i].startPosition == pos || moves[i].endPosition == pos
  }

  /** `isHighlightedPosition`: false for a null collection; otherwise the first move that
      starts or ends on the square answers true, and an exhausted stream answers false. */
  method IsHighlightedPosition(pos: Position, highlightMoves: Option<seq<Move>>) returns (r: bool)
    ensures highlightMoves.None? ==> !r
    ensures highlightMoves.Some? ==> (r <==> Touches(pos, highlightMoves.value))
  {
    if highlightMoves.None? {
      return false;
    }
    var moves := highlightMoves.value;
    var i := 0;
    while i < |moves|
      invariant 0 <= i <= |moves|
      invariant forall j | 0 <= j < i :: moves[j].startPosition != pos && moves[j].endPosition != pos
    {
      if moves[i].startPosition == pos || moves[i].endPosition == pos {
        return true;
      }
      i := i + 1;
    }
    return false;
  }

  /** The letter for each kind; the knight is `N`, since `K` is the king's. */
  function PieceLetter(k: PieceType): char
  {
    match k
    case King => 'K'
    case Queen => 'Q'
    case Bishop => 'B'
    case Knight => 'N'
    case Rook => 'R'
    case Pawn => 'P'
  }

  /** Reading a letter back into a kind, for the round trip below. */
  function LetterKind(c: char): Option<PieceType>
  {
    match c
    case 'K' => Some(King)
    case 'Q' => Some(Queen)
    case 'B' => Some(Bishop)
    case 'N' => Some(Knight)
    case 'R' => Some(Rook)
    case 'P' => Some(Pawn)
    case _ => None
  }

  /** `getPieceString`: three blanks for an empty square, otherwise the kind's letter
      padded by one blank on each side. The team is not part of the text; the renderer
      shows it through the text colour. */
  function GetPieceString(piece: Option<Piece>): (r: string)
    ensures |r| == 3 && r[0] == ' ' && r[2] == ' '
    ensures r[1] == ' ' <==> piece.None?
  {
    match piece
    case None => "   "
    case Some(p) => [' ', PieceLetter(p.pieceType), ' ']
  }

  /** The cell text names the kind: its middle letter reads back as the piece's kind, and
      an empty square reads back as nothing. So two cells differ exactly when the kinds
      differ or one square is empty. */
  lemma PieceStringRoundTrip(piece: Option<Piece>)
    ensures LetterKind(GetPieceString(piece)[1]) == if piece.None? then None else Some(piece.value.pieceType)
  {
  }

  /** Pieces of the same kind print alike whatever their team, and different kinds print
      differently. */
  lemma PieceStringByKind(p: Piece, q: Piece)
    ensures GetPieceString(Some(p)) == GetPieceString(Some(q)) <==> p.pieceType == q.pieceType
  {
    if GetPieceString(Some(p)) == GetPieceString(Some(q)) {
      PieceStringRoundTrip(Some(p));
      PieceStringRoundTrip(Some(q));
    }
  }
}
