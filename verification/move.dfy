/** The record the board appends for every committed move. */
module MoveRecord {
  import opened Pieces

  /** A move has no methods, so once built it never changes. `startSquare`
      is the origin as it was when the move was recorded. */
  datatype Move = Move(piece: PieceRef, startSquare: Square, targetSquare: Square, taken: Option<PieceRef>, castle: bool)

  /** The constructor: the first three arguments are stored as given, a
      missing `taken` is null and a missing `castle` is false. */
  function NewMove(piece: PieceRef, startSquare: Square, targetSquare: Square,
                   taken: Option<PieceRef> := None, castle: bool := false): (m: Move)
    ensures m.piece == piece && m.startSquare == startSquare && m.targetSquare == targetSquare
    ensures m.taken == taken && m.castle == castle
  {
    Move(piece, startSquare, targetSquare, taken, castle)
  }

  /** Leaving out the last two arguments records no capture and no castling. */
  lemma NewMoveDefaults(piece: PieceRef, startSquare: Square, targetSquare: Square)
    ensures NewMove(piece, startSquare, targetSquare).taken == None
    ensures !NewMove(piece, startSquare, targetSquare).castle
    ensures NewMove(piece, startSquare, targetSquare) == NewMove(piece, startSquare, targetSquare, None, false)
  {
  }
}
