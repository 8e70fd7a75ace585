/** Squares, piece kinds, piece objects and references to them: the state the
    piece classes expose to the board. */
module Pieces {

  /** Absent or present value; stands for JavaScript's `null` or an object. */
  datatype Option<T> = None | Some(value: T)

  /** A `matrixposition`: file `x` grows to the right and rank `y` grows
      downwards, so rank 0 is the first row of a placement field. */
  datatype Square = Square(x: int, y: int)

  /** The `type` string of a piece object. */
  datatype Kind = King | Queen | Bishop | Knight | Rook | Pawn

  /** The fields of a piece object that the board and the king read. */
  datatype Piece = Piece(kind: Kind, isWhite: bool, pos: Square, taken: bool, hasMoved: bool)

  /** The identity of a piece object. `white` and `index` locate it in
      `whitePieces` or `blackPieces`; `epoch` counts the position loads, so a
      reference taken before a load never denotes a piece created by it. */
  datatype PieceRef = PieceRef(epoch: nat, white: bool, index: nat)

  /** A piece object as the base constructor leaves it: at `(x, y)`, on the
      given side, not taken. */
  function NewPiece(kind: Kind, x: int, y: int, isWhite: bool, hasMoved: bool): (p: Piece)
    ensures p.pos == Square(x, y) && !p.taken
  {
    Piece(kind, isWhite, Square(x, y), false, hasMoved)
  }

  /** The piece stands on `sq` and still counts as on the board. */
  predicate Occupies(p: Piece, sq: Square)
  {
    !p.taken && p.pos == sq
  }

  function Abs(n: int): nat
  {
    if n < 0 then -n else n
  }
}
