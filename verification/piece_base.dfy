/** The methods of the piece base class, and of the piece kinds other than
    the king, whose code is not part of this model. They enter as function
    parameters; what the model relies on about them is stated here. */
module PieceBase {
  import opened Pieces
  import opened Boards

  datatype Methods = Methods(
    /** `withinBounds(x, y)` */
    withinBounds: (int, int) -> bool,
    /** `attackingAlly(x, y)` of the given piece */
    attackingAlly: (Board, PieceRef, int, int) -> bool,
    /** `blocked(x, y)` of the given piece: something stands between it and `(x, y)` */
    blocked: (Board, PieceRef, int, int) -> bool,
    /** the test `generateLegalMoves` applies to each candidate of the given piece */
    keepsKingSafe: (Board, PieceRef, Square) -> bool,
    /** `move(x, y)` of the base class, and of the other kinds' classes for their pieces */
    move: (Board, PieceRef, int, int) -> Board)

  /** The unseen `move(x, y)` of piece `r`. */
  function Step(m: Methods, b: Board, r: PieceRef, x: int, y: int): Board
  {
    m.move(b, r, x, y)
  }

  /** What the model assumes one unseen `move` call does: the piece ends on
      `to`, keeps its kind and side; no other piece changes square (a
      capture may flag one as taken); no piece loses `hasMoved`; turn, log,
      selection, `lastEnPassant` and the piece lists' lengths are kept; only
      a pawn's move may write `enPassant`. */
  ghost predicate Relocates(b: Board, b': Board, r: PieceRef, to: Square)
    requires Resolves(b, r)
  {
    && b'.epoch == b.epoch && b'.turn == b.turn && b'.moves == b.moves
    && b'.lastEnPassant == b.lastEnPassant && b'.selected == b.selected
    && |b'.whitePieces| == |b.whitePieces| && |b'.blackPieces| == |b.blackPieces|
    && Resolves(b', r)
    && Get(b', r).pos == to
    && Get(b', r).kind == Get(b, r).kind && Get(b', r).isWhite == Get(b, r).isWhite
    && (Get(b, r).hasMoved ==> Get(b', r).hasMoved)
    && (Get(b, r).kind != Pawn ==> b'.enPassant == b.enPassant)
    && (forall o :: Resolves(b, o) && o != r ==>
          Resolves(b', o) && Get(b', o).pos == Get(b, o).pos
          && Get(b', o).kind == Get(b, o).kind && Get(b', o).isWhite == Get(b, o).isWhite
          && (Get(b, o).hasMoved ==> Get(b', o).hasMoved))
  }

  /** An unseen `move` clears no `hasMoved` flag. */
  lemma RelocatesKeepsMoved(b: Board, b': Board, r: PieceRef, to: Square)
    requires Resolves(b, r) && Relocates(b, b', r, to)
    ensures KeepsMoved(b, b')
  {
  }

  /** Every unseen `move` call behaves as `Relocates` says. */
  ghost predicate MoveAssumption(m: Methods)
  {
    forall b: Board, r: PieceRef, x: int, y: int {:trigger Step(m, b, r, x, y)} ::
      Resolves(b, r) ==> Relocates(b, Step(m, b, r, x, y), r, Square(x, y))
  }

  /** `generateLegalMoves`: the candidates that pass the king-safety test,
      in their original order, as a new list. */
  function LegalMoves(m: Methods, b: Board, r: PieceRef, moves: seq<Square>): (legal: seq<Square>)
    ensures |legal| <= |moves|
    ensures forall sq :: sq in legal <==> sq in moves && m.keepsKingSafe(b, r, sq)
    ensures |legal| == |moves| <==> forall i :: 0 <= i < |moves| ==> m.keepsKingSafe(b, r, moves[i])
  {
    if moves == [] then []
    else
      var rest := LegalMoves(m, b, r, moves[1..]);
      assert forall i :: 1 <= i < |moves| ==> moves[i] == moves[1..][i - 1];
      if m.keepsKingSafe(b, r, moves[0]) then [moves[0]] + rest else rest
  }
}
