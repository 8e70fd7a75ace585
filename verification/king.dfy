/** The king: its constructor, candidate moves (neighbours and castling),
    its move with the rook relocation, and the check heuristic. */
module KingPiece {
  import opened Pieces
  import opened Boards
  import opened PieceBase

  /** `new King(x, y, isWhite, hasMoved = true)`: unless told otherwise a
      king counts as having moved, so it cannot castle. */
  function NewKing(x: int, y: int, isWhite: bool, hasMoved: bool := true): (p: Piece)
    ensures p.kind == King && p.isWhite == isWhite && p.pos == Square(x, y) && !p.taken
    ensures p.hasMoved == hasMoved
  {
    NewPiece(King, x, y, isWhite, hasMoved)
  }

  /** A king built with the default flag is not castling-eligible. */
  lemma NewKingHasMoved(x: int, y: int, isWhite: bool)
    ensures NewKing(x, y, isWhite).hasMoved
  {
  }

  /** The eight `(dx, dy)` offsets in the order the nested loops visit them. */
  const KingSteps: seq<(int, int)> := [(-1, -1), (-1, 0), (-1, 1), (0, -1), (0, 1), (1, -1), (1, 0), (1, 1)]

  /** One of the eight squares around `from`. */
  predicate Adjacent(from: Square, sq: Square)
  {
    sq != from && Abs(sq.x - from.x) <= 1 && Abs(sq.y - from.y) <= 1
  }

  function Shift(from: Square, step: (int, int)): Square
  {
    Square(from.x + step.0, from.y + step.1)
  }

  /** A neighbour square the king may step to: on the board and not held by
      its own side. */
  predicate Steppable(m: Methods, b: Board, k: PieceRef, sq: Square)
  {
    m.withinBounds(sq.x, sq.y) && !m.attackingAlly(b, k, sq.x, sq.y)
  }

  /** The shifted squares of `steps` that are steppable, in order. */
  function StepMoves(m: Methods, b: Board, k: PieceRef, from: Square, steps: seq<(int, int)>): (r: seq<Square>)
    ensures |r| <= |steps|
    ensures forall sq :: sq in r <==> Steppable(m, b, k, sq) && exists i :: 0 <= i < |steps| && sq == Shift(from, steps[i])
  {
    if steps == [] then []
    else
      var rest := StepMoves(m, b, k, from, steps[1..]);
      assert forall i :: 1 <= i < |steps| ==> steps[i] == steps[1..][i - 1];
      var sq := Shift(from, steps[0]);
      if Steppable(m, b, k, sq) then [sq] + rest else rest
  }

  /** The eight offsets reach exactly the adjacent squares. */
  lemma KingStepsAreAdjacent(from: Square, sq: Square)
    ensures Adjacent(from, sq) <==> exists i :: 0 <= i < |KingSteps| && sq == Shift(from, KingSteps[i])
  {
    if Adjacent(from, sq) {
      var dx, dy := sq.x - from.x, sq.y - from.y;
      var i := if dx == -1 then 1 + dy else if dx == 0 then (if dy == -1 then 3 else 4) else 6 + dy;
      assert sq == Shift(from, KingSteps[i]);
    }
  }

  /** The non-castling half of `generateMoves`. */
  function NeighbourMoves(m: Methods, b: Board, k: PieceRef): (r: seq<Square>)
    requires Resolves(b, k)
    ensures |r| <= 8
    ensures forall sq :: sq in r <==> Adjacent(Get(b, k).pos, sq) && Steppable(m, b, k, sq)
  {
    var from := Get(b, k).pos;
    var r := StepMoves(m, b, k, from, KingSteps);
    forall sq ensures sq in r <==> Adjacent(from, sq) && Steppable(m, b, k, sq) {
      KingStepsAreAdjacent(from, sq);
    }
    r
  }

  /** The corner file a castling towards `dx` uses: 0 to the left, 7 to the right. */
  function CornerX(dx: int): int
  {
    if dx < 0 then 0 else 7
  }

  /** The king may castle towards corner file `cornerX` of its own rank: a
      rook (of either side) that has not moved stands there, the king has
      not moved and the way is not blocked. */
  predicate CanCastle(m: Methods, b: Board, k: PieceRef, cornerX: int)
    requires Resolves(b, k)
  {
    var king := Get(b, k);
    var y := king.pos.y;
    match GetPieceAt(b, cornerX, y)
    case None => false
    case Some(rook) =>
      !m.blocked(b, k, cornerX, y) && !king.hasMoved && Get(b, rook).kind == Rook && !Get(b, rook).hasMoved
  }

  /** The castling candidate for one corner: two files towards it. */
  function CastlingMove(m: Methods, b: Board, k: PieceRef, cornerX: int): (r: seq<Square>)
    requires Resolves(b, k) && (cornerX == 0 || cornerX == 7)
    ensures |r| <= 1
    ensures forall sq :: sq in r <==>
      CanCastle(m, b, k, cornerX) && sq == Square(Get(b, k).pos.x + (if cornerX == 0 then -2 else 2), Get(b, k).pos.y)
  {
    var king := Get(b, k);
    if CanCastle(m, b, k, cornerX) then
      var direction := if cornerX == 0 then -1 else 1;
      [Square(king.pos.x + direction * 2, king.pos.y)]
    else []
  }

  /** `generateMoves`: the king's pseudo-legal destinations. */
  function GenerateMoves(m: Methods, b: Board, k: PieceRef): (r: seq<Square>)
    requires Resolves(b, k)
    ensures forall sq :: sq in r <==>
      || (Adjacent(Get(b, k).pos, sq) && Steppable(m, b, k, sq))
      || (CanCastle(m, b, k, 0) && sq == Square(Get(b, k).pos.x - 2, Get(b, k).pos.y))
      || (CanCastle(m, b, k, 7) && sq == Square(Get(b, k).pos.x + 2, Get(b, k).pos.y))
    ensures |r| <= (if Get(b, k).hasMoved then 8 else 10)
  {
    NeighbourMoves(m, b, k) + CastlingMove(m, b, k, 0) + CastlingMove(m, b, k, 7)
  }

  /** A king that has moved only ever gets its neighbour squares. */
  lemma MovedKingStepsOnly(m: Methods, b: Board, k: PieceRef, sq: Square)
    requires Resolves(b, k) && Get(b, k).hasMoved
    requires sq in GenerateMoves(m, b, k)
    ensures Adjacent(Get(b, k).pos, sq) && m.withinBounds(sq.x, sq.y) && !m.attackingAlly(b, k, sq.x, sq.y)
  {
  }

  /** `inCheck`: the pseudo-legal and legal candidate counts differ. */
  function InCheck(m: Methods, b: Board, k: PieceRef): (c: bool)
    requires Resolves(b, k)
    ensures c <==> exists sq :: sq in GenerateMoves(m, b, k) && !m.keepsKingSafe(b, k, sq)
  {
    var moves := GenerateMoves(m, b, k);
    var legal := LegalMoves(m, b, k, moves);
    |moves| != |legal|
  }

  /** The rook a king move of two files relocates: the piece on the corner
      of the target rank on the side the king moves to. */
  function CastlingRook(b: Board, k: PieceRef, x: int, y: int): Option<PieceRef>
    requires Resolves(b, k)
  {
    var dx := x - Get(b, k).pos.x;
    if Abs(dx) == 2 then GetPieceAt(b, CornerX(dx), y) else None
  }

  /** A move of two files finds a piece on its corner, and not a king (whose
      own `move` would be called there instead). */
  predicate CastleReady(b: Board, k: PieceRef, x: int, y: int)
    requires Resolves(b, k)
  {
    Abs(x - Get(b, k).pos.x) == 2 ==>
      match CastlingRook(b, k, x, y)
      case None => false
      case Some(rook) => Get(b, rook).kind != King
  }

  /** `move(x, y)` of a king. */
  function KingMove(m: Methods, b: Board, k: PieceRef, x: int, y: int): (b': Board)
    requires MoveAssumption(m)
    requires Resolves(b, k) && Get(b, k).kind == King
    requires CastleReady(b, k, x, y)
    ensures Resolves(b', k) && Get(b', k).pos == Square(x, y) && Get(b', k).hasMoved
    ensures Get(b', k).kind == King && Get(b', k).isWhite == Get(b, k).isWhite
    ensures forall rook :: CastlingRook(b, k, x, y) == Some(rook) ==>
      Resolves(b', rook) && Get(b', rook).pos == Square((Get(b, k).pos.x + x) / 2, y)
    ensures forall o :: Resolves(b, o) && o != k && CastlingRook(b, k, x, y) != Some(o) ==>
      Resolves(b', o) && Get(b', o).pos == Get(b, o).pos
    ensures (forall rook :: CastlingRook(b, k, x, y) == Some(rook) ==> Get(b, rook).kind != Pawn) ==>
      b'.enPassant == b.enPassant
    ensures KeepsMoved(b, b')
    ensures b'.epoch == b.epoch && b'.turn == b.turn && b'.moves == b.moves
    ensures b'.lastEnPassant == b.lastEnPassant && b'.selected == b.selected
    ensures |b'.whitePieces| == |b.whitePieces| && |b'.blackPieces| == |b.blackPieces|
  {
    var from := Get(b, k).pos;
    var b1 := SetMoved(b, k, true);
    GetPieceAtSameSquares(b, b1, CornerX(x - from.x), y);
    assert CastlingRook(b1, k, x, y) == CastlingRook(b, k, x, y);
    var b2 := RookAlong(m, b1, k, x, y);
    var b3 := Step(m, b2, k, x, y);
    KingMoveKeepsOthers(m, b, b1, b2, b3, k, x, y);
    KingMoveKeepsMoved(m, b, b1, b2, b3, k, x, y);
    b3
  }

  /** The pieces a king's `move` does not relocate stay on their squares
      through both steps. */
  lemma KingMoveKeepsOthers(m: Methods, b: Board, b1: Board, b2: Board, b3: Board, k: PieceRef, x: int, y: int)
    requires MoveAssumption(m)
    requires Resolves(b, k) && CastleReady(b, k, x, y)
    requires b1 == SetMoved(b, k, true)
    requires CastlingRook(b1, k, x, y) == CastlingRook(b, k, x, y)
    requires CastleReady(b1, k, x, y)
    requires b2 == RookAlong(m, b1, k, x, y) && b3 == Step(m, b2, k, x, y)
    ensures forall o :: Resolves(b, o) && o != k && CastlingRook(b, k, x, y) != Some(o) ==>
      Resolves(b3, o) && Get(b3, o).pos == Get(b, o).pos
  {
    assert Resolves(b2, k);
    assert Relocates(b2, b3, k, Square(x, y));
    forall o | Resolves(b, o) && o != k && CastlingRook(b, k, x, y) != Some(o)
      ensures Resolves(b3, o) && Get(b3, o).pos == Get(b, o).pos
    {
      assert Resolves(b1, o) && Get(b1, o).pos == Get(b, o).pos;
      assert Resolves(b2, o) && Get(b2, o).pos == Get(b1, o).pos;
    }
  }

  /** Neither step of a king's move clears a `hasMoved` flag. */
  lemma KingMoveKeepsMoved(m: Methods, b: Board, b1: Board, b2: Board, b3: Board, k: PieceRef, x: int, y: int)
    requires MoveAssumption(m)
    requires Resolves(b, k)
    requires b1 == SetMoved(b, k, true)
    requires CastleReady(b1, k, x, y)
    requires b2 == RookAlong(m, b1, k, x, y) && b3 == Step(m, b2, k, x, y)
    ensures KeepsMoved(b, b3)
  {
    assert KeepsMoved(b, b1);
    if rook :| CastlingRook(b1, k, x, y) == Some(rook) {
      RelocatesKeepsMoved(b1, b2, rook, Square((Get(b1, k).pos.x + x) / 2, y));
    }
    KeepsMovedTrans(b, b1, b2);
    assert Resolves(b2, k);
    RelocatesKeepsMoved(b2, b3, k, Square(x, y));
    KeepsMovedTrans(b, b2, b3);
  }

  /** The rook half of a king's `move`: on a move of two files the piece on
      the corner steps to the square the king crosses; otherwise nothing. */
  function RookAlong(m: Methods, b: Board, k: PieceRef, x: int, y: int): (b': Board)
    requires MoveAssumption(m)
    requires Resolves(b, k) && CastleReady(b, k, x, y)
    ensures match CastlingRook(b, k, x, y)
      case Some(rook) => Relocates(b, b', rook, Square((Get(b, k).pos.x + x) / 2, y))
      case None => b' == b
  {
    var from := Get(b, k).pos;
    if Abs(x - from.x) == 2 then
      var direction := if x - from.x < 0 then -1 else 1;
      var rookX := if direction == -1 then 0 else 7;
      var rook := GetPieceAt(b, rookX, y).value;
      Step(m, b, rook, x - direction, y)
    else b
  }
}
