/** The board object's state, the occupancy query and the selection cursor. */
module Boards {
  import opened Pieces
  import opened MoveRecord

  /** The fields of the board object that the rules read or write. The
      drawing counter `drawnLastMove` is not part of it. */
  datatype Board = Board(
    frozen: bool,
    turn: bool,                     // true: white to move
    whitePieces: seq<Piece>,
    blackPieces: seq<Piece>,
    moves: seq<Move>,               // append-only, in play order
    enPassant: Option<PieceRef>,
    lastEnPassant: Option<PieceRef>,
    selected: Option<PieceRef>,
    epoch: nat)                     // number of position loads so far

  /** The board as its constructor leaves it before loading a position. */
  const Initial := Board(false, true, [], [], [], None, None, None, 0)

  function SideList(b: Board, white: bool): seq<Piece>
  {
    if white then b.whitePieces else b.blackPieces
  }

  /** The reference denotes a piece object currently held by the board. */
  predicate Resolves(b: Board, r: PieceRef)
  {
    r.epoch == b.epoch && r.index < |SideList(b, r.white)|
  }

  function Get(b: Board, r: PieceRef): Piece
    requires Resolves(b, r)
  {
    SideList(b, r.white)[r.index]
  }

  /** Overwrites the `hasMoved` flag of one piece object. */
  function SetMoved(b: Board, r: PieceRef, moved: bool): (b': Board)
    requires Resolves(b, r)
    ensures b'.epoch == b.epoch && b'.turn == b.turn && b'.moves == b.moves
    ensures b'.enPassant == b.enPassant && b'.lastEnPassant == b.lastEnPassant
    ensures b'.selected == b.selected && b'.frozen == b.frozen
    ensures forall w :: |SideList(b', w)| == |SideList(b, w)|
    ensures Get(b', r) == Get(b, r).(hasMoved := moved)
    ensures forall o :: Resolves(b, o) && o != r ==> Get(b', o) == Get(b, o)
  {
    var p := Get(b, r).(hasMoved := moved);
    if r.white then b.(whitePieces := b.whitePieces[r.index := p])
    else b.(blackPieces := b.blackPieces[r.index := p])
  }

  /** The two boards hold the same pieces on the same squares, whatever their
      `hasMoved` flags. */
  ghost predicate SameSquares(b: Board, b': Board)
  {
    && b'.epoch == b.epoch
    && (forall w :: |SideList(b', w)| == |SideList(b, w)|)
    && (forall o :: Resolves(b, o) ==>
          Get(b', o).pos == Get(b, o).pos && Get(b', o).taken == Get(b, o).taken
          && Get(b', o).kind == Get(b, o).kind && Get(b', o).isWhite == Get(b, o).isWhite)
  }

  /** Every piece of `b` that has moved is still held by `b'` and still
      counts as having moved: a set `hasMoved` flag is never cleared. */
  ghost predicate KeepsMoved(b: Board, b': Board)
  {
    forall o :: Resolves(b, o) && Get(b, o).hasMoved ==> Resolves(b', o) && Get(b', o).hasMoved
  }

  lemma KeepsMovedTrans(b1: Board, b2: Board, b3: Board)
    requires KeepsMoved(b1, b2) && KeepsMoved(b2, b3)
    ensures KeepsMoved(b1, b3)
  {
  }

  /** Index of the first piece of `ps` at or after `i` that occupies `sq`. */
  function FindFrom(ps: seq<Piece>, sq: Square, i: nat): (k: Option<nat>)
    requires i <= |ps|
    ensures k.Some? ==> i <= k.value < |ps| && Occupies(ps[k.value], sq)
    ensures k.Some? ==> forall j :: i <= j < k.value ==> !Occupies(ps[j], sq)
    ensures k.None? ==> forall j :: i <= j < |ps| ==> !Occupies(ps[j], sq)
    decreases |ps| - i
  {
    if i == |ps| then None
    else if Occupies(ps[i], sq) then Some(i)
    else FindFrom(ps, sq, i + 1)
  }

  /** Some piece of the board that is not taken stands on `sq`. */
  predicate Occupied(b: Board, sq: Square)
  {
    (exists i :: 0 <= i < |b.whitePieces| && Occupies(b.whitePieces[i], sq))
    || (exists i :: 0 <= i < |b.blackPieces| && Occupies(b.blackPieces[i], sq))
  }

  /** `getPieceAt`: the first piece not taken on `(x, y)`, white pieces
      searched before black ones, or null when the square is empty. */
  function GetPieceAt(b: Board, x: int, y: int): (r: Option<PieceRef>)
    ensures r.None? <==> !Occupied(b, Square(x, y))
    ensures r.Some? ==> Resolves(b, r.value) && Occupies(Get(b, r.value), Square(x, y))
    ensures r.Some? ==> forall j :: 0 <= j < r.value.index ==> !Occupies(SideList(b, r.value.white)[j], Square(x, y))
    ensures r.Some? && !r.value.white ==> forall j :: 0 <= j < |b.whitePieces| ==> !Occupies(b.whitePieces[j], Square(x, y))
  {
    var sq := Square(x, y);
    match FindFrom(b.whitePieces, sq, 0)
    case Some(i) => Some(PieceRef(b.epoch, true, i))
    case None =>
      match FindFrom(b.blackPieces, sq, 0)
      case Some(i) => Some(PieceRef(b.epoch, false, i))
      case None => None
  }

  /** `getPieceAt` finds the only piece not taken on a square. */
  lemma GetPieceAtOnly(b: Board, o: PieceRef, sq: Square)
    requires Resolves(b, o) && Occupies(Get(b, o), sq)
    requires forall o' :: Resolves(b, o') && Occupies(Get(b, o'), sq) ==> o' == o
    ensures GetPieceAt(b, sq.x, sq.y) == Some(o)
  {
    assert SideList(b, o.white)[o.index] == Get(b, o);
    assert Occupied(b, sq);
  }

  /** Moving or re-flagging pieces without changing squares or capture
      flags does not change what `getPieceAt` finds. */
  lemma GetPieceAtSameSquares(b: Board, b': Board, x: int, y: int)
    requires SameSquares(b, b')
    ensures GetPieceAt(b', x, y) == GetPieceAt(b, x, y)
  {
    var sq := Square(x, y);
    assert |SideList(b', true)| == |SideList(b, true)|;
    assert |SideList(b', false)| == |SideList(b, false)|;
    forall w, j | 0 <= j < |SideList(b, w)|
      ensures Occupies(SideList(b', w)[j], sq) == Occupies(SideList(b, w)[j], sq)
    {
      assert Resolves(b, PieceRef(b.epoch, w, j));
    }
    FindFromAgree(b.whitePieces, b'.whitePieces, sq, 0);
    FindFromAgree(b.blackPieces, b'.blackPieces, sq, 0);
  }

  lemma {:induction false} FindFromAgree(ps: seq<Piece>, qs: seq<Piece>, sq: Square, i: nat)
    requires |ps| == |qs| && i <= |ps|
    requires forall j :: 0 <= j < |ps| ==> Occupies(ps[j], sq) == Occupies(qs[j], sq)
    ensures FindFrom(ps, sq, i) == FindFrom(qs, sq, i)
    decreases |ps| - i
  {
    if i < |ps| {
      FindFromAgree(ps, qs, sq, i + 1);
    }
  }

  /** `select`: the piece becomes the selection exactly when the board is
      not frozen and the piece belongs to the side to move; otherwise
      nothing changes. */
  function Select(b: Board, piece: PieceRef): (b': Board)
    requires Resolves(b, piece)
    ensures b'.selected == Some(piece) || b' == b
    ensures b'.selected == Some(piece) <==> (!b.frozen && Get(b, piece).isWhite == b.turn) || b.selected == Some(piece)
    ensures b' == b.(selected := b'.selected)
  {
    if !b.frozen && Get(b, piece).isWhite == b.turn then b.(selected := Some(piece)) else b
  }

  /** `deselect`: clears the selection and nothing else. */
  function Deselect(b: Board): (b': Board)
    ensures b'.selected.None?
    ensures b' == b.(selected := None)
  {
    b.(selected := None)
  }

  /** Selection is a cursor: selecting and deselecting in any order leave
      the game state (turn, pieces, log, en-passant memory) untouched. */
  lemma SelectionKeepsGame(b: Board, piece: PieceRef)
    requires Resolves(b, piece)
    ensures Select(b, piece).(selected := None) == b.(selected := None)
    ensures Deselect(Select(b, piece)) == Deselect(b)
    ensures Select(Select(b, piece), piece) == Select(b, piece)
    ensures Deselect(Deselect(b)) == Deselect(b)
  {
  }
}
