/** `Board.move`: committing the selected piece's move, and the
    select/deselect/move state machine built from it. */
module Play {
  import opened Pieces
  import opened MoveRecord
  import opened Boards
  import opened PieceBase
  import opened KingPiece

  /** The move is recorded as castling: a king moving two files. */
  predicate IsCastle(p: Piece, x: int)
  {
    p.kind == King && Abs(x - p.pos.x) == 2
  }

  /** What `move(x, y)` needs so as not to throw: a selected piece, and for
      a king moving two files a piece other than a king on the corner. */
  predicate CanMove(b: Board, x: int, y: int)
  {
    && b.selected.Some? && Resolves(b, b.selected.value)
    && (Get(b, b.selected.value).kind == King ==> CastleReady(b, b.selected.value, x, y))
  }

  /** Moving `sel` to `(x, y)` moves no pawn: neither `sel` nor a piece a
      king takes along from the corner. */
  predicate NoPawnMoves(b: Board, sel: PieceRef, x: int, y: int)
    requires Resolves(b, sel)
  {
    && Get(b, sel).kind != Pawn
    && (Get(b, sel).kind == King ==>
          match CastlingRook(b, sel, x, y)
          case Some(rook) => Get(b, rook).kind != Pawn
          case None => true)
  }

  /** Moving `sel` to `(x, y)` takes `o` along: `sel` is a king moving two
      files and `o` is the piece on the corner it moves towards. */
  predicate Carries(b: Board, sel: PieceRef, x: int, y: int, o: PieceRef)
    requires Resolves(b, sel)
  {
    Get(b, sel).kind == King && CastlingRook(b, sel, x, y) == Some(o)
  }

  /** `b'` follows from moving `sel` to `(x, y)` as far as the pieces go:
      a corner piece the king takes along lands on the square the king
      crosses, every other piece but `sel` keeps its square, and no
      `hasMoved` flag is cleared. */
  ghost predicate MovesAlong(b: Board, sel: PieceRef, x: int, y: int, b': Board)
    requires Resolves(b, sel)
  {
    && (forall rook :: Carries(b, sel, x, y, rook) ==>
          Resolves(b', rook) && Get(b', rook).pos == Square((Get(b, sel).pos.x + x) / 2, y))
    && (forall o :: Resolves(b, o) && o != sel && !Carries(b, sel, x, y, o) ==>
          Resolves(b', o) && Get(b', o).pos == Get(b, o).pos)
    && KeepsMoved(b, b')
  }

  /** `this.selected.move(x, y)`: a king's own `move`, or the unseen one of
      any other kind. */
  function PieceMove(m: Methods, b: Board, sel: PieceRef, x: int, y: int): (b': Board)
    requires MoveAssumption(m)
    requires Resolves(b, sel)
    requires Get(b, sel).kind == King ==> CastleReady(b, sel, x, y)
    ensures Resolves(b', sel) && Get(b', sel).pos == Square(x, y)
    ensures b'.epoch == b.epoch && b'.turn == b.turn && b'.moves == b.moves
    ensures b'.lastEnPassant == b.lastEnPassant && b'.selected == b.selected
    ensures |b'.whitePieces| == |b.whitePieces| && |b'.blackPieces| == |b.blackPieces|
    ensures NoPawnMoves(b, sel, x, y) ==> b'.enPassant == b.enPassant
  {
    if Get(b, sel).kind == King then KingMove(m, b, sel, x, y) else Step(m, b, sel, x, y)
  }

  /** A piece's move takes along only the corner piece of a castling king,
      leaves every other piece on its square, and clears no `hasMoved` flag. */
  lemma PieceMoveCarries(m: Methods, b: Board, sel: PieceRef, x: int, y: int)
    requires MoveAssumption(m)
    requires Resolves(b, sel)
    requires Get(b, sel).kind == King ==> CastleReady(b, sel, x, y)
    ensures MovesAlong(b, sel, x, y, PieceMove(m, b, sel, x, y))
  {
    if Get(b, sel).kind != King {
      RelocatesKeepsMoved(b, Step(m, b, sel, x, y), sel, Square(x, y));
    }
  }

  /** `move(x, y)`: remembers and clears the en-passant pawn, logs the move
      with the piece on the target square as `taken`, moves the selected
      piece and hands the turn over. The selection is kept. */
  function MoveSelected(m: Methods, b: Board, x: int, y: int): (b': Board)
    requires MoveAssumption(m)
    requires CanMove(b, x, y)
    ensures |b'.moves| == |b.moves| + 1 && b'.moves[..|b.moves|] == b.moves
    ensures var sel := b.selected.value;
      b'.moves[|b.moves|] == Move(sel, Get(b, sel).pos, Square(x, y), GetPieceAt(b, x, y), IsCastle(Get(b, sel), x))
    ensures b'.turn == !b.turn
    ensures b'.lastEnPassant == b.enPassant
    ensures NoPawnMoves(b, b.selected.value, x, y) ==> b'.enPassant.None?
    ensures Resolves(b', b.selected.value) && Get(b', b.selected.value).pos == Square(x, y)
    ensures b'.selected == b.selected && b'.epoch == b.epoch
    ensures |b'.whitePieces| == |b.whitePieces| && |b'.blackPieces| == |b.blackPieces|
  {
    var sel := b.selected.value;
    var p := Get(b, sel);
    var castle := p.kind == King && Abs(x - p.pos.x) == 2;
    var record := NewMove(sel, p.pos, Square(x, y), GetPieceAt(b, x, y), castle);
    var b1 := b.(lastEnPassant := b.enPassant, enPassant := None, moves := b.moves + [record]);
    SameListsSameMove(b, b1, sel, x, y);
    var b2 := PieceMove(m, b1, sel, x, y);
    b2.(turn := !b2.turn)
  }

  /** `move(x, y)` moves the selected piece and, when it is a king moving
      two files, the corner piece to the square the king crosses; every
      other piece stays on its square, and no `hasMoved` flag is cleared. */
  lemma MoveSelectedCarries(m: Methods, b: Board, x: int, y: int)
    requires MoveAssumption(m)
    requires CanMove(b, x, y)
    ensures MovesAlong(b, b.selected.value, x, y, MoveSelected(m, b, x, y))
  {
    var sel := b.selected.value;
    var p := Get(b, sel);
    var record := NewMove(sel, p.pos, Square(x, y), GetPieceAt(b, x, y), p.kind == King && Abs(x - p.pos.x) == 2);
    var b1 := b.(lastEnPassant := b.enPassant, enPassant := None, moves := b.moves + [record]);
    SameListsSameMove(b, b1, sel, x, y);
    var b2 := PieceMove(m, b1, sel, x, y);
    PieceMoveCarries(m, b1, sel, x, y);
    assert MoveSelected(m, b, x, y) == b2.(turn := !b2.turn);
    MoveCarries(b, b1, b2, b2.(turn := !b2.turn), sel, x, y);
  }

  /** What a piece's move promises about the other pieces and the flags
      holds from the board before the log was written to the board after
      the turn flipped. */
  lemma MoveCarries(b: Board, b1: Board, b2: Board, b3: Board, sel: PieceRef, x: int, y: int)
    requires b1.epoch == b.epoch && b1.whitePieces == b.whitePieces && b1.blackPieces == b.blackPieces
    requires Resolves(b, sel) && Resolves(b1, sel)
    requires MovesAlong(b1, sel, x, y, b2)
    requires b3 == b2.(turn := !b2.turn)
    ensures MovesAlong(b, sel, x, y, b3)
  {
    SameListsSameMove(b, b1, sel, x, y);
    assert SideList(b3, true) == SideList(b2, true) && SideList(b3, false) == SideList(b2, false);
    forall rook | Carries(b, sel, x, y, rook)
      ensures Resolves(b3, rook) && Get(b3, rook).pos == Square((Get(b, sel).pos.x + x) / 2, y)
    {
      assert Carries(b1, sel, x, y, rook);
    }
    forall o | Resolves(b, o) && o != sel && !Carries(b, sel, x, y, o)
      ensures Resolves(b3, o) && Get(b3, o).pos == Get(b, o).pos
    {
      assert Resolves(b1, o) && !Carries(b1, sel, x, y, o);
    }
    forall o | Resolves(b, o) && Get(b, o).hasMoved
      ensures Resolves(b3, o) && Get(b3, o).hasMoved
    {
      assert Resolves(b1, o) && Get(b1, o).hasMoved;
    }
  }

  /** Boards with the same piece lists agree on everything a piece's move
      consults. */
  lemma SameListsSameMove(b: Board, b1: Board, sel: PieceRef, x: int, y: int)
    requires b1.epoch == b.epoch && b1.whitePieces == b.whitePieces && b1.blackPieces == b.blackPieces
    requires Resolves(b, sel)
    ensures Resolves(b1, sel) && Get(b1, sel) == Get(b, sel)
    ensures CastlingRook(b1, sel, x, y) == CastlingRook(b, sel, x, y)
    ensures CastleReady(b1, sel, x, y) == CastleReady(b, sel, x, y)
    ensures NoPawnMoves(b1, sel, x, y) == NoPawnMoves(b, sel, x, y)
    ensures forall o :: Resolves(b1, o) == Resolves(b, o)
    ensures forall o :: Resolves(b, o) ==> Get(b1, o) == Get(b, o)
    ensures forall o :: Carries(b1, sel, x, y, o) == Carries(b, sel, x, y, o)
  {
    assert SideList(b1, true) == SideList(b, true) && SideList(b1, false) == SideList(b, false);
    assert forall i, j :: GetPieceAt(b1, i, j) == GetPieceAt(b, i, j);
  }

  /** One call the presentation layer makes on the board. */
  datatype Action = SelectPiece(piece: PieceRef) | DeselectPiece | MoveTo(x: int, y: int)

  /** The board after one call, or `None` where the model holds no such
      call: a piece reference that does not resolve, or a `move` that would
      throw. */
  function Perform(m: Methods, b: Board, a: Action): Option<Board>
    requires MoveAssumption(m)
  {
    match a
    case SelectPiece(piece) => if Resolves(b, piece) then Some(Select(b, piece)) else None
    case DeselectPiece => Some(Deselect(b))
    case MoveTo(x, y) => if CanMove(b, x, y) then Some(MoveSelected(m, b, x, y)) else None
  }

  /** `boards` are the boards a sequence of calls passes through, from the
      first to the last, with every call defined. */
  ghost predicate Session(m: Methods, boards: seq<Board>, actions: seq<Action>)
    requires MoveAssumption(m)
  {
    && |boards| == |actions| + 1
    && forall i :: 0 <= i < |actions| ==> Perform(m, boards[i], actions[i]) == Some(boards[i + 1])
  }

  /** The number of moves among `actions`. */
  function MoveCount(actions: seq<Action>): nat
  {
    if actions == [] then 0
    else MoveCount(actions[..|actions| - 1]) + (if actions[|actions| - 1].MoveTo? then 1 else 0)
  }

  /** `b'` follows `b` by call `a` as far as turn and log go: the turn flips
      and one record is added exactly when `a` is a move, and the records
      already there are kept. */
  ghost predicate TurnsAndLog(b: Board, a: Action, b': Board)
  {
    && b'.turn == (if a.MoveTo? then !b.turn else b.turn)
    && |b'.moves| == |b.moves| + (if a.MoveTo? then 1 else 0)
    && b'.moves[..|b.moves|] == b.moves
  }

  /** One call flips the turn and grows the log by one record exactly when
      it is a move, and never alters the records already there. */
  lemma PerformTurnsAndLog(m: Methods, b: Board, a: Action, b': Board)
    requires MoveAssumption(m)
    requires Perform(m, b, a) == Some(b')
    ensures TurnsAndLog(b, a, b')
  {
  }

  /** Over any session the turn changes once per committed move and never
      otherwise, the log gains exactly one record per move, and earlier
      records are never altered. */
  lemma SessionTurnsAndLog(m: Methods, boards: seq<Board>, actions: seq<Action>)
    requires MoveAssumption(m)
    requires Session(m, boards, actions)
    ensures var first, last := boards[0], boards[|actions|];
      && last.turn == (if MoveCount(actions) % 2 == 0 then first.turn else !first.turn)
      && |last.moves| == |first.moves| + MoveCount(actions)
      && last.moves[..|first.moves|] == first.moves
  {
    forall i | 0 <= i < |actions|
      ensures TurnsAndLog(boards[i], actions[i], boards[i + 1])
    {
      PerformTurnsAndLog(m, boards[i], actions[i], boards[i + 1]);
    }
    TraceTurnsAndLog(boards, actions);
  }

  /** The same over any chain of boards each following the one before. */
  lemma {:induction false} TraceTurnsAndLog(boards: seq<Board>, actions: seq<Action>)
    requires |boards| == |actions| + 1
    requires forall i :: 0 <= i < |actions| ==> TurnsAndLog(boards[i], actions[i], boards[i + 1])
    ensures var first, last := boards[0], boards[|actions|];
      && last.turn == (if MoveCount(actions) % 2 == 0 then first.turn else !first.turn)
      && |last.moves| == |first.moves| + MoveCount(actions)
      && last.moves[..|first.moves|] == first.moves
    decreases |actions|
  {
    if actions != [] {
      var n := |actions| - 1;
      var init := actions[..n];
      TraceTurnsAndLog(boards[..n + 1], init);
      var first, before, last := boards[0], boards[n], boards[n + 1];
      assert TurnsAndLog(before, actions[n], last);
      TurnParity(MoveCount(init), actions[n].MoveTo?, first.turn, before.turn, last.turn);
      PrefixTrans(first.moves, before.moves, last.moves);
    }
  }

  /** No call clears a `hasMoved` flag. */
  lemma PerformKeepsMoved(m: Methods, b: Board, a: Action, b': Board)
    requires MoveAssumption(m)
    requires Perform(m, b, a) == Some(b')
    ensures KeepsMoved(b, b')
  {
    if a.MoveTo? {
      MoveSelectedCarries(m, b, a.x, a.y);
    }
  }

  /** Over any session a piece that has moved keeps counting as moved: only
      a new position load can make a piece castling-eligible again. */
  lemma SessionKeepsMoved(m: Methods, boards: seq<Board>, actions: seq<Action>)
    requires MoveAssumption(m)
    requires Session(m, boards, actions)
    ensures KeepsMoved(boards[0], boards[|actions|])
  {
    forall i | 0 <= i < |actions|
      ensures KeepsMoved(boards[i], boards[i + 1])
    {
      PerformKeepsMoved(m, boards[i], actions[i], boards[i + 1]);
    }
    TraceKeepsMoved(boards);
  }

  /** The same over any chain of boards each keeping the flags of the one
      before. */
  lemma {:induction false} TraceKeepsMoved(boards: seq<Board>)
    requires |boards| >= 1
    requires forall i :: 0 <= i < |boards| - 1 ==> KeepsMoved(boards[i], boards[i + 1])
    ensures KeepsMoved(boards[0], boards[|boards| - 1])
    decreases |boards|
  {
    if |boards| > 1 {
      var n := |boards| - 1;
      TraceKeepsMoved(boards[..n]);
      KeepsMovedTrans(boards[0], boards[n - 1], boards[n]);
    }
  }

  /** Flipping a turn that has flipped `n` times once more, or not. */
  lemma TurnParity(n: nat, flip: bool, t0: bool, t1: bool, t2: bool)
    requires t1 == (if n % 2 == 0 then t0 else !t0)
    requires t2 == (if flip then !t1 else t1)
    ensures t2 == (if (n + (if flip then 1 else 0)) % 2 == 0 then t0 else !t0)
  {
  }

  /** A prefix of a prefix is a prefix. */
  lemma PrefixTrans<T>(s0: seq<T>, s1: seq<T>, s2: seq<T>)
    requires |s0| <= |s1| <= |s2|
    requires s1[..|s0|] == s0 && s2[..|s1|] == s1
    ensures s2[..|s0|] == s0
  {
    assert s2[..|s0|] == s2[..|s1|][..|s0|];
  }

  /** En passant lasts one ply: after two moves that move no pawn the
      remembered pawn is gone from both fields. */
  lemma EnPassantOnePly(m: Methods, b: Board, x1: int, y1: int, x2: int, y2: int)
    requires MoveAssumption(m)
    requires CanMove(b, x1, y1) && NoPawnMoves(b, b.selected.value, x1, y1)
    requires CanMove(MoveSelected(m, b, x1, y1), x2, y2)
    ensures MoveSelected(m, MoveSelected(m, b, x1, y1), x2, y2).lastEnPassant.None?
  {
  }
}
