/** The position the board constructor loads, and what `readFEN` makes of
    it: the standard opening array, no warning, and every king, rook and
    pawn unmoved. */
module StartPosition {
  import opened Pieces
  import opened Boards
  import opened Fen

  /** The placement field of the start position, rank 0 (black's back
      rank) first. */
  const StartPlacement := "rnbqkbnr" + "/" + "pppppppp" + "/" + "8" + "/" + "8" + "/" + "8" + "/" + "8" + "/" + "PPPPPPPP" + "/" + "RNBQKBNR"

  /** The six fields of the start position. Joined with single spaces they
      spell `rnbqkbnr/pppppppp/8/8/8/8/PPPPPPPP/RNBQKBNR w KQkq - 0 1`. */
  const StartFields: seq<string> := [StartPlacement, "w", "KQkq", "-", "0", "1"]

  /** `startFEN`, the position the constructor loads. */
  const StartFen := Join(StartFields)

  /** Splitting the start position gives back its six fields. */
  lemma StartFenFields()
    ensures Split(StartFen) == StartFields
  {
    assert ' ' !in StartPlacement;
    SplitJoin(StartFields);
  }

  /** The white pieces of the start position: pawns on rank 6, then the back
      rank on rank 7, each row from file 0 up. */
  function WhiteStart(ctorMoved: Kind -> bool): seq<Piece>
  {
    assert PieceLetters("PPPPPPPP", true) && PieceLetters("RNBQKBNR", true);
    RowPieces("PPPPPPPP", true, 0, 6, ctorMoved) + RowPieces("RNBQKBNR", true, 0, 7, ctorMoved)
  }

  /** The black pieces: the back rank on rank 0, then pawns on rank 1. */
  function BlackStart(ctorMoved: Kind -> bool): seq<Piece>
  {
    assert PieceLetters("rnbqkbnr", false) && PieceLetters("pppppppp", false);
    RowPieces("rnbqkbnr", false, 0, 0, ctorMoved) + RowPieces("pppppppp", false, 0, 1, ctorMoved)
  }

  lemma ScanSlash(c: Cursor, p: string, row: string, ctorMoved: Kind -> bool)
    ensures Scan(c, p + "/" + row, ctorMoved) == Scan(Scan(c, p, ctorMoved).(file := 0, rank := Scan(c, p, ctorMoved).rank + 1), row, ctorMoved)
  {
    ScanAppend(c, p + "/", row, ctorMoved);
    ScanAppend(c, p, "/", ctorMoved);
    assert "/"[..0] == [];
  }

  lemma ScanEmptyRow(c: Cursor, ctorMoved: Kind -> bool)
    ensures Scan(c, "8", ctorMoved) == c.(file := c.file + 8)
  {
    assert "8"[..0] == [];
  }

  lemma ScanRow(c: Cursor, row: string, white: bool, ctorMoved: Kind -> bool)
    requires PieceLetters(row, white)
    ensures Scan(c, row, ctorMoved) == Cursor(
      if white then c.board.(whitePieces := c.board.whitePieces + RowPieces(row, white, c.file, c.rank, ctorMoved))
      else c.board.(blackPieces := c.board.blackPieces + RowPieces(row, white, c.file, c.rank, ctorMoved)),
      c.file + |row|, c.rank)
  {
    ScanLetters(c, row, white, ctorMoved);
  }

  lemma StartRowLetters()
    ensures PieceLetters("rnbqkbnr", false) && PieceLetters("pppppppp", false)
    ensures PieceLetters("PPPPPPPP", true) && PieceLetters("RNBQKBNR", true)
  {
  }

  /** Four empty ranks: the rank moves on by four and the file ends at 8. */
  lemma ScanEmptyRows(c: Cursor, p: string, ctorMoved: Kind -> bool)
    ensures var mid := Scan(c, p, ctorMoved);
      Scan(c, p + "/" + "8" + "/" + "8" + "/" + "8" + "/" + "8", ctorMoved) == mid.(file := 8, rank := mid.rank + 4)
  {
    var f := ctorMoved;
    var mid := Scan(c, p, f);
    var p3 := p + "/" + "8";
    var p4 := p3 + "/" + "8";
    var p5 := p4 + "/" + "8";
    ScanSlash(c, p, "8", f);
    ScanEmptyRow(mid.(file := 0, rank := mid.rank + 1), f);
    ScanSlash(c, p3, "8", f);
    ScanEmptyRow(mid.(file := 0, rank := mid.rank + 2), f);
    ScanSlash(c, p4, "8", f);
    ScanEmptyRow(mid.(file := 0, rank := mid.rank + 3), f);
    ScanSlash(c, p5, "8", f);
    ScanEmptyRow(mid.(file := 0, rank := mid.rank + 4), f);
  }

  /** A row of piece letters after a `/`: placed from file 0 of the next rank. */
  lemma ScanNextRow(c: Cursor, p: string, row: string, white: bool, ctorMoved: Kind -> bool)
    requires PieceLetters(row, white)
    ensures var mid := Scan(c, p, ctorMoved);
      var bd := mid.board;
      var ps := RowPieces(row, white, 0, mid.rank + 1, ctorMoved);
      Scan(c, p + "/" + row, ctorMoved) == Cursor(
        if white then bd.(whitePieces := bd.whitePieces + ps) else bd.(blackPieces := bd.blackPieces + ps),
        |row|, mid.rank + 1)
  {
    var mid := Scan(c, p, ctorMoved);
    ScanSlash(c, p, row, ctorMoved);
    ScanRow(mid.(file := 0, rank := mid.rank + 1), row, white, ctorMoved);
  }

  /** The two white rows close the placement, on ranks 6 and 7. */
  lemma ScanWhiteRows(c: Cursor, p: string, ctorMoved: Kind -> bool)
    requires Scan(c, p, ctorMoved).rank == 5
    ensures var bd := Scan(c, p, ctorMoved).board;
      Scan(c, p + "/" + "PPPPPPPP" + "/" + "RNBQKBNR", ctorMoved)
        == Cursor(bd.(whitePieces := bd.whitePieces + WhiteStart(ctorMoved)), 8, 7)
  {
    var f := ctorMoved;
    StartRowLetters();
    var mid := Scan(c, p, f);
    var bd := mid.board;
    var w7 := RowPieces("PPPPPPPP", true, 0, mid.rank + 1, f);
    ScanNextRow(c, p, "PPPPPPPP", true, f);
    ScanNextRow(c, p + "/" + "PPPPPPPP", "RNBQKBNR", true, f);
    var w8 := RowPieces("RNBQKBNR", true, 0, mid.rank + 2, f);
    assert bd.whitePieces + w7 + w8 == bd.whitePieces + (w7 + w8);
  }

  /** The two black rows open the placement. */
  lemma ScanBlackRows(bd: Board, ctorMoved: Kind -> bool)
    ensures Scan(Cursor(bd, 0, 0), "rnbqkbnr" + "/" + "pppppppp", ctorMoved)
      == Cursor(bd.(blackPieces := bd.blackPieces + BlackStart(ctorMoved)), 8, 1)
  {
    var f := ctorMoved;
    StartRowLetters();
    var c0 := Cursor(bd, 0, 0);
    var r1 := RowPieces("rnbqkbnr", false, 0, 0, f);
    var r2 := RowPieces("pppppppp", false, 0, 1, f);
    ScanRow(c0, "rnbqkbnr", false, f);
    var b1 := bd.(blackPieces := bd.blackPieces + r1);
    ScanSlash(c0, "rnbqkbnr", "pppppppp", f);
    ScanRow(Cursor(b1, 0, 1), "pppppppp", false, f);
    assert BlackStart(f) == r1 + r2;
    assert bd.blackPieces + r1 + r2 == bd.blackPieces + (r1 + r2);
  }

  lemma StartScan(bd: Board, ctorMoved: Kind -> bool)
    ensures Scan(Cursor(bd, 0, 0), StartPlacement, ctorMoved)
      == Cursor(bd.(whitePieces := bd.whitePieces + WhiteStart(ctorMoved),
                    blackPieces := bd.blackPieces + BlackStart(ctorMoved)), 8, 7)
  {
    var f := ctorMoved;
    StartRowLetters();
    var c0 := Cursor(bd, 0, 0);
    var p2 := "rnbqkbnr" + "/" + "pppppppp";
    var p6 := p2 + "/" + "8" + "/" + "8" + "/" + "8" + "/" + "8";
    ScanBlackRows(bd, f);
    ScanEmptyRows(c0, p2, f);
    ScanWhiteRows(c0, p6, f);
  }

  const BackRank: seq<Kind> := [Rook, Knight, Bishop, Queen, King, Bishop, Knight, Rook]

  /** A piece of the given kind and side, not taken, on `(x, y)`. */
  predicate StartsAs(p: Piece, kind: Kind, white: bool, x: int, y: int)
  {
    p.kind == kind && p.isWhite == white && p.pos == Square(x, y) && !p.taken
  }

  lemma WhiteStartPieces(f: Kind -> bool)
    ensures |WhiteStart(f)| == 16
    ensures forall i :: 0 <= i < 8 ==> StartsAs(WhiteStart(f)[i], Pawn, true, i, 6) && !WhiteStart(f)[i].hasMoved
    ensures forall i :: 8 <= i < 16 ==> StartsAs(WhiteStart(f)[i], BackRank[i - 8], true, i - 8, 7)
  {
    StartRowLetters();
  }

  lemma BlackStartPieces(f: Kind -> bool)
    ensures |BlackStart(f)| == 16
    ensures forall i :: 0 <= i < 8 ==> StartsAs(BlackStart(f)[i], BackRank[i], false, i, 0)
    ensures forall i :: 8 <= i < 16 ==> StartsAs(BlackStart(f)[i], Pawn, false, i - 8, 1) && !BlackStart(f)[i].hasMoved
  {
    StartRowLetters();
  }

  /** The board once the start placement and side to move are read. */
  function StartLoaded(b: Board, f: Kind -> bool): Board
  {
    b.(whitePieces := WhiteStart(f), blackPieces := BlackStart(f), epoch := b.epoch + 1, turn := true)
  }

  /** The square the start placement puts piece `i` of a side on. */
  function StartSquare(white: bool, i: nat): Square
  {
    var x := if i < 8 then i else i - 8;
    if white then Square(x, if i < 8 then 6 else 7) else Square(x, if i < 8 then 0 else 1)
  }

  lemma StartLoadedSquares(b: Board, f: Kind -> bool)
    ensures var sb := StartLoaded(b, f);
      && |sb.whitePieces| == 16 && |sb.blackPieces| == 16
      && forall o :: Resolves(sb, o) ==> Get(sb, o).pos == StartSquare(o.white, o.index) && !Get(sb, o).taken
  {
    WhiteStartPieces(f);
    BlackStartPieces(f);
  }

  /** On the start board `getPieceAt` finds the piece the start placement
      put on a square. */
  lemma StartFinds(b: Board, f: Kind -> bool, o: PieceRef)
    requires Resolves(StartLoaded(b, f), o)
    ensures var sq := StartSquare(o.white, o.index);
      GetPieceAt(StartLoaded(b, f), sq.x, sq.y) == Some(o)
  {
    var sb := StartLoaded(b, f);
    StartLoadedSquares(b, f);
    var sq := StartSquare(o.white, o.index);
    forall o' | Resolves(sb, o') && Occupies(Get(sb, o'), sq) ensures o' == o {
    }
    GetPieceAtOnly(sb, o, sq);
  }

  lemma StartLengths(f: Kind -> bool)
    ensures |WhiteStart(f)| == 16 && |BlackStart(f)| == 16
  {
  }

  /** Letter `c` finds the two start pieces standing on the squares it
      addresses, and releases both. */
  lemma StartLetter(b: Board, f: Kind -> bool, c: char, rook: PieceRef, king: PieceRef)
    requires Resolves(StartLoaded(b, f), rook) && Resolves(StartLoaded(b, f), king)
    requires StartSquare(rook.white, rook.index) == CastleCorner(c)
    requires StartSquare(king.white, king.index) == Square(4, CastleCorner(c).y)
    ensures CastleFound(StartLoaded(b, f), c)
    ensures Releases(StartLoaded(b, f), c, rook) && Releases(StartLoaded(b, f), c, king)
  {
    StartFinds(b, f, rook);
    StartFinds(b, f, king);
  }

  /** The start board's kings and rooks are the six pieces on the castling
      squares. */
  lemma StartKingsRooks(b: Board, f: Kind -> bool, o: PieceRef)
    requires Resolves(StartLoaded(b, f), o) && Get(StartLoaded(b, f), o).kind in {King, Rook}
    ensures o in KingsAndRooks(b.epoch + 1)
  {
    WhiteStartPieces(f);
    BlackStartPieces(f);
  }

  /** The rook and the king letter `i` of `KQkq` addresses on the start board. */
  function CastleRook(e: nat, i: nat): PieceRef
    requires i < 4
  {
    [PieceRef(e, true, 15), PieceRef(e, false, 7), PieceRef(e, true, 8), PieceRef(e, false, 0)][i]
  }

  function CastleKing(e: nat, i: nat): PieceRef
  {
    if i % 2 == 0 then PieceRef(e, true, 12) else PieceRef(e, false, 4)
  }

  /** Letter `i` of `KQkq` finds its rook and king on the start board. */
  lemma StartLetterAt(b: Board, f: Kind -> bool, i: nat)
    requires i < 4
    ensures var sb, c, e := StartLoaded(b, f), "KQkq"[i], b.epoch + 1;
      && CastleFound(sb, c) && Releases(sb, c, CastleRook(e, i)) && Releases(sb, c, CastleKing(e, i))
      && Released(sb, "KQkq", CastleRook(e, i)) && Released(sb, "KQkq", CastleKing(e, i))
  {
    CastleCorners();
    StartLengths(f);
    var s := "KQkq";
    var e := b.epoch + 1;
    if i == 0 {
      StartLetter(b, f, s[0], CastleRook(e, 0), CastleKing(e, 0));
    } else if i == 1 {
      StartLetter(b, f, s[1], CastleRook(e, 1), CastleKing(e, 1));
    } else if i == 2 {
      StartLetter(b, f, s[2], CastleRook(e, 2), CastleKing(e, 2));
    } else {
      StartLetter(b, f, s[3], CastleRook(e, 3), CastleKing(e, 3));
    }
  }

  /** The six start kings and rooks, as refs. */
  function KingsAndRooks(e: nat): set<PieceRef>
  {
    {CastleRook(e, 0), CastleRook(e, 1), CastleRook(e, 2), CastleRook(e, 3), CastleKing(e, 0), CastleKing(e, 1)}
  }

  /** Each of them is released by a letter of `KQkq`. */
  lemma KingsAndRooksReleased(b: Board, f: Kind -> bool, o: PieceRef)
    requires o in KingsAndRooks(b.epoch + 1)
    ensures Released(StartLoaded(b, f), "KQkq", o)
  {
    var e := b.epoch + 1;
    if o == CastleRook(e, 0) || o == CastleKing(e, 0) {
      StartLetterAt(b, f, 0);
    } else if o == CastleRook(e, 1) || o == CastleKing(e, 1) {
      StartLetterAt(b, f, 1);
    } else if o == CastleRook(e, 2) {
      StartLetterAt(b, f, 2);
    } else {
      assert o == CastleRook(e, 3);
      StartLetterAt(b, f, 3);
    }
  }

  /** Every letter of `KQkq` finds its pieces on the start board. */
  lemma StartLettersFound(b: Board, f: Kind -> bool)
    ensures forall i :: 0 <= i < 4 ==> CastleFound(StartLoaded(b, f), "KQkq"[i])
  {
    forall i | 0 <= i < 4
      ensures CastleFound(StartLoaded(b, f), "KQkq"[i])
    {
      StartLetterAt(b, f, i);
    }
  }

  /** The start board's pawns have not moved. */
  lemma StartPawnsUnmoved(b: Board, f: Kind -> bool, o: PieceRef)
    requires Resolves(StartLoaded(b, f), o) && Get(StartLoaded(b, f), o).kind == Pawn
    ensures !Get(StartLoaded(b, f), o).hasMoved
  {
    WhiteStartPieces(f);
    BlackStartPieces(f);
  }

  /** The castling field `KQkq` on the start board: no warning, and every
      king, rook and pawn ends up unmoved. */
  lemma StartCastling(b: Board, f: Kind -> bool)
    ensures var sb := StartLoaded(b, f); var c := CastleLetters(sb, "KQkq");
      && c.warnings == []
      && SameSquares(sb, c.board)
      && c.board == sb.(whitePieces := c.board.whitePieces, blackPieces := c.board.blackPieces)
      && forall o :: Resolves(sb, o) && Get(sb, o).kind in {King, Rook, Pawn} ==> !Get(c.board, o).hasMoved
  {
    var sb := StartLoaded(b, f);
    var s := "KQkq";
    CastleLettersSpec(sb, s);
    StartLettersFound(b, f);
    RejectedEmpty(sb, s);
    var c := CastleLetters(sb, s).board;
    forall o | Resolves(sb, o) && Get(sb, o).kind in {King, Rook, Pawn}
      ensures !Get(c, o).hasMoved
    {
      if Get(sb, o).kind == Pawn {
        StartPawnsUnmoved(b, f, o);
      } else {
        StartKingsRooks(b, f, o);
        KingsAndRooksReleased(b, f, o);
      }
    }
  }

  /** The placement field of the start position places exactly the start
      pieces. */
  lemma StartPlaced(b: Board, f: Kind -> bool)
    ensures Placed(StartPlacement, true, f) == WhiteStart(f)
    ensures Placed(StartPlacement, false, f) == BlackStart(f)
  {
    var cleared := b.(whitePieces := [], blackPieces := []);
    ScanPlacesCleared(cleared, StartPlacement, f);
    StartScan(cleared, f);
    assert [] + WhiteStart(f) == WhiteStart(f) && [] + BlackStart(f) == BlackStart(f);
  }

  /** Sixteen pieces a side in the standard opening array: pawns on ranks 6
      (white) and 1 (black), back ranks on 7 and 0, none taken. */
  predicate StartArray(bd: Board)
  {
    && |bd.whitePieces| == 16 && |bd.blackPieces| == 16
    && (forall i :: 0 <= i < 8 ==> StartsAs(bd.whitePieces[i], Pawn, true, i, 6))
    && (forall i :: 8 <= i < 16 ==> StartsAs(bd.whitePieces[i], BackRank[i - 8], true, i - 8, 7))
    && (forall i :: 0 <= i < 8 ==> StartsAs(bd.blackPieces[i], BackRank[i], false, i, 0))
    && (forall i :: 8 <= i < 16 ==> StartsAs(bd.blackPieces[i], Pawn, false, i - 8, 1))
  }

  /** No king, rook or pawn counts as having moved. */
  ghost predicate NothingMoved(bd: Board)
  {
    forall o :: Resolves(bd, o) && Get(bd, o).kind in {King, Rook, Pawn} ==> !Get(bd, o).hasMoved
  }

  /** `readFEN(startFEN)` on any board: no warning, white to move, the
      standard opening array with every king, rook and pawn unmoved, and the
      log, selection and en-passant fields untouched. */
  lemma ReadStartFen(b: Board, f: Kind -> bool)
    ensures |Split(StartFen)| >= 4
    ensures var r := ReadFen(b, StartFen, f); var bd := r.board;
      && r.warnings == []
      && bd == b.(whitePieces := bd.whitePieces, blackPieces := bd.blackPieces, epoch := b.epoch + 1, turn := true)
      && StartArray(bd) && NothingMoved(bd)
  {
    StartFenFields();
    StartFenSteps(b, f);
    StartBoard(b, f);
  }

  /** The board the castling letters leave on the start board. */
  lemma StartBoard(b: Board, f: Kind -> bool)
    ensures var c := CastleLetters(StartLoaded(b, f), "KQkq"); var bd := c.board;
      && c.warnings == []
      && bd == b.(whitePieces := bd.whitePieces, blackPieces := bd.blackPieces, epoch := b.epoch + 1, turn := true)
      && StartArray(bd) && NothingMoved(bd)
  {
    StartCastling(b, f);
    var sb := StartLoaded(b, f);
    var bd := CastleLetters(sb, "KQkq").board;
    StartLayout(b, f, bd);
    assert SameSquares(sb, bd);
    forall o | Resolves(bd, o) && Get(bd, o).kind in {King, Rook, Pawn}
      ensures !Get(bd, o).hasMoved
    {
      assert Resolves(sb, o);
    }
  }

  /** `readFEN(startFEN)` reads the start pieces and white to move, then
      applies the castling letters `KQkq`; the dash changes nothing. */
  lemma StartFenSteps(b: Board, f: Kind -> bool)
    ensures |Split(StartFen)| >= 4
    ensures var c := CastleLetters(StartLoaded(b, f), "KQkq");
      ReadFen(b, StartFen, f) == Loaded(c.board, c.warnings)
  {
    StartFenFields();
    StartPlaced(b, f);
    var sb := StartLoaded(b, f);
    assert LoadPlacement(b, StartPlacement, f).(turn := StartFields[1] == "w") == sb;
    var c := CastleLetters(sb, "KQkq");
    assert Castling(sb, StartFields[2]) == c;
    assert EnPassantField(c.board, StartFields[3]) == Loaded(c.board, []);
    assert c.warnings + [] == c.warnings;
  }

  /** Boards whose pieces differ from the start board's only in their
      `hasMoved` flags show the start layout. */
  lemma StartLayout(b: Board, f: Kind -> bool, bd: Board)
    requires SameSquares(StartLoaded(b, f), bd)
    ensures StartArray(bd)
  {
    var sb := StartLoaded(b, f);
    WhiteStartPieces(f);
    BlackStartPieces(f);
    assert |SideList(bd, true)| == 16 && |SideList(bd, false)| == 16;
    forall w, i | 0 <= i < 16
      ensures SideList(bd, w)[i].kind == SideList(sb, w)[i].kind && SideList(bd, w)[i].isWhite == SideList(sb, w)[i].isWhite
      ensures SideList(bd, w)[i].pos == SideList(sb, w)[i].pos && SideList(bd, w)[i].taken == SideList(sb, w)[i].taken
    {
      assert Resolves(sb, PieceRef(sb.epoch, w, i));
    }
  }

  /** `new Board()`: the constructor's fields, then `readFEN(startFEN)`. */
  function NewBoard(ctorMoved: Kind -> bool): (r: Loaded)
    ensures r.warnings == []
    ensures r.board.turn && !r.board.frozen && r.board.moves == []
    ensures r.board.enPassant.None? && r.board.lastEnPassant.None? && r.board.selected.None?
    ensures StartArray(r.board) && NothingMoved(r.board)
  {
    ReadStartFen(Initial, ctorMoved);
    ReadFen(Initial, StartFen, ctorMoved)
  }
}
