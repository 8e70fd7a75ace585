/** `readFEN` and its helpers: loading a position written in Forsyth-Edwards
    Notation (section 16.1 of the PGN Standard) the way the board does it. */
module Fen {
  import opened Pieces
  import opened Boards
  import opened KingPiece

  /** The two spellings of an empty field: hyphen and en dash. */
  predicate IsDash(field: string)
  {
    field == "-" || field == "–"
  }

  /** A message the loader logs and then carries on. */
  datatype Warning = InvalidCastling(letter: char) | InvalidEnPassant(field: string)

  /** The board after a load step, with the messages logged so far. */
  datatype Loaded = Loaded(board: Board, warnings: seq<Warning>)

  // ---------------------------------------------------------------- fields

  /** The fields joined back with single spaces. */
  function Join(fields: seq<string>): string
    requires |fields| >= 1
  {
    if |fields| == 1 then fields[0] else fields[0] + " " + Join(fields[1..])
  }

  /** `split(' ')`: the maximal space-free pieces between single spaces,
      empty ones included. */
  function Split(s: string): (fields: seq<string>)
    ensures |fields| >= 1
  {
    if s == [] then [[]]
    else
      var rest := Split(s[1..]);
      if s[0] == ' ' then [[]] + rest
      else [[s[0]] + rest[0]] + rest[1..]
  }

  /** The fields hold no space, and joining them with single spaces gives
      back the string. */
  lemma {:induction false} SplitFields(s: string)
    ensures forall i :: 0 <= i < |Split(s)| ==> ' ' !in Split(s)[i]
    ensures Join(Split(s)) == s
    decreases |s|
  {
    if s != [] {
      SplitFields(s[1..]);
      var rest := Split(s[1..]);
      if s[0] == ' ' {
        assert Split(s) == [[]] + rest;
        assert Split(s)[1..] == rest;
        assert s == [] + " " + s[1..];
      } else {
        var fields := Split(s);
        assert fields == [[s[0]] + rest[0]] + rest[1..];
        assert fields[1..] == rest[1..];
        assert forall i :: 1 <= i < |fields| ==> fields[i] == rest[i];
        if |rest| > 1 {
          assert Join(rest) == rest[0] + " " + Join(rest[1..]);
          assert Join(fields) == [s[0]] + rest[0] + " " + Join(rest[1..]);
        } else {
          assert Join(fields) == [s[0]] + rest[0];
        }
        assert s == [s[0]] + s[1..];
      }
    }
  }

  lemma {:induction false} SplitPrefix(a: string, t: string)
    requires ' ' !in a
    ensures Split(a + t) == [a + Split(t)[0]] + Split(t)[1..]
    decreases |a|
  {
    if a != [] {
      assert (a + t)[0] == a[0] && (a + t)[1..] == a[1..] + t;
      assert ' ' !in a[1..];
      assert a[0] in a;
      SplitPrefix(a[1..], t);
      var rest := Split(a[1..] + t);
      assert rest[0] == a[1..] + Split(t)[0] && rest[1..] == Split(t)[1..];
      var s := a + t;
      assert s != [] && s[0] != ' ';
      assert Split(s) == [[s[0]] + Split(s[1..])[0]] + Split(s[1..])[1..];
      assert [a[0]] + (a[1..] + Split(t)[0]) == a + Split(t)[0];
    } else {
      assert a + t == t && a + Split(t)[0] == Split(t)[0];
      assert Split(t) == [Split(t)[0]] + Split(t)[1..];
    }
  }

  /** A leading space ends an empty first field. */
  lemma SplitLeadingSpace(u: string)
    ensures Split(" " + u) == [[]] + Split(u)
  {
    var t := " " + u;
    assert t[0] == ' ' && t[1..] == u;
  }

  /** A space-free field followed by a space splits off as one field. */
  lemma SplitSpace(a: string, u: string)
    requires ' ' !in a
    ensures Split(a + " " + u) == [a] + Split(u)
  {
    var t := " " + u;
    SplitLeadingSpace(u);
    var st := Split(t);
    assert st[0] == [] && st[1..] == Split(u);
    SplitPrefix(a, t);
    calc {
      Split(a + " " + u);
      { assert a + " " + u == a + t; }
      Split(a + t);
      [a + st[0]] + st[1..];
      { assert a + st[0] == a; }
      [a] + Split(u);
    }
  }

  /** Splitting undoes joining for fields without spaces. */
  lemma {:induction false} SplitJoin(fields: seq<string>)
    requires |fields| >= 1
    requires forall i :: 0 <= i < |fields| ==> ' ' !in fields[i]
    ensures Split(Join(fields)) == fields
    decreases |fields|
  {
    if |fields| == 1 {
      SplitPrefix(fields[0], []);
      assert fields[0] + [] == fields[0];
    } else {
      SplitJoin(fields[1..]);
      SplitSpace(fields[0], Join(fields[1..]));
      assert fields == [fields[0]] + fields[1..];
    }
  }

  // ---------------------------------------------------------------- characters

  predicate IsDigit(c: char)
  {
    '0' <= c <= '9'
  }

  function DigitValue(c: char): nat
    requires IsDigit(c)
  {
    c as int - '0' as int
  }

  /** `c == c.toUpperCase()`, for ASCII: everything but a lower-case letter. */
  predicate IsUpperCase(c: char)
  {
    !('a' <= c <= 'z')
  }

  /** `c.toLowerCase()`, for ASCII. */
  function ToLower(c: char): (l: char)
    ensures IsUpperCase(c) || l == c
  {
    if 'A' <= c <= 'Z' then (c as int + 32) as char else c
  }

  /** The piece letters `addPiece` knows. */
  function KindOf(t: char): Option<Kind>
  {
    match t
    case 'k' => Some(King)
    case 'q' => Some(Queen)
    case 'b' => Some(Bishop)
    case 'n' => Some(Knight)
    case 'r' => Some(Rook)
    case 'p' => Some(Pawn)
    case _ => None
  }

  // ---------------------------------------------------------------- addPiece

  /** The piece object `addPiece` constructs for a lower-case letter `t`.
      `ctorMoved` is the `hasMoved` the queen, bishop, knight and rook
      constructors give (their code is not part of this model). */
  function Construct(t: char, isWhite: bool, file: int, rank: int, ctorMoved: Kind -> bool): (p: Option<Piece>)
    ensures p.Some? <==> KindOf(t).Some?
    ensures p.Some? ==> p.value.kind == KindOf(t).value && p.value.isWhite == isWhite
    ensures p.Some? ==> p.value.pos == Square(file, rank) && !p.value.taken
    ensures t == 'k' ==> p.value.hasMoved
    ensures t == 'p' ==> (!p.value.hasMoved <==> (isWhite && rank == 6) || (!isWhite && rank == 1))
  {
    match t
    case 'k' => Some(NewKing(file, rank, isWhite))
    case 'q' => Some(NewPiece(Queen, file, rank, isWhite, ctorMoved(Queen)))
    case 'b' => Some(NewPiece(Bishop, file, rank, isWhite, ctorMoved(Bishop)))
    case 'n' => Some(NewPiece(Knight, file, rank, isWhite, ctorMoved(Knight)))
    case 'r' => Some(NewPiece(Rook, file, rank, isWhite, ctorMoved(Rook)))
    case 'p' =>
      var hasMoved := if isWhite then rank != 6 else rank != 1;
      Some(NewPiece(Pawn, file, rank, isWhite, hasMoved))
    case _ => None
  }

  /** `addPiece`: appends the constructed piece to the list of its side;
      an unknown letter adds nothing. */
  function AddPiece(b: Board, t: char, isWhite: bool, file: int, rank: int, ctorMoved: Kind -> bool): (b': Board)
    ensures KindOf(t).None? ==> b' == b
    ensures KindOf(t).Some? ==>
      && SideList(b', isWhite) == SideList(b, isWhite) + [Construct(t, isWhite, file, rank, ctorMoved).value]
      && SideList(b', !isWhite) == SideList(b, !isWhite)
    ensures b' == b.(whitePieces := b'.whitePieces, blackPieces := b'.blackPieces)
  {
    match Construct(t, isWhite, file, rank, ctorMoved)
    case None => b
    case Some(p) =>
      if isWhite then b.(whitePieces := b.whitePieces + [p])
      else b.(blackPieces := b.blackPieces + [p])
  }

  // ---------------------------------------------------------------- placement

  /** The placement scan's state: the board and the `(file, rank)` cursor. */
  datatype Cursor = Cursor(board: Board, file: int, rank: int)

  /** One character of the placement field. */
  function ScanChar(c: Cursor, ch: char, ctorMoved: Kind -> bool): (c': Cursor)
    ensures ch == '/' ==> c' == Cursor(c.board, 0, c.rank + 1)
    ensures IsDigit(ch) ==> c' == Cursor(c.board, c.file + DigitValue(ch), c.rank)
    ensures ch != '/' && !IsDigit(ch) ==>
      c' == Cursor(AddPiece(c.board, ToLower(ch), IsUpperCase(ch), c.file, c.rank, ctorMoved), c.file + 1, c.rank)
  {
    if ch == '/' then c.(file := 0, rank := c.rank + 1)
    else if IsDigit(ch) then c.(file := c.file + DigitValue(ch))
    else
      var colourWhite := IsUpperCase(ch);
      var t := ToLower(ch);
      Cursor(AddPiece(c.board, t, colourWhite, c.file, c.rank, ctorMoved), c.file + 1, c.rank)
  }

  /** The scan state after the characters of `p`, read left to right. */
  function Scan(c: Cursor, p: string, ctorMoved: Kind -> bool): Cursor
    decreases |p|
  {
    if p == [] then c else ScanChar(Scan(c, p[..|p| - 1], ctorMoved), p[|p| - 1], ctorMoved)
  }

  /** Number of rank separators in `p`. */
  function Slashes(p: string): nat
  {
    multiset(p)['/']
  }

  /** How far a character other than `/` moves the file: its value for a
      digit, one otherwise. */
  function Advance(ch: char): nat
  {
    if IsDigit(ch) then DigitValue(ch) else 1
  }

  function Advances(s: string): nat
  {
    if s == [] then 0 else Advances(s[..|s| - 1]) + Advance(s[|s| - 1])
  }

  /** Where the current rank of `p` begins: just after its last `/`. */
  function RowStart(p: string): (j: nat)
    ensures j <= |p| && '/' !in p[j..]
    ensures j == 0 || p[j - 1] == '/'
  {
    if p == [] then 0
    else if p[|p| - 1] == '/' then |p|
    else
      var j := RowStart(p[..|p| - 1]);
      assert p[j..] == p[..|p| - 1][j..] + [p[|p| - 1]];
      j
  }

  /** The square the character following `p` is read on. */
  function SquareAfter(p: string): Square
  {
    Square(Advances(p[RowStart(p)..]), Slashes(p))
  }

  /** The pieces of one side the placement `p` describes, in reading
      order: each known piece letter of that case, on the square it is read at. */
  function Placed(p: string, white: bool, ctorMoved: Kind -> bool): seq<Piece>
    decreases |p|
  {
    if p == [] then []
    else
      var q, ch := p[..|p| - 1], p[|p| - 1];
      var sq := SquareAfter(q);
      var t := ToLower(ch);
      var here :=
        if ch != '/' && !IsDigit(ch) && IsUpperCase(ch) == white && KindOf(t).Some?
        then [Construct(t, white, sq.x, sq.y, ctorMoved).value] else [];
      Placed(q, white, ctorMoved) + here
  }

  /** The scan's cursor after `p`: the rank is the number of `/` read, the
      file the sum of the advances since the last one. */
  lemma {:induction false} ScanCursor(b: Board, p: string, ctorMoved: Kind -> bool)
    ensures Scan(Cursor(b, 0, 0), p, ctorMoved).rank == SquareAfter(p).y
    ensures Scan(Cursor(b, 0, 0), p, ctorMoved).file == SquareAfter(p).x
    decreases |p|
  {
    if p != [] {
      var q, ch := p[..|p| - 1], p[|p| - 1];
      assert p == q + [ch];
      ScanCursor(b, q, ctorMoved);
      assert multiset(p) == multiset(q) + multiset{ch};
      if ch != '/' {
        var j := RowStart(q);
        assert RowStart(p) == j;
        assert p[j..][..|p[j..]| - 1] == q[j..];
      }
    }
  }

  /** The scan appends exactly the pieces `Placed` describes, white ones to
      the white list and black ones to the black list. */
  lemma {:induction false} ScanPlaces(b: Board, p: string, ctorMoved: Kind -> bool)
    ensures Scan(Cursor(b, 0, 0), p, ctorMoved).board
      == b.(whitePieces := b.whitePieces + Placed(p, true, ctorMoved),
            blackPieces := b.blackPieces + Placed(p, false, ctorMoved))
    decreases |p|
  {
    if p != [] {
      var q := p[..|p| - 1];
      ScanPlaces(b, q, ctorMoved);
      ScanCursor(b, q, ctorMoved);
    }
  }

  /** On a board with empty lists the scan leaves exactly the placed pieces. */
  lemma ScanPlacesCleared(b: Board, p: string, ctorMoved: Kind -> bool)
    requires b.whitePieces == [] && b.blackPieces == []
    ensures Scan(Cursor(b, 0, 0), p, ctorMoved).board.whitePieces == Placed(p, true, ctorMoved)
    ensures Scan(Cursor(b, 0, 0), p, ctorMoved).board.blackPieces == Placed(p, false, ctorMoved)
  {
    ScanPlaces(b, p, ctorMoved);
    assert [] + Placed(p, true, ctorMoved) == Placed(p, true, ctorMoved);
    assert [] + Placed(p, false, ctorMoved) == Placed(p, false, ctorMoved);
  }

  /** Every placed piece is on its side's list, not taken, and on a square
      with non-negative coordinates. */
  lemma {:induction false} PlacedPieces(p: string, white: bool, ctorMoved: Kind -> bool)
    ensures forall i :: 0 <= i < |Placed(p, white, ctorMoved)| ==>
      var piece := Placed(p, white, ctorMoved)[i];
      piece.isWhite == white && !piece.taken && piece.pos.x >= 0 && piece.pos.y >= 0
    decreases |p|
  {
    if p != [] {
      PlacedPieces(p[..|p| - 1], white, ctorMoved);
    }
  }

  /** Scanning `p + q` is scanning `p` and then `q`. */
  lemma {:induction false} ScanAppend(c: Cursor, p: string, q: string, ctorMoved: Kind -> bool)
    ensures Scan(c, p + q, ctorMoved) == Scan(Scan(c, p, ctorMoved), q, ctorMoved)
    decreases |q|
  {
    if q == [] {
      assert p + q == p;
    } else {
      var q', ch := q[..|q| - 1], q[|q| - 1];
      ScanAppend(c, p, q', ctorMoved);
      assert (p + q)[..|p + q| - 1] == p + q' && (p + q)[|p + q| - 1] == ch;
    }
  }

  /** Every character of `row` is a piece letter of side `white`. */
  predicate PieceLetters(row: string, white: bool)
  {
    forall i :: 0 <= i < |row| ==>
      row[i] != '/' && !IsDigit(row[i]) && IsUpperCase(row[i]) == white && KindOf(ToLower(row[i])).Some?
  }

  /** The pieces a run of piece letters places, from `(file, rank)` rightwards. */
  function RowPieces(row: string, white: bool, file: int, rank: int, ctorMoved: Kind -> bool): (ps: seq<Piece>)
    requires PieceLetters(row, white)
  {
    seq(|row|, i requires 0 <= i < |row| => Construct(ToLower(row[i]), white, file + i, rank, ctorMoved).value)
  }

  /** A run of piece letters of one side appends one piece per letter to
      that side's list, on consecutive files, and moves the file past them. */
  lemma {:induction false} ScanLetters(c: Cursor, row: string, white: bool, ctorMoved: Kind -> bool)
    requires PieceLetters(row, white)
    ensures var c' := Scan(c, row, ctorMoved);
      && c'.file == c.file + |row| && c'.rank == c.rank
      && c'.board == c.board.(whitePieces := c'.board.whitePieces, blackPieces := c'.board.blackPieces)
      && SideList(c'.board, !white) == SideList(c.board, !white)
      && SideList(c'.board, white) == SideList(c.board, white) + RowPieces(row, white, c.file, c.rank, ctorMoved)
    decreases |row|
  {
    if row != [] {
      var n := |row| - 1;
      var row', ch := row[..n], row[n];
      RowPiecesSnoc(row, white, c.file, c.rank, ctorMoved);
      ScanLetters(c, row', white, ctorMoved);
      assert Scan(c, row, ctorMoved) == ScanChar(Scan(c, row', ctorMoved), ch, ctorMoved);
    }
  }

  lemma RowPiecesSnoc(row: string, white: bool, file: int, rank: int, ctorMoved: Kind -> bool)
    requires PieceLetters(row, white) && row != []
    ensures PieceLetters(row[..|row| - 1], white)
    ensures RowPieces(row, white, file, rank, ctorMoved)
      == RowPieces(row[..|row| - 1], white, file, rank, ctorMoved)
         + [Construct(ToLower(row[|row| - 1]), white, file + |row| - 1, rank, ctorMoved).value]
  {
    var n := |row| - 1;
    assert forall i :: 0 <= i < n ==> row[..n][i] == row[i];
  }

  // ---------------------------------------------------------------- castling

  /** The corner a castling letter addresses: file 7 for a letter unchanged
      by upper-casing and file 0 otherwise; rank 7 for `k`/`K` and rank 0
      otherwise. */
  function CastleCorner(c: char): Square
  {
    Square(if IsUpperCase(c) then 7 else 0, if ToLower(c) == 'k' then 7 else 0)
  }

  /** Standard FEN puts `Q` on a1 and `k` on h8; this mapping puts `Q` on h8
      (file 7, rank 0) and `k` on a1 (file 0, rank 7). `K` and `q` agree
      with the standard. */
  lemma CastleCorners()
    ensures CastleCorner('K') == Square(7, 7) && CastleCorner('q') == Square(0, 0)
    ensures CastleCorner('Q') == Square(7, 0) && CastleCorner('k') == Square(0, 7)
  {
  }

  /** Pieces stand on both squares letter `c` addresses. */
  predicate CastleFound(b: Board, c: char)
  {
    var sq := CastleCorner(c);
    GetPieceAt(b, sq.x, sq.y).Some? && GetPieceAt(b, 4, sq.y).Some?
  }

  /** The letter `c` releases piece `r`: `r` is one of the two pieces it finds. */
  predicate Releases(b: Board, c: char, r: PieceRef)
  {
    var sq := CastleCorner(c);
    CastleFound(b, c) && (Some(r) == GetPieceAt(b, sq.x, sq.y) || Some(r) == GetPieceAt(b, 4, sq.y))
  }

  /** One castling letter: both pieces found get `hasMoved := false`,
      whatever their kind; otherwise a warning. */
  function CastleLetter(b: Board, c: char): Loaded
  {
    var sq := CastleCorner(c);
    match (GetPieceAt(b, sq.x, sq.y), GetPieceAt(b, 4, sq.y))
    case (Some(rook), Some(king)) =>
      var b1 := SetMoved(b, rook, false);
      Loaded(SetMoved(b1, king, false), [])
    case _ => Loaded(b, [InvalidCastling(c)])
  }

  function CastleLetters(b: Board, s: string): Loaded
    decreases |s|
  {
    if s == [] then Loaded(b, [])
    else
      var before := CastleLetters(b, s[..|s| - 1]);
      var last := CastleLetter(before.board, s[|s| - 1]);
      Loaded(last.board, before.warnings + last.warnings)
  }

  /** The castling field: a dash changes nothing; letters change only
      `hasMoved` flags. */
  function Castling(b: Board, field: string): (r: Loaded)
    ensures IsDash(field) ==> r == Loaded(b, [])
    ensures SameSquares(b, r.board)
    ensures r.board == b.(whitePieces := r.board.whitePieces, blackPieces := r.board.blackPieces)
  {
    if IsDash(field) then Loaded(b, [])
    else
      CastleLettersSpec(b, field);
      CastleLetters(b, field)
  }

  /** Some letter of `s` releases `r`. */
  predicate Released(b: Board, s: string, r: PieceRef)
  {
    exists i :: 0 <= i < |s| && Releases(b, s[i], r)
  }

  /** One castling letter leaves every piece on its square and clears the
      `hasMoved` flags of exactly the pieces it releases. */
  lemma CastleLetterSpec(b: Board, c: char)
    ensures var r := CastleLetter(b, c).board;
      && SameSquares(b, r)
      && r == b.(whitePieces := r.whitePieces, blackPieces := r.blackPieces)
      && forall o :: Resolves(b, o) ==>
           Get(r, o).hasMoved == (if Releases(b, c, o) then false else Get(b, o).hasMoved)
    ensures CastleLetter(b, c).warnings == if CastleFound(b, c) then [] else [InvalidCastling(c)]
  {
    var sq := CastleCorner(c);
    if CastleFound(b, c) {
      var rook, king := GetPieceAt(b, sq.x, sq.y).value, GetPieceAt(b, 4, sq.y).value;
      ClearTwo(b, rook, king);
    }
  }

  /** Clearing the `hasMoved` flags of two pieces changes nothing else. */
  lemma ClearTwo(b: Board, r1: PieceRef, r2: PieceRef)
    requires Resolves(b, r1) && Resolves(b, r2)
    ensures Resolves(SetMoved(b, r1, false), r2)
    ensures var r := SetMoved(SetMoved(b, r1, false), r2, false);
      && SameSquares(b, r)
      && r == b.(whitePieces := r.whitePieces, blackPieces := r.blackPieces)
      && forall o :: Resolves(b, o) ==>
           Get(r, o).hasMoved == (if o == r1 || o == r2 then false else Get(b, o).hasMoved)
  {
    var b1 := SetMoved(b, r1, false);
    assert Resolves(b1, r2);
    var r := SetMoved(b1, r2, false);
    forall o | Resolves(b, o)
      ensures Resolves(b1, o) && Resolves(r, o)
      ensures Get(r, o).pos == Get(b, o).pos && Get(r, o).taken == Get(b, o).taken
      ensures Get(r, o).kind == Get(b, o).kind && Get(r, o).isWhite == Get(b, o).isWhite
    {
    }
    assert |SideList(r, true)| == |SideList(b, true)|;
    assert |SideList(r, false)| == |SideList(b, false)|;
  }

  /** What the letter finds depends only on squares and capture flags. */
  lemma ReleasesSameSquares(b: Board, b': Board, c: char)
    requires SameSquares(b, b')
    ensures CastleFound(b', c) == CastleFound(b, c)
    ensures forall o :: Releases(b', c, o) == Releases(b, c, o)
  {
    var sq := CastleCorner(c);
    GetPieceAtSameSquares(b, b', sq.x, sq.y);
    GetPieceAtSameSquares(b, b', 4, sq.y);
  }

  lemma ReleasedSnoc(b: Board, q: string, c: char, o: PieceRef)
    ensures Released(b, q + [c], o) <==> Released(b, q, o) || Releases(b, c, o)
  {
    var s := q + [c];
    if Released(b, s, o) {
      var i :| 0 <= i < |s| && Releases(b, s[i], o);
      if i < |q| {
        assert s[i] == q[i];
      }
    }
    if Released(b, q, o) {
      var i :| 0 <= i < |q| && Releases(b, q[i], o);
      assert s[i] == q[i];
    }
    if Releases(b, c, o) {
      assert s[|q|] == c;
    }
  }

  lemma SameSquaresTrans(b1: Board, b2: Board, b3: Board)
    requires SameSquares(b1, b2) && SameSquares(b2, b3)
    ensures SameSquares(b1, b3)
  {
    assert |SideList(b2, true)| == |SideList(b1, true)|;
    assert |SideList(b2, false)| == |SideList(b1, false)|;
    forall o | Resolves(b1, o) ensures Resolves(b2, o) {
    }
  }

  /** The castling letters leave every piece on its square and clear
      exactly the `hasMoved` flags of the pieces some letter releases; the
      warnings are those of the letters that do not find both pieces. */
  lemma {:induction false} CastleLettersSpec(b: Board, s: string)
    ensures var r := CastleLetters(b, s).board;
      && SameSquares(b, r)
      && r == b.(whitePieces := r.whitePieces, blackPieces := r.blackPieces)
      && forall o :: Resolves(b, o) ==>
           Get(r, o).hasMoved == (if Released(b, s, o) then false else Get(b, o).hasMoved)
    ensures CastleLetters(b, s).warnings == Rejected(b, s)
    decreases |s|
  {
    if s != [] {
      var q, c := s[..|s| - 1], s[|s| - 1];
      assert s == q + [c];
      CastleLettersSpec(b, q);
      var mid := CastleLetters(b, q).board;
      var r := CastleLetter(mid, c).board;
      CastleLetterSpec(mid, c);
      ReleasesSameSquares(b, mid, c);
      SameSquaresTrans(b, mid, r);
      forall o | Resolves(b, o)
        ensures Get(r, o).hasMoved == (if Released(b, s, o) then false else Get(b, o).hasMoved)
      {
        ReleasedSnoc(b, q, c, o);
        assert Resolves(mid, o);
      }
    }
  }

  /** The warnings of the castling letters `s`, by definition: one per
      letter that does not find both pieces. */
  function Rejected(b: Board, s: string): seq<Warning>
    decreases |s|
  {
    if s == [] then []
    else Rejected(b, s[..|s| - 1]) + (if CastleFound(b, s[|s| - 1]) then [] else [InvalidCastling(s[|s| - 1])])
  }

  /** The castling letters log nothing exactly when every letter finds both
      its pieces. */
  lemma {:induction false} RejectedEmpty(b: Board, s: string)
    ensures Rejected(b, s) == [] <==> forall i :: 0 <= i < |s| ==> CastleFound(b, s[i])
    decreases |s|
  {
    if s != [] {
      var q := s[..|s| - 1];
      assert forall i :: 0 <= i < |q| ==> q[i] == s[i];
      RejectedEmpty(b, q);
    }
  }

  // ---------------------------------------------------------------- en passant

  const FileLetters := "abcdefgh"

  /** `indexOf`: the first position of `c` in `s`, or -1 when it is absent. */
  function IndexOf(s: string, c: char): (i: int)
    ensures -1 <= i < |s|
    ensures i == -1 <==> c !in s
    ensures i >= 0 ==> s[i] == c && c !in s[..i]
  {
    if s == [] then -1
    else if s[0] == c then 0
    else
      var i := IndexOf(s[1..], c);
      assert s[1..] == s[1..][..|s| - 1];
      if i == -1 then -1
      else
        assert s[..i + 1] == [s[0]] + s[1..][..i];
        i + 1
  }

  /** White space and line terminators, which JavaScript's number conversion
      reads as 0. */
  predicate IsJsSpace(c: char)
  {
    || c == '\t' || c == '\n' || c == '\U{000B}' || c == '\U{000C}' || c == '\r' || c == ' '
    || c == '\U{00A0}' || c == '\U{1680}' || '\U{2000}' <= c <= '\U{200A}' || c == '\U{2028}'
    || c == '\U{2029}' || c == '\U{202F}' || c == '\U{205F}' || c == '\U{3000}' || c == '\U{FEFF}'
  }

  /** The number a one-character string converts to, `None` for NaN; a
      missing character (`undefined`) is NaN too. */
  function NumberOf(cy: Option<char>): (n: Option<int>)
    ensures n.Some? ==> 0 <= n.value <= 9
    ensures cy.Some? && IsDigit(cy.value) ==> n.Some? && cy.value as int == '0' as int + n.value
    ensures cy.Some? && IsJsSpace(cy.value) ==> n == Some(0)
    ensures n.None? <==> cy.None? || (!IsDigit(cy.value) && !IsJsSpace(cy.value))
  {
    match cy
    case None => None
    case Some(c) =>
      if IsDigit(c) then Some(DigitValue(c))
      else if IsJsSpace(c) then Some(0)
      else None
  }

  /** `convertNotation(cx, cy)`: the file letter's position in `a`..`h`
      (-1 when it is not one) and `8 - cy` (`None` when that is NaN). */
  function ConvertNotation(cx: Option<char>, cy: Option<char>): (xy: (int, Option<int>))
    ensures -1 <= xy.0 < 8 && (xy.0 >= 0 <==> cx.Some? && cx.value in FileLetters)
    ensures xy.0 >= 0 ==> FileLetters[xy.0] == cx.value
    ensures xy.1.Some? <==> NumberOf(cy).Some?
    ensures xy.1.Some? ==> -1 <= xy.1.value <= 8 && xy.1.value + NumberOf(cy).value == 8
  {
    var x := match cx case None => -1 case Some(c) => IndexOf(FileLetters, c);
    var y := match NumberOf(cy) case None => None case Some(n) => Some(8 - n);
    (x, y)
  }

  /** The two-character name of an on-board square: file letter and rank
      digit, rank 0 being `8`. */
  function SquareName(sq: Square): string
    requires 0 <= sq.x < 8 && 0 <= sq.y < 8
  {
    [FileLetters[sq.x], ('0' as int + 8 - sq.y) as char]
  }

  /** `convertNotation` reads back every square name. */
  lemma ConvertNotationRoundTrip(sq: Square)
    requires 0 <= sq.x < 8 && 0 <= sq.y < 8
    ensures var name := SquareName(sq);
      ConvertNotation(Some(name[0]), Some(name[1])) == (sq.x, Some(sq.y))
  {
    var i := IndexOf(FileLetters, FileLetters[sq.x]);
    if i != sq.x {
      assert FileLetters[i] == FileLetters[sq.x];
    }
  }

  /** Every file letter and rank digit `1`-`8` names the square
      `convertNotation` gives. */
  lemma SquareNameRoundTrip(cx: char, cy: char)
    requires cx in FileLetters && '1' <= cy <= '8'
    ensures var xy := ConvertNotation(Some(cx), Some(cy));
      xy.1.Some? && 0 <= xy.0 < 8 && 0 <= xy.1.value < 8 && SquareName(Square(xy.0, xy.1.value)) == [cx, cy]
  {
  }

  /** The en-passant field: unless it is a dash, the piece `getPieceAt`
      finds on the square its first two characters name becomes `enPassant`
      when it is a pawn; otherwise a warning. */
  function EnPassantField(b: Board, field: string): (r: Loaded)
    ensures r.board == b.(enPassant := r.board.enPassant)
    ensures IsDash(field) ==> r == Loaded(b, [])
    ensures r.board.enPassant != b.enPassant ==>
      && r.board.enPassant.Some? && Resolves(b, r.board.enPassant.value)
      && Get(b, r.board.enPassant.value).kind == Pawn && |field| >= 2
    ensures r.warnings == [] || (r.warnings == [InvalidEnPassant(field)] && r.board == b)
    ensures r.warnings == [] <==> IsDash(field) || (r.board.enPassant.Some? && r.board.enPassant == PawnNamed(b, field))
  {
    if IsDash(field) then Loaded(b, [])
    else
      var pawn := PawnNamed(b, field);
      if pawn.Some? then Loaded(b.(enPassant := pawn), [])
      else Loaded(b, [InvalidEnPassant(field)])
  }

  /** A field starting with a square's name makes the pawn on that square
      the en-passant pawn, and warns if no pawn stands there. */
  lemma EnPassantFieldSquare(b: Board, field: string, sq: Square)
    requires 0 <= sq.x < 8 && 0 <= sq.y < 8
    requires |field| >= 2 && field[..2] == SquareName(sq)
    ensures var r := EnPassantField(b, field);
      match GetPieceAt(b, sq.x, sq.y)
      case Some(p) =>
        if Get(b, p).kind == Pawn then r == Loaded(b.(enPassant := Some(p)), [])
        else r == Loaded(b, [InvalidEnPassant(field)])
      case None => r == Loaded(b, [InvalidEnPassant(field)])
  {
    ConvertNotationRoundTrip(sq);
    var name := SquareName(sq);
    assert field[0] == name[0] && field[1] == name[1];
    assert !IsDash(field);
  }

  /** Any field other than a dash: the piece `getPieceAt` finds on the
      square its first two characters convert to becomes `enPassant` when
      it is a pawn. A field too short, a rank that is NaN, or no pawn there
      is warned about. Ranks like `0` or white space convert to squares off
      the board, which hold no loaded piece in a real game. */
  lemma EnPassantFieldAt(b: Board, field: string)
    requires !IsDash(field)
    ensures var r := EnPassantField(b, field);
      if |field| < 2 then r == Loaded(b, [InvalidEnPassant(field)])
      else
        var xy := ConvertNotation(Some(field[0]), Some(field[1]));
        if xy.1.Some? && PawnAt(b, xy.0, xy.1.value) then
          r == Loaded(b.(enPassant := GetPieceAt(b, xy.0, xy.1.value)), [])
        else r == Loaded(b, [InvalidEnPassant(field)])
  {
  }

  /** `getPieceAt` finds a pawn at `(x, y)`. */
  predicate PawnAt(b: Board, x: int, y: int)
  {
    match GetPieceAt(b, x, y)
    case Some(q) => Resolves(b, q) && Get(b, q).kind == Pawn
    case None => false
  }

  /** The pawn on the square the field's first two characters name, if
      `getPieceAt` finds one there. */
  function PawnNamed(b: Board, field: string): (p: Option<PieceRef>)
    ensures p.Some? ==> Resolves(b, p.value) && Get(b, p.value).kind == Pawn
    ensures |field| < 2 ==> p.None?
    ensures |field| >= 2 ==>
      var xy := ConvertNotation(Some(field[0]), Some(field[1]));
      && (xy.1.None? ==> p.None?)
      && (xy.1.Some? ==> (p.Some? <==> PawnAt(b, xy.0, xy.1.value)))
      && (xy.1.Some? && p.Some? ==> GetPieceAt(b, xy.0, xy.1.value) == p)
  {
    var cx := if |field| >= 1 then Some(field[0]) else None;
    var cy := if |field| >= 2 then Some(field[1]) else None;
    var xy := ConvertNotation(cx, cy);
    var piece := if xy.1.Some? then GetPieceAt(b, xy.0, xy.1.value) else None;
    if piece.Some? && Get(b, piece.value).kind == Pawn then piece else None
  }

  // ---------------------------------------------------------------- readFEN

  /** Two boards whose pieces differ at most in their `hasMoved` flags. */
  predicate FlagsOnly(b: Board, b': Board)
  {
    && |b'.whitePieces| == |b.whitePieces| && |b'.blackPieces| == |b.blackPieces|
    && (forall i :: 0 <= i < |b.whitePieces| ==> b'.whitePieces[i] == b.whitePieces[i].(hasMoved := b'.whitePieces[i].hasMoved))
    && (forall i :: 0 <= i < |b.blackPieces| ==> b'.blackPieces[i] == b.blackPieces[i].(hasMoved := b'.blackPieces[i].hasMoved))
  }

  lemma SameSquaresFlagsOnly(b: Board, b': Board)
    requires SameSquares(b, b')
    ensures FlagsOnly(b, b')
  {
    assert |SideList(b', true)| == |SideList(b, true)|;
    assert |SideList(b', false)| == |SideList(b, false)|;
    forall i | 0 <= i < |b.whitePieces|
      ensures b'.whitePieces[i] == b.whitePieces[i].(hasMoved := b'.whitePieces[i].hasMoved)
    {
      assert Resolves(b, PieceRef(b.epoch, true, i));
    }
    forall i | 0 <= i < |b.blackPieces|
      ensures b'.blackPieces[i] == b.blackPieces[i].(hasMoved := b'.blackPieces[i].hasMoved)
    {
      assert Resolves(b, PieceRef(b.epoch, false, i));
    }
  }

  /** The first two steps of `readFEN`: both lists emptied, then filled from
      the placement field. */
  function LoadPlacement(b: Board, placement: string, ctorMoved: Kind -> bool): (b': Board)
    ensures b' == b.(whitePieces := Placed(placement, true, ctorMoved),
                     blackPieces := Placed(placement, false, ctorMoved), epoch := b.epoch + 1)
  {
    var cleared := b.(whitePieces := [], blackPieces := [], epoch := b.epoch + 1);
    ScanPlaces(cleared, placement, ctorMoved);
    Scan(Cursor(cleared, 0, 0), placement, ctorMoved).board
  }

  /** `readFEN`: empties both piece lists, reads the placement, the side to
      move, the castling field and the en-passant field. The halfmove and
      fullmove fields are never read. */
  function ReadFen(b: Board, fen: string, ctorMoved: Kind -> bool): (r: Loaded)
    requires |Split(fen)| >= 4
    ensures r.board.epoch == b.epoch + 1
    ensures r.board.turn <==> Split(fen)[1] == "w"
    ensures FlagsOnly(b.(whitePieces := Placed(Split(fen)[0], true, ctorMoved),
                         blackPieces := Placed(Split(fen)[0], false, ctorMoved)), r.board)
    ensures r.board.frozen == b.frozen && r.board.moves == b.moves
    ensures r.board.selected == b.selected && r.board.lastEnPassant == b.lastEnPassant
    ensures IsDash(Split(fen)[3]) ==> r.board.enPassant == b.enPassant
    ensures r.board.enPassant != b.enPassant ==>
      r.board.enPassant.Some? && Resolves(r.board, r.board.enPassant.value) && Get(r.board, r.board.enPassant.value).kind == Pawn
  {
    var fields := Split(fen);
    var placed := LoadPlacement(b, fields[0], ctorMoved);
    var turned := placed.(turn := fields[1] == "w");
    var castled := Castling(turned, fields[2]);
    SameSquaresFlagsOnly(turned, castled.board);
    var passant := EnPassantField(castled.board, fields[3]);
    Loaded(passant.board, castled.warnings + passant.warnings)
  }
}
