# Chess board bookkeeping: position loading, the king, and the move log

A Dafny model of the rules core of a small browser chess program. The board
object keeps two lists of piece objects (white and black), whose side is to
move (`turn`), a `selected` piece, the pawn that may be taken en passant
(`enPassant`) and the previous value of that field (`lastEnPassant`), and an
append-only log of `Move` records. The model covers:

- **Position loading** (`readFEN`), which reads a Forsyth-Edwards Notation
  string (section 16.1 of the PGN Standard). It reads the piece placement,
  the active colour, the castling availability and the en-passant field. It
  follows the program's own reading, not the standard's:
  - the en-passant field names the square of the pawn itself, and is used
    only if a pawn stands there;
  - a castling letter picks the corner file by its case and the rank by its
    letter. So `Q` addresses file 7, rank 0 (h8), and `k` addresses file 0,
    rank 7 (a1).
- **The occupancy query** `getPieceAt`, and the selection cursor
  (`select`, `deselect`).
- **Committing a move** (`Board.move`). It records the en-passant memory,
  appends a `Move`, moves the piece and flips the turn.
- **The king**: its constructor, its candidate moves (eight neighbours plus
  castling), its `move` (which takes the rook along when castling), and
  `inCheck`. `inCheck` compares the number of pseudo-legal and legal moves.
- **The `Move` record** and its constructor defaults.
- **The start position** the constructor loads (`startFEN`). Reading it
  gives the standard opening array, logs no warning, and leaves every king,
  rook and pawn unmoved. The `Q`/`k` swap described above does not show
  here, because all four letters are present.

Squares are `(x, y)` with `x` the file and `y` the rank counted from the top
of the placement field, so white's back rank is `y = 7`.

A piece object is named by a `PieceRef`: its list, its index, and the number
of position loads so far (`epoch`). A load empties both lists, so a reference
from before a load never denotes a piece created by it. A stale `selected`,
`enPassant` or logged piece therefore stays distinct from every new piece,
as the JavaScript objects do.

The piece base class and the other piece kinds are not part of this model.
Their methods enter as the function fields of `PieceBase.Methods`:
`withinBounds`, `attackingAlly`, `blocked`, the per-candidate test behind
`generateLegalMoves`, and `move`. What the model relies on about `move` is
stated once, as `PieceBase.MoveAssumption`. It says that the piece lands on
the target; no other piece changes square; no `hasMoved` flag is cleared;
turn, log, selection, `lastEnPassant` and list lengths are kept; and only a
pawn's move may write `enPassant`. The `hasMoved` value the queen, bishop,
knight and rook constructors give is the parameter `ctorMoved`. For pawns,
the model assumes that the unseen `Pawn` constructor stores its fourth
argument as `hasMoved`. For every piece, it assumes that the base
constructor sets the position to the given square and `taken` to false.

Calls that would throw a `TypeError` in the program are excluded by
preconditions:
- a position string with fewer than four space-separated fields;
- `move` with no selected piece;
- a king moving two files with no piece on the corner.

## Model

| member | source | states |
|---|---|---|
| `MoveRecord.NewMove` | Move.js:2-8 | piece, origin and target are stored as passed; `taken` and `castle` are stored as passed |
| `MoveRecord.NewMoveDefaults` | Move.js:2-7 | omitting `taken` and `castle` gives no capture and no castling |
| `Boards.FindFrom` | Board.js:83-94 | the index found is the first at or after the start whose piece is not taken and stands on the square; none is found only if no such piece exists |
| `Boards.GetPieceAt` | Board.js:82-96 | null iff no non-taken piece stands on `(x, y)`; otherwise a non-taken piece on `(x, y)`, the first in its list, and black only when no white piece is there |
| `Boards.GetPieceAtSameSquares` | Board.js:82-96 | the answer is the same on boards whose pieces agree on square, `taken`, kind and side; so changing `hasMoved` flags never changes it |
| `Boards.GetPieceAtOnly` | Board.js:82-96 | when exactly one non-taken piece stands on a square, that piece is the answer |
| `Boards.Select` | Board.js:98-105 | the piece becomes `selected` iff the board is not frozen and the piece's side is the side to move; otherwise the board is unchanged; nothing but `selected` ever changes |
| `Boards.Deselect` | Board.js:107-117 | `selected` becomes null and no other field changes |
| `Boards.SelectionKeepsGame` | Board.js:98-117 | select and deselect never touch turn, pieces, log or en-passant memory; each is idempotent |
| `PieceBase.LegalMoves` | Pieces/King.js:42-43 | the legal list keeps exactly the candidates passing the king-safety test, and has the same length iff every candidate passes |
| `KingPiece.NewKing` | Pieces/King.js:2-8 | a king stands on `(x, y)` for the given side, not taken, with `hasMoved` as passed |
| `KingPiece.NewKingHasMoved` | Pieces/King.js:2 | a king built without the flag has `hasMoved = true` |
| `KingPiece.StepMoves` | Pieces/King.js:52-63 | a square is listed iff some offset reaches it and it is within bounds and not held by an ally; at most one square per offset |
| `KingPiece.KingStepsAreAdjacent` | Pieces/King.js:52-56 | the offsets the two loops visit, minus `(0, 0)`, reach exactly the eight squares around the king |
| `KingPiece.NeighbourMoves` | Pieces/King.js:52-63 | a non-castling candidate is exactly an adjacent square, never the king's own, within bounds and not held by an ally; at most 8 |
| `KingPiece.CastlingMove` | Pieces/King.js:65-73 | a corner yields a candidate iff a rook stands there, the rook and king are unmoved and the way is not blocked; the candidate is two files toward the corner; the rook's colour is not checked |
| `KingPiece.GenerateMoves` | Pieces/King.js:48-76 | every candidate is a steppable neighbour or an allowed castling square, and each of those is a candidate; at most 8 if the king has moved, else at most 10 |
| `KingPiece.MovedKingStepsOnly` | Pieces/King.js:52-73 | a king that has moved gets only neighbour squares |
| `KingPiece.InCheck` | Pieces/King.js:40-45 | true iff some pseudo-legal candidate fails the king-safety test, that is iff the two counts differ |
| `KingPiece.KingMove` | Pieces/King.js:10-22 | the king ends on `(x, y)` with `hasMoved` true; on a two-file move the corner piece of rank `y` ends on the square the king crossed; no other piece changes square; `enPassant` is kept unless that corner piece is a pawn; no piece that has moved loses its `hasMoved` flag |
| `KingPiece.RookAlong` | Pieces/King.js:13-19 | on a two-file move the corner piece alone moves, to the square between the king's start and target; on any other move the board is unchanged |
| `KingPiece.KingMoveKeepsMoved` | Pieces/King.js:10-22 | neither the rook's move nor the king's own step clears a `hasMoved` flag |
| `KingPiece.KingMoveKeepsOthers` | Pieces/King.js:10-22 | every piece other than the king and the castling rook keeps its square through both steps of the king's move |
| `Fen.Split` | Board.js:24 | there is always at least one field, even for the empty string |
| `Fen.SplitFields` | Board.js:24 | the fields contain no space, and joining them with single spaces gives back the string |
| `Fen.SplitJoin` | Board.js:24 | splitting space-free fields joined by single spaces gives back the fields |
| `Fen.Construct` | Board.js:169-220 | only `k q b n r p` make a piece, of that kind and side, on `(file, rank)`, not taken; a king has moved; a pawn is unmoved iff white on rank 6 or black on rank 1 |
| `Fen.AddPiece` | Board.js:169-221 | a known letter appends one piece to its own side's list only; an unknown letter changes nothing |
| `Fen.ScanChar` | Board.js:33-46 | `/` sets file 0 and adds 1 to rank; a digit adds its value to file; any other character calls `addPiece` on the cursor and adds exactly 1 to file |
| `Fen.ScanCursor` | Board.js:30-47 | after a prefix, the rank is the number of `/` in it and the file is the sum of the advances since the last `/` |
| `Fen.ScanPlaces` | Board.js:30-47 | the scan appends, in reading order, one piece per known piece letter, on the square given by its prefix; case decides the list |
| `Fen.ScanPlacesCleared` | Board.js:22-47 | scanning onto emptied lists leaves exactly the placed pieces in each list |
| `Fen.ScanAppend` | Board.js:30-47 | scanning `p + q` is scanning `p` and then `q` from the cursor `p` leaves |
| `Fen.ScanLetters` | Board.js:33-46 | a run of piece letters of one case appends one piece per letter to that side's list, on consecutive files of the same rank, and leaves the other list alone |
| `Fen.PlacedPieces` | Board.js:41-44 | every placed piece is on its own side's list, not taken, and on non-negative coordinates |
| `Fen.CastleCorners` | Board.js:55-57 | `K` addresses (7, 7) and `q` (0, 0), as the standard does; `Q` addresses (7, 0) and `k` (0, 7), unlike it |
| `Fen.CastleLetterSpec` | Board.js:55-65 | a letter clears `hasMoved` of both pieces it finds on its corner and its king square, whatever their kind; otherwise it warns and changes nothing |
| `Fen.ClearTwo` | Board.js:59-61 | clearing the `hasMoved` flags of two pieces moves nothing and changes no other flag |
| `Fen.CastleLettersSpec` | Board.js:52-67 | the letters move no piece; a flag is cleared iff some letter releases its piece; one warning per letter that finds no piece on one of its squares |
| `Fen.RejectedEmpty` | Board.js:52-65 | the castling letters log nothing iff every letter finds both its pieces |
| `Fen.Castling` | Board.js:52-53 | a dash field changes nothing; otherwise only `hasMoved` flags change |
| `Fen.IndexOf` | Board.js:164 | -1 iff the letter is absent; else the first position holding it |
| `Fen.NumberOf` | Board.js:165 | a digit converts to its value; JavaScript white space and line terminators convert to 0; a missing character or any other character converts to NaN |
| `Fen.ConvertNotation` | Board.js:162-167 | the file is in -1..7 and is non-negative iff the letter is `a`-`h`, and then it is that letter's position in `abcdefgh`; the rank is NaN iff the character converts to NaN, and otherwise it is `8` minus the converted number |
| `Fen.ConvertNotationRoundTrip` | Board.js:162-167 | every on-board square's two-character name converts back to that square |
| `Fen.SquareNameRoundTrip` | Board.js:162-167 | every letter `a`-`h` with digit `1`-`8` converts to an on-board square whose name is those two characters |
| `Fen.PawnNamed` | Board.js:71-74 | a field shorter than two characters or with a NaN rank names no pawn; otherwise a pawn is named iff `getPieceAt` finds a pawn on the converted square, and then it is that piece |
| `Fen.EnPassantField` | Board.js:69-79 | a dash changes nothing; otherwise either `enPassant` becomes the pawn the field names with no warning, or one warning is logged and nothing changes; a changed `enPassant` is a pawn of the board; no other field changes |
| `Fen.EnPassantFieldSquare` | Board.js:69-79 | a field starting with a square's name makes the piece `getPieceAt` finds there `enPassant` if it is a pawn; with no piece or a non-pawn there it warns and changes nothing |
| `Fen.EnPassantFieldAt` | Board.js:69-79 | the same for every field other than a dash, including ranks that convert off the board, such as `0` or white space; a field too short or with a NaN rank warns and changes nothing |
| `Fen.LoadPlacement` | Board.js:22-47 | both lists are emptied first, so afterwards they hold exactly the placed pieces |
| `Fen.ReadFen` | Board.js:21-80 | only the pieces of the new placement exist, up to `hasMoved`; `turn` is true iff the side field is exactly `w`; frozen, log, selection and `lastEnPassant` are kept; `enPassant` changes only to a pawn of the new position |
| `Play.PieceMove` | Board.js:125 | the selected piece ends on `(x, y)`; turn, log, selection and `lastEnPassant` are kept; `enPassant` is kept when no pawn moves |
| `Play.MoveSelected` | Board.js:119-127 | exactly one `Move` is appended, holding the selected piece, its origin, `(x, y)`, the earlier occupant of `(x, y)`, and castle iff a king moves two files; the turn flips once; `lastEnPassant` takes the old `enPassant`, which ends null unless a pawn moved |
| `Play.PieceMoveCarries` | Board.js:125 | the selected piece's move takes along only a castling king's corner piece, to the square the king crosses; every other piece keeps its square; no `hasMoved` flag is cleared |
| `Play.MoveSelectedCarries` | Board.js:119-127 | `move(x, y)` moves the selected piece and, on a king's two-file move, the corner piece to the square the king crosses; every other piece keeps its square; no `hasMoved` flag is cleared |
| `Play.MoveCarries` | Board.js:119-127 | writing the en-passant memory and the log first, and flipping the turn after, does not change which pieces move or which flags are kept |
| `Play.SameListsSameMove` | Board.js:119-125 | writing the en-passant memory and the log before the piece moves changes nothing the piece's move consults |
| `Play.PerformTurnsAndLog` | Board.js:98-127 | one call flips the turn and adds one record iff it is a move, keeping the earlier records |
| `Play.SessionTurnsAndLog` | Board.js:98-127 | over any sequence of calls none of which throws, the turn flips once per move and never otherwise; the log grows by one record per move; earlier records never change |
| `Play.TraceTurnsAndLog` | Board.js:98-127 | the same for any chain of boards each of which follows the one before by those rules |
| `Play.PerformKeepsMoved` | Board.js:98-127 | no select, deselect or move clears a `hasMoved` flag |
| `Play.SessionKeepsMoved` | Board.js:98-127 | over any sequence of calls none of which throws, a piece that has moved keeps `hasMoved` true; only a new `readFEN` can make it eligible to castle again |
| `Play.TraceKeepsMoved` | Board.js:98-127 | the same for any chain of boards each of which keeps the flags of the one before |
| `Play.EnPassantOnePly` | Board.js:119-127 | after a move that moves no pawn, the next move leaves `lastEnPassant` null |
| `StartPosition.StartFenFields` | Board.js:1 | the start string splits into its six fields: placement, `w`, `KQkq`, `-`, `0`, `1` |
| `StartPosition.StartPlaced` | Board.js:1 | the start placement places the sixteen white and sixteen black pieces of the opening array, in reading order |
| `StartPosition.StartFinds` | Board.js:82-96 | on the start board `getPieceAt` finds, on each piece's square, that piece |
| `StartPosition.StartLetterAt` | Board.js:53-61 | each letter of `KQkq` finds a rook on its corner and a king on file 4 of the start board, and clears both flags |
| `StartPosition.StartCastling` | Board.js:51-67 | on the start board `KQkq` logs nothing, moves nothing, and leaves every king, rook and pawn unmoved |
| `StartPosition.StartFenSteps` | Board.js:21-80 | reading the start string is: the start pieces with white to move, then the castling letters; the dash en-passant field changes nothing |
| `StartPosition.ReadStartFen` | Board.js:17-80 | `readFEN(startFEN)` on any board logs nothing, sets white to move, lays out the opening array with every king, rook and pawn unmoved, and keeps frozen, log, selection and both en-passant fields |
| `StartPosition.NewBoard` | Board.js:4-19 | a new board has white to move, is not frozen, has an empty log, no selection and no en-passant pawn, holds the opening array with every king, rook and pawn unmoved, and logs nothing |

## Left out

- Drawing: `show`, the rendering half of `showCheck`, the drawing calls in
  `select` and `deselect`, and `drawnLastMove`, pixel positions and
  `tilesize`.
- The unseen methods `piece.select()` and `piece.deselect()`, and the call to
  `showCheck` in `deselect`. That call refreshes the kings' cached move lists
  and throws when a side has no king.
- The per-piece cached `moves` array. Candidates are returned as sequences
  instead, and the parent `generateMoves` is assumed to store the list
  unchanged.
- The piece base class, the other piece kinds, `promote`/`pawnToPromote`
  and the bot. Their code is not part of this model. `Piece.move` (including
  capture flagging and any pawn setting of `enPassant`), `withinBounds`,
  `attackingAlly`, `blocked` and `generateLegalMoves` are abstract parameters.
- `KingPiece.InCheck`: models `generateLegalMoves` as an order-preserving
  filter that stores a new list. If it filtered the array in place, the two
  counts could never differ.
- `Play.MoveSelected`: `startSquare` is the piece's own position object. The
  model records its value at call time; whether the record later changes
  depends on the unseen `Piece.move`.
- `sketch.js`'s check that the destination is among the selected piece's
  moves. `Board.move` itself never checks it.
- Checkmate, stalemate and castling through check. The code shown does not
  implement them.
- The halfmove clock and fullmove number. They are never read.
- Case tests cover ASCII only: `char == char.toUpperCase()` is modelled as
  "not `a`-`z`", and `toLowerCase` maps only `A`-`Z`. JavaScript's Unicode
  case mapping differs for other characters. For example, the Kelvin sign
  lower-cases to `k`, and a non-ASCII lower-case letter selects corner file 0.
- Strings are sequences of Unicode scalar values, not UTF-16 code units. A
  character outside the Basic Multilingual Plane advances the placement file
  by 2 in the program and by 1 here.
- A king moving two files when the corner piece is itself a king. There
  `rook.move` would re-enter the king's own `move`. It is excluded by
  precondition.
- Moving a piece selected before a later `readFEN`. Its stale reference does
  not resolve in the new position.
