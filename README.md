# Chessington piece move rules

A Dafny model of the move generation of Chessington's chess pieces. It covers
the shared piece behaviour: a fixed owner, a move counter that starts at 0,
and `move_to`, which asks the board to relocate the piece and then counts the
move. It covers the pawn's forward steps: the single step when the square
ahead is on the board and free, and the double step when the single step is
possible, the square two ahead is on the board and free, and the pawn has
never moved. White pawns advance towards higher rows and Black pawns towards
lower rows. It also covers the knight, bishop, rook, queen and king, which
return no moves, and the "Not implemented" failure of the base query.

Layout:

- `board.dfy`, module `ChessBoard`: the board as the pieces see it. It is a
  map from `Square(row, col)` to an `Occupant(kind, owner)`, and a square that
  is not a key is empty. `InBoard` holds when both coordinates are in 0..7.
  `IsSquareEmpty` holds when the square has no occupant. `Relocation(from, to)`
  is the request a piece hands to the board.
- `pieces.dfy`, module `Pieces`:
  - the specification functions `DestinationRowAfterMove`, `PawnMoves` and
    `CandidateMoves`;
  - the ghost predicate `PawnMayMoveTo`, which states the pawn rules square by
    square and serves as an independent reference for `PawnMoves`;
  - the class `Piece`, with a constant `kind` and `player` and a mutable
    counter `nMoves`. Its `AvailableMoves` builds the pawn's list by
    appending, as the source does. It is proved equal to `CandidateMoves`.
    It has no `modifies` clause, so it changes neither the counter nor the
    board;
  - lemmas: a pawn that has moved loses the double step; Black's pawn
    moves are the mirror image of White's (the row `r` mirrors to `7 - r`);
    and several boards taken from the test suite.

The board's reverse lookup of a piece (`find_piece`, used by
`get_current_square`) becomes an explicit argument `at`. The requirement
`IsAt(board, at)` says that the board holds this piece's kind and owner on
`at`. `Piece.MoveTo` requires it for every kind. `Piece.AvailableMoves`
requires it only for a pawn, because the other five kinds never consult the
board.

## Model

| member | source | states |
|---|---|---|
| `Pieces.Piece.constructor` | lib/Chessington/engine/pieces.rb:8-11 | a new piece keeps the kind and owner it was given, and its move counter is 0 |
| `Pieces.BaseAvailableMoves` | lib/Chessington/engine/pieces.rb:15-17 | the base move query always fails with NotImplemented, so it is never the same as an empty list of moves |
| `Pieces.Piece.MoveTo` | lib/Chessington/engine/pieces.rb:21-28 | requests the relocation from the piece's current square to the given square, and increases the counter by exactly 1; kind and owner are constants and do not change |
| `Pieces.DestinationRowAfterMove` | lib/Chessington/engine/pieces.rb:58-64 | the destination row is exactly nSpaces rows away from the current row; for a positive distance it is above the current row iff the owner is White, so Black moves down |
| `Pieces.PawnMoves` | lib/Chessington/engine/pieces.rb:36-56 | a square is in the result iff the pawn rules allow it; the single step is in the result iff it is on the board and empty; the double step is in the result iff the single step and the double-step square are both on the board and empty and the counter is 0; every element is on the board, empty and in the pawn's column; at most 2 elements, no duplicates, the single step first; a pawn that has moved has at most one move |
| `Pieces.CandidateMoves` | lib/Chessington/engine/pieces.rb:33-116 | a square is a candidate iff the piece is a pawn and the pawn rules allow it; knight, bishop, rook, queen and king get the empty list; every candidate is on the board and empty; no duplicates |
| `Pieces.Piece.AvailableMoves` | lib/Chessington/engine/pieces.rb:36-116 | the list built by appending the single step and then the double step equals `CandidateMoves` for the piece's kind, owner and current counter, and holds exactly the squares the pawn rules allow |
| `Pieces.MovedPawnHasNoDoubleStep` | lib/Chessington/engine/pieces.rb:45-51 | once the counter is at least 1, a pawn never offers the double step and offers at most one square, whatever the board and wherever it stands |
| `Pieces.BlackPawnMirrorsWhite` | lib/Chessington/engine/pieces.rb:58-64 | the Black branch of the direction is the mirror image of the White branch: a Black pawn offers exactly the mirrored squares, in the same order, that a White pawn with the same counter offers from the mirrored square on the mirrored board (row r mirrors to row 7 - r) |
| `Pieces.WhitePawnMirrorsBlack` | lib/Chessington/engine/pieces.rb:58-64 | the converse: a White pawn offers exactly the mirrored squares of what a Black pawn offers from the mirrored square on the mirrored board; it is derived from the Black direction, because mirroring a square, a board or a list twice gives it back |
| `Pieces.PawnLosesDoubleStepAfterMoving` | test/test_pieces.rb:64-79 | a White pawn moved from (1, 4) to (2, 4) then offers only (3, 4); the board after the move is written out by hand, because the relocation itself is not modelled |
| `Pieces.UnmovedPawnOnOpenFile` | test/test_pieces.rb:36-62 | an unmoved pawn with both squares ahead on the board and free offers exactly those two, single step first |
| `Pieces.BlockedPawnHasNoMoves` | test/test_pieces.rb:98-132 | a pawn whose square ahead is occupied or off the board has no moves |
| `Pieces.PawnOnLastRankHasNoMoves` | test/test_pieces.rb:206-232 | a White pawn on row 7 or a Black pawn on row 0 has no moves |
| `Pieces.PawnNeverLeavesItsColumn` | lib/Chessington/engine/pieces.rb:43-48 | no square outside the pawn's own column is ever offered |
| `Pieces.CandidatesAreLegal` | lib/Chessington/engine/pieces.rb:45-49 | every offered square is on the board and is not held by a piece of the mover's side |
| `Pieces.PawnOffersNoDiagonalCapture` | lib/Chessington/engine/pieces.rb:53 | with enemy pawns on both diagonals ahead, a White pawn on (3, 4) offers only (4, 4) and (5, 4); diagonal captures are not implemented |
| `Pieces.BishopOffersNothing` | lib/Chessington/engine/pieces.rb:84-86 | a bishop on (0, 0) of an empty board offers nothing, not even (1, 1) |

## Left out

- Board internals (`Board.empty`, `set_piece`, `move_piece`, `find_piece`, `get_piece`, `current_player`, `Square.at`) are not part of this model. The board is the abstract map described above.
- `Pieces.Piece.MoveTo` returns the relocation it requests instead of calling the board. What the board does with the request, such as capturing an occupant of the destination, is not modelled. If the board's relocation failed, the source would not count the move; the model does not capture that order.
- `get_current_square`: the board's lookup by object identity, and its failure when the piece is absent, are replaced by the argument `at` and the requirement `IsAt`. Two pieces of the same kind and owner are not told apart by `IsAt`.
- The six Ruby classes that include the `Piece` mixin are one Dafny class with a constant `kind`. The method dispatch is a `match` on that kind.
- The test file expects pawn diagonal captures, including the rule that a king is never captured (test/test_pieces.rb:234-538). It also expects bishop and rook sliding moves (test/test_pieces.rb:541-2012). The source implements neither: line 53 of lib/Chessington/engine/pieces.rb is only a comment, and lines 84-97 return an empty list. The model follows the source. The tests that assert a diagonal capture (test/test_pieces.rb:234-277) or a sliding move (the `assert_includes` tests in test/test_pieces.rb:543-779, 1127-1276, 1282-1520 and 1862-2011) would therefore fail against this code. The tests that only refute a square hold against it. `Pieces.PawnOffersNoDiagonalCapture` and `Pieces.BishopOffersNothing` show the difference on two of the tests' boards.
- Check, checkmate, castling, en passant and promotion do not appear in the source and are not modelled.
