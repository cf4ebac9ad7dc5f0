/** The parts of the chess board that the move rules of the pieces consult.
    The board itself belongs to another component; here it is only the grid
    of occupants, the bounds test and the emptiness test that the pieces ask
    it for, and the relocation request a piece hands to it. */
module ChessBoard {

  /** The two sides. */
  datatype Player = White | Black

  /** The six kinds of chess piece. */
  datatype Kind = Pawn | Knight | Bishop | Rook | Queen | King

  /** What a square can hold: a piece of some kind owned by some player. */
  datatype Occupant = Occupant(kind: Kind, owner: Player)

  /** A (row, column) coordinate. Any integers may be paired; whether the pair
      lies on the board is a separate question (InBoard). */
  datatype Square = Square(row: int, col: int)

  /** The grid: a square that is not a key holds no piece. */
  type Board = map<Square, Occupant>

  /** A request to the board to move whatever stands on `from` to `to`. */
  datatype Relocation = Relocation(from: Square, to: Square)

  /** Number of rows and of columns of the grid. */
  const BoardSize: int := 8

  /** The bounds test: both coordinates lie in 0..7. */
  predicate InBoard(s: Square)
  {
    0 <= s.row < BoardSize && 0 <= s.col < BoardSize
  }

  /** The square holds no piece. */
  predicate IsSquareEmpty(board: Board, s: Square)
  {
    s !in board
  }

  /** The square is on the board and free: the test both forward steps of a pawn make. */
  predicate Open(board: Board, s: Square)
  {
    InBoard(s) && IsSquareEmpty(board, s)
  }
}
