/** Move generation of the chess pieces: the shared piece behaviour (owner,
    move counter, relocation), the pawn's forward steps, and the other five
    kinds, which offer no moves. */
module Pieces {
  import opened ChessBoard

  /** Why a move query can fail. */
  datatype Error = NotImplemented

  datatype Result<T> = Success(value: T) | Failure(error: Error)

  /** The move query of the shared piece behaviour, for a piece class that
      does not supply its own: it always fails, so that "not supported" can
      never be mistaken for "no moves". */
  function BaseAvailableMoves(board: Board): (r: Result<seq<Square>>)
    ensures r.Failure? && r.error == NotImplemented
    ensures r != Success([])
  {
    Failure(NotImplemented)
  }

  function Abs(x: int): nat
  {
    if x < 0 then -x else x
  }

  /** The row a pawn of `owner` reaches from `currentRow` by advancing
      `nSpaces` squares: White advances towards higher rows, Black towards
      lower rows. */
  function DestinationRowAfterMove(owner: Player, currentRow: int, nSpaces: nat): (r: int)
    ensures Abs(r - currentRow) == nSpaces
    ensures nSpaces > 0 ==> (r > currentRow <==> owner == White)
  {
    if owner == White then currentRow + nSpaces else currentRow - nSpaces
  }

  /** The square straight ahead of a pawn of `owner` standing on `at`. */
  function OneForwards(owner: Player, at: Square): Square
  {
    Square(DestinationRowAfterMove(owner, at.row, 1), at.col)
  }

  /** The square two ahead of a pawn of `owner` standing on `at`. */
  function TwoForwards(owner: Player, at: Square): Square
  {
    Square(DestinationRowAfterMove(owner, at.row, 2), at.col)
  }

  /** The pawn rules stated square by square: the single step needs a free
      square ahead; the double step needs the single step, a free square two
      ahead and a pawn that has never moved. */
  ghost predicate PawnMayMoveTo(owner: Player, nMoves: nat, at: Square, board: Board, s: Square)
  {
    || (s == OneForwards(owner, at) && Open(board, s))
    || (s == TwoForwards(owner, at) && Open(board, OneForwards(owner, at))
        && Open(board, s) && nMoves == 0)
  }

  predicate NoDuplicates(s: seq<Square>)
  {
    forall i, j :: 0 <= i < j < |s| ==> s[i] != s[j]
  }

  /** The destinations a pawn offers, in the order the pawn lists them. */
  function PawnMoves(owner: Player, nMoves: nat, at: Square, board: Board): (r: seq<Square>)
    ensures forall s :: s in r <==> PawnMayMoveTo(owner, nMoves, at, board, s)
    ensures OneForwards(owner, at) in r <==> Open(board, OneForwards(owner, at))
    ensures TwoForwards(owner, at) in r <==>
              Open(board, OneForwards(owner, at)) && Open(board, TwoForwards(owner, at)) && nMoves == 0
    ensures forall i :: 0 <= i < |r| ==> Open(board, r[i]) && r[i].col == at.col
    ensures |r| <= 2 && NoDuplicates(r)
    ensures r != [] ==> r[0] == OneForwards(owner, at)
    ensures nMoves > 0 ==> |r| <= 1
  {
    var one := OneForwards(owner, at);
    if Open(board, one) then
      var two := TwoForwards(owner, at);
      if Open(board, two) && nMoves == 0 then [one, two] else [one]
    else
      []
  }

  /** The destinations a piece of `kind` offers: the pawn's forward steps;
      nothing at all for the knight, bishop, rook, queen and king. */
  function CandidateMoves(kind: Kind, owner: Player, nMoves: nat, at: Square, board: Board): (r: seq<Square>)
    ensures forall s :: s in r <==> kind == Pawn && PawnMayMoveTo(owner, nMoves, at, board, s)
    ensures kind != Pawn ==> r == []
    ensures forall i :: 0 <= i < |r| ==> InBoard(r[i]) && IsSquareEmpty(board, r[i])
    ensures |r| <= 2 && NoDuplicates(r)
  {
    match kind
    case Pawn => PawnMoves(owner, nMoves, at, board)
    case Knight => []
    case Bishop => []
    case Rook => []
    case Queen => []
    case King => []
  }

  /** A pawn that has been moved at least once offers neither the double
      step nor more than one square, wherever it stands and whatever the
      board. */
  lemma MovedPawnHasNoDoubleStep(owner: Player, nMoves: nat, at: Square, board: Board)
    requires nMoves >= 1
    ensures TwoForwards(owner, at) !in PawnMoves(owner, nMoves, at, board)
    ensures |PawnMoves(owner, nMoves, at, board)| <= 1
  {
  }

  /** The square in the same column on the row at the same distance from
      the other edge: what White's side of the board looks like to Black. */
  function Mirror(s: Square): Square
  {
    Square(BoardSize - 1 - s.row, s.col)
  }

  /** The board with every occupant moved to the mirrored square. */
  function MirrorBoard(board: Board): Board
  {
    map s | s in board :: Mirror(s) := board[s]
  }

  /** Every square of a list mirrored, in the same order. */
  function MirrorAll(squares: seq<Square>): seq<Square>
  {
    seq(|squares|, i requires 0 <= i < |squares| => Mirror(squares[i]))
  }

  /** Mirroring a list twice gives it back. */
  lemma MirrorAllInvolution(squares: seq<Square>)
    ensures MirrorAll(MirrorAll(squares)) == squares
  {
  }

  /** A square of the mirrored board holds what its mirror holds on the
      original board. */
  lemma MirrorKeepsOccupant(board: Board, s: Square)
    ensures Mirror(s) in MirrorBoard(board) <==> s in board
    ensures s in board ==> MirrorBoard(board)[Mirror(s)] == board[s]
  {
  }

  /** The two owners' forward directions are mirror images: a Black pawn
      offers exactly the mirrors of what a White pawn with the same counter
      offers from the mirrored square on the mirrored board, in the same
      order. */
  lemma BlackPawnMirrorsWhite(nMoves: nat, at: Square, board: Board)
    ensures PawnMoves(Black, nMoves, at, board)
         == MirrorAll(PawnMoves(White, nMoves, Mirror(at), MirrorBoard(board)))
  {
  }

  /** Mirroring twice gives back the same square and the same board. */
  lemma MirrorInvolution(board: Board, s: Square)
    ensures Mirror(Mirror(s)) == s
    ensures MirrorBoard(MirrorBoard(board)) == board
  {
    var twice := MirrorBoard(MirrorBoard(board));
    forall t | t in twice
      ensures t in board && twice[t] == board[t]
    {
      MirrorKeepsOccupant(MirrorBoard(board), Mirror(t));
      MirrorKeepsOccupant(board, t);
    }
    forall t | t in board
      ensures t in twice
    {
      MirrorKeepsOccupant(board, t);
      MirrorKeepsOccupant(MirrorBoard(board), Mirror(t));
    }
  }

  /** The converse direction: a White pawn offers exactly the mirrors of
      what a Black pawn offers from the mirrored square on the mirrored
      board. It follows from the Black direction because mirroring squares,
      boards and lists undoes itself. */
  lemma WhitePawnMirrorsBlack(nMoves: nat, at: Square, board: Board)
    ensures PawnMoves(White, nMoves, at, board)
         == MirrorAll(PawnMoves(Black, nMoves, Mirror(at), MirrorBoard(board)))
  {
    var white := PawnMoves(White, nMoves, at, board);
    MirrorInvolution(board, at);
    BlackPawnMirrorsWhite(nMoves, Mirror(at), MirrorBoard(board));
    MirrorAllInvolution(white);
  }

  /** An unmoved pawn with two free squares ahead offers exactly both, single
      step first. */
  lemma UnmovedPawnOnOpenFile(owner: Player, at: Square, board: Board)
    requires Open(board, OneForwards(owner, at)) && Open(board, TwoForwards(owner, at))
    ensures PawnMoves(owner, 0, at, board) == [OneForwards(owner, at), TwoForwards(owner, at)]
  {
  }

  /** A pawn whose square ahead is occupied or off the board offers nothing. */
  lemma BlockedPawnHasNoMoves(owner: Player, nMoves: nat, at: Square, board: Board)
    requires !Open(board, OneForwards(owner, at))
    ensures PawnMoves(owner, nMoves, at, board) == []
  {
  }

  /** A pawn on the far rank of its direction of travel offers nothing. */
  lemma PawnOnLastRankHasNoMoves(owner: Player, nMoves: nat, at: Square, board: Board)
    requires if owner == White then at.row == BoardSize - 1 else at.row == 0
    ensures PawnMoves(owner, nMoves, at, board) == []
  {
  }

  /** A pawn never offers a square off its own column, so in particular never
      a diagonal capture. */
  lemma PawnNeverLeavesItsColumn(owner: Player, nMoves: nat, at: Square, board: Board, s: Square)
    requires s.col != at.col
    ensures s !in PawnMoves(owner, nMoves, at, board)
  {
  }

  /** Every destination offered is a legal candidate: on the board and not
      held by a piece of the mover's own side. */
  lemma CandidatesAreLegal(kind: Kind, owner: Player, nMoves: nat, at: Square, board: Board, s: Square)
    requires s in CandidateMoves(kind, owner, nMoves, at, board)
    ensures InBoard(s)
    ensures s !in board || board[s].owner != owner
  {
  }

  /** A white pawn on (3, 4) with black pawns on (4, 5) and (4, 3) offers
      the two squares ahead and neither diagonal: pawn captures are not
      part of the move rules. */
  lemma PawnOffersNoDiagonalCapture()
    ensures var board := map[Square(3, 4) := Occupant(Pawn, White),
                             Square(4, 5) := Occupant(Pawn, Black),
                             Square(4, 3) := Occupant(Pawn, Black)];
            CandidateMoves(Pawn, White, 0, Square(3, 4), board) == [Square(4, 4), Square(5, 4)]
  {
  }

  /** A bishop on (0, 0) of an otherwise empty board offers no square, like
      every knight, rook, queen and king: the diagonal is not scanned. */
  lemma BishopOffersNothing(owner: Player, nMoves: nat)
    ensures CandidateMoves(Bishop, owner, nMoves, Square(0, 0), map[Square(0, 0) := Occupant(Bishop, owner)]) == []
    ensures Square(1, 1) !in CandidateMoves(Bishop, owner, nMoves, Square(0, 0), map[Square(0, 0) := Occupant(Bishop, owner)])
  {
  }

  /** A chess piece: its kind and owner are fixed at creation; its move
      counter is the only state that changes. */
  class Piece {
    const kind: Kind
    const player: Player
    var nMoves: nat

    /** The piece stands on `at` on `board`: what the board's lookup of this
        piece answers. */
    predicate IsAt(board: Board, at: Square)
    {
      at in board && board[at] == Occupant(kind, player)
    }

    constructor (kind: Kind, player: Player)
      ensures this.kind == kind && this.player == player
      ensures nMoves == 0
    {
      this.kind := kind;
      this.player := player;
      nMoves := 0;
    }

    /** The squares this piece may move to from `at`. For a pawn the list
        is built step by step, single step first; only the pawn consults the
        board, so only the pawn needs to be found on it. */
    method AvailableMoves(board: Board, at: Square) returns (validMoves: seq<Square>)
      requires kind == Pawn ==> IsAt(board, at)
      ensures validMoves == CandidateMoves(kind, player, nMoves, at, board)
      ensures forall s :: s in validMoves <==> kind == Pawn && PawnMayMoveTo(player, nMoves, at, board, s)
    {
      match kind {
        case Pawn =>
          validMoves := [];
          var oneForwards := Square(DestinationRowAfterMove(player, at.row, 1), at.col);
          if InBoard(oneForwards) && IsSquareEmpty(board, oneForwards) {
            validMoves := validMoves + [oneForwards];
            var twoForwards := Square(DestinationRowAfterMove(player, at.row, 2), at.col);
            if InBoard(twoForwards) && IsSquareEmpty(board, twoForwards) && nMoves == 0 {
              validMoves := validMoves + [twoForwards];
            }
          }
        case Knight => validMoves := [];
        case Bishop => validMoves := [];
        case Rook => validMoves := [];
        case Queen => validMoves := [];
        case King => validMoves := [];
      }
    }

    /** Asks the board to move this piece from where it stands to
        `newSquare`, then counts the move. */
    method MoveTo(board: Board, at: Square, newSquare: Square) returns (request: Relocation)
      requires IsAt(board, at)
      modifies this
      ensures request == Relocation(at, newSquare)
      ensures nMoves == old(nMoves) + 1
    {
      request := Relocation(at, newSquare);
      nMoves := nMoves + 1;
    }
  }

  /** A white pawn on (1, 4) is moved to (2, 4); the board after the move
      is written out by hand, with the pawn on the requested destination;
      the pawn then offers (3, 4) only. */
  method PawnLosesDoubleStepAfterMoving() returns (moves: seq<Square>)
    ensures moves == [Square(3, 4)]
  {
    var pawn := new Piece(Pawn, White);
    var start := Square(1, 4);
    var request := pawn.MoveTo(map[start := Occupant(Pawn, White)], start, Square(2, 4));
    var after := map[request.to := Occupant(Pawn, White)];
    moves := pawn.AvailableMoves(after, request.to);
  }
}
