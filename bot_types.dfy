/**
 * The board snapshot the host hands to a bot (the `chess:types` interface as
 * the bots read it): 64 optional pieces indexed by `rank * 8 + file` (a1 = 0,
 * h8 = 63) and the two game clocks.
 */
module BotTypes {
  import opened Wrappers

  datatype PieceType = Pawn | Knight | Bishop | Rook | Queen | King

  datatype Color = White | Black

  datatype Piece = Piece(pieceType: PieceType, color: Color)

  /** The interface carries both clocks as 16-bit unsigned integers. */
  type U16 = x: int | 0 <= x < 0x1_0000

  /**
   * Only the fields a bot reads are kept: the side to move, castling rights,
   * en-passant square and move history of the interface record are never
   * consulted by any bot.
   */
  datatype BoardState = BoardState(squares: seq<Option<Piece>>, halfmoveClock: U16, fullmoveNumber: U16)

  /** The host promises one entry per square. */
  predicate WellFormed(board: BoardState)
  {
    |board.squares| == 64
  }

  /** The clock-derived seed both deterministic bots use in place of randomness. */
  function ClockSeed(board: BoardState): nat
  {
    board.fullmoveNumber + board.halfmoveClock
  }

  /** The two-character name of a board index: file letter, then rank digit. */
  function SquareName(i: int): (name: string)
    requires 0 <= i < 64
    ensures |name| == 2 && 'a' <= name[0] <= 'h' && '1' <= name[1] <= '8'
  {
    [('a' as int + i % 8) as char, ('1' as int + i / 8) as char]
  }
}
