/**
 * The random bot: no randomness is available to it, so it indexes the legal
 * move list with the sum of the two game clocks.
 */
module RandomBot {
  import opened BotTypes

  /** `select_move`: "" for no legal moves, else `moves[(fullmove + halfmove) % len]`. */
  function SelectMove(moves: seq<string>, board: BoardState): (selected: string)
    ensures moves == [] ==> selected == ""
    ensures moves != [] ==> selected in moves
  {
    if moves == [] then "" else moves[ClockSeed(board) % |moves|]
  }

  /** `suggest_move` returns exactly what `select_move` returns. */
  function SuggestMove(moves: seq<string>, board: BoardState): (suggested: string)
    ensures suggested == SelectMove(moves, board)
    ensures moves != [] ==> suggested in moves
  {
    SelectMove(moves, board)
  }

  /** When the clocks sum to a multiple of the list's length, the first move is chosen. */
  lemma FirstMoveAtZeroSeed(moves: seq<string>, b: BoardState)
    requires moves != [] && ClockSeed(b) % |moves| == 0
    ensures SelectMove(moves, b) == moves[0]
  {
  }

  /**
   * With the first move picked at a board, `k` half-moves later the bot picks
   * the move `k` places further on, wrapping round the list.
   */
  lemma PliesLater(moves: seq<string>, b: BoardState, k: nat)
    requires moves != [] && ClockSeed(b) % |moves| == 0 && b.halfmoveClock + k < 0x1_0000
    ensures SelectMove(moves, b.(halfmoveClock := b.halfmoveClock + k)) == moves[k % |moves|]
  {
    ModAdd(ClockSeed(b), k, |moves|);
  }

  /** The game's first position (move 1, no half-moves) picks the second move of the list. */
  lemma StartPicksSecond(moves: seq<string>, b: BoardState)
    requires |moves| >= 2 && b.fullmoveNumber == 1 && b.halfmoveClock == 0
    ensures SelectMove(moves, b) == moves[1]
  {
  }

  /** The choice depends only on the list and the two clocks, never on where the pieces stand. */
  lemma DependsOnlyOnClocks(moves: seq<string>, b1: BoardState, b2: BoardState)
    requires b1.fullmoveNumber == b2.fullmoveNumber && b1.halfmoveClock == b2.halfmoveClock
    ensures SelectMove(moves, b1) == SelectMove(moves, b2)
  {
  }

  /** Successive plies walk through the list: one more half-move picks the next move, wrapping round. */
  lemma NextPlyPicksNextMove(moves: seq<string>, b: BoardState)
    requires moves != [] && b.halfmoveClock < 0xFFFF
    ensures var i := ClockSeed(b) % |moves|;
            SelectMove(moves, b.(halfmoveClock := b.halfmoveClock + 1)) == moves[(i + 1) % |moves|]
  {
    ModSucc(ClockSeed(b), |moves|);
  }

  /**
   * A later move number also walks through the list: one more full move picks
   * the next move, wrapping round. With `NextPlyPicksNextMove` and the first
   * move at move 0 with no half-moves (`FirstMoveAtZeroSeed`), this fixes the
   * pick on every board.
   */
  lemma NextMoveNumberPicksNextMove(moves: seq<string>, b: BoardState)
    requires moves != [] && b.fullmoveNumber < 0xFFFF
    ensures var i := ClockSeed(b) % |moves|;
            SelectMove(moves, b.(fullmoveNumber := b.fullmoveNumber + 1)) == moves[(i + 1) % |moves|]
  {
    ModSucc(ClockSeed(b), |moves|);
  }

  /** Adding `k` after reducing adds `k` before reducing. */
  lemma {:induction false} ModAdd(s: nat, k: nat, n: nat)
    requires n > 0
    ensures (s + k) % n == (s % n + k) % n
  {
    if k > 0 {
      ModAdd(s, k - 1, n);
      ModSucc(s + k - 1, n);
      ModSucc(s % n + k - 1, n);
    }
  }

  lemma ModSucc(s: nat, n: nat)
    requires n > 0
    ensures (s + 1) % n == (s % n + 1) % n
  {
    var q, r := s / n, s % n;
    assert s + 1 == q * n + (r + 1);
    if r + 1 < n {
      ModUnique(s + 1, n, q, r + 1);
    } else {
      ModUnique(s + 1, n, q + 1, 0);
    }
  }

  /** `a % n` is the remainder of any decomposition `a == q * n + r` with `0 <= r < n`. */
  lemma ModUnique(a: int, n: int, q: int, r: int)
    requires n > 0 && 0 <= r < n && a == q * n + r
    ensures a % n == r
  {
    var q', r' := a / n, a % n;
    assert (q - q') * n == r' - r;
    if q - q' >= 1 {
      MulAtLeast(q - q', n);
    } else if q - q' <= -1 {
      MulAtLeast(q' - q, n);
    }
  }

  lemma MulAtLeast(k: int, n: int)
    requires k >= 1 && n > 0
    ensures k * n >= n
  {
    assert k * n == (k - 1) * n + n;
  }
}
