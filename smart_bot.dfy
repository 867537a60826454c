/**
 * The Rust smart bot: a one-ply additive heuristic over UCI move strings and a
 * deterministic, clock-seeded tie-break among the best-scoring moves.
 *
 * Strings are sequences of characters; the Rust code inspects bytes. Every
 * check it makes (`checked_sub` then `> 7`, the length tests, the fifth-byte
 * match) fails on the lead byte of a multi-byte character exactly when the
 * character-level check below fails on that character, so the two agree.
 */
module SmartBot {
  import opened Wrappers
  import opened BotTypes

  /** Victim values for most-valuable-victim ordering; a king is worth 0. */
  function PieceValue(pt: PieceType): (v: int)
    ensures 0 <= v <= 9
    ensures v == 0 <==> pt == King
  {
    match pt
    case Queen => 9
    case Rook => 5
    case Bishop | Knight => 3
    case Pawn => 1
    case King => 0
  }

  /** `usize::checked_sub` on a character code: fails below the base. */
  function CheckedSub(c: char, base: char): Option<nat>
  {
    if base <= c then Some(c as int - base as int) else None
  }

  /**
   * Decodes the first four characters of a UCI move into
   * `(from_rank * 8 + from_file, to_rank * 8 + to_file)`; anything after the
   * fourth character is ignored.
   */
  function ParseUci(uci: string): (r: Option<(int, int)>)
    ensures r.Some? ==> 0 <= r.value.0 < 64 && 0 <= r.value.1 < 64
    ensures r.Some? <==> |uci| >= 4 && 'a' <= uci[0] <= 'h' && '1' <= uci[1] <= '8'
                                    && 'a' <= uci[2] <= 'h' && '1' <= uci[3] <= '8'
  {
    if |uci| < 4 then None
    else
      match (CheckedSub(uci[0], 'a'), CheckedSub(uci[1], '1'), CheckedSub(uci[2], 'a'), CheckedSub(uci[3], '1'))
      case (Some(fromFile), Some(fromRank), Some(toFile), Some(toRank)) =>
        if fromFile > 7 || fromRank > 7 || toFile > 7 || toRank > 7 then None
        else Some((fromRank * 8 + fromFile, toRank * 8 + toFile))
      case _ => None
  }

  /** d4, e4, d5, e5. */
  predicate IsCenter(idx: int)
  {
    idx == 27 || idx == 28 || idx == 35 || idx == 36
  }

  /** The 4x4 block c3..f6: files and ranks 2..5. */
  predicate IsExtendedCenter(idx: nat)
  {
    2 <= idx % 8 <= 5 && 2 <= idx / 8 <= 5
  }

  /** The promotion bonus the fifth character earns (case-sensitive). */
  function PromotionBonus(c: char): int
  {
    if c == 'q' then 90
    else if c == 'r' then 50
    else if c == 'b' || c == 'n' then 30
    else 0
  }

  /**
   * `score_move`: capture (100 + 10 x victim value), promotion, centre (15,
   * else 5 for the extended centre) and, before move 10, 8 for moving a
   * non-pawn. An unparsable move scores 0.
   */
  function ScoreMove(uci: string, board: BoardState): (score: int)
    requires WellFormed(board)
    ensures 0 <= score <= 303
    ensures ParseUci(uci).None? ==> score == 0
  {
    match ParseUci(uci)
    case None => 0
    case Some((fromIdx, toIdx)) =>
      var capture :=
        if board.squares[toIdx].Some? then 100 + PieceValue(board.squares[toIdx].value.pieceType) * 10 else 0;
      var promotion := if |uci| > 4 then PromotionBonus(uci[4]) else 0;
      var center := if IsCenter(toIdx) then 15 else if IsExtendedCenter(toIdx) then 5 else 0;
      var development :=
        if board.fullmoveNumber < 10 && board.squares[fromIdx].Some? && board.squares[fromIdx].value.pieceType != Pawn
        then 8 else 0;
      capture + promotion + center + development
  }

  /** The highest score among the candidates (`scored.iter().map(..).max()`). */
  function BestScore(moves: seq<string>, board: BoardState): (best: int)
    requires WellFormed(board) && |moves| > 0
    ensures forall m :: m in moves ==> ScoreMove(m, board) <= best
    ensures exists m :: m in moves && ScoreMove(m, board) == best
    decreases |moves|
  {
    if |moves| == 1 then ScoreMove(moves[0], board)
    else
      var head, rest := ScoreMove(moves[0], board), BestScore(moves[1..], board);
      assert forall m :: m in moves ==> m == moves[0] || m in moves[1..];
      if head >= rest then head else rest
  }

  /** The candidates whose score is `best`, in the order the host listed them. */
  function Tied(moves: seq<string>, board: BoardState, best: int): (tied: seq<string>)
    requires WellFormed(board)
    ensures forall m :: m in tied <==> m in moves && ScoreMove(m, board) == best
    ensures |tied| <= |moves|
    decreases |moves|
  {
    if moves == [] then []
    else
      assert forall m :: m in moves ==> m == moves[0] || m in moves[1..];
      (if ScoreMove(moves[0], board) == best then [moves[0]] else []) + Tied(moves[1..], board, best)
  }

  /**
   * `select_move`: "" when there is no legal move; otherwise a best-scoring
   * move, the one at `(fullmove + halfmove) % |tied|` among the tied moves.
   * The source takes `tied[0]` directly when only one move is tied.
   */
  function SelectMove(moves: seq<string>, board: BoardState): (selected: string)
    requires WellFormed(board)
    ensures moves == [] ==> selected == ""
    ensures moves != [] ==> selected in moves
    ensures moves != [] ==> forall m :: m in moves ==> ScoreMove(m, board) <= ScoreMove(selected, board)
    ensures moves != [] ==>
      var tied := Tied(moves, board, BestScore(moves, board));
      |tied| > 0 && selected == tied[ClockSeed(board) % |tied|]
  {
    if moves == [] then ""
    else
      var best := BestScore(moves, board);
      var tied := Tied(moves, board, best);
      if |tied| > 1 then tied[ClockSeed(board) % |tied|]
      else
        assert |tied| == 1 && ClockSeed(board) % |tied| == 0;
        tied[0]
  }

  /** `suggest_move` delegates to `select_move`. */
  function SuggestMove(moves: seq<string>, board: BoardState): (suggested: string)
    requires WellFormed(board)
    ensures suggested == SelectMove(moves, board)
    ensures moves != [] ==> suggested in moves
  {
    SelectMove(moves, board)
  }

  // ---------------------------------------------------------------------------
  // Properties of the codec and the scorer
  // ---------------------------------------------------------------------------

  /** Printing two squares and parsing them back gives the squares again, whatever follows. */
  lemma ParseUciOfNames(from: int, to: int, suffix: string)
    requires 0 <= from < 64 && 0 <= to < 64
    ensures ParseUci(SquareName(from) + SquareName(to) + suffix) == Some((from, to))
  {
    var u := SquareName(from) + SquareName(to) + suffix;
    assert u[0] == SquareName(from)[0] && u[1] == SquareName(from)[1];
    assert u[2] == SquareName(to)[0] && u[3] == SquareName(to)[1];
  }

  /** Conversely, a parsed move is exactly the names of its two squares followed by the rest. */
  lemma ParseUciNamesItsSquares(uci: string)
    requires ParseUci(uci).Some?
    ensures uci == SquareName(ParseUci(uci).value.0) + SquareName(ParseUci(uci).value.1) + uci[4..]
  {
    var (from, to) := ParseUci(uci).value;
    assert from / 8 == uci[1] as int - '1' as int && from % 8 == uci[0] as int - 'a' as int;
    assert to / 8 == uci[3] as int - '1' as int && to % 8 == uci[2] as int - 'a' as int;
  }

  /**
   * The centre squares lie inside the extended centre; the inner test is made
   * first, so a centre square earns 15 and never 15 + 5.
   */
  lemma CenterWithinExtendedCenter(idx: nat)
    requires IsCenter(idx)
    ensures IsExtendedCenter(idx)
  {
  }

  /**
   * Capture dominance: putting any piece on the (empty) destination of a
   * parsable move raises its score by exactly 100 + 10 x the victim's value.
   */
  lemma CaptureBonus(uci: string, board: BoardState, victim: Piece)
    requires WellFormed(board) && ParseUci(uci).Some?
    requires ParseUci(uci).value.0 != ParseUci(uci).value.1
    requires board.squares[ParseUci(uci).value.1].None?
    ensures var occupied := board.(squares := board.squares[ParseUci(uci).value.1 := Some(victim)]);
            WellFormed(occupied) &&
            ScoreMove(uci, occupied) == ScoreMove(uci, board) + 100 + 10 * PieceValue(victim.pieceType)
  {
  }

  /**
   * The centre bonus alone: a quiet four-character move from an empty square
   * scores 15 onto d4, e4, d5 or e5, 5 onto the rest of c3..f6, and 0 elsewhere,
   * read off the destination's letter and digit.
   */
  lemma CenterBonus(uci: string, board: BoardState)
    requires WellFormed(board) && |uci| == 4 && ParseUci(uci).Some?
    requires board.squares[ParseUci(uci).value.0].None? && board.squares[ParseUci(uci).value.1].None?
    ensures ScoreMove(uci, board) ==
              if uci[2..] in {"d4", "e4", "d5", "e5"} then 15
              else if 'c' <= uci[2] <= 'f' && '3' <= uci[3] <= '6' then 5
              else 0
  {
    var to := ParseUci(uci).value.1;
    var (letter, digit) := (uci[2], uci[3]);
    assert to % 8 == letter as int - 'a' as int && to / 8 == digit as int - '1' as int;
    assert uci[2..] == [letter, digit];
    assert [letter, digit] in {"d4", "e4", "d5", "e5"} <==> (letter == 'd' || letter == 'e') && (digit == '4' || digit == '5');
    assert IsCenter(to) <==> (letter == 'd' || letter == 'e') && (digit == '4' || digit == '5');
  }

  /** The fifth character adds its promotion bonus on top of the four-character move's score. */
  lemma PromotionBonusAdds(uci: string, board: BoardState)
    requires WellFormed(board) && |uci| > 4 && ParseUci(uci).Some?
    ensures ScoreMove(uci, board) == ScoreMove(uci[..4], board) + PromotionBonus(uci[4])
  {
    assert ParseUci(uci[..4]) == ParseUci(uci);
  }

  /** From move 10 on, what stands on the source square no longer matters. */
  lemma NoDevelopmentAfterOpening(uci: string, board: BoardState, from: int, piece: Option<Piece>)
    requires WellFormed(board) && board.fullmoveNumber >= 10 && ParseUci(uci).Some?
    requires from == ParseUci(uci).value.0 && from != ParseUci(uci).value.1
    ensures ScoreMove(uci, board.(squares := board.squares[from := piece])) == ScoreMove(uci, board)
  {
  }

  /** The development bonus: before move 10, a non-pawn on the source square adds exactly 8. */
  lemma DevelopmentBonus(uci: string, board: BoardState, mover: Piece)
    requires WellFormed(board) && board.fullmoveNumber < 10 && ParseUci(uci).Some?
    requires ParseUci(uci).value.0 != ParseUci(uci).value.1
    requires board.squares[ParseUci(uci).value.0].None?
    ensures var moved := board.(squares := board.squares[ParseUci(uci).value.0 := Some(mover)]);
            ScoreMove(uci, moved) == ScoreMove(uci, board) + (if mover.pieceType == Pawn then 0 else 8)
  {
  }

  /** The worked examples of the Rust unit tests. */
  lemma ParseUciExamples()
    ensures ParseUci("e2e4") == Some((12, 28))
    ensures ParseUci("a1h8") == Some((0, 63))
    ensures ParseUci("e7e8q") == Some((52, 60))
    ensures ParseUci("e2") == None && ParseUci("") == None && ParseUci("e2e") == None
    ensures ParseUci("z2e4") == None && ParseUci("e9e4") == None
  {
  }

  /** The board of the scoring tests: no pieces, with the given move number. */
  function EmptyBoard(fullmove: U16): (board: BoardState)
    ensures WellFormed(board) && board.halfmoveClock == 0
  {
    BoardState(seq(64, _ => None), 0, fullmove)
  }

  lemma ScoreMoveExamples()
    ensures ScoreMove("a1d4", EmptyBoard(15)) == 15
    ensures ScoreMove("a1c3", EmptyBoard(15)) == 5
    ensures ScoreMove("a1d4", EmptyBoard(15).(squares := EmptyBoard(15).squares[27 := Some(Piece(Queen, Black))])) == 205
    ensures ScoreMove("e7e8q", EmptyBoard(15)) == 90 && ScoreMove("e7e8n", EmptyBoard(15)) == 30
    ensures ScoreMove("g1f3", EmptyBoard(5).(squares := EmptyBoard(5).squares[6 := Some(Piece(Knight, White))])) == 13
    ensures ScoreMove("e2e4", EmptyBoard(5).(squares := EmptyBoard(5).squares[12 := Some(Piece(Pawn, White))])) == 15
    ensures ScoreMove("zz", EmptyBoard(1)) == 0
  {
  }

  /** Two centre pushes tie at 15 ahead of a2a3; move 1, ply 0 picks the second of them. */
  lemma TieBreakExample()
    ensures SelectMove(["e2e4", "d2d4", "a2a3"], EmptyBoard(1)) == "d2d4"
  {
    var board := EmptyBoard(1);
    var moves := ["e2e4", "d2d4", "a2a3"];
    ExampleScores();
    assert moves[0] == "e2e4" && moves[1] == "d2d4" && moves[2] == "a2a3";
    var best := BestScore(moves, board);
    assert best == 15;
    ExampleTied();
    assert ClockSeed(board) == 1;
  }

  lemma ExampleScores()
    ensures ScoreMove("e2e4", EmptyBoard(1)) == 15
    ensures ScoreMove("d2d4", EmptyBoard(1)) == 15
    ensures ScoreMove("a2a3", EmptyBoard(1)) == 0
  {
  }

  lemma ExampleTied()
    ensures Tied(["e2e4", "d2d4", "a2a3"], EmptyBoard(1), 15) == ["e2e4", "d2d4"]
  {
    var board := EmptyBoard(1);
    var moves := ["e2e4", "d2d4", "a2a3"];
    ExampleScores();
    assert moves[1..] == ["d2d4", "a2a3"] && moves[1..][1..] == ["a2a3"] && moves[1..][1..][1..] == [];
    assert Tied(["a2a3"], board, 15) == [];
  }
}
