/**
 * The Python smart bot. Its heuristic is written independently of the Rust
 * bot's (a value table with a default, literal square sets), and Python's
 * `int()` raises `ValueError` on a rank character that is not a digit: the
 * `Outcome` datatype carries that exception out of every function it can
 * escape from.
 */
module PySmartBot {
  import opened Wrappers
  import opened BotTypes

  /** A Python call either returns a value or raises `ValueError`. */
  datatype Outcome<+T> = Returns(value: T) | RaisesValueError

  const PIECE_VALUES: map<PieceType, int> :=
    map[Queen := 9, Rook := 5, Bishop := 3, Knight := 3, Pawn := 1, King := 0]

  /** d4, e4, d5, e5 as board indices. */
  const CENTER: set<int> := {27, 28, 35, 36}

  /** `{r * 8 + f for r in range(2, 6) for f in range(2, 6)}`. */
  const EXTENDED_CENTER: set<int> := set r: int, f: int | 2 <= r < 6 && 2 <= f < 6 :: r * 8 + f

  /** `dict.get(key, default)`. */
  function Get(m: map<PieceType, int>, key: PieceType, default: int): int
  {
    if key in m then m[key] else default
  }

  /** `int(c)` for a one-character string: ASCII digits convert, everything else raises. */
  function Int(c: char): (r: Outcome<int>)
    ensures r.Returns? <==> '0' <= c <= '9'
  {
    if '0' <= c <= '9' then Returns(c as int - '0' as int) else RaisesValueError
  }

  /**
   * `parse_uci`: None when shorter than four characters or when a coordinate
   * falls outside 0..7; raises when a rank character is not a digit (both
   * `int()` calls run before the range test).
   */
  function ParseUci(uci: string): (r: Outcome<Option<(int, int)>>)
    ensures r.RaisesValueError? <==> |uci| >= 4 && !('0' <= uci[1] <= '9' && '0' <= uci[3] <= '9')
    ensures r.Returns? && r.value.Some? ==> 0 <= r.value.value.0 < 64 && 0 <= r.value.value.1 < 64
  {
    if |uci| < 4 then Returns(None)
    else
      var fromFile := uci[0] as int - 'a' as int;
      match Int(uci[1])
      case RaisesValueError => RaisesValueError
      case Returns(d1) =>
        var fromRank := d1 - 1;
        var toFile := uci[2] as int - 'a' as int;
        match Int(uci[3])
        case RaisesValueError => RaisesValueError
        case Returns(d3) =>
          var toRank := d3 - 1;
          if !(0 <= fromFile < 8 && 0 <= fromRank < 8 && 0 <= toFile < 8 && 0 <= toRank < 8) then Returns(None)
          else Returns(Some((fromRank * 8 + fromFile, toRank * 8 + toFile)))
  }

  /**
   * `score_move`: 0 for a move that does not parse, the sum of the capture,
   * promotion, centre and development bonuses otherwise; it raises when
   * `parse_uci` does.
   */
  function ScoreMove(uci: string, board: BoardState): (r: Outcome<int>)
    requires WellFormed(board)
    ensures r.RaisesValueError? <==> ParseUci(uci).RaisesValueError?
    ensures r == Returns(0) <== ParseUci(uci) == Returns(None)
    ensures r.Returns? ==> 0 <= r.value <= 303
  {
    match ParseUci(uci)
    case RaisesValueError => RaisesValueError
    case Returns(None) => Returns(0)
    case Returns(Some((fromIdx, toIdx))) =>
      var score := 0;
      var target := board.squares[toIdx];
      var score := if target.Some? then score + 100 + Get(PIECE_VALUES, target.value.pieceType, 0) * 10 else score;
      var score :=
        if |uci| > 4 then
          var promo := uci[4];
          if promo == 'q' then score + 90
          else if promo == 'r' then score + 50
          else if promo == 'b' || promo == 'n' then score + 30
          else score
        else score;
      var score := if toIdx in CENTER then score + 15 else if toIdx in EXTENDED_CENTER then score + 5 else score;
      var score :=
        if board.fullmoveNumber < 10 then
          var fromPiece := board.squares[fromIdx];
          if fromPiece.Some? && fromPiece.value.pieceType != Pawn then score + 8 else score
        else score;
      Returns(score)
  }

  /** `[(score_move(m, board), m) for m in moves]`: the first raise aborts the comprehension. */
  function ScoreAll(moves: seq<string>, board: BoardState): (r: Outcome<seq<int>>)
    requires WellFormed(board)
    ensures r.RaisesValueError? <==> exists m :: m in moves && ScoreMove(m, board).RaisesValueError?
    ensures r.Returns? ==>
      (|r.value| == |moves| && forall i :: 0 <= i < |moves| ==> ScoreMove(moves[i], board) == Returns(r.value[i]))
    decreases |moves|
  {
    if moves == [] then Returns([])
    else
      assert forall m :: m in moves ==> m == moves[0] || m in moves[1..];
      match ScoreMove(moves[0], board)
      case RaisesValueError => RaisesValueError
      case Returns(s) =>
        match ScoreAll(moves[1..], board)
        case RaisesValueError => RaisesValueError
        case Returns(rest) => Returns([s] + rest)
  }

  /** Python's `max` over a non-empty list of scores. */
  function Max(scores: seq<int>): (best: int)
    requires |scores| > 0
    ensures forall i :: 0 <= i < |scores| ==> scores[i] <= best
    ensures exists i :: 0 <= i < |scores| && scores[i] == best
    decreases |scores|
  {
    if |scores| == 1 then scores[0]
    else
      var rest := Max(scores[1..]);
      assert forall i :: 1 <= i < |scores| ==> scores[i] == scores[1..][i - 1];
      if scores[0] >= rest then scores[0] else rest
  }

  /** `[m for s, m in scored if s == best_score]`, keeping the list order. */
  function TiedOf(scores: seq<int>, moves: seq<string>, best: int): (tied: seq<string>)
    requires |scores| == |moves|
    ensures forall m :: m in tied ==> exists i :: 0 <= i < |moves| && moves[i] == m && scores[i] == best
    ensures (exists i :: 0 <= i < |moves| && scores[i] == best) ==> |tied| > 0
    decreases |moves|
  {
    if moves == [] then []
    else
      assert forall i :: 1 <= i < |moves| ==> moves[i] == moves[1..][i - 1] && scores[i] == scores[1..][i - 1];
      (if scores[0] == best then [moves[0]] else []) + TiedOf(scores[1..], moves[1..], best)
  }

  /**
   * `Bot.select_move`: "" for no legal moves; otherwise a best-scoring move,
   * `tied[(fullmove + halfmove) % len(tied)]`; raises when scoring any move does.
   */
  function SelectMove(moves: seq<string>, board: BoardState): (r: Outcome<string>)
    requires WellFormed(board)
    ensures moves == [] ==> r == Returns("")
    ensures r.RaisesValueError? <==> exists m :: m in moves && ScoreMove(m, board).RaisesValueError?
    ensures moves != [] && r.Returns? ==>
      (r.value in moves && forall m :: m in moves ==> ScoreMove(m, board).value <= ScoreMove(r.value, board).value)
  {
    if moves == [] then Returns("")
    else
      match ScoreAll(moves, board)
      case RaisesValueError => RaisesValueError
      case Returns(scores) =>
        var best := Max(scores);
        var tied := TiedOf(scores, moves, best);
        var idx := ClockSeed(board) % |tied|;
        var selected := tied[idx];
        assert selected in tied;
        assert exists i :: 0 <= i < |moves| && moves[i] == selected && scores[i] == best;
        Returns(selected)
  }

  /** `Bot.suggest_move` returns whatever `select_move` returns. */
  function SuggestMove(moves: seq<string>, board: BoardState): (r: Outcome<string>)
    requires WellFormed(board)
    ensures r == SelectMove(moves, board)
    ensures moves == [] ==> r == Returns("")
  {
    SelectMove(moves, board)
  }

  /** Membership in the comprehension is the file/rank test of the Rust bot's `is_extended_center`. */
  lemma ExtendedCenterMembership(idx: int)
    ensures idx in EXTENDED_CENTER <==> 0 <= idx < 64 && 2 <= idx % 8 <= 5 && 2 <= idx / 8 <= 5
  {
    if 0 <= idx < 64 && 2 <= idx % 8 <= 5 && 2 <= idx / 8 <= 5 {
      var r, f := idx / 8, idx % 8;
      assert 2 <= r < 6 && 2 <= f < 6 && idx == r * 8 + f;
      assert r * 8 + f in EXTENDED_CENTER;
    }
    if idx in EXTENDED_CENTER {
      var r, f :| 2 <= r < 6 && 2 <= f < 6 && idx == r * 8 + f;
      assert 0 <= f < 8 && idx == 8 * r + f;
      assert idx / 8 == r && idx % 8 == f;
    }
  }

  /** `CENTER` is a subset of `EXTENDED_CENTER`, so the two centre bonuses never stack. */
  lemma CenterWithinExtendedCenter()
    ensures CENTER <= EXTENDED_CENTER
  {
    ExtendedCenterMembership(27);
    ExtendedCenterMembership(28);
    ExtendedCenterMembership(35);
    ExtendedCenterMembership(36);
  }
}
