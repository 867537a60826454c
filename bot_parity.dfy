/**
 * The Python bot describes itself as following the same strategy as the Rust
 * smart bot. These lemmas state that claim and prove it on every input where
 * the Python code does not raise; where it raises (a rank character that is
 * not a digit), the Rust bot treats the move as unparsable and scores it 0.
 */
module BotParity {
  import opened Wrappers
  import opened BotTypes
  import Rust = SmartBot
  import Py = PySmartBot

  lemma ParseUciParity(uci: string)
    ensures Py.ParseUci(uci).Returns? ==> Py.ParseUci(uci).value == Rust.ParseUci(uci)
    ensures Py.ParseUci(uci).RaisesValueError? ==> Rust.ParseUci(uci).None?
  {
    if |uci| >= 4 && Py.ParseUci(uci).Returns? {
      assert Rust.CheckedSub(uci[1], '1').Some? ==> Rust.CheckedSub(uci[1], '1').value == uci[1] as int - '1' as int;
    }
  }

  lemma ScoreMoveParity(uci: string, board: BoardState)
    requires WellFormed(board)
    ensures Py.ScoreMove(uci, board).Returns? ==> Py.ScoreMove(uci, board).value == Rust.ScoreMove(uci, board)
    ensures Py.ScoreMove(uci, board).RaisesValueError? ==> Rust.ScoreMove(uci, board) == 0
  {
    ParseUciParity(uci);
    match Py.ParseUci(uci)
    case RaisesValueError =>
    case Returns(None) =>
    case Returns(Some((fromIdx, toIdx))) =>
      Py.ExtendedCenterMembership(toIdx);
  }

  /** Python's `max` over the scores is the Rust bot's best score. */
  lemma {:induction false} MaxParity(scores: seq<int>, moves: seq<string>, board: BoardState)
    requires WellFormed(board) && |moves| > 0 && |scores| == |moves|
    requires forall i :: 0 <= i < |moves| ==> scores[i] == Rust.ScoreMove(moves[i], board)
    ensures Py.Max(scores) == Rust.BestScore(moves, board)
    decreases |moves|
  {
    if |moves| > 1 {
      MaxParity(scores[1..], moves[1..], board);
    }
  }

  /** Filtering the zipped scores keeps the same moves, in the same order, as the Rust filter. */
  lemma {:induction false} TiedParity(scores: seq<int>, moves: seq<string>, board: BoardState, best: int)
    requires WellFormed(board) && |scores| == |moves|
    requires forall i :: 0 <= i < |moves| ==> scores[i] == Rust.ScoreMove(moves[i], board)
    ensures Py.TiedOf(scores, moves, best) == Rust.Tied(moves, board, best)
    decreases |moves|
  {
    if moves != [] {
      TiedParity(scores[1..], moves[1..], board, best);
    }
  }

  /** Whenever `select_move` in Python returns, it returns the Rust bot's choice. */
  lemma SelectMoveParity(moves: seq<string>, board: BoardState)
    requires WellFormed(board)
    ensures Py.SelectMove(moves, board).Returns? ==> Py.SelectMove(moves, board).value == Rust.SelectMove(moves, board)
  {
    if moves != [] && Py.ScoreAll(moves, board).Returns? {
      var scores := Py.ScoreAll(moves, board).value;
      forall i | 0 <= i < |moves| ensures scores[i] == Rust.ScoreMove(moves[i], board) {
        ScoreMoveParity(moves[i], board);
      }
      MaxParity(scores, moves, board);
      TiedParity(scores, moves, board, Py.Max(scores));
    }
  }

  /** The inputs on which the parity claim fails: Python raises, Rust picks a move. */
  lemma ParityGap()
    ensures var board := BoardState(seq(64, _ => None), 0, 1);
            Py.SelectMove(["e2e4", "exe4"], board).RaisesValueError? &&
            Rust.SelectMove(["e2e4", "exe4"], board) == "e2e4"
  {
    var board := BoardState(seq(64, _ => None), 0, 1);
    assert Py.ScoreMove("exe4", board).RaisesValueError?;
    assert "exe4" in ["e2e4", "exe4"];
    assert Rust.ScoreMove("e2e4", board) == 15;
    assert Rust.ScoreMove("exe4", board) == 0;
    assert Rust.BestScore(["e2e4", "exe4"], board) == 15;
    assert Rust.Tied(["e2e4", "exe4"], board, 15) == ["e2e4"];
  }
}
