/**
 * The FEN texts of the engine's parsing tests, read by the model of
 * `Board::from_fen`: the rejections, and the en-passant texts it accepts.
 */
module FenExamples {
  import opened Wrappers
  import opened Types
  import opened Bitboards
  import opened Positions
  import opened Fen

  /** Printable ASCII other than the space is never whitespace, so such text is a field. */
  lemma PrintableField(s: string)
    requires s != [] && forall i :: 0 <= i < |s| ==> '!' <= s[i] <= '~'
    ensures IsField(s)
  {
  }

  /** A field followed by a space and more text splits into that field, then the rest's fields. */
  lemma ConsField(a: string, rest: string)
    requires IsField(a)
    ensures SplitWhitespace(a + " " + rest) == [a] + SplitWhitespace(rest)
  {
    var text := a + " " + rest;
    FieldLengthOfField(a, " " + rest);
    assert text == a + (" " + rest);
    assert text[..|a|] == a;
    assert text[|a|..] == " " + rest;
    assert (" " + rest)[1..] == rest;
  }

  /** Six fields joined by single spaces split back into those six fields. */
  lemma SixFields(a: string, b: string, c: string, d: string, e: string, f: string)
    requires IsField(a) && IsField(b) && IsField(c) && IsField(d) && IsField(e) && IsField(f)
    ensures SplitWhitespace(a + " " + (b + " " + (c + " " + (d + " " + (e + " " + f))))) == [a, b, c, d, e, f]
  {
    ThreeFields(d, e, f);
    ConsField(c, d + " " + (e + " " + f));
    ConsField(b, c + " " + (d + " " + (e + " " + f)));
    ConsField(a, b + " " + (c + " " + (d + " " + (e + " " + f))));
  }

  /** Three fields joined by single spaces split back into those three fields. */
  lemma ThreeFields(d: string, e: string, f: string)
    requires IsField(d) && IsField(e) && IsField(f)
    ensures SplitWhitespace(d + " " + (e + " " + f)) == [d, e, f]
  {
    OneField(f);
    ConsField(e, f);
    ConsField(d, e + " " + f);
  }

  /** One field splits into itself. */
  lemma OneField(a: string)
    requires IsField(a)
    ensures SplitWhitespace(a) == [a]
  {
    SplitJoin([a]);
  }

  /** Texts with fewer than four fields are rejected. */
  lemma RejectsTooFewFields()
    ensures ParseFen("invalid") == None
    ensures ParseFen("") == None
    ensures ParseFen("8/8/8/8/8/8/8/8") == None
  {
    PrintableField("invalid");
    OneField("invalid");
    PrintableField("8/8/8/8/8/8/8/8");
    OneField("8/8/8/8/8/8/8/8");
  }

  /** Six fields, joined by single spaces the way the texts below are written. */
  function Text(a: string, b: string, c: string, d: string, e: string, f: string): string
  {
    a + " " + (b + " " + (c + " " + (d + " " + (e + " " + f))))
  }

  /** A six-field text is rejected when a field other than the placement and castling is. */
  lemma RejectsField(a: string, b: string, c: string, d: string, e: string, f: string)
    requires IsField(a) && IsField(b) && IsField(c) && IsField(d) && IsField(e) && IsField(f)
    requires SideOf(b).None? || EnPassantOf(d).None? || ParseU16(e).None? || ParseU16(f).None?
    ensures ParseFen(Text(a, b, c, d, e, f)) == None
  {
    SixFields(a, b, c, d, e, f);
  }

  /** A side to move other than `w` or `b` is rejected. */
  lemma RejectsSideX()
    ensures ParseFen("4k3/8/8/8/8/8/8/4K3 x - - 0 1") == None
  {
    KingsField();
    ShortFields();
    RejectsField("4k3/8/8/8/8/8/8/4K3", "x", "-", "-", "0", "1");
    assert "4k3/8/8/8/8/8/8/4K3 x - - 0 1" == Text("4k3/8/8/8/8/8/8/4K3", "x", "-", "-", "0", "1");
  }

  /** The side letter is case-sensitive: `W` is rejected. */
  lemma RejectsSideUpper()
    ensures ParseFen("4k3/8/8/8/8/8/8/4K3 W - - 0 1") == None
  {
    KingsField();
    ShortFields();
    RejectsField("4k3/8/8/8/8/8/8/4K3", "W", "-", "-", "0", "1");
    assert "4k3/8/8/8/8/8/8/4K3 W - - 0 1" == Text("4k3/8/8/8/8/8/8/4K3", "W", "-", "-", "0", "1");
  }

  /** A half-move clock that is not a number is rejected. */
  lemma RejectsHalfmoveText()
    ensures ParseFen("4k3/8/8/8/8/8/8/4K3 w - - abc 1") == None
  {
    KingsField();
    ShortFields();
    BadClock("abc");
    RejectsField("4k3/8/8/8/8/8/8/4K3", "w", "-", "-", "abc", "1");
    assert "4k3/8/8/8/8/8/8/4K3 w - - abc 1" == Text("4k3/8/8/8/8/8/8/4K3", "w", "-", "-", "abc", "1");
  }

  /** A full-move number that is not a number is rejected. */
  lemma RejectsFullmoveText()
    ensures ParseFen("4k3/8/8/8/8/8/8/4K3 w - - 0 xyz") == None
  {
    KingsField();
    ShortFields();
    BadClock("xyz");
    RejectsField("4k3/8/8/8/8/8/8/4K3", "w", "-", "-", "0", "xyz");
    assert "4k3/8/8/8/8/8/8/4K3 w - - 0 xyz" == Text("4k3/8/8/8/8/8/8/4K3", "w", "-", "-", "0", "xyz");
  }

  /** A printable field that starts with a letter is a field no clock accepts. */
  lemma BadClock(s: string)
    requires s != [] && 'a' <= s[0] <= 'z' && forall i :: 0 <= i < |s| ==> '!' <= s[i] <= '~'
    ensures IsField(s) && ParseU16(s) == None
  {
    PrintableField(s);
    NonDigitText(s, 0);
  }

  /** An en-passant square on rank 4 is rejected. */
  lemma RejectsEnPassantRank()
    ensures ParseFen("4k3/8/8/8/8/8/8/4K3 w - e4 0 1") == None
  {
    KingsField();
    ShortFields();
    PrintableField("e4");
    assert FromAlgebraic("e4") == Some(28);
    assert EnPassantOf("e4") == None;
    RejectsField("4k3/8/8/8/8/8/8/4K3", "w", "-", "e4", "0", "1");
    assert "4k3/8/8/8/8/8/8/4K3 w - e4 0 1" == Text("4k3/8/8/8/8/8/8/4K3", "w", "-", "e4", "0", "1");
  }

  lemma KingsField()
    ensures IsField("4k3/8/8/8/8/8/8/4K3")
  {
    PrintableField("4k3/8/8/8/8/8/8/4K3");
  }

  lemma ShortFields()
    ensures IsField("x") && IsField("W") && IsField("w") && IsField("-") && IsField("0") && IsField("1")
  {
    PrintableField("x");
    PrintableField("W");
    PrintableField("w");
    PrintableField("-");
    PrintableField("0");
    PrintableField("1");
  }

  // ---------------------------------------------------------------------------
  // Reading a placement piece by piece
  // ---------------------------------------------------------------------------

  /** Reading `a + b` is reading `a`, then reading `b` from where `a` left off. */
  lemma {:induction false} RunAppend(cur: Cursor, a: string, b: string)
    ensures RunPlacement(cur, a + b) ==
              match RunPlacement(cur, a)
              case None => None
              case Some(next) => RunPlacement(next, b)
    decreases |a|
  {
    if a == [] {
      assert a + b == b;
    } else {
      assert (a + b)[0] == a[0];
      assert (a + b)[1..] == a[1..] + b;
      match PlacementStep(cur, a[0])
      case None =>
      case Some(next) => RunAppend(next, a[1..], b);
    }
  }

  /** `/8` repeated: that many empty ranks. */
  function EmptyRanks(k: nat): string
  {
    if k == 0 then "" else "/8" + EmptyRanks(k - 1)
  }

  /** After a full rank, each `/8` moves one rank down and leaves the board as it is. */
  lemma {:induction false} SkipEmptyRanks(rank: nat, board: Position, k: nat)
    requires k <= rank
    ensures RunPlacement(Cursor(rank, 8, board), EmptyRanks(k)) == Some(Cursor(rank - k, 8, board))
  {
    if k > 0 {
      RunAppend(Cursor(rank, 8, board), "/8", EmptyRanks(k - 1));
      assert RunPlacement(Cursor(rank, 8, board), "/8") == Some(Cursor(rank - 1, 8, board));
      SkipEmptyRanks(rank - 1, board, k - 1);
    }
  }

  /** Reading `a` then `b` in two steps is reading `a + b`. */
  lemma Chain(cur: Cursor, a: string, b: string, mid: Cursor, end: Cursor)
    requires RunPlacement(cur, a) == Some(mid) && RunPlacement(mid, b) == Some(end)
    ensures RunPlacement(cur, a + b) == Some(end)
  {
    RunAppend(cur, a, b);
  }

  /** A placement of a first rank, six empty ranks and a last rank. */
  lemma ThreeParts(top: string, bottom: string, afterTop: Position, result: Position)
    requires RunPlacement(START_CURSOR, top) == Some(Cursor(7, 8, afterTop))
    requires RunPlacement(Cursor(1, 8, afterTop), bottom) == Some(Cursor(0, 8, result))
    ensures RunPlacement(START_CURSOR, top + EmptyRanks(6) + bottom) == Some(Cursor(0, 8, result))
  {
    SkipEmptyRanks(7, afterTop, 6);
    Chain(START_CURSOR, top, EmptyRanks(6), Cursor(7, 8, afterTop), Cursor(1, 8, afterTop));
    Chain(START_CURSOR, top + EmptyRanks(6), bottom, Cursor(1, 8, afterTop), Cursor(0, 8, result));
  }

  /** `/8/8/8/8/8/8`. */
  lemma SixEmptyRanks()
    ensures EmptyRanks(6) == "/8/8/8/8/8/8"
  {
  }

  /**
   * A six-field text whose placement reads to `board` (with one king a side)
   * and whose side, en-passant and clock fields are accepted is accepted, and
   * read into that board with the side and castling rights of its fields.
   */
  lemma AcceptsText(a: string, b: string, c: string, d: string, e: string, f: string, board: Position)
    requires IsField(a) && IsField(b) && IsField(c) && IsField(d) && IsField(e) && IsField(f)
    requires RunPlacement(START_CURSOR, a) == Some(Cursor(0, 8, board))
    requires |Pieces(board, White, King)| == 1 && |Pieces(board, Black, King)| == 1
    requires SideOf(b).Some? && EnPassantOf(d).Some? && ParseU16(e).Some? && ParseU16(f).Some?
    ensures ParseFen(Text(a, b, c, d, e, f)).Some?
    ensures var p := ParseFen(Text(a, b, c, d, e, f)).value;
            p.pieces == board.pieces && p.occupancy == board.occupancy
            && Some(p.sideToMove) == SideOf(b) && p.castling == CastlingOf(c) && Some(p.enPassant) == EnPassantOf(d)
  {
    SixFields(a, b, c, d, e, f);
  }

  /** A six-field text whose placement is rejected is rejected. */
  lemma RejectsPlacement(a: string, b: string, c: string, d: string, e: string, f: string)
    requires IsField(a) && IsField(b) && IsField(c) && IsField(d) && IsField(e) && IsField(f)
    requires RunPlacement(START_CURSOR, a).None?
    ensures ParseFen(Text(a, b, c, d, e, f)) == None
  {
    SixFields(a, b, c, d, e, f);
  }

  /** A six-field text whose placement does not give each side exactly one king is rejected. */
  lemma RejectsKings(a: string, b: string, c: string, d: string, e: string, f: string, cur: Cursor)
    requires IsField(a) && IsField(b) && IsField(c) && IsField(d) && IsField(e) && IsField(f)
    requires RunPlacement(START_CURSOR, a) == Some(cur)
    requires |Pieces(cur.board, White, King)| != 1 || |Pieces(cur.board, Black, King)| != 1
    ensures ParseFen(Text(a, b, c, d, e, f)) == None
  {
    SixFields(a, b, c, d, e, f);
  }

  // ---------------------------------------------------------------------------
  // Missing and extra kings
  // ---------------------------------------------------------------------------

  /** Eight empty ranks. */
  lemma EmptyPlacement()
    ensures RunPlacement(START_CURSOR, "8/8/8/8/8/8/8/8") == Some(Cursor(0, 8, EMPTY_BOARD))
  {
    assert RunPlacement(START_CURSOR, "8") == Some(Cursor(7, 8, EMPTY_BOARD));
    SkipEmptyRanks(7, EMPTY_BOARD, 7);
    Chain(START_CURSOR, "8", EmptyRanks(7), Cursor(7, 8, EMPTY_BOARD), Cursor(0, 8, EMPTY_BOARD));
    SevenEmptyRanks();
  }

  lemma SevenEmptyRanks()
    ensures "8" + EmptyRanks(7) == "8/8/8/8/8/8/8/8"
  {
  }

  /** A board without kings is rejected. */
  lemma RejectsNoKings()
    ensures ParseFen("8/8/8/8/8/8/8/8 w - - 0 1") == None
  {
    PrintableField("8/8/8/8/8/8/8/8");
    ShortFields();
    EmptyPlacement();
    NoKingOn(EMPTY_BOARD);
    RejectsKings("8/8/8/8/8/8/8/8", "w", "-", "-", "0", "1", Cursor(0, 8, EMPTY_BOARD));
    NoKingsText();
  }

  /** The empty board, or the white king alone, has no black king. */
  lemma NoKingOn(board: Position)
    requires board == EMPTY_BOARD || board == Place(EMPTY_BOARD, White, King, 4)
    ensures |Pieces(board, Black, King)| != 1
  {
    assert Pieces(board, Black, King) == {};
  }

  lemma TwoWhiteKings()
    ensures |Pieces(TwoKingsBoard(), White, King)| != 1
  {
    assert Pieces(TwoKingsBoard(), White, King) == {12, 4};
  }

  lemma NoKingsText()
    ensures "8/8/8/8/8/8/8/8 w - - 0 1" == Text("8/8/8/8/8/8/8/8", "w", "-", "-", "0", "1")
  {
  }

  /** The white king alone on e1. */
  lemma WhiteKingPlacement()
    ensures RunPlacement(START_CURSOR, "8/8/8/8/8/8/8/4K3") == Some(Cursor(0, 8, Place(EMPTY_BOARD, White, King, 4)))
  {
    assert RunPlacement(START_CURSOR, "8") == Some(Cursor(7, 8, EMPTY_BOARD));
    assert RunPlacement(Cursor(1, 8, EMPTY_BOARD), "/4K3") == Some(Cursor(0, 8, Place(EMPTY_BOARD, White, King, 4)));
    ThreeParts("8", "/4K3", EMPTY_BOARD, Place(EMPTY_BOARD, White, King, 4));
    WhiteKingPlacementText();
  }

  lemma WhiteKingPlacementText()
    ensures "8" + EmptyRanks(6) + "/4K3" == "8/8/8/8/8/8/8/4K3"
  {
    SixEmptyRanks();
  }

  /** A board with only the white king is rejected. */
  lemma RejectsLoneWhiteKing()
    ensures ParseFen("8/8/8/8/8/8/8/4K3 w - - 0 1") == None
  {
    PrintableField("8/8/8/8/8/8/8/4K3");
    ShortFields();
    WhiteKingPlacement();
    NoKingOn(Place(EMPTY_BOARD, White, King, 4));
    RejectsKings("8/8/8/8/8/8/8/4K3", "w", "-", "-", "0", "1", Cursor(0, 8, Place(EMPTY_BOARD, White, King, 4)));
    LoneWhiteKingText();
  }

  lemma LoneWhiteKingText()
    ensures "8/8/8/8/8/8/8/4K3 w - - 0 1" == Text("8/8/8/8/8/8/8/4K3", "w", "-", "-", "0", "1")
  {
  }

  /** The board of `8/8/8/8/8/8/4K3/4K2k`: white kings on e2 and e1, the black king on h1. */
  function TwoKingsBoard(): Position
  {
    Place(Place(Place(EMPTY_BOARD, White, King, 12), White, King, 4), Black, King, 7)
  }

  /** Its last two ranks. */
  lemma TwoKingsBottom()
    ensures RunPlacement(Cursor(2, 8, EMPTY_BOARD), "/4K3/4K2k") == Some(Cursor(0, 8, TwoKingsBoard()))
  {
    var e2 := Place(EMPTY_BOARD, White, King, 12);
    assert RunPlacement(Cursor(2, 8, EMPTY_BOARD), "/4K3") == Some(Cursor(1, 8, e2));
    TwoKingsFirstRank(e2);
    Chain(Cursor(2, 8, EMPTY_BOARD), "/4K3", "/4K2k", Cursor(1, 8, e2), Cursor(0, 8, TwoKingsBoard()));
    assert "/4K3" + "/4K2k" == "/4K3/4K2k";
  }

  lemma TwoKingsFirstRank(board: Position)
    ensures RunPlacement(Cursor(1, 8, board), "/4K2k") == Some(Cursor(0, 8, Place(Place(board, White, King, 4), Black, King, 7)))
  {
  }

  lemma TwoKingsPlacement()
    ensures RunPlacement(START_CURSOR, "8/8/8/8/8/8/4K3/4K2k") == Some(Cursor(0, 8, TwoKingsBoard()))
  {
    assert RunPlacement(START_CURSOR, "8") == Some(Cursor(7, 8, EMPTY_BOARD));
    SkipEmptyRanks(7, EMPTY_BOARD, 5);
    Chain(START_CURSOR, "8", EmptyRanks(5), Cursor(7, 8, EMPTY_BOARD), Cursor(2, 8, EMPTY_BOARD));
    TwoKingsBottom();
    Chain(START_CURSOR, "8" + EmptyRanks(5), "/4K3/4K2k", Cursor(2, 8, EMPTY_BOARD), Cursor(0, 8, TwoKingsBoard()));
    TwoKingsPlacementText();
  }

  lemma TwoKingsPlacementText()
    ensures "8" + EmptyRanks(5) + "/4K3/4K2k" == "8/8/8/8/8/8/4K3/4K2k"
  {
  }

  /** A board with two white kings is rejected. */
  lemma RejectsTwoWhiteKings()
    ensures ParseFen("8/8/8/8/8/8/4K3/4K2k w - - 0 1") == None
  {
    PrintableField("8/8/8/8/8/8/4K3/4K2k");
    ShortFields();
    TwoKingsPlacement();
    TwoWhiteKings();
    RejectsKings("8/8/8/8/8/8/4K3/4K2k", "w", "-", "-", "0", "1", Cursor(0, 8, TwoKingsBoard()));
    TwoKingsText();
  }

  lemma TwoKingsText()
    ensures "8/8/8/8/8/8/4K3/4K2k w - - 0 1" == Text("8/8/8/8/8/8/4K3/4K2k", "w", "-", "-", "0", "1")
  {
  }

  // ---------------------------------------------------------------------------
  // An overfull rank
  // ---------------------------------------------------------------------------

  /** Piece letters read one after another fill the rank from the cursor's file on. */
  lemma {:induction false} PieceLetters(cur: Cursor, s: string)
    requires cur.rank < 8 && cur.file + |s| <= 8
    requires forall i :: 0 <= i < |s| ==> FromFenChar(s[i]).Some?
    ensures RunPlacement(cur, s).Some?
    ensures RunPlacement(cur, s).value.rank == cur.rank && RunPlacement(cur, s).value.file == cur.file + |s|
    decreases |s|
  {
    if s != [] {
      assert FromFenChar(s[0]).Some?;
      var pc := FromFenChar(s[0]).value;
      var next := Cursor(cur.rank, cur.file + 1, Place(cur.board, pc.color, pc.pieceType, SquareNew(cur.file, cur.rank)));
      assert PlacementStep(cur, s[0]) == Some(next);
      PieceLetters(next, s[1..]);
    }
  }

  /** Nine piece letters at the start of the placement overfill the eighth rank. */
  lemma OverfullRank(s: string)
    requires |s| >= 9 && forall i :: 0 <= i < 9 ==> FromFenChar(s[i]).Some?
    ensures RunPlacement(START_CURSOR, s) == None
  {
    var rank := s[..8];
    assert forall i :: 0 <= i < |rank| ==> rank[i] == s[i];
    PieceLetters(START_CURSOR, rank);
    var full := RunPlacement(START_CURSOR, rank).value;
    assert s == rank + s[8..];
    RunAppend(START_CURSOR, rank, s[8..]);
    assert s[8..][0] == s[8];
    LetterIsNoStep(s[8]);
  }

  /** A piece letter is neither the rank separator nor a digit. */
  lemma LetterIsNoStep(c: char)
    requires FromFenChar(c).Some?
    ensures c != '/' && !('1' <= c <= '8')
  {
  }

  /** Nine pieces on the eighth rank are rejected. */
  lemma RejectsRankOverflow()
    ensures ParseFen("rnbqkbnrr/pppppppp/8/8/8/8/PPPPPPPP/RNBQKBNR w KQkq - 0 1") == None
  {
    var placement := "rnbqkbnrr/pppppppp/8/8/8/8/PPPPPPPP/RNBQKBNR";
    OverflowFields();
    ShortFields();
    OverflowLetters();
    OverfullRank(placement);
    RejectsPlacement(placement, "w", "KQkq", "-", "0", "1");
    RankOverflowText();
  }

  lemma OverflowFields()
    ensures IsField("rnbqkbnrr/pppppppp/8/8/8/8/PPPPPPPP/RNBQKBNR") && IsField("KQkq")
  {
    PrintableField("rnbqkbnrr/pppppppp/8/8/8/8/PPPPPPPP/RNBQKBNR");
    PrintableField("KQkq");
  }

  lemma OverflowLetters()
    ensures var s := "rnbqkbnrr/pppppppp/8/8/8/8/PPPPPPPP/RNBQKBNR";
            |s| >= 9 && forall i :: 0 <= i < 9 ==> FromFenChar(s[i]).Some?
  {
  }

  lemma RankOverflowText()
    ensures "rnbqkbnrr/pppppppp/8/8/8/8/PPPPPPPP/RNBQKBNR w KQkq - 0 1"
            == Text("rnbqkbnrr/pppppppp/8/8/8/8/PPPPPPPP/RNBQKBNR", "w", "KQkq", "-", "0", "1")
  {
  }

  // ---------------------------------------------------------------------------
  // En-passant squares that are accepted
  // ---------------------------------------------------------------------------

  /** The board of `4k3/8/8/8/8/8/8/4K3`: the two kings on e8 and e1. */
  function KingsBoard(): Position
  {
    Place(Place(EMPTY_BOARD, Black, King, 60), White, King, 4)
  }

  lemma KingsTop()
    ensures RunPlacement(START_CURSOR, "4k3") == Some(Cursor(7, 8, Place(EMPTY_BOARD, Black, King, 60)))
  {
  }

  lemma KingsBottom(board: Position)
    ensures RunPlacement(Cursor(1, 8, board), "/4K3") == Some(Cursor(0, 8, Place(board, White, King, 4)))
  {
  }

  lemma KingsPlacement()
    ensures RunPlacement(START_CURSOR, "4k3/8/8/8/8/8/8/4K3") == Some(Cursor(0, 8, KingsBoard()))
  {
    KingsTop();
    KingsBottom(Place(EMPTY_BOARD, Black, King, 60));
    ThreeParts("4k3", "/4K3", Place(EMPTY_BOARD, Black, King, 60), KingsBoard());
    KingsPlacementText();
  }

  lemma KingsPlacementText()
    ensures "4k3" + EmptyRanks(6) + "/4K3" == "4k3/8/8/8/8/8/8/4K3"
  {
    SixEmptyRanks();
  }

  /** An en-passant square on rank 6 is accepted with Black to move. */
  lemma AcceptsEnPassantRank6()
    ensures ParseFen("4k3/8/8/8/8/8/8/4K3 b - e6 0 1").Some?
    ensures ParseFen("4k3/8/8/8/8/8/8/4K3 b - e6 0 1").value.enPassant == Some(44)
  {
    KingsField();
    ShortFields();
    Rank6Fields();
    KingsPlacement();
    KingsBoardKings();
    ClockValues();
    AcceptsText("4k3/8/8/8/8/8/8/4K3", "b", "-", "e6", "0", "1", KingsBoard());
    Rank6Text();
  }

  lemma Rank6Fields()
    ensures IsField("b") && IsField("e6") && SideOf("b").Some? && EnPassantOf("e6") == Some(Some(44))
  {
    PrintableField("b");
    PrintableField("e6");
  }

  lemma KingsBoardKings()
    ensures Pieces(KingsBoard(), White, King) == {4} && Pieces(KingsBoard(), Black, King) == {60}
  {
  }

  /** `0` and `1` as clock fields. */
  lemma ClockValues()
    ensures ParseU16("0") == Some(0) && ParseU16("1") == Some(1)
  {
    UnsignedText("0", 0);
    UnsignedText("1", 1);
  }

  lemma Rank6Text()
    ensures "4k3/8/8/8/8/8/8/4K3 b - e6 0 1" == Text("4k3/8/8/8/8/8/8/4K3", "b", "-", "e6", "0", "1")
  {
  }

  /** The board of `4k3/8/8/8/4P3/8/8/4K3`: the kings and a white pawn on e4. */
  function PushedBoard(): Position
  {
    Place(Place(Place(EMPTY_BOARD, Black, King, 60), White, Pawn, 28), White, King, 4)
  }

  lemma PushedMiddle()
    ensures RunPlacement(Cursor(4, 8, Place(EMPTY_BOARD, Black, King, 60)), "/4P3")
            == Some(Cursor(3, 8, Place(Place(EMPTY_BOARD, Black, King, 60), White, Pawn, 28)))
  {
  }

  lemma PushedPlacement()
    ensures RunPlacement(START_CURSOR, "4k3/8/8/8/4P3/8/8/4K3") == Some(Cursor(0, 8, PushedBoard()))
  {
    var top := Place(EMPTY_BOARD, Black, King, 60);
    var middle := Place(top, White, Pawn, 28);
    PushedUpper();
    SkipEmptyRanks(3, middle, 2);
    Chain(START_CURSOR, "4k3" + EmptyRanks(3) + "/4P3", EmptyRanks(2), Cursor(3, 8, middle), Cursor(1, 8, middle));
    KingsBottom(middle);
    Chain(START_CURSOR, "4k3" + EmptyRanks(3) + "/4P3" + EmptyRanks(2), "/4K3", Cursor(1, 8, middle), Cursor(0, 8, PushedBoard()));
    PushedPlacementText();
  }

  /** Ranks 8 to 4 of `4k3/8/8/8/4P3/8/8/4K3`. */
  lemma PushedUpper()
    ensures RunPlacement(START_CURSOR, "4k3" + EmptyRanks(3) + "/4P3")
            == Some(Cursor(3, 8, Place(Place(EMPTY_BOARD, Black, King, 60), White, Pawn, 28)))
  {
    var top := Place(EMPTY_BOARD, Black, King, 60);
    KingsTop();
    SkipEmptyRanks(7, top, 3);
    Chain(START_CURSOR, "4k3", EmptyRanks(3), Cursor(7, 8, top), Cursor(4, 8, top));
    PushedMiddle();
    Chain(START_CURSOR, "4k3" + EmptyRanks(3), "/4P3", Cursor(4, 8, top), Cursor(3, 8, Place(top, White, Pawn, 28)));
  }

  lemma PushedPlacementText()
    ensures "4k3" + EmptyRanks(3) + "/4P3" + EmptyRanks(2) + "/4K3" == "4k3/8/8/8/4P3/8/8/4K3"
  {
  }

  /** An en-passant square on rank 3 is accepted (the text has White to move). */
  lemma AcceptsEnPassantRank3()
    ensures ParseFen("4k3/8/8/8/4P3/8/8/4K3 w - e3 0 1").Some?
    ensures ParseFen("4k3/8/8/8/4P3/8/8/4K3 w - e3 0 1").value.enPassant == Some(20)
  {
    Rank3Fields();
    ShortFields();
    PushedPlacement();
    PushedBoardKings();
    ClockValues();
    AcceptsText("4k3/8/8/8/4P3/8/8/4K3", "w", "-", "e3", "0", "1", PushedBoard());
    Rank3Text();
  }

  lemma Rank3Fields()
    ensures IsField("4k3/8/8/8/4P3/8/8/4K3") && IsField("e3")
    ensures SideOf("w").Some? && EnPassantOf("e3") == Some(Some(20))
  {
    PrintableField("4k3/8/8/8/4P3/8/8/4K3");
    PrintableField("e3");
  }

  lemma PushedBoardKings()
    ensures Pieces(PushedBoard(), White, King) == {4} && Pieces(PushedBoard(), Black, King) == {60}
  {
  }

  lemma Rank3Text()
    ensures "4k3/8/8/8/4P3/8/8/4K3 w - e3 0 1" == Text("4k3/8/8/8/4P3/8/8/4K3", "w", "-", "e3", "0", "1")
  {
  }
}
