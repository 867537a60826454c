/**
 * Two texts `Board::from_fen` accepts although the move generator cannot
 * play the positions they describe, and the stricter reading that rejects
 * them. `from_fen` checks the placement, the kings, the side and the
 * en-passant field, but not that a castling right has its king at home, nor
 * that no pawn stands on its last rank. On the first kind of position
 * `gen_castling` offers a castle from an empty square and `apply_unchecked`
 * finds no piece to move; on the second the pawn loop asks for the square
 * beyond the board.
 */
module StrictFen {
  import opened Wrappers
  import opened Types
  import opened Bitboards
  import opened Attacks
  import opened Positions
  import opened MoveGen
  import opened Fen
  import opened Consistency
  import opened FenExamples

  /** The fields other than the placement, as the two texts below write them. */
  lemma QuietFields()
    ensures IsField("w") && IsField("-") && IsField("K") && IsField("0") && IsField("1")
  {
    PrintableField("w");
    PrintableField("-");
    PrintableField("K");
    PrintableField("0");
    PrintableField("1");
  }

  /** `w`, `-`, `K`, `0` and `1` as `from_fen` reads them. */
  lemma QuietValues()
    ensures SideOf("w") == Some(White) && EnPassantOf("-") == Some(None) && CastlingOf("K") == WK
    ensures ParseU16("0") == Some(0) && ParseU16("1") == Some(1)
  {
    UnsignedText("0", 0);
    UnsignedText("1", 1);
  }

  // ---------------------------------------------------------------------------
  // A pawn on its last rank
  // ---------------------------------------------------------------------------

  /** White pawn a8, black king e8, white king e1, white to move. */
  const PAWN_TEXT: string := "P3k3/8/8/8/8/8/8/4K3 w - - 0 1"

  /** The board of `P3k3/8/8/8/8/8/8/4K3`. */
  function PawnBoard(): Position
  {
    Place(Place(Place(EMPTY_BOARD, White, Pawn, 56), Black, King, 60), White, King, 4)
  }

  /** Its eighth rank. */
  lemma PawnTopRank()
    ensures RunPlacement(START_CURSOR, "P3k3") == Some(Cursor(7, 8, Place(Place(EMPTY_BOARD, White, Pawn, 56), Black, King, 60)))
  {
  }

  /** Its first rank. */
  lemma PawnBottomRank()
    ensures RunPlacement(Cursor(1, 8, Place(Place(EMPTY_BOARD, White, Pawn, 56), Black, King, 60)), "/4K3") == Some(Cursor(0, 8, PawnBoard()))
  {
  }

  lemma PawnPlacement()
    ensures RunPlacement(START_CURSOR, "P3k3/8/8/8/8/8/8/4K3") == Some(Cursor(0, 8, PawnBoard()))
  {
    PawnTopRank();
    PawnBottomRank();
    ThreeParts("P3k3", "/4K3", Place(Place(EMPTY_BOARD, White, Pawn, 56), Black, King, 60), PawnBoard());
    PawnPlacementText();
  }

  lemma PawnPlacementText()
    ensures "P3k3/8/8/8/8/8/8/4K3" == "P3k3" + EmptyRanks(6) + "/4K3"
  {
    SixEmptyRanks();
  }

  /** One king a side, and the white pawn on a8. */
  lemma PawnBoardFacts()
    ensures Pieces(PawnBoard(), White, King) == {4} && Pieces(PawnBoard(), Black, King) == {60}
    ensures 56 in Pieces(PawnBoard(), White, Pawn)
  {
  }

  /** `from_fen` reads the text into the board above with White to move. */
  lemma PawnTextRead()
    ensures ParseFen(PAWN_TEXT).Some?
    ensures ParseFen(PAWN_TEXT).value.pieces == PawnBoard().pieces && ParseFen(PAWN_TEXT).value.sideToMove == White
  {
    var placement := "P3k3/8/8/8/8/8/8/4K3";
    PrintableField(placement);
    QuietFields();
    QuietValues();
    PawnPlacement();
    PawnBoardFacts();
    AcceptsText(placement, "w", "-", "-", "0", "1", PawnBoard());
    PawnTextFields();
  }

  lemma PawnTextFields()
    ensures PAWN_TEXT == Text("P3k3/8/8/8/8/8/8/4K3", "w", "-", "-", "0", "1")
  {
  }

  /**
   * `from_fen` accepts a white pawn on the eighth rank, and the position
   * cannot be played: generating White's moves would push the pawn off the
   * board.
   */
  lemma PawnOnLastRankAccepted()
    ensures ParseFen(PAWN_TEXT).Some?
    ensures !CanPlay(ParseFen(PAWN_TEXT).value)
  {
    PawnTextRead();
    PawnBoardFacts();
    var p := ParseFen(PAWN_TEXT).value;
    assert 56 in Pieces(p, White, Pawn);
  }

  // ---------------------------------------------------------------------------
  // A castling right without its king
  // ---------------------------------------------------------------------------

  /** Black king e8, white king d1, White holds the king-side right, White to move. */
  const CASTLE_TEXT: string := "4k3/8/8/8/8/8/8/3K4 w K - 0 1"

  /** The board of `4k3/8/8/8/8/8/8/3K4`. */
  function CastleBoard(): Position
  {
    Place(Place(EMPTY_BOARD, Black, King, 60), White, King, 3)
  }

  /** Its eighth rank, then its first. */
  lemma CastleRanks()
    ensures RunPlacement(START_CURSOR, "4k3") == Some(Cursor(7, 8, Place(EMPTY_BOARD, Black, King, 60)))
    ensures RunPlacement(Cursor(1, 8, Place(EMPTY_BOARD, Black, King, 60)), "/3K4") == Some(Cursor(0, 8, CastleBoard()))
  {
  }

  lemma CastlePlacement()
    ensures RunPlacement(START_CURSOR, "4k3/8/8/8/8/8/8/3K4") == Some(Cursor(0, 8, CastleBoard()))
  {
    CastleRanks();
    ThreeParts("4k3", "/3K4", Place(EMPTY_BOARD, Black, King, 60), CastleBoard());
    CastlePlacementText();
  }

  lemma CastlePlacementText()
    ensures "4k3/8/8/8/8/8/8/3K4" == "4k3" + EmptyRanks(6) + "/3K4"
  {
    SixEmptyRanks();
  }

  /** Two bare kings: d1 and e8. */
  predicate BareKings(p: Position)
  {
    Pieces(p, White, King) == {3} && Pieces(p, Black, King) == {60}
    && Occupancy(p, White) == {3} && Occupancy(p, Black) == {60}
    && forall c, pt :: pt != King ==> Pieces(p, c, pt) == {}
  }

  lemma CastleBoardFacts()
    ensures BareKings(CastleBoard())
  {
  }

  /** `from_fen` reads the text into the board above with White to move and the right `K`. */
  lemma CastleTextRead()
    ensures ParseFen(CASTLE_TEXT).Some?
    ensures var p := ParseFen(CASTLE_TEXT).value;
            p.pieces == CastleBoard().pieces && p.occupancy == CastleBoard().occupancy
            && p.sideToMove == White && p.castling == WK
  {
    var placement := "4k3/8/8/8/8/8/8/3K4";
    PrintableField(placement);
    QuietFields();
    QuietValues();
    CastlePlacement();
    CastleBoardFacts();
    AcceptsText(placement, "w", "K", "-", "0", "1", CastleBoard());
    CastleTextFields();
  }

  lemma CastleTextFields()
    ensures CASTLE_TEXT == Text("4k3/8/8/8/8/8/8/3K4", "w", "K", "-", "0", "1")
  {
  }

  /** A position read from the bare-kings board keeps its kings, and `all` is their two squares. */
  lemma ReadBareKings(p: Position)
    requires p.pieces == CastleBoard().pieces && p.occupancy == CastleBoard().occupancy
    requires p.all == Occupancy(p, White) + Occupancy(p, Black)
    ensures BareKings(p) && p.all == {3, 60}
  {
    CastleBoardFacts();
  }

  /** No ray of `is_attacked` finds a piece in an empty target set. */
  lemma NoHitsOnNothing(p: Position, sq: Square, dirs: seq<Direction>)
    ensures !AnyHits(p, sq, dirs, {})
    decreases |dirs|
  {
    if dirs != [] {
      RayHitsReach(sq, dirs[0], {}, p.all);
      NoHitsOnNothing(p, sq, dirs[1..]);
    }
  }

  /** A square two ranks or more from a lone king is not attacked by its side. */
  lemma FarFromLoneKing(p: Position, sq: Square, attacker: Color, king: Square)
    requires forall pt :: pt != King ==> Pieces(p, attacker, pt) == {}
    requires Pieces(p, attacker, King) == {king}
    requires Rank(sq) + 2 <= Rank(king)
    ensures !IsAttacked(p, sq, attacker)
  {
    assert Pieces(p, attacker, Bishop) + Pieces(p, attacker, Queen) == {};
    assert Pieces(p, attacker, Rook) + Pieces(p, attacker, Queen) == {};
    NoHitsOnNothing(p, sq, DIAGONALS);
    NoHitsOnNothing(p, sq, STRAIGHTS);
    KingAttackGeometry(sq, king);
  }

  /** With bare kings on d1 and e8, White to move and the king-side right, e1g1 is offered and e1 is empty. */
  lemma CastleOffered(p: Position)
    requires BareKings(p) && p.all == {3, 60} && p.sideToMove == White && p.castling == WK
    ensures HasKing(p, White)
    ensures Move(4, 6, Castle) in CastlingMoves(p)
    ensures PieceTypeAt(p, 4, White).None?
  {
    assert KingSquare(p, White) == 3;
    FarFromLoneKing(p, 3, Black, 60);
    KingSideAllowed(p);
    assert ConfigsOf(White)[0] == CASTLING_CONFIGS[0];
    assert CastlesFrom(p, ConfigsOf(White))[0] == Move(4, 6, Castle);
    PieceTypeAtSpec(p, 4, White);
  }

  /** With bare kings on d1 and e8 and the king-side right, f1 and g1 are empty and unattacked. */
  lemma KingSideAllowed(p: Position)
    requires BareKings(p) && p.all == {3, 60} && p.castling == WK
    ensures CastleAllowed(p, CASTLING_CONFIGS[0])
  {
    FarFromLoneKing(p, 5, Black, 60);
    FarFromLoneKing(p, 6, Black, 60);
    assert CASTLING_CONFIGS[0].path * p.all == {};
  }

  /**
   * `from_fen` accepts a king-side right for a king standing on d1, and the
   * position cannot be played: `gen_castling` offers e1g1, and e1 is empty.
   */
  lemma CastleWithoutKingAccepted()
    ensures ParseFen(CASTLE_TEXT).Some?
    ensures !CanPlay(ParseFen(CASTLE_TEXT).value)
  {
    CastleTextRead();
    var p := ParseFen(CASTLE_TEXT).value;
    ReadBareKings(p);
    CastleOffered(p);
  }

  // ---------------------------------------------------------------------------
  // The stricter reading
  // ---------------------------------------------------------------------------

  /**
   * What `from_fen` leaves unchecked: every castling right has its king and
   * rook at home, the en-passant square lies behind a pawn that just made a
   * double step, and no pawn stands on its last rank.
   */
  predicate Checked(p: Position)
  {
    CastlingSound(p) && EpSound(p) && PawnsBehindLastRank(p, White) && PawnsBehindLastRank(p, Black)
  }

  /**
   * `from_fen` with the missing checks: the accepted positions are exactly
   * those `from_fen` accepts and `Checked` approves, and each can be played,
   * and stays playable move after move.
   */
  function ParseFenChecked(fen: string): (r: Option<Position>)
    ensures r.Some? <==> ParseFen(fen).Some? && Checked(ParseFen(fen).value)
    ensures r.Some? ==> r.value == ParseFen(fen).value && Coherent(r.value) && CanPlay(r.value)
  {
    match ParseFen(fen)
    case None => None
    case Some(p) =>
      if Checked(p) then
        ParseFenReady(fen);
        CoherentCanPlay(p);
        Some(p)
      else None
  }

  /** The stricter reading rejects both texts `from_fen` accepts. */
  lemma CheckedRejectsUnplayable()
    ensures ParseFenChecked(PAWN_TEXT) == None
    ensures ParseFenChecked(CASTLE_TEXT) == None
  {
    PawnOnLastRankAccepted();
    CastleWithoutKingAccepted();
  }
}
