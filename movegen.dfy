/**
 * Move generation, as the ordered list `generate_pseudo_legal` builds:
 * pawns (pushes, captures, en passant), knights, the king, castling, then
 * bishops, rooks and queens; each piece set popped lowest square first and
 * each target set likewise. The legal moves are those after which the mover
 * is not in check; `make_move` picks the first legal move with the requested
 * squares and promotion, and `game_state` classifies the position.
 */
module MoveGen {
  import opened Wrappers
  import opened Types
  import opened Bitboards
  import opened Attacks
  import opened Positions

  // ---------------------------------------------------------------------------
  // Shared pieces
  // ---------------------------------------------------------------------------

  /** The pop loop over a target set: a normal move to each target, lowest first. */
  function TargetMoves(from: Square, targets: Bitboard): (r: seq<Move>)
    ensures forall m :: m in r ==> m.from == from && m.to in targets && m.kind == Normal
    ensures forall t :: t in targets ==> Move(from, t, Normal) in r
    decreases targets
  {
    if targets == {} then []
    else
      var to := Lsb(targets);
      [Move(from, to, Normal)] + TargetMoves(from, targets - {to})
  }

  /** A pawn move to the last rank, once per `PROMOTABLE` type: queen, rook, bishop, knight. */
  function Promotions(from: Square, to: Square): (r: seq<Move>)
    ensures |r| == 4
    ensures forall m :: m in r ==> m.from == from && m.to == to && m.kind.Promotion? && m.kind.piece in PROMOTABLE
  {
    [Move(from, to, Promotion(Queen)), Move(from, to, Promotion(Rook)), Move(from, to, Promotion(Bishop)), Move(from, to, Promotion(Knight))]
  }

  // ---------------------------------------------------------------------------
  // Pawns
  // ---------------------------------------------------------------------------

  /** The push direction: up for White, down for Black. */
  function Forward(c: Color): int
  {
    if c == White then 8 else -8
  }

  /** The rank from which a pawn may advance two squares. */
  function StartRank(c: Color): int
  {
    if c == White then 1 else 6
  }

  /** The rank on which a pawn promotes. */
  function PromoRank(c: Color): int
  {
    if c == White then 7 else 0
  }

  /** No pawn of `c` stands on its promotion rank, where a push would leave the board (`from_index` panics). */
  predicate PawnsBehindLastRank(p: Position, c: Color)
  {
    forall sq :: sq in Pieces(p, c, Pawn) ==> Rank(sq) != PromoRank(c)
  }

  /** The square one step forward, which exists off the promotion rank. */
  function Ahead(c: Color, sq: Square): (to: Square)
    requires Rank(sq) != PromoRank(c)
    ensures File(to) == File(sq) && Rank(to) == Rank(sq) + (if c == White then 1 else -1)
  {
    sq + Forward(c)
  }

  /** Single push (four promotions onto the last rank), then the double push from the start rank; each onto an empty square. */
  function PawnPushes(p: Position, from: Square): (r: seq<Move>)
    requires Rank(from) != PromoRank(p.sideToMove)
    ensures forall m :: m in r ==> m.from == from && m.to !in p.all && (m.kind.Normal? || (m.kind.Promotion? && m.kind.piece in PROMOTABLE))
    ensures forall m :: m in r ==> File(m.to) == File(from)
    ensures forall m :: m in r ==> (m.kind.Promotion? <==> Rank(m.to) == PromoRank(p.sideToMove))
    ensures forall m :: m in r && m.to != Ahead(p.sideToMove, from) ==>
              Rank(from) == StartRank(p.sideToMove) && Ahead(p.sideToMove, from) !in p.all
              && m.to == Ahead(p.sideToMove, Ahead(p.sideToMove, from))
  {
    var us := p.sideToMove;
    var to := Ahead(us, from);
    if to in p.all then []
    else if Rank(to) == PromoRank(us) then Promotions(from, to)
    else
      var double := if Rank(from) == StartRank(us) && Ahead(us, to) !in p.all then [Move(from, Ahead(us, to), Normal)] else [];
      [Move(from, to, Normal)] + double
  }

  /** The capture pop loop: onto each enemy square the pawn attacks, lowest first, promoting on the last rank. */
  function PawnCaptures(from: Square, caps: Bitboard, promoRank: int): (r: seq<Move>)
    ensures forall m :: m in r ==> m.from == from && m.to in caps && (m.kind.Normal? || (m.kind.Promotion? && m.kind.piece in PROMOTABLE))
    ensures forall m :: m in r ==> (m.kind.Promotion? <==> Rank(m.to) == promoRank)
    decreases caps
  {
    if caps == {} then []
    else
      var to := Lsb(caps);
      (if Rank(to) == promoRank then Promotions(from, to) else [Move(from, to, Normal)])
      + PawnCaptures(from, caps - {to}, promoRank)
  }

  /** Everything one pawn generates: pushes, captures, then the en-passant capture when the target is attacked. */
  function PawnMovesOf(p: Position, from: Square): (r: seq<Move>)
    requires Rank(from) != PromoRank(p.sideToMove)
    ensures forall m :: m in r ==> m.from == from
    ensures forall m :: m in r && m.kind == EnPassant ==> p.enPassant == Some(m.to) && m.to in PawnAttacks(p.sideToMove, from)
    ensures forall m :: m in r && m.kind != EnPassant ==> m.kind.Normal? || (m.kind.Promotion? && m.kind.piece in PROMOTABLE)
    ensures forall m :: m in r && m.kind != EnPassant ==>
              m in PawnPushes(p, from) || m.to in PawnAttacks(p.sideToMove, from) * Occupancy(p, Opposite(p.sideToMove))
    ensures forall m :: m in r && m.kind != EnPassant ==> (m.kind.Promotion? <==> Rank(m.to) == PromoRank(p.sideToMove))
  {
    var us := p.sideToMove;
    var attacks := PawnAttacks(us, from);
    PawnPushes(p, from)
    + PawnCaptures(from, attacks * Occupancy(p, Opposite(us)), PromoRank(us))
    + (if p.enPassant.Some? && p.enPassant.value in attacks then [Move(from, p.enPassant.value, EnPassant)] else [])
  }

  /** The outer pawn loop over `pawns`, lowest first. */
  function PawnMoves(p: Position, pawns: Bitboard): (r: seq<Move>)
    requires forall sq :: sq in pawns ==> Rank(sq) != PromoRank(p.sideToMove)
    ensures forall m :: m in r ==> m.from in pawns && m in PawnMovesOf(p, m.from)
    decreases pawns
  {
    if pawns == {} then []
    else
      var from := Lsb(pawns);
      PawnMovesOf(p, from) + PawnMoves(p, pawns - {from})
  }

  // ---------------------------------------------------------------------------
  // Knights and the king
  // ---------------------------------------------------------------------------

  /** The table `gen_leaper` is given: knight or king. */
  function LeaperTable(pt: PieceType, sq: Square): Bitboard
  {
    if pt == Knight then KnightAttacks(sq) else KingAttacks(sq)
  }

  /** `gen_leaper`: every table target not occupied by the mover's side, for each piece lowest first. */
  function LeaperMoves(p: Position, pt: PieceType, bb: Bitboard): (r: seq<Move>)
    ensures forall m :: m in r ==>
              m.from in bb && m.kind == Normal && m.to in LeaperTable(pt, m.from) && m.to !in Occupancy(p, p.sideToMove)
    decreases bb
  {
    if bb == {} then []
    else
      var from := Lsb(bb);
      TargetMoves(from, LeaperTable(pt, from) - Occupancy(p, p.sideToMove)) + LeaperMoves(p, pt, bb - {from})
  }

  // ---------------------------------------------------------------------------
  // Castling
  // ---------------------------------------------------------------------------

  /** `CastlingConfig`: the right, the squares that must be empty, the king's squares, the square it crosses and who must not attack. */
  datatype CastlingConfig = CastlingConfig(right: bv8, path: Bitboard, kingFrom: Square, kingTo: Square, transit: Square, attacker: Color)

  /** `CASTLING_CONFIGS`: white kingside and queenside, then black. */
  const CASTLING_CONFIGS: seq<CastlingConfig> := [
    CastlingConfig(WK, {5, 6}, 4, 6, 5, Black),
    CastlingConfig(WQ, {1, 2, 3}, 4, 2, 3, Black),
    CastlingConfig(BK, {61, 62}, 60, 62, 61, White),
    CastlingConfig(BQ, {57, 58, 59}, 60, 58, 59, White)]

  /** The configurations of one side. */
  function ConfigsOf(c: Color): (r: seq<CastlingConfig>)
    ensures forall cfg :: cfg in r ==> cfg in CASTLING_CONFIGS && cfg.attacker == Opposite(c)
  {
    if c == White then CASTLING_CONFIGS[..2] else CASTLING_CONFIGS[2..]
  }

  /** One configuration is usable: the right is held, the path is empty and neither the transit nor the destination is attacked. */
  predicate CastleAllowed(p: Position, cfg: CastlingConfig)
  {
    p.castling & cfg.right != 0 && cfg.path * p.all == {}
    && !IsAttacked(p, cfg.transit, cfg.attacker) && !IsAttacked(p, cfg.kingTo, cfg.attacker)
  }

  /** The castling moves of the usable configurations, in order. */
  function CastlesFrom(p: Position, cfgs: seq<CastlingConfig>): (r: seq<Move>)
    ensures forall m :: m in r ==> exists cfg :: cfg in cfgs && CastleAllowed(p, cfg) && m == Move(cfg.kingFrom, cfg.kingTo, Castle)
  {
    if cfgs == [] then []
    else
      (if CastleAllowed(p, cfgs[0]) then [Move(cfgs[0].kingFrom, cfgs[0].kingTo, Castle)] else [])
      + CastlesFrom(p, cfgs[1..])
  }

  /** `gen_castling`: nothing while in check, otherwise the usable configurations of the side to move. */
  function CastlingMoves(p: Position): (r: seq<Move>)
    requires HasKing(p, p.sideToMove)
    ensures IsInCheck(p, p.sideToMove) ==> r == []
    ensures forall m :: m in r ==>
              exists cfg :: cfg in ConfigsOf(p.sideToMove) && CastleAllowed(p, cfg) && m == Move(cfg.kingFrom, cfg.kingTo, Castle)
  {
    if IsInCheck(p, p.sideToMove) then [] else CastlesFrom(p, ConfigsOf(p.sideToMove))
  }

  // ---------------------------------------------------------------------------
  // Sliders
  // ---------------------------------------------------------------------------

  /** The directions of a slider: diagonals for the bishop, straights for the rook, all eight for the queen. */
  function SliderDirections(pt: PieceType): seq<Direction>
  {
    match pt
    case Bishop => [1, 3, 5, 7]
    case Rook => [0, 2, 4, 6]
    case _ => [0, 1, 2, 3, 4, 5, 6, 7]
  }

  /** The moves of a slider on `from` along each of `dirs` in turn, each onto a reachable square not of its side. */
  function DirectionMoves(p: Position, from: Square, dirs: seq<Direction>): (r: seq<Move>)
    ensures forall m :: m in r ==>
              m.from == from && m.kind == Normal && m.to !in Occupancy(p, p.sideToMove)
              && exists d :: d in dirs && m.to in SlideAttacks(from, d, p.all)
  {
    if dirs == [] then []
    else
      TargetMoves(from, SlideAttacks(from, dirs[0], p.all) - Occupancy(p, p.sideToMove))
      + DirectionMoves(p, from, dirs[1..])
  }

  /** The slider loop over the pieces of one type, lowest first. */
  function SliderMoves(p: Position, pt: PieceType, bb: Bitboard): (r: seq<Move>)
    ensures forall m :: m in r ==>
              m.from in bb && m.kind == Normal && m.to !in Occupancy(p, p.sideToMove)
              && exists d :: d in SliderDirections(pt) && m.to in SlideAttacks(m.from, d, p.all)
    decreases bb
  {
    if bb == {} then []
    else
      var from := Lsb(bb);
      DirectionMoves(p, from, SliderDirections(pt)) + SliderMoves(p, pt, bb - {from})
  }

  // ---------------------------------------------------------------------------
  // The move lists
  // ---------------------------------------------------------------------------

  /** What move generation needs not to panic: a king to test for check, and no pawn of the side to move on its last rank. */
  predicate CanGenerate(p: Position)
  {
    HasKing(p, p.sideToMove) && PawnsBehindLastRank(p, p.sideToMove)
  }

  /** `generate_pseudo_legal`. */
  function PseudoLegal(p: Position): seq<Move>
    requires CanGenerate(p)
  {
    var us := p.sideToMove;
    PawnMoves(p, Pieces(p, us, Pawn))
    + LeaperMoves(p, Knight, Pieces(p, us, Knight))
    + LeaperMoves(p, King, Pieces(p, us, King))
    + CastlingMoves(p)
    + SliderMoves(p, Bishop, Pieces(p, us, Bishop))
    + SliderMoves(p, Rook, Pieces(p, us, Rook))
    + SliderMoves(p, Queen, Pieces(p, us, Queen))
  }

  // ---------------------------------------------------------------------------
  // Every generated move can be applied
  // ---------------------------------------------------------------------------

  /**
   * `generate_legal_moves` applies each pseudo-legal move and then looks for
   * the mover's king, so every castle the generator offers needs a piece on
   * its from-square (`apply_unchecked` expects one there).
   */
  predicate CanPlay(p: Position)
  {
    CanGenerate(p)
    && forall m :: m in CastlingMoves(p) ==> PieceTypeAt(p, m.from, p.sideToMove).Some?
  }

  /** A move `apply_unchecked` can make, after which `is_in_check` can still find the mover's king. */
  predicate Playable(p: Position, m: Move)
  {
    Applicable(p, m) && HasKing(Apply(p, m), p.sideToMove)
  }

  /** A square on one of the colour's bitboards has a type, and on the pawn bitboard that type is the pawn. */
  lemma TypeOfMember(p: Position, sq: Square, c: Color, pt: PieceType)
    requires sq in Pieces(p, c, pt)
    ensures PieceTypeAt(p, sq, c).Some?
    ensures pt == Pawn ==> PieceTypeAt(p, sq, c) == Some(Pawn)
  {
    PieceTypeAtSpec(p, sq, c);
  }

  /** The mover's king bitboard only loses the from-square of a king move, and then gains its destination (unless it promotes). */
  lemma KingStaysOnBoard(p: Position, m: Move)
    requires Applicable(p, m) && HasKing(p, p.sideToMove)
    requires m.kind.Promotion? ==> PieceTypeAt(p, m.from, p.sideToMove) != Some(King)
    ensures HasKing(Apply(p, m), p.sideToMove)
  {
    var us := p.sideToMove;
    var moving := PieceTypeAt(p, m.from, us).value;
    var lifted := Toggle(p, us, moving, {m.from});
    var captured := CaptureAt(lifted, Opposite(us), m.to);
    var passed := TakeEnPassant(captured, m, us);
    var placed := Place(passed, us, PlacedType(m, moving), m.to);
    assert Pieces(captured, us, King) == Pieces(lifted, us, King);
    assert Pieces(passed, us, King) == Pieces(lifted, us, King);
    assert Pieces(MoveRook(placed, m, us), us, King) == Pieces(placed, us, King);
    if moving == King {
      assert m.to in Pieces(placed, us, King);
    } else {
      assert Pieces(p, us, King) <= Pieces(placed, us, King);
    }
  }

  /** The generated castling moves start on a castling king square and end on a castling destination. */
  lemma CastleMovesPlayable(p: Position, m: Move)
    requires CanPlay(p) && m in CastlingMoves(p)
    ensures Playable(p, m)
  {
    var cfg :| cfg in ConfigsOf(p.sideToMove) && CastleAllowed(p, cfg) && m == Move(cfg.kingFrom, cfg.kingTo, Castle);
    ConfigTarget(cfg);
    KingStaysOnBoard(p, m);
  }

  /** Every configuration's destination is one the rook table knows. */
  lemma ConfigTarget(cfg: CastlingConfig)
    requires cfg in CASTLING_CONFIGS
    ensures CastleTarget(cfg.kingTo)
  {
  }

  /** The generated pawn moves start on a pawn; an en-passant target lies one rank ahead of it, so its victim is on the board. */
  lemma PawnMovesPlayable(p: Position, m: Move)
    requires CanPlay(p) && m in PawnMoves(p, Pieces(p, p.sideToMove, Pawn))
    ensures Playable(p, m)
  {
    TypeOfMember(p, m.from, p.sideToMove, Pawn);
    if m.kind == EnPassant {
      PawnAttackGeometry(p.sideToMove, m.from, m.to);
    }
    KingStaysOnBoard(p, m);
  }

  /** Every pseudo-legal move can be applied and leaves the mover a king. */
  lemma PseudoLegalPlayable(p: Position)
    requires CanPlay(p)
    ensures forall m :: m in PseudoLegal(p) ==> Playable(p, m)
  {
    var us := p.sideToMove;
    forall m | m in PseudoLegal(p)
      ensures Playable(p, m)
    {
      if m in PawnMoves(p, Pieces(p, us, Pawn)) {
        PawnMovesPlayable(p, m);
      } else if m in CastlingMoves(p) {
        CastleMovesPlayable(p, m);
      } else {
        var pt: PieceType :| m.from in Pieces(p, us, pt) && m.kind == Normal;
        TypeOfMember(p, m.from, us, pt);
        KingStaysOnBoard(p, m);
      }
    }
  }

  // ---------------------------------------------------------------------------
  // Legal moves, make_move and game_state
  // ---------------------------------------------------------------------------

  /** The filter of `generate_legal_moves`: keep the moves after which the mover is not in check, in order. */
  function LegalAmong(p: Position, ms: seq<Move>): (r: seq<Move>)
    requires forall m :: m in ms ==> Playable(p, m)
    ensures forall m :: m in r <==> m in ms && Playable(p, m) && !IsInCheck(Apply(p, m), p.sideToMove)
    ensures |r| <= |ms|
  {
    if ms == [] then []
    else
      assert Playable(p, ms[0]);
      (if IsInCheck(Apply(p, ms[0]), p.sideToMove) then [] else [ms[0]]) + LegalAmong(p, ms[1..])
  }

  /** `generate_legal_moves`. */
  function Legal(p: Position): (r: seq<Move>)
    requires CanPlay(p)
    ensures forall m :: m in r ==> m in PseudoLegal(p) && Playable(p, m) && !IsInCheck(Apply(p, m), p.sideToMove)
    ensures forall m :: m in PseudoLegal(p) && Playable(p, m) && !IsInCheck(Apply(p, m), p.sideToMove) ==> m in r
  {
    PseudoLegalPlayable(p);
    LegalAmong(p, PseudoLegal(p))
  }

  /** The test of `make_move`'s `find`: same from-square, to-square and promotion piece. */
  predicate SameSquares(m: Move, mv: Move)
  {
    m.from == mv.from && m.to == mv.to && PromotionPiece(m) == PromotionPiece(mv)
  }

  /** The first move of `ms` that agrees with `mv` on squares and promotion. */
  function FindMatch(ms: seq<Move>, mv: Move): (r: Option<Move>)
    ensures r.Some? ==> r.value in ms && SameSquares(r.value, mv)
    ensures r.None? ==> forall m :: m in ms ==> !SameSquares(m, mv)
  {
    if ms == [] then None
    else if SameSquares(ms[0], mv) then Some(ms[0])
    else FindMatch(ms[1..], mv)
  }

  /** The legal move `make_move` resolves `mv` to, if any. */
  function ResolveMove(p: Position, mv: Move): (r: Option<Move>)
    requires CanPlay(p)
    ensures r.Some? ==> r.value in Legal(p) && SameSquares(r.value, mv)
    ensures r.None? <==> forall m :: m in Legal(p) ==> !SameSquares(m, mv)
  {
    FindMatch(Legal(p), mv)
  }

  /**
   * `make_move`: apply the legal move matching `mv` and report `true`, or
   * report `false` and leave the position as it is. The match supplies the
   * move kind, so a castle or en-passant capture typed as a normal move is
   * still recognised.
   */
  function MakeMove(p: Position, mv: Move): (r: (bool, Position))
    requires CanPlay(p)
    ensures !r.0 <==> forall m :: m in Legal(p) ==> !SameSquares(m, mv)
    ensures !r.0 ==> r.1 == p
    ensures r.0 ==> exists m :: m in Legal(p) && SameSquares(m, mv) && r.1 == Apply(p, m) && !IsInCheck(r.1, p.sideToMove)
  {
    match ResolveMove(p, mv)
    case None => (false, p)
    case Some(lm) => (true, Apply(p, lm))
  }

  /** Material `game_state` calls insufficient: at most three pieces, no pawn, rook or queen, and at most one knight or bishop. */
  predicate InsufficientMaterial(p: Position)
  {
    var minors := Pieces(p, White, Knight) + Pieces(p, Black, Knight) + Pieces(p, White, Bishop) + Pieces(p, Black, Bishop);
    var heavy := Pieces(p, White, Pawn) + Pieces(p, Black, Pawn) + Pieces(p, White, Rook) + Pieces(p, Black, Rook)
                 + Pieces(p, White, Queen) + Pieces(p, Black, Queen);
    |p.all| <= 3 && |heavy| == 0 && |minors| <= 1
  }

  /**
   * `game_state`: without legal moves the game is over (checkmate when in
   * check, stalemate otherwise); with legal moves it is drawn by insufficient
   * material or by the fifty-move rule (a halfmove clock of 100 or more), and
   * in progress otherwise.
   */
  function Classify(p: Position): (g: GameState)
    requires CanPlay(p)
    ensures g == Checkmate <==> Legal(p) == [] && IsInCheck(p, p.sideToMove)
    ensures g == Stalemate <==> Legal(p) == [] && !IsInCheck(p, p.sideToMove)
    ensures g == Draw <==> Legal(p) != [] && (InsufficientMaterial(p) || p.halfmoveClock >= 100)
    ensures g == InProgress <==> Legal(p) != [] && !InsufficientMaterial(p) && p.halfmoveClock < 100
  {
    if Legal(p) == [] then (if IsInCheck(p, p.sideToMove) then Checkmate else Stalemate)
    else if InsufficientMaterial(p) then Draw
    else if p.halfmoveClock >= 100 then Draw
    else InProgress
  }
}
