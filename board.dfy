/**
 * `Board`, the engine's mutable position: twelve piece bitboards in a 2 x 6
 * array, the two colour occupancies, their union, the side to move, the
 * castling rights object and the en-passant square and clocks. Every method
 * is proved against the function of `Positions`, `MoveGen` or `Fen` that
 * states what it computes on the position the fields hold (`Value`).
 */
module Engine {
  import opened Wrappers
  import opened Types
  import opened Bitboards
  import opened Attacks
  import opened Positions
  import opened MoveGen
  import opened Fen
  import opened StrictFen

  class Board {
    /** `pieces: [[u64; 6]; 2]`: per colour, the row of six bitboards indexed by piece type. */
    const pieces: array<PieceBoards>
    /** `occupancy: [u64; 2]`. */
    const occupancy: array<Bitboard>
    var all: Bitboard
    var sideToMove: Color
    const castling: CastlingRights
    var enPassant: Option<Square>
    var halfmoveClock: U16
    var fullmoveNumber: U16

    /** The arrays have the two entries of `[_; 2]`. */
    ghost predicate Valid()
    {
      pieces.Length == 2 && occupancy.Length == 2
    }

    /** The position the fields hold. */
    function Value(): (p: Position)
      requires Valid()
      reads this, pieces, occupancy, castling
    {
      Position(pieces[..], occupancy[..], all, sideToMove, castling.bits, enPassant, halfmoveClock, fullmoveNumber)
    }

    /** The board `from_fen` fills in: no pieces, White to move, no rights, no en-passant square, clocks 0 and 1. */
    constructor Empty()
      ensures Valid() && Value() == EMPTY_BOARD
      ensures fresh(pieces) && fresh(occupancy) && fresh(castling)
    {
      pieces := new PieceBoards[2](_ => NO_PIECES);
      occupancy := new Bitboard[2](_ => {});
      all := {};
      sideToMove := White;
      castling := new CastlingRights(NO_RIGHTS);
      enPassant := None;
      halfmoveClock := 0;
      fullmoveNumber := 1;
      new;
      assert pieces[..] == [NO_PIECES, NO_PIECES] && occupancy[..] == [{}, {}];
    }

    /** `#[derive(Clone)]`: a board of its own holding the same position. */
    method Clone() returns (b: Board)
      requires Valid()
      ensures fresh(b) && fresh(b.pieces) && fresh(b.occupancy) && fresh(b.castling)
      ensures b.Valid() && b.Value() == Value()
    {
      b := new Board.Empty();
      b.pieces[0], b.pieces[1] := pieces[0], pieces[1];
      b.occupancy[0], b.occupancy[1] := occupancy[0], occupancy[1];
      b.all, b.sideToMove, b.enPassant := all, sideToMove, enPassant;
      b.halfmoveClock, b.fullmoveNumber := halfmoveClock, fullmoveNumber;
      b.castling.bits := castling.bits;
      assert b.pieces[..] == pieces[..] && b.occupancy[..] == occupancy[..];
    }

    // -------------------------------------------------------------------------
    // Bitboard updates
    // -------------------------------------------------------------------------

    /** `pieces[c][pt] ^= bb`. */
    method TogglePiecesAt(c: Color, pt: PieceType, bb: Bitboard)
      requires Valid()
      modifies pieces
      ensures Value() == TogglePieces(old(Value()), c, pt, bb)
    {
      var ci, ti := ColorIndex(c), TypeIndex(pt);
      pieces[ci] := pieces[ci][ti := Xor(pieces[ci][ti], bb)];
    }

    /** `occupancy[c] ^= bb`. */
    method ToggleOccupancyAt(c: Color, bb: Bitboard)
      requires Valid()
      modifies occupancy
      ensures Value() == ToggleOccupancy(old(Value()), c, bb)
    {
      var ci := ColorIndex(c);
      occupancy[ci] := Xor(occupancy[ci], bb);
    }

    /** `pieces[c][pt] |= bit(sq)` and `occupancy[c] |= bit(sq)`. */
    method PlaceAt(c: Color, pt: PieceType, sq: Square)
      requires Valid()
      modifies pieces, occupancy
      ensures Value() == Place(old(Value()), c, pt, sq)
    {
      var ci, ti := ColorIndex(c), TypeIndex(pt);
      pieces[ci] := pieces[ci][ti := pieces[ci][ti] + {sq}];
      occupancy[ci] := occupancy[ci] + {sq};
    }

    // -------------------------------------------------------------------------
    // Queries
    // -------------------------------------------------------------------------

    /** `piece_type_at`: the `find` over `PieceType::ALL` for a bitboard of `c` holding `sq`. */
    method PieceTypeAt(sq: Square, c: Color) returns (r: Option<PieceType>)
      requires Valid()
      ensures r == Positions.PieceTypeAt(Value(), sq, c)
    {
      var ci := ColorIndex(c);
      for i := 0 to 6
        invariant FirstTypeFrom(Value(), sq, c, i) == Positions.PieceTypeAt(Value(), sq, c)
      {
        if sq in pieces[ci][i] {
          return Some(ALL[i]);
        }
      }
      return None;
    }

    /** `piece_at`: White, then Black; a colour whose occupancy holds `sq` answers with its first bitboard holding it. */
    method PieceAt(sq: Square) returns (r: Option<Piece>)
      requires Valid()
      ensures r == Positions.PieceAt(Value(), sq)
    {
      ghost var p := Value();
      var colors := [White, Black];
      for k := 0 to 2
        invariant forall j :: 0 <= j < k ==> !(sq in Occupancy(p, colors[j]) && Positions.PieceTypeAt(p, sq, colors[j]).Some?)
      {
        var color := colors[k];
        if sq in occupancy[ColorIndex(color)] {
          var pt := PieceTypeAt(sq, color);
          if pt.Some? {
            assert k == 1 ==> !(sq in Occupancy(p, colors[0]) && Positions.PieceTypeAt(p, sq, colors[0]).Some?);
            return Some(Piece(pt.value, color));
          }
        }
      }
      assert !(sq in Occupancy(p, colors[0]) && Positions.PieceTypeAt(p, sq, colors[0]).Some?);
      assert !(sq in Occupancy(p, colors[1]) && Positions.PieceTypeAt(p, sq, colors[1]).Some?);
      return None;
    }

    /** `king_square`: the lowest square of the king bitboard. */
    method KingSquare(c: Color) returns (sq: Square)
      requires Valid() && HasKing(Value(), c)
      ensures sq == Positions.KingSquare(Value(), c)
    {
      sq := Lsb(pieces[ColorIndex(c)][TypeIndex(King)]);
    }

    /** `ray_hits`: the nearest occupied square of the ray holds one of `targets`. */
    method RayHits(sq: Square, d: Direction, targets: Bitboard) returns (hit: bool)
      requires Valid()
      ensures hit == Attacks.RayHits(sq, d, targets, all)
    {
      var blockers := Ray(sq, d) * all;
      if blockers != {} {
        hit := NearestBlocker(blockers, d) in targets;
      } else {
        hit := false;
      }
    }

    /** `is_attacked`: the knight, king and pawn tables, then the four diagonals and the four straight lines. */
    method IsAttacked(sq: Square, attacker: Color) returns (attacked: bool)
      requires Valid()
      ensures attacked == Positions.IsAttacked(Value(), sq, attacker)
    {
      var them := ColorIndex(attacker);
      if KnightAttacks(sq) * pieces[them][TypeIndex(Knight)] != {} {
        return true;
      }
      if KingAttacks(sq) * pieces[them][TypeIndex(King)] != {} {
        return true;
      }
      if PawnAttacks(Opposite(attacker), sq) * pieces[them][TypeIndex(Pawn)] != {} {
        return true;
      }
      var bishops, rooks, queens := pieces[them][TypeIndex(Bishop)], pieces[them][TypeIndex(Rook)], pieces[them][TypeIndex(Queen)];
      attacked := AnyRayHits(sq, DIAGONALS, bishops + queens);
      if !attacked {
        attacked := AnyRayHits(sq, STRAIGHTS, rooks + queens);
      }
    }

    /** The `for dir in dirs { if self.ray_hits(..) { return true } }` loops of `is_attacked`. */
    method AnyRayHits(sq: Square, dirs: seq<Direction>, targets: Bitboard) returns (hit: bool)
      requires Valid()
      ensures hit == AnyHits(Value(), sq, dirs, targets)
    {
      ghost var p := Value();
      for k := 0 to |dirs|
        invariant AnyHits(p, sq, dirs, targets) == AnyHits(p, sq, dirs[k..], targets)
      {
        assert dirs[k..][1..] == dirs[k + 1..];
        hit := RayHits(sq, dirs[k], targets);
        if hit {
          return;
        }
      }
      return false;
    }

    /** `is_in_check`: the colour's king square is attacked by the other colour. */
    method IsInCheck(c: Color) returns (check: bool)
      requires Valid() && HasKing(Value(), c)
      ensures check == Positions.IsInCheck(Value(), c)
    {
      var king := KingSquare(c);
      check := IsAttacked(king, Opposite(c));
    }

    // -------------------------------------------------------------------------
    // apply_unchecked
    // -------------------------------------------------------------------------

    /** Clear the piece of `them` standing on `to`, if any, from its bitboard and from the occupancy. */
    method CaptureOn(them: Color, to: Square)
      requires Valid()
      modifies pieces, occupancy
      ensures Value() == CaptureAt(old(Value()), them, to)
    {
      if to in occupancy[ColorIndex(them)] {
        ghost var p := Value();
        var captured := PieceTypeAt(to, them);
        if captured.Some? {
          TogglePiecesAt(them, captured.value, {to});
        }
        ghost var cleared := Value();
        assert cleared == match Positions.PieceTypeAt(p, to, them)
                          case Some(c) => TogglePieces(p, them, c, {to})
                          case None => p;
        ToggleOccupancyAt(them, {to});
      }
    }

    /** For an en-passant move by `us`, remove the enemy pawn one rank behind the destination. */
    method TakeEnPassantFor(m: Move, us: Color)
      requires Valid() && (m.kind == EnPassant ==> if us == White then m.to >= 8 else m.to < 56)
      modifies pieces, occupancy
      ensures Value() == TakeEnPassant(old(Value()), m, us)
    {
      if m.kind == EnPassant {
        var victim: Square := if us == White then m.to - 8 else m.to + 8;
        TogglePiecesAt(Opposite(us), Pawn, {victim});
        ToggleOccupancyAt(Opposite(us), {victim});
      }
    }

    /**
     * The bitboard half of `apply_unchecked`, in the source's order: lift the
     * piece, clear a captured piece, take the pawn passed en passant, put the
     * moved or promoted piece down and move the castling rook.
     */
    method MovePieces(m: Move, moving: PieceType)
      requires Valid() && Applicable(Value(), m)
      requires moving == Positions.PieceTypeAt(Value(), m.from, sideToMove).value
      modifies pieces, occupancy
      ensures Value() == MoveBoards(old(Value()), m)
    {
      ghost var p := Value();
      var us, them := sideToMove, Opposite(sideToMove);

      // Remove from the source square.
      TogglePiecesAt(us, moving, {m.from});
      ToggleOccupancyAt(us, {m.from});
      ghost var lifted := Value();
      assert lifted == Toggle(p, us, moving, {m.from});

      // Capture at the destination.
      CaptureOn(them, m.to);
      ghost var taken := Value();

      // The pawn taken en passant.
      TakeEnPassantFor(m, us);
      ghost var passed := Value();

      // The moved or promoted piece on the destination.
      var placed := match m.kind
                    case Promotion(pt) => pt
                    case _ => moving;
      PlaceAt(us, placed, m.to);
      ghost var landed := Value();
      assert landed == Place(passed, us, PlacedType(m, moving), m.to);

      // The castling rook.
      if m.kind == Castle {
        var rookFrom, rookTo := RookFrom(m.to), RookTo(m.to);
        TogglePiecesAt(us, Rook, {rookFrom, rookTo});
        ToggleOccupancyAt(us, {rookFrom, rookTo});
      }
      assert Value() == MoveRook(landed, m, us);
    }

    /**
     * `apply_unchecked`: move the pieces, then set the en-passant square,
     * clear the castling rights of both squares, recompute `all`, update the
     * clocks and pass the move.
     */
    method ApplyUnchecked(m: Move)
      requires Valid() && Applicable(Value(), m)
      modifies this, pieces, occupancy, castling
      ensures Valid() && Value() == Apply(old(Value()), m)
    {
      ghost var p := Value();
      var found := PieceTypeAt(m.from, sideToMove);
      var moving := found.value;
      var isCapture := m.to in occupancy[ColorIndex(Opposite(sideToMove))] || m.kind == EnPassant;
      MovePieces(m, moving);
      FinishMove(p, m, moving, isCapture);
    }

    /**
     * The rest of `apply_unchecked`, on top of the moved pieces of `p`: the
     * en-passant square, the castling rights, `all`, the clocks and the side.
     */
    method FinishMove(ghost p: Position, m: Move, moving: PieceType, isCapture: bool)
      requires Valid() && Applicable(p, m)
      requires moving == Positions.PieceTypeAt(p, m.from, p.sideToMove).value
      requires isCapture == (m.to in Occupancy(p, Opposite(p.sideToMove)) || m.kind == EnPassant)
      requires sideToMove == p.sideToMove && castling.bits == p.castling
      requires halfmoveClock == p.halfmoveClock && fullmoveNumber == p.fullmoveNumber
      modifies this, castling
      ensures Valid() && Value() == Finish(p, m, old(Value()))
    {
      ghost var boards := Value();
      enPassant := None;
      if moving == Pawn {
        var fromRank, toRank := Rank(m.from), Rank(m.to);
        if (fromRank == 1 && toRank == 3) || (fromRank == 6 && toRank == 4) {
          var middle: Square := (m.from + m.to) / 2;
          enPassant := Some(middle);
        }
      }

      ClearRights(castling, [m.from, m.to]);

      all := occupancy[0] + occupancy[1];
      halfmoveClock := if moving == Pawn || isCapture then 0 else WrappingInc(halfmoveClock);
      sideToMove := Opposite(sideToMove);
      if sideToMove == White {
        fullmoveNumber := SaturatingInc(fullmoveNumber);
      }
      ghost var q := Position(pieces[..], occupancy[..], all, sideToMove, castling.bits, enPassant, halfmoveClock, fullmoveNumber);
      assert q == Value();
      FinishByFields(p, m, boards, q);
    }

    // -------------------------------------------------------------------------
    // generate_pseudo_legal
    // -------------------------------------------------------------------------

    /** The pop loop over a target set: a normal move to each target, lowest first. */
    method PushTargets(from: Square, targets: Bitboard) returns (out: seq<Move>)
      ensures out == TargetMoves(from, targets)
    {
      out := [];
      var rest := targets;
      while rest != {}
        invariant out + TargetMoves(from, rest) == TargetMoves(from, targets)
        decreases rest
      {
        var to := Lsb(rest);
        Concat3(out, [Move(from, to, Normal)], TargetMoves(from, rest - {to}));
        out := out + [Move(from, to, Normal)];
        rest := rest - {to};
      }
    }

    /** The pushes of one pawn: the single push (or its four promotions), then the double push. */
    method PushPawn(from: Square) returns (out: seq<Move>)
      requires Valid() && Rank(from) != PromoRank(sideToMove)
      ensures out == PawnPushes(Value(), from)
    {
      out := [];
      var push, startRank, promoRank := Forward(sideToMove), StartRank(sideToMove), PromoRank(sideToMove);
      var to: Square := from + push;
      if to !in all {
        if Rank(to) == promoRank {
          out := Promotions(from, to);
        } else {
          out := [Move(from, to, Normal)];
          if Rank(from) == startRank {
            var double: Square := to + push;
            if double !in all {
              out := out + [Move(from, double, Normal)];
            }
          }
        }
      }
    }

    /** The capture pop loop of one pawn, promoting on the last rank. */
    method PawnCapturesFrom(from: Square, caps: Bitboard, promoRank: int) returns (out: seq<Move>)
      ensures out == PawnCaptures(from, caps, promoRank)
    {
      out := [];
      var rest := caps;
      while rest != {}
        invariant out + PawnCaptures(from, rest, promoRank) == PawnCaptures(from, caps, promoRank)
        decreases rest
      {
        var to := Lsb(rest);
        var step := if Rank(to) == promoRank then Promotions(from, to) else [Move(from, to, Normal)];
        Concat3(out, step, PawnCaptures(from, rest - {to}, promoRank));
        out := out + step;
        rest := rest - {to};
      }
    }

    /** The body of the pawn loop for one pawn: its pushes, its captures, then its en-passant capture. */
    method GenPawn(from: Square) returns (out: seq<Move>)
      requires Valid() && Rank(from) != PromoRank(sideToMove)
      ensures out == PawnMovesOf(Value(), from)
    {
      var pushes := PushPawn(from);
      var attacks := PawnAttacks(sideToMove, from);
      var captures := PawnCapturesFrom(from, attacks * occupancy[ColorIndex(Opposite(sideToMove))], PromoRank(sideToMove));
      var passing := if enPassant.Some? && enPassant.value in attacks then [Move(from, enPassant.value, EnPassant)] else [];
      out := pushes + captures + passing;
    }

    /** The pawn loop of `generate_pseudo_legal`, over the pawns of the side to move, lowest first. */
    method GenPawns() returns (out: seq<Move>)
      requires Valid() && PawnsBehindLastRank(Value(), sideToMove)
      ensures out == PawnMoves(Value(), Pieces(Value(), sideToMove, Pawn))
    {
      ghost var p := Value();
      var pawns := pieces[ColorIndex(sideToMove)][TypeIndex(Pawn)];
      out := [];
      var bb := pawns;
      while bb != {}
        invariant bb <= pawns
        invariant out + PawnMoves(p, bb) == PawnMoves(p, pawns)
        decreases bb
      {
        var from := Lsb(bb);
        var step := GenPawn(from);
        Concat3(out, step, PawnMoves(p, bb - {from}));
        out := out + step;
        bb := bb - {from};
      }
    }

    /** `gen_leaper`: for each piece of type `pt`, lowest first, the table targets not of its side. */
    method GenLeaper(pt: PieceType) returns (out: seq<Move>)
      requires Valid()
      ensures out == LeaperMoves(Value(), pt, Pieces(Value(), sideToMove, pt))
    {
      ghost var p := Value();
      var us := ColorIndex(sideToMove);
      var start := pieces[us][TypeIndex(pt)];
      out := [];
      var bb := start;
      while bb != {}
        invariant out + LeaperMoves(p, pt, bb) == LeaperMoves(p, pt, start)
        decreases bb
      {
        var from := Lsb(bb);
        var table := if pt == Knight then KnightAttacks(from) else KingAttacks(from);
        var step := PushTargets(from, table - occupancy[us]);
        Concat3(out, step, LeaperMoves(p, pt, bb - {from}));
        out := out + step;
        bb := bb - {from};
      }
    }

    /**
     * `gen_castling`: nothing while in check; otherwise, for each configuration
     * of the side to move, the castle when the right is held, the path is
     * empty and neither the transit nor the destination square is attacked.
     */
    method GenCastling() returns (out: seq<Move>)
      requires Valid() && HasKing(Value(), sideToMove)
      ensures out == CastlingMoves(Value())
    {
      ghost var p := Value();
      out := [];
      var inCheck := IsInCheck(sideToMove);
      if inCheck {
        return;
      }
      var configs := ConfigsOf(sideToMove);
      for i := 0 to |configs|
        invariant out + CastlesFrom(p, configs[i..]) == CastlesFrom(p, configs)
      {
        assert configs[i..][1..] == configs[i + 1..];
        var cfg := configs[i];
        var step := [];
        if castling.bits & cfg.right != 0 && cfg.path * all == {} {
          var transitAttacked := IsAttacked(cfg.transit, cfg.attacker);
          if !transitAttacked {
            var targetAttacked := IsAttacked(cfg.kingTo, cfg.attacker);
            if !targetAttacked {
              step := [Move(cfg.kingFrom, cfg.kingTo, Castle)];
            }
          }
        }
        assert step == if CastleAllowed(p, cfg) then [Move(cfg.kingFrom, cfg.kingTo, Castle)] else [];
        Concat3(out, step, CastlesFrom(p, configs[i + 1..]));
        out := out + step;
      }
    }

    /** One slider on `from`: along each direction, the reachable squares not of its side. */
    method GenSlider(from: Square, dirs: seq<Direction>) returns (out: seq<Move>)
      requires Valid()
      ensures out == DirectionMoves(Value(), from, dirs)
    {
      ghost var p := Value();
      var us := ColorIndex(sideToMove);
      out := [];
      for k := 0 to |dirs|
        invariant out + DirectionMoves(p, from, dirs[k..]) == DirectionMoves(p, from, dirs)
      {
        assert dirs[k..][1..] == dirs[k + 1..];
        var dir := dirs[k];
        var ray := Ray(from, dir);
        var blockers := ray * all;
        var attacks := if blockers == {} then ray else Xor(ray, Ray(NearestBlocker(blockers, dir), dir));
        assert attacks == SlideAttacks(from, dir, all);
        var step := PushTargets(from, attacks - occupancy[us]);
        Concat3(out, step, DirectionMoves(p, from, dirs[k + 1..]));
        out := out + step;
      }
    }

    /** The slider loop over the pieces of type `pt`, lowest first. */
    method GenSliders(pt: PieceType) returns (out: seq<Move>)
      requires Valid()
      ensures out == SliderMoves(Value(), pt, Pieces(Value(), sideToMove, pt))
    {
      ghost var p := Value();
      var start := pieces[ColorIndex(sideToMove)][TypeIndex(pt)];
      var dirs := SliderDirections(pt);
      out := [];
      var bb := start;
      while bb != {}
        invariant out + SliderMoves(p, pt, bb) == SliderMoves(p, pt, start)
        decreases bb
      {
        var from := Lsb(bb);
        var step := GenSlider(from, dirs);
        Concat3(out, step, SliderMoves(p, pt, bb - {from}));
        out := out + step;
        bb := bb - {from};
      }
    }

    /** `generate_pseudo_legal`: pawns, knights, the king, castling, then bishops, rooks and queens. */
    method GeneratePseudoLegal() returns (moves: seq<Move>)
      requires Valid() && CanGenerate(Value())
      ensures moves == PseudoLegal(Value())
    {
      var pawns := GenPawns();
      var knights := GenLeaper(Knight);
      var kings := GenLeaper(King);
      var castles := GenCastling();
      var bishops := GenSliders(Bishop);
      var rooks := GenSliders(Rook);
      var queens := GenSliders(Queen);
      moves := pawns + knights + kings + castles + bishops + rooks + queens;
    }

    // -------------------------------------------------------------------------
    // generate_legal_moves, make_move and game_state
    // -------------------------------------------------------------------------

    /** The test of `generate_legal_moves`' filter: play `m` on a copy of the board and look for the mover's king under attack. */
    method LeavesKingSafe(m: Move) returns (safe: bool)
      requires Valid() && Playable(Value(), m)
      ensures safe == !Positions.IsInCheck(Apply(Value(), m), sideToMove)
    {
      var copy := Clone();
      copy.ApplyUnchecked(m);
      var check := copy.IsInCheck(sideToMove);
      safe := !check;
    }

    /** The filter of `generate_legal_moves`, in order. */
    method FilterLegal(pseudo: seq<Move>) returns (legal: seq<Move>)
      requires Valid() && forall m :: m in pseudo ==> Playable(Value(), m)
      ensures legal == LegalAmong(Value(), pseudo)
    {
      ghost var p := Value();
      legal := [];
      for i := 0 to |pseudo|
        invariant legal + LegalAmong(p, pseudo[i..]) == LegalAmong(p, pseudo)
      {
        assert pseudo[i..][1..] == pseudo[i + 1..];
        var m := pseudo[i];
        var safe := LeavesKingSafe(m);
        var step := if safe then [m] else [];
        Concat3(legal, step, LegalAmong(p, pseudo[i + 1..]));
        legal := legal + step;
      }
      assert pseudo[|pseudo|..] == [];
    }

    /** `generate_legal_moves`: the pseudo-legal moves after which the mover is not in check. */
    method GenerateLegalMoves() returns (legal: seq<Move>)
      requires Valid() && CanPlay(Value())
      ensures legal == Legal(Value())
    {
      var pseudo := GeneratePseudoLegal();
      PseudoLegalPlayable(Value());
      legal := FilterLegal(pseudo);
    }

    /** The `find` of `make_move`: the first move of `legal` with the squares and promotion piece of `mv`. */
    method FindLegal(legal: seq<Move>, mv: Move) returns (r: Option<Move>)
      ensures r == FindMatch(legal, mv)
    {
      for i := 0 to |legal|
        invariant FindMatch(legal[i..], mv) == FindMatch(legal, mv)
      {
        assert legal[i..][1..] == legal[i + 1..];
        if legal[i].from == mv.from && legal[i].to == mv.to && PromotionPiece(legal[i]) == PromotionPiece(mv) {
          return Some(legal[i]);
        }
      }
      assert legal[|legal|..] == [];
      return None;
    }

    /** `make_move`: play the legal move matching `mv` and report `true`, or report `false` and change nothing. */
    method MakeMove(mv: Move) returns (ok: bool)
      requires Valid() && CanPlay(Value())
      modifies this, pieces, occupancy, castling
      ensures Valid() && (ok, Value()) == MoveGen.MakeMove(old(Value()), mv)
    {
      ghost var p := Value();
      var legal := GenerateLegalMoves();
      var found := FindLegal(legal, mv);
      match found
      case None =>
        ok := false;
      case Some(lm) =>
        assert Playable(p, lm);
        ApplyUnchecked(lm);
        ok := true;
    }

    /** The material test of `game_state`: at most three pieces, none of them a pawn, rook or queen, and at most one knight or bishop. */
    method HasInsufficientMaterial() returns (insufficient: bool)
      requires Valid()
      ensures insufficient == InsufficientMaterial(Value())
    {
      insufficient := false;
      var total := |all|;
      if total <= 3 {
        var knight, bishop := TypeIndex(Knight), TypeIndex(Bishop);
        var pawn, rook, queen := TypeIndex(Pawn), TypeIndex(Rook), TypeIndex(Queen);
        var minors := |pieces[0][knight] + pieces[1][knight] + pieces[0][bishop] + pieces[1][bishop]|;
        var heavy := |pieces[0][pawn] + pieces[1][pawn] + pieces[0][rook] + pieces[1][rook]
                      + pieces[0][queen] + pieces[1][queen]|;
        insufficient := heavy == 0 && minors <= 1;
      }
    }

    /** `game_state`: checkmate or stalemate without legal moves, then the material and fifty-move draws, else in progress. */
    method CurrentState() returns (g: GameState)
      requires Valid() && CanPlay(Value())
      ensures g == Classify(Value())
    {
      var legal := GenerateLegalMoves();
      if legal == [] {
        var check := IsInCheck(sideToMove);
        return if check then Checkmate else Stalemate;
      }
      var insufficient := HasInsufficientMaterial();
      if insufficient {
        return Draw;
      }
      if halfmoveClock >= 100 {
        return Draw;
      }
      return InProgress;
    }

    // -------------------------------------------------------------------------
    // from_fen and to_fen
    // -------------------------------------------------------------------------

    /** The placement loop of `from_fen` on an empty board: `false` at the first character it rejects. */
    method PlacePieces(field: string) returns (ok: bool)
      requires Valid() && Value() == EMPTY_BOARD
      modifies pieces, occupancy
      ensures ok <==> RunPlacement(START_CURSOR, field).Some?
      ensures ok ==> Value() == RunPlacement(START_CURSOR, field).value.board
    {
      var rank: nat, file: nat := 7, 0;
      for i := 0 to |field|
        invariant RunPlacement(Cursor(rank, file, Value()), field[i..]) == RunPlacement(START_CURSOR, field)
      {
        ghost var cur := Cursor(rank, file, Value());
        RunStep(cur, field, i);
        var c := field[i];
        if c == '/' {
          if file > 8 || rank == 0 {
            assert PlacementStep(cur, c) == None;
            return false;
          }
          rank, file := rank - 1, 0;
          assert PlacementStep(cur, c) == Some(Cursor(rank, file, Value()));
        } else if '1' <= c <= '8' {
          file := file + (c as int - '0' as int);
          if file > 8 {
            assert PlacementStep(cur, c) == None;
            return false;
          }
          assert PlacementStep(cur, c) == Some(Cursor(rank, file, Value()));
        } else {
          if file >= 8 || rank >= 8 {
            assert PlacementStep(cur, c) == None;
            return false;
          }
          var piece := FromFenChar(c);
          if piece.None? {
            assert PlacementStep(cur, c) == None;
            return false;
          }
          PlaceAt(piece.value.color, piece.value.pieceType, SquareNew(file, rank));
          file := file + 1;
          assert PlacementStep(cur, c) == Some(Cursor(rank, file, Value()));
        }
      }
      assert field[|field|..] == [];
      return true;
    }

    /**
     * `Board::from_fen`: at least four whitespace-separated fields, the
     * placement, exactly one king per side, `w` or `b`, the castling letters,
     * an en-passant square on rank 3 or 6 (or `-`), and the clocks when present.
     */
    static method FromFen(fen: string) returns (r: Option<Board>)
      ensures r.None? <==> ParseFen(fen).None?
      ensures r.Some? ==> fresh(r.value) && r.value.Valid() && r.value.Value() == ParseFen(fen).value
    {
      var parts := SplitWhitespace(fen);
      if |parts| < 4 {
        return None;
      }
      var board := new Board.Empty();
      var placed := board.PlacePieces(parts[0]);
      if !placed {
        return None;
      }
      var read := board.ReadFields(parts);
      if !read {
        return None;
      }
      return Some(board);
    }

    /**
     * `from_fen` followed by the checks it leaves out; a board it returns can
     * generate and make moves.
     */
    static method FromFenChecked(fen: string) returns (r: Option<Board>)
      ensures r.None? <==> ParseFenChecked(fen).None?
      ensures r.Some? ==> fresh(r.value) && r.value.Valid() && r.value.Value() == ParseFenChecked(fen).value
      ensures r.Some? ==> CanPlay(r.value.Value())
    {
      r := FromFen(fen);
      if r.Some? && !Checked(r.value.Value()) {
        r := None;
      }
    }

    /** `from_fen` after the placement: `all`, the one-king test, the side, castling, en-passant square and clocks. */
    method ReadFields(parts: seq<string>) returns (ok: bool)
      requires Valid() && |parts| >= 4
      requires enPassant == None && halfmoveClock == 0 && fullmoveNumber == 1
      modifies this, castling
      ensures Valid()
      ensures ok <==> ParseFields(parts, old(Value())).Some?
      ensures ok ==> Value() == ParseFields(parts, old(Value())).value
    {
      all := occupancy[0] + occupancy[1];
      var king := TypeIndex(King);
      if |pieces[0][king]| != 1 || |pieces[1][king]| != 1 {
        return false;
      }
      if parts[1] == "w" {
        sideToMove := White;
      } else if parts[1] == "b" {
        sideToMove := Black;
      } else {
        return false;
      }
      var rights := ReadCastling(parts[2]);
      castling.bits := rights;
      ok := ReadTail(parts);
    }

    /** The en-passant field, which must name a square on rank 3 or 6, then the clocks when present. */
    method ReadTail(parts: seq<string>) returns (ok: bool)
      requires Valid() && |parts| >= 4
      requires enPassant == None && halfmoveClock == 0 && fullmoveNumber == 1
      modifies this
      ensures Valid()
      ensures ok <==> ParseTail(parts, old(Value())).Some?
      ensures ok ==> Value() == ParseTail(parts, old(Value())).value
    {
      if parts[3] != "-" {
        var ep := FromAlgebraic(parts[3]);
        if ep.None? || (Rank(ep.value) != 2 && Rank(ep.value) != 5) {
          return false;
        }
        enPassant := Some(ep.value);
      }
      if |parts| > 4 {
        var half := ParseU16(parts[4]);
        if half.None? {
          return false;
        }
        halfmoveClock := half.value;
      }
      if |parts| > 5 {
        var full := ParseU16(parts[5]);
        if full.None? {
          return false;
        }
        fullmoveNumber := full.value;
      }
      return true;
    }

    /** The inner loop of `to_fen` for one rank: piece letters, each run of empty squares as its length. */
    method WriteRank(rank: int) returns (line: string)
      requires Valid() && 0 <= rank < 8
      ensures line == RankText(MailboxOf(Value()), rank, 0, 0)
    {
      ghost var mb := MailboxOf(Value());
      line := [];
      var empty := 0;
      for file := 0 to 8
        invariant 0 <= empty <= file
        invariant line + RankText(mb, rank, file, empty) == RankText(mb, rank, 0, 0)
      {
        var piece := PieceAt(SquareNew(file, rank));
        if piece.Some? {
          var step := EmptyRun(empty) + [ToFenChar(piece.value)];
          Concat3(line, step, RankText(mb, rank, file + 1, 0));
          line := line + step;
          empty := 0;
        } else {
          empty := empty + 1;
        }
      }
      line := line + EmptyRun(empty);
    }

    /** The placement field of `to_fen`: the ranks from 8 down to 1, separated by `/`. */
    method WriteRows() returns (text: string)
      requires Valid()
      ensures text == Rows(MailboxOf(Value()), 7)
    {
      ghost var mb := MailboxOf(Value());
      text := [];
      var rank := 7;
      while rank >= 0
        invariant -1 <= rank <= 7
        invariant rank >= 0 ==> text + Rows(mb, rank) == Rows(mb, 7)
        invariant rank < 0 ==> text == Rows(mb, 7)
        decreases rank
      {
        var line := WriteRank(rank);
        if rank > 0 {
          var below := rank - 1;
          RowsStep(mb, rank, below);
          Concat3(text, line, "/" + Rows(mb, below));
          Concat3(text + line, "/", Rows(mb, below));
          text := text + line + "/";
          rank := below;
        } else {
          text := text + line;
          rank := -1;
        }
      }
    }

    /** `Board::to_fen`: placement, side, castling letters (or `-`), en-passant square (or `-`) and the two clocks. */
    method ToFen() returns (fen: string)
      requires Valid()
      ensures fen == FenOf(Value())
    {
      var rows := WriteRows();
      var side := if sideToMove == White then "w" else "b";
      var letters := WriteCastling(castling.bits);
      var passing := match enPassant case Some(sq) => SquareName(sq) case None => "-";
      var half, full := DecimalText(halfmoveClock), DecimalText(fullmoveNumber);
      assert side == SideText(sideToMove) && passing == EnPassantText(enPassant);
      JoinSix(rows, side, letters, passing, half, full);
      fen := rows + " " + (side + " " + (letters + " " + (passing + " " + (half + " " + full))));
    }
  }

  /** Concatenation regroups: the step every accumulating loop takes. */
  lemma Concat3<T>(a: seq<T>, b: seq<T>, c: seq<T>)
    ensures (a + b) + c == a + (b + c)
  {
  }

  /** The castling loop of `from_fen`: each letter ORs in the right it names. */
  method ReadCastling(s: string) returns (rights: bv8)
    ensures rights == CastlingOf(s)
  {
    rights := NO_RIGHTS;
    for k := 0 to |s|
      invariant rights | CastlingOf(s[k..]) == CastlingOf(s)
    {
      assert s[k..][1..] == s[k + 1..];
      match s[k]
      case 'K' => rights := rights | WK;
      case 'Q' => rights := rights | WQ;
      case 'k' => rights := rights | BK;
      case 'q' => rights := rights | BQ;
      case _ =>
    }
    assert s[|s|..] == [];
  }

  /** The castling field of `to_fen`: `K`, `Q`, `k`, `q` for the rights held, or `-` when nothing was written. */
  method WriteCastling(bits: bv8) returns (letters: string)
    ensures letters == CastlingText(bits)
  {
    letters := [];
    if bits & WK != 0 { letters := letters + "K"; }
    if bits & WQ != 0 { letters := letters + "Q"; }
    if bits & BK != 0 { letters := letters + "k"; }
    if bits & BQ != 0 { letters := letters + "q"; }
    if letters == [] { letters := "-"; }
  }

  /** The placement loop from character `i` on: one step, then the rest. */
  lemma RunStep(cur: Cursor, field: string, i: int)
    requires 0 <= i < |field|
    ensures RunPlacement(cur, field[i..]) ==
              if PlacementStep(cur, field[i]).None? then None else RunPlacement(PlacementStep(cur, field[i]).value, field[i + 1..])
  {
    assert field[i..] == [field[i]] + field[i + 1..];
    RunCons(cur, field[i], field[i + 1..]);
  }

  /** One step of the placement field: rank `rank`, a `/`, then the ranks below it. */
  lemma RowsStep(mb: Mailbox, rank: int, below: int)
    requires 0 < rank < 8 && below == rank - 1
    ensures Rows(mb, rank) == RankText(mb, rank, 0, 0) + ("/" + Rows(mb, below))
  {
  }

  /** Six fields joined by single spaces. */
  lemma JoinSix(a: string, b: string, c: string, d: string, e: string, f: string)
    ensures JoinFields([a, b, c, d, e, f]) == a + " " + (b + " " + (c + " " + (d + " " + (e + " " + f))))
  {
    assert [e, f][1..] == [f];
    assert JoinFields([e, f]) == e + " " + f;
    assert [d, e, f][1..] == [e, f];
    assert JoinFields([d, e, f]) == d + " " + JoinFields([e, f]);
    assert [c, d, e, f][1..] == [d, e, f];
    assert JoinFields([c, d, e, f]) == c + " " + JoinFields([d, e, f]);
    assert [b, c, d, e, f][1..] == [c, d, e, f];
    assert JoinFields([b, c, d, e, f]) == b + " " + JoinFields([c, d, e, f]);
    assert [a, b, c, d, e, f][1..] == [b, c, d, e, f];
  }

  /** The rights left after clearing those of each square of `squares` in turn. */
  function ClearAll(bits: bv8, squares: seq<Square>): bv8
  {
    if squares == [] then bits else ClearAll(bits & !MaskForSquare(squares[0]), squares[1..])
  }

  /** The loop of `apply_unchecked` that clears the rights each square guards, in turn. */
  method ClearRights(rights: CastlingRights, squares: seq<Square>)
    modifies rights
    ensures rights.bits == ClearAll(old(rights.bits), squares)
  {
    ghost var start := rights.bits;
    for k := 0 to |squares|
      invariant ClearAll(rights.bits, squares[k..]) == ClearAll(start, squares)
    {
      assert squares[k..][1..] == squares[k + 1..];
      rights.Clear(MaskForSquare(squares[k]));
    }
    assert squares[|squares|..] == [];
  }

  /** A position whose fields are those `Finish` sets is `Finish`'s result. */
  lemma FinishByFields(p: Position, m: Move, boards: Position, q: Position)
    requires Applicable(p, m)
    requires q.pieces == boards.pieces && q.occupancy == boards.occupancy
    requires q.all == Occupancy(boards, White) + Occupancy(boards, Black)
    requires q.sideToMove == Opposite(p.sideToMove)
    requires q.castling == ClearAll(p.castling, [m.from, m.to])
    requires var moving := Positions.PieceTypeAt(p, m.from, p.sideToMove).value;
             q.enPassant == (if DoublePush(m, moving) then Some((m.from + m.to) / 2) else None)
    requires var moving := Positions.PieceTypeAt(p, m.from, p.sideToMove).value;
             var isCapture := m.to in Occupancy(p, Opposite(p.sideToMove)) || m.kind == EnPassant;
             q.halfmoveClock == if moving == Pawn || isCapture then 0 else WrappingInc(p.halfmoveClock)
    requires q.fullmoveNumber == if p.sideToMove == Black then SaturatingInc(p.fullmoveNumber) else p.fullmoveNumber
    ensures q == Finish(p, m, boards)
  {
    ClearBoth(p.castling, m.from, m.to);
  }

  lemma ClearBoth(bits: bv8, from: Square, to: Square)
    ensures ClearAll(bits, [from, to]) == bits & !MaskForSquare(from) & !MaskForSquare(to)
  {
    var once := bits & !MaskForSquare(from);
    var twice := once & !MaskForSquare(to);
    assert ClearAll(bits, [from, to]) == ClearAll(once, [to]) by {
      assert [from, to][1..] == [to];
    }
    assert ClearAll(once, [to]) == twice by {
      assert [to][1..] == [];
    }
  }
}
