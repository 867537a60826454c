/**
 * What keeps a position well formed from move to move. Besides soundness of
 * the bitboards, the castling rights must describe the board (a held right
 * has its king and rook at home) and the en-passant square must be the one a
 * double push just crossed. On such a position every generated move is an
 * ordinary move of a piece on the mailbox, and applying it yields such a
 * position again.
 */
module Consistency {
  import opened Wrappers
  import opened Types
  import opened Bitboards
  import opened Attacks
  import opened Positions
  import opened MoveGen

  /** The colour a castling configuration belongs to: the one it does not guard against. */
  function Owner(cfg: CastlingConfig): Color
  {
    Opposite(cfg.attacker)
  }

  /** A held castling right has the king on its home square and the rook in its corner. */
  predicate CastlingSound(p: Position)
  {
    forall cfg :: cfg in CASTLING_CONFIGS && p.castling & cfg.right != 0 ==>
      CastleTarget(cfg.kingTo)
      && PieceAt(p, cfg.kingFrom) == Some(Piece(King, Owner(cfg)))
      && PieceAt(p, RookFrom(cfg.kingTo)) == Some(Piece(Rook, Owner(cfg)))
  }

  /** The en-passant square, when set, is empty, on the third rank of the side that just moved, with its pawn in front. */
  predicate EpSound(p: Position)
  {
    p.enPassant.Some? ==>
      var e := p.enPassant.value;
      Rank(e) == (if p.sideToMove == White then 5 else 2)
      && PieceAt(p, e) == None
      && PieceAt(p, EpVictim(p.sideToMove, e)) == Some(Piece(Pawn, Opposite(p.sideToMove)))
  }

  /** The invariant of play: sound bitboards, truthful castling rights and en-passant square, no pawn on its last rank. */
  ghost predicate Coherent(p: Position)
  {
    Sound(p) && CastlingSound(p) && EpSound(p)
    && PawnsBehindLastRank(p, White) && PawnsBehindLastRank(p, Black)
  }

  // ---------------------------------------------------------------------------
  // Reading the mailbox off the bitboards
  // ---------------------------------------------------------------------------

  /** On a sound position the bitboards answer for the mailbox on `sq`: each piece bitboard, each occupancy, `all`. */
  lemma SquareReading(p: Position, sq: Square)
    requires Sound(p)
    ensures forall c, pt :: sq in Pieces(p, c, pt) <==> PieceAt(p, sq) == Some(Piece(pt, c))
    ensures forall c :: sq in Occupancy(p, c) <==> PieceAt(p, sq).Some? && PieceAt(p, sq).value.color == c
    ensures sq in p.all <==> PieceAt(p, sq).Some?
  {
    var mb := MailboxOf(p);
    forall c, pt
      ensures sq in Pieces(p, c, pt) <==> PieceAt(p, sq) == Some(Piece(pt, c))
    {
      assert sq in BoardOf(mb, c, pt) <==> mb[sq] == Some(Piece(pt, c));
    }
    forall c
      ensures sq in Occupancy(p, c) <==> PieceAt(p, sq).Some? && PieceAt(p, sq).value.color == c
    {
      assert sq in OccupancyOf(mb, c) <==> mb[sq].Some? && mb[sq].value.color == c;
    }
    assert sq in AllOf(mb) <==> mb[sq].Some?;
  }

  /** A coherent position with a king for the side to move can be played: generation runs and every castle has a piece to move. */
  lemma CoherentCanPlay(p: Position)
    requires Coherent(p) && HasKing(p, p.sideToMove)
    ensures CanPlay(p)
  {
    forall m | m in CastlingMoves(p)
      ensures PieceTypeAt(p, m.from, p.sideToMove).Some?
    {
      var cfg :| cfg in ConfigsOf(p.sideToMove) && CastleAllowed(p, cfg) && m == Move(cfg.kingFrom, cfg.kingTo, Castle);
      TypeAtRepresented(p, MailboxOf(p), cfg.kingFrom, p.sideToMove);
    }
  }

  // ---------------------------------------------------------------------------
  // Generated moves are mailbox moves
  // ---------------------------------------------------------------------------

  /** A pawn move as the generator makes it: en passant onto the target it attacks, a capture, or a push onto empty squares. */
  predicate PawnMoveShape(p: Position, m: Move)
  {
    var us := p.sideToMove;
    m.from in Pieces(p, us, Pawn) && Rank(m.from) != PromoRank(us)
    && if m.kind == EnPassant then p.enPassant == Some(m.to) && m.to in PawnAttacks(us, m.from)
       else
         (m.kind.Normal? || (m.kind.Promotion? && m.kind.piece in PROMOTABLE)) && (m.kind.Promotion? <==> Rank(m.to) == PromoRank(us))
         && (m.to in PawnAttacks(us, m.from) * Occupancy(p, Opposite(us))
             || (m.to !in p.all
                 && (m.to == Ahead(us, m.from)
                     || (Rank(m.from) == StartRank(us) && Ahead(us, m.from) !in p.all && m.to == Ahead(us, Ahead(us, m.from))))))
  }

  /** A castle as the generator makes it: the right is held and the path is empty. */
  predicate CastleShape(p: Position, m: Move)
  {
    exists cfg :: cfg in ConfigsOf(p.sideToMove) && p.castling & cfg.right != 0 && cfg.path * p.all == {}
                  && m == Move(cfg.kingFrom, cfg.kingTo, Castle)
  }

  /** A knight, king or slider move: a normal move of another piece onto a square not of its side. */
  predicate PieceShape(p: Position, m: Move)
  {
    exists pt :: pt != Pawn && m.from in Pieces(p, p.sideToMove, pt) && m.kind == Normal && m.to !in Occupancy(p, p.sideToMove)
  }

  /** Every pseudo-legal move has one of the three shapes. */
  lemma GeneratedShape(p: Position, m: Move)
    requires CanGenerate(p) && m in PseudoLegal(p)
    ensures PawnMoveShape(p, m) || CastleShape(p, m) || PieceShape(p, m)
  {
    var us := p.sideToMove;
    if m in PawnMoves(p, Pieces(p, us, Pawn)) {
      assert m in PawnMovesOf(p, m.from);
      if m.kind != EnPassant && m in PawnPushes(p, m.from) {
        assert m.to !in p.all;
      }
    } else if m in CastlingMoves(p) {
      var cfg :| cfg in ConfigsOf(us) && CastleAllowed(p, cfg) && m == Move(cfg.kingFrom, cfg.kingTo, Castle);
    } else if m in LeaperMoves(p, Knight, Pieces(p, us, Knight)) {
      assert m.from in Pieces(p, us, Knight);
    } else if m in LeaperMoves(p, King, Pieces(p, us, King)) {
      assert m.from in Pieces(p, us, King);
    } else if m in SliderMoves(p, Bishop, Pieces(p, us, Bishop)) {
      assert m.from in Pieces(p, us, Bishop);
    } else if m in SliderMoves(p, Rook, Pieces(p, us, Rook)) {
      assert m.from in Pieces(p, us, Rook);
    } else {
      assert m.from in Pieces(p, us, Queen);
    }
  }

  /** The castling configurations put the king's destination and the rook's landing square on the path that must be empty. */
  lemma ConfigGeometry(cfg: CastlingConfig)
    requires cfg in CASTLING_CONFIGS
    ensures CastleTarget(cfg.kingTo)
    ensures cfg.kingTo in cfg.path && RookTo(cfg.kingTo) in cfg.path
    ensures cfg.kingFrom != RookFrom(cfg.kingTo) && cfg.kingFrom != RookTo(cfg.kingTo)
    ensures cfg.kingFrom == (if Owner(cfg) == White then 4 else 60)
    ensures Rank(RookFrom(cfg.kingTo)) == Rank(cfg.kingFrom) && Rank(RookTo(cfg.kingTo)) == Rank(cfg.kingFrom)
    ensures Rank(cfg.kingTo) == Rank(cfg.kingFrom) && Rank(cfg.kingFrom) == (if Owner(cfg) == White then 0 else 7)
  {
  }

  /** A generated pawn move fits the mailbox; en passant finds the enemy pawn the en-passant square promises. */
  lemma PawnMoveFits(p: Position, m: Move)
    requires Sound(p) && EpSound(p) && PawnMoveShape(p, m)
    ensures MoveFits(MailboxOf(p), m, p.sideToMove)
  {
    var us := p.sideToMove;
    SquareReading(p, m.from);
    SquareReading(p, m.to);
    PawnAttackGeometry(us, m.from, m.to);
  }

  /** A castle allowed by a truthful right fits the mailbox: king at home, rook in the corner, both landing squares empty. */
  lemma CastleFits(p: Position, m: Move)
    requires Sound(p) && CastlingSound(p) && CastleShape(p, m)
    ensures MoveFits(MailboxOf(p), m, p.sideToMove)
  {
    var us := p.sideToMove;
    var cfg :| cfg in ConfigsOf(us) && p.castling & cfg.right != 0 && cfg.path * p.all == {}
               && m == Move(cfg.kingFrom, cfg.kingTo, Castle);
    ConfigGeometry(cfg);
    SquareReading(p, m.to);
    SquareReading(p, RookTo(m.to));
    assert m.to !in cfg.path * p.all && RookTo(m.to) !in cfg.path * p.all;
  }

  /** A normal move of a non-pawn onto a square not of its side fits the mailbox. */
  lemma PieceMoveFits(p: Position, m: Move)
    requires Sound(p) && PieceShape(p, m)
    ensures MoveFits(MailboxOf(p), m, p.sideToMove)
  {
    var us := p.sideToMove;
    var pt :| pt != Pawn && m.from in Pieces(p, us, pt) && m.kind == Normal && m.to !in Occupancy(p, us);
    SquareReading(p, m.from);
    SquareReading(p, m.to);
  }

  /**
   * On a coherent position every pseudo-legal move moves a piece of the side
   * to move onto a square not of that side; an en-passant capture finds the
   * enemy pawn behind its destination; a castle finds its rook in the corner
   * and the rook's landing square empty.
   */
  lemma GeneratedMoveFits(p: Position, m: Move)
    requires Coherent(p) && CanGenerate(p) && m in PseudoLegal(p)
    ensures MoveFits(MailboxOf(p), m, p.sideToMove)
  {
    GeneratedShape(p, m);
    if PawnMoveShape(p, m) {
      PawnMoveFits(p, m);
    } else if CastleShape(p, m) {
      CastleFits(p, m);
    } else {
      PieceMoveFits(p, m);
    }
  }

  // ---------------------------------------------------------------------------
  // The invariant is kept
  // ---------------------------------------------------------------------------

  /** One of the three shapes of a generated move. */
  predicate Shaped(p: Position, m: Move)
  {
    PawnMoveShape(p, m) || CastleShape(p, m) || PieceShape(p, m)
  }

  /** The mailbox move leaves every square it does not touch as it was. */
  lemma Untouched(mb: Mailbox, m: Move, us: Color, sq: Square)
    requires MoveFits(mb, m, us)
    requires sq != m.from && sq != m.to
    requires m.kind == EnPassant ==> sq != EpVictim(us, m.to)
    requires m.kind == Castle ==> sq != RookFrom(m.to) && sq != RookTo(m.to)
    ensures MailboxMove(mb, m, us)[sq] == mb[sq]
  {
  }

  /** A castling right that survives a move was held before, and the move touched neither its king nor its rook square. */
  lemma RightSurvives(p: Position, m: Move, cfg: CastlingConfig)
    requires Applicable(p, m) && cfg in CASTLING_CONFIGS
    requires Apply(p, m).castling & cfg.right != 0
    ensures CastleTarget(cfg.kingTo)
    ensures p.castling & cfg.right != 0
    ensures m.from != cfg.kingFrom && m.from != RookFrom(cfg.kingTo)
    ensures m.to != cfg.kingFrom && m.to != RookFrom(cfg.kingTo)
  {
    ApplyCastlingRights(p, m);
  }

  /** The squares a generated move touches besides its own two: the en-passant victim on the fourth or fifth rank, the castling rook on the mover's back rank. */
  lemma SideSquares(p: Position, m: Move)
    requires EpSound(p) && Shaped(p, m)
    ensures m.kind == EnPassant ==>
              (if p.sideToMove == White then m.to >= 8 else m.to < 56)
              && Rank(m.to) == (if p.sideToMove == White then 5 else 2)
              && Rank(EpVictim(p.sideToMove, m.to)) == (if p.sideToMove == White then 4 else 3)
    ensures m.kind == Castle ==>
              CastleTarget(m.to) && Rank(m.to) == Rank(m.from) && Rank(m.from) == (if p.sideToMove == White then 0 else 7)
              && Rank(RookFrom(m.to)) == Rank(m.from) && Rank(RookTo(m.to)) == Rank(m.from)
  {
    if m.kind == Castle {
      var cfg :| cfg in ConfigsOf(p.sideToMove) && p.castling & cfg.right != 0 && cfg.path * p.all == {}
                 && m == Move(cfg.kingFrom, cfg.kingTo, Castle);
      ConfigGeometry(cfg);
    }
  }

  /** Castling rights stay truthful: the squares of a surviving right are untouched by a generated move. */
  lemma CastlingStaysSound(p: Position, m: Move)
    requires CastlingSound(p) && EpSound(p) && Shaped(p, m)
    requires MoveFits(MailboxOf(p), m, p.sideToMove)
    requires Applicable(p, m) && MailboxOf(Apply(p, m)) == MailboxMove(MailboxOf(p), m, p.sideToMove)
    ensures CastlingSound(Apply(p, m))
  {
    forall cfg | cfg in CASTLING_CONFIGS && Apply(p, m).castling & cfg.right != 0
      ensures CastleTarget(cfg.kingTo)
      ensures PieceAt(Apply(p, m), cfg.kingFrom) == Some(Piece(King, Owner(cfg)))
      ensures PieceAt(Apply(p, m), RookFrom(cfg.kingTo)) == Some(Piece(Rook, Owner(cfg)))
    {
      ConfigStaysSound(p, m, cfg);
    }
  }

  /** One surviving right of `CastlingStaysSound`: its king and rook are still in place. */
  lemma ConfigStaysSound(p: Position, m: Move, cfg: CastlingConfig)
    requires CastlingSound(p) && EpSound(p) && Shaped(p, m)
    requires MoveFits(MailboxOf(p), m, p.sideToMove)
    requires Applicable(p, m) && MailboxOf(Apply(p, m)) == MailboxMove(MailboxOf(p), m, p.sideToMove)
    requires cfg in CASTLING_CONFIGS && Apply(p, m).castling & cfg.right != 0
    ensures CastleTarget(cfg.kingTo)
    ensures PieceAt(Apply(p, m), cfg.kingFrom) == Some(Piece(King, Owner(cfg)))
    ensures PieceAt(Apply(p, m), RookFrom(cfg.kingTo)) == Some(Piece(Rook, Owner(cfg)))
  {
    var us, mb := p.sideToMove, MailboxOf(p);
    SideSquares(p, m);
    RightSurvives(p, m, cfg);
    ConfigGeometry(cfg);
    if m.kind == Castle {
      var own :| own in ConfigsOf(us) && p.castling & own.right != 0 && own.path * p.all == {}
                 && m == Move(own.kingFrom, own.kingTo, Castle);
      ConfigGeometry(own);
    }
    Untouched(mb, m, us, cfg.kingFrom);
    Untouched(mb, m, us, RookFrom(cfg.kingTo));
  }

  /** A generated move that sets the en-passant square is a pawn's double push over an empty square. */
  lemma DoublePushShape(p: Position, m: Move)
    requires Sound(p) && Shaped(p, m) && Applicable(p, m)
    requires DoublePush(m, PieceTypeAt(p, m.from, p.sideToMove).value)
    ensures m.kind == Normal && m.from in Pieces(p, p.sideToMove, Pawn)
    ensures Rank(m.from) == StartRank(p.sideToMove) && Ahead(p.sideToMove, m.from) !in p.all
    ensures m.to == Ahead(p.sideToMove, Ahead(p.sideToMove, m.from))
  {
    var us := p.sideToMove;
    SquareReading(p, m.from);
    TypeAtRepresented(p, MailboxOf(p), m.from, us);
    PawnAttackGeometry(us, m.from, m.to);
    if CastleShape(p, m) {
      var cfg :| cfg in ConfigsOf(us) && p.castling & cfg.right != 0 && cfg.path * p.all == {}
                 && m == Move(cfg.kingFrom, cfg.kingTo, Castle);
      ConfigGeometry(cfg);
    }
  }

  /** After a generated move the en-passant square is set only by a double push, over the square it crossed. */
  lemma EpStaysSound(p: Position, m: Move)
    requires Sound(p) && Shaped(p, m)
    requires MoveFits(MailboxOf(p), m, p.sideToMove)
    requires Applicable(p, m) && MailboxOf(Apply(p, m)) == MailboxMove(MailboxOf(p), m, p.sideToMove)
    ensures EpSound(Apply(p, m))
  {
    var us, mb, q := p.sideToMove, MailboxOf(p), Apply(p, m);
    if q.enPassant.Some? {
      DoublePushShape(p, m);
      var mid := Ahead(us, m.from);
      assert q.enPassant.value == mid;
      SquareReading(p, mid);
      Untouched(mb, m, us, mid);
      assert EpVictim(Opposite(us), mid) == m.to;
    }
  }

  /** Castling leaves its rook squares empty or holding the mover's rook. */
  lemma CastleRookCells(mb: Mailbox, m: Move, us: Color, sq: Square)
    requires MoveFits(mb, m, us) && m.kind == Castle && (sq == RookFrom(m.to) || sq == RookTo(m.to))
    ensures MailboxMove(mb, m, us)[sq] == None || MailboxMove(mb, m, us)[sq] == Some(Piece(Rook, us))
  {
  }

  /** No pawn lands on its last rank: the destination holds a promoted piece there, and the other changed squares hold no pawn. */
  lemma NoPawnOnLastRank(p: Position, m: Move, c: Color)
    requires Sound(p) && EpSound(p) && Shaped(p, m) && PawnsBehindLastRank(p, c)
    requires MoveFits(MailboxOf(p), m, p.sideToMove)
    ensures forall sq: Square :: MailboxMove(MailboxOf(p), m, p.sideToMove)[sq] == Some(Piece(Pawn, c)) ==> Rank(sq) != PromoRank(c)
  {
    var us, mb := p.sideToMove, MailboxOf(p);
    var after := MailboxMove(mb, m, us);
    SideSquares(p, m);
    SquareReading(p, m.from);
    forall sq: Square
      ensures after[sq] == Some(Piece(Pawn, c)) ==> Rank(sq) != PromoRank(c)
    {
      if sq == m.to {
        if m.kind == Castle {
          assert Rank(m.to) != PromoRank(us);
        } else if m.kind == EnPassant {
          assert Rank(m.to) != PromoRank(us);
        } else if PawnMoveShape(p, m) {
          assert m.kind.Promotion? || Rank(m.to) != PromoRank(us);
        } else {
          assert mb[m.from].value.pieceType != Pawn;
        }
      } else if m.kind == Castle && (sq == RookFrom(m.to) || sq == RookTo(m.to)) {
        CastleRookCells(mb, m, us, sq);
      } else if m.kind == EnPassant && sq == EpVictim(us, m.to) {
        assert after[sq] == None;
      } else if sq != m.from {
        Untouched(mb, m, us, sq);
        SquareReading(p, sq);
        assert after[sq] == Some(Piece(Pawn, c)) ==> Rank(sq) != PromoRank(c);
      } else {
        assert after[sq] == None;
      }
    }
  }

  /** Pawns stay off their last rank after a generated move. */
  lemma PawnsStayBehind(p: Position, m: Move, c: Color)
    requires Sound(p) && EpSound(p) && Shaped(p, m) && PawnsBehindLastRank(p, c)
    requires MoveFits(MailboxOf(p), m, p.sideToMove)
    requires Applicable(p, m) && Sound(Apply(p, m))
    requires MailboxOf(Apply(p, m)) == MailboxMove(MailboxOf(p), m, p.sideToMove)
    ensures PawnsBehindLastRank(Apply(p, m), c)
  {
    var q := Apply(p, m);
    NoPawnOnLastRank(p, m, c);
    forall sq | sq in Pieces(q, c, Pawn)
      ensures Rank(sq) != PromoRank(c)
    {
      SquareReading(q, sq);
    }
  }

  /**
   * The invariant of play is kept: applying any pseudo-legal move to a
   * coherent position whose side to move has a king gives a coherent
   * position whose squares hold what the plain mailbox move puts there.
   */
  lemma PseudoLegalKeepsCoherent(p: Position, m: Move)
    requires Coherent(p) && HasKing(p, p.sideToMove)
    requires m in PseudoLegal(p)
    ensures Applicable(p, m) && MoveFits(MailboxOf(p), m, p.sideToMove)
    ensures MailboxOf(Apply(p, m)) == MailboxMove(MailboxOf(p), m, p.sideToMove)
    ensures Coherent(Apply(p, m))
  {
    GeneratedShape(p, m);
    GeneratedMoveFits(p, m);
    ApplyRefinesMailbox(p, m);
    CastlingStaysSound(p, m);
    EpStaysSound(p, m);
    PawnsStayBehind(p, m, White);
    PawnsStayBehind(p, m, Black);
  }
}
