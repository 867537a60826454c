/**
 * A chess position as the engine stores it: twelve piece bitboards (six per
 * colour), the two colour occupancies, their union, the side to move, the
 * castling bitfield, the en-passant target and the two clocks. The functions
 * here are the read-only queries of `Board` (`piece_at`, `piece_type_at`,
 * `king_square`, `is_attacked`, `is_in_check`) and `apply_unchecked` as a
 * function from position to position, written as the same sequence of
 * bitboard updates.
 *
 * The partner of the bitboard position is the mailbox: one optional piece per
 * square. A position is sound when its bitboards are exactly those of some
 * mailbox; `apply_unchecked` is proved to act on a sound position as the
 * plain move of a piece on the mailbox (`ApplyRefinesMailbox`).
 */
module Positions {
  import opened Wrappers
  import opened Types
  import opened Bitboards
  import opened Attacks

  /** One colour's six bitboards, indexed by `pt as usize`. */
  type PieceBoards = s: seq<Bitboard> | |s| == 6 witness [{}, {}, {}, {}, {}, {}]

  /** `pieces: [[u64; 6]; 2]`, indexed by colour then piece type. */
  type PiecesByColor = s: seq<PieceBoards> | |s| == 2 witness [NO_PIECES, NO_PIECES]

  /** Six empty bitboards. */
  const NO_PIECES: PieceBoards := [{}, {}, {}, {}, {}, {}]

  /** `occupancy: [u64; 2]`, indexed by colour. */
  type ColorPair = s: seq<Bitboard> | |s| == 2 witness [{}, {}]

  /** The fields of `Board`. */
  datatype Position = Position(
    pieces: PiecesByColor,
    occupancy: ColorPair,
    all: Bitboard,
    sideToMove: Color,
    castling: bv8,
    enPassant: Option<Square>,
    halfmoveClock: U16,
    fullmoveNumber: U16)

  /** `pieces[c.index()][pt as usize]`. */
  function Pieces(p: Position, c: Color, pt: PieceType): Bitboard
  {
    p.pieces[ColorIndex(c)][TypeIndex(pt)]
  }

  /** `occupancy[c.index()]`. */
  function Occupancy(p: Position, c: Color): Bitboard
  {
    p.occupancy[ColorIndex(c)]
  }

  // ---------------------------------------------------------------------------
  // Queries
  // ---------------------------------------------------------------------------

  /** The first of `ALL[i..]` whose `c` bitboard holds `sq`. */
  function FirstTypeFrom(p: Position, sq: Square, c: Color, i: int): (r: Option<PieceType>)
    requires 0 <= i <= 6
    ensures r.Some? ==> i <= TypeIndex(r.value) && sq in Pieces(p, c, r.value)
    ensures r.Some? ==> forall j :: i <= j < TypeIndex(r.value) ==> sq !in Pieces(p, c, ALL[j])
    ensures r.None? ==> forall j :: i <= j < 6 ==> sq !in Pieces(p, c, ALL[j])
    decreases 6 - i
  {
    if i == 6 then None
    else if sq in Pieces(p, c, ALL[i]) then Some(ALL[i])
    else FirstTypeFrom(p, sq, c, i + 1)
  }

  /** `piece_type_at`: the first type in `ALL` order whose `c` bitboard holds `sq`. */
  function PieceTypeAt(p: Position, sq: Square, c: Color): (r: Option<PieceType>)
  {
    FirstTypeFrom(p, sq, c, 0)
  }

  /** `piece_type_at` finds a type exactly when one of the colour's bitboards holds the square, and no earlier type holds it. */
  lemma PieceTypeAtSpec(p: Position, sq: Square, c: Color)
    ensures PieceTypeAt(p, sq, c).None? <==> forall pt :: sq !in Pieces(p, c, pt)
    ensures PieceTypeAt(p, sq, c).Some? ==>
              var pt := PieceTypeAt(p, sq, c).value;
              sq in Pieces(p, c, pt) && forall q :: TypeIndex(q) < TypeIndex(pt) ==> sq !in Pieces(p, c, q)
  {
    var r := PieceTypeAt(p, sq, c);
    if r.None? {
      forall pt
        ensures sq !in Pieces(p, c, pt)
      {
        assert ALL[TypeIndex(pt)] == pt;
      }
    } else {
      forall q | TypeIndex(q) < TypeIndex(r.value)
        ensures sq !in Pieces(p, c, q)
      {
        assert ALL[TypeIndex(q)] == q;
      }
    }
  }

  /**
   * `piece_at`: White is looked at first, then Black; a colour counts when its
   * occupancy holds the square and one of its bitboards does too.
   */
  function PieceAt(p: Position, sq: Square): (r: Option<Piece>)
  {
    if sq in Occupancy(p, White) && PieceTypeAt(p, sq, White).Some? then Some(Piece(PieceTypeAt(p, sq, White).value, White))
    else if sq in Occupancy(p, Black) && PieceTypeAt(p, sq, Black).Some? then Some(Piece(PieceTypeAt(p, sq, Black).value, Black))
    else None
  }

  /** The colour has a king (`king_square` needs one). */
  predicate HasKing(p: Position, c: Color)
  {
    Pieces(p, c, King) != {}
  }

  /** `king_square`: the lowest square of the colour's king bitboard. */
  function KingSquare(p: Position, c: Color): (sq: Square)
    requires HasKing(p, c)
    ensures sq in Pieces(p, c, King)
  {
    Lsb(Pieces(p, c, King))
  }

  /** `ray_hits` on the position's occupancy. */
  predicate Hits(p: Position, sq: Square, d: Direction, targets: Bitboard)
  {
    RayHits(sq, d, targets, p.all)
  }

  /** The diagonal directions `is_attacked` looks along for bishops and queens. */
  const DIAGONALS: seq<Direction> := [1, 3, 5, 7]

  /** The straight directions it looks along for rooks and queens. */
  const STRAIGHTS: seq<Direction> := [0, 2, 4, 6]

  /** Some direction of `dirs` hits one of `targets` first: the `for dir in dirs` loops of `is_attacked`. */
  predicate AnyHits(p: Position, sq: Square, dirs: seq<Direction>, targets: Bitboard)
    decreases |dirs|
  {
    dirs != [] && (Hits(p, sq, dirs[0], targets) || AnyHits(p, sq, dirs[1..], targets))
  }

  /**
   * `is_attacked`: a knight, king or pawn of `attacker` sits on a table square of
   * `sq` (the pawn table read from the defender's side), or the first
   * occupied square along a diagonal holds a bishop or queen of `attacker`, or along
   * a straight line a rook or queen.
   */
  predicate IsAttacked(p: Position, sq: Square, attacker: Color)
  {
    var diagonal := Pieces(p, attacker, Bishop) + Pieces(p, attacker, Queen);
    var straight := Pieces(p, attacker, Rook) + Pieces(p, attacker, Queen);
    KnightAttacks(sq) * Pieces(p, attacker, Knight) != {}
    || KingAttacks(sq) * Pieces(p, attacker, King) != {}
    || PawnAttacks(Opposite(attacker), sq) * Pieces(p, attacker, Pawn) != {}
    || AnyHits(p, sq, DIAGONALS, diagonal)
    || AnyHits(p, sq, STRAIGHTS, straight)
  }

  /** `is_in_check`: the colour's king square is attacked by the other colour. */
  predicate IsInCheck(p: Position, c: Color)
    requires HasKing(p, c)
  {
    IsAttacked(p, KingSquare(p, c), Opposite(c))
  }

  // ---------------------------------------------------------------------------
  // apply_unchecked
  // ---------------------------------------------------------------------------

  /** `pieces[c][pt] ^= bb`. */
  function TogglePieces(p: Position, c: Color, pt: PieceType, bb: Bitboard): (q: Position)
    ensures forall c', pt' :: Pieces(q, c', pt') == if c' == c && pt' == pt then Xor(Pieces(p, c, pt), bb) else Pieces(p, c', pt')
  {
    var ci, ti := ColorIndex(c), TypeIndex(pt);
    p.(pieces := p.pieces[ci := p.pieces[ci][ti := Xor(p.pieces[ci][ti], bb)]])
  }

  /** `occupancy[c] ^= bb`. */
  function ToggleOccupancy(p: Position, c: Color, bb: Bitboard): (q: Position)
    ensures forall c' :: Occupancy(q, c') == if c' == c then Xor(Occupancy(p, c), bb) else Occupancy(p, c')
  {
    var ci := ColorIndex(c);
    p.(occupancy := p.occupancy[ci := Xor(p.occupancy[ci], bb)])
  }

  /** `pieces[c][pt] |= bit(sq)` and `occupancy[c] |= bit(sq)`. */
  function Place(p: Position, c: Color, pt: PieceType, sq: Square): (q: Position)
    ensures forall c', pt' :: Pieces(q, c', pt') == if c' == c && pt' == pt then Pieces(p, c, pt) + {sq} else Pieces(p, c', pt')
    ensures forall c' :: Occupancy(q, c') == if c' == c then Occupancy(p, c) + {sq} else Occupancy(p, c')
  {
    var ci, ti := ColorIndex(c), TypeIndex(pt);
    p.(pieces := p.pieces[ci := p.pieces[ci][ti := p.pieces[ci][ti] + {sq}]],
       occupancy := p.occupancy[ci := p.occupancy[ci] + {sq}])
  }

  /** `pieces[c][pt] ^= bb` together with `occupancy[c] ^= bb`. */
  function Toggle(p: Position, c: Color, pt: PieceType, bb: Bitboard): Position
  {
    ToggleOccupancy(TogglePieces(p, c, pt, bb), c, bb)
  }

  /** Capture at the destination: when `them` occupies `to`, clear its bitboard there (if any holds it) and its occupancy. */
  function CaptureAt(p: Position, them: Color, to: Square): Position
  {
    if to in Occupancy(p, them) then
      var cleared := match PieceTypeAt(p, to, them)
                     case Some(captured) => TogglePieces(p, them, captured, {to})
                     case None => p;
      ToggleOccupancy(cleared, them, {to})
    else p
  }

  /** The square of the pawn an en-passant capture by `us` to `to` removes: one rank behind `to`. */
  function EpVictim(us: Color, to: Square): (sq: Square)
    requires us == White ==> to >= 8
    requires us == Black ==> to < 56
    ensures File(sq) == File(to)
    ensures Rank(sq) == Rank(to) + (if us == White then -1 else 1)
  {
    if us == White then to - 8 else to + 8
  }

  /** The en-passant capture: an en-passant move removes the enemy pawn behind the destination. */
  function TakeEnPassant(p: Position, m: Move, us: Color): Position
    requires m.kind == EnPassant ==> (if us == White then m.to >= 8 else m.to < 56)
  {
    if m.kind == EnPassant then Toggle(p, Opposite(us), Pawn, {EpVictim(us, m.to)}) else p
  }

  /** The four castling destinations of the king. */
  predicate CastleTarget(to: Square)
  {
    to == 6 || to == 2 || to == 62 || to == 58
  }

  /** The rook's corner for a castling destination: h1, a1, h8, a8. */
  function RookFrom(to: Square): Square
    requires CastleTarget(to)
  {
    match to
    case 6 => 7
    case 2 => 0
    case 62 => 63
    case 58 => 56
  }

  /** Where the rook lands: f1, d1, f8, d8. */
  function RookTo(to: Square): Square
    requires CastleTarget(to)
  {
    match to
    case 6 => 5
    case 2 => 3
    case 62 => 61
    case 58 => 59
  }

  /** The rook movement for castling: the rook leaves its corner for its landing square. */
  function MoveRook(p: Position, m: Move, us: Color): Position
    requires m.kind == Castle ==> CastleTarget(m.to)
  {
    if m.kind == Castle then Toggle(p, us, Rook, {RookFrom(m.to), RookTo(m.to)}) else p
  }

  /** What the destination receives: the promotion piece, or the moving piece. */
  function PlacedType(m: Move, moving: PieceType): PieceType
  {
    match m.kind
    case Promotion(pt) => pt
    case _ => moving
  }

  /**
   * What `apply_unchecked` needs to run without panicking: a piece of the side
   * to move on the from-square (`expect`), an en-passant victim square on the
   * board (`from_index`), and a castling destination the rook table knows
   * (`unreachable!`).
   */
  predicate Applicable(p: Position, m: Move)
  {
    PieceTypeAt(p, m.from, p.sideToMove).Some?
    && (m.kind == EnPassant ==> (if p.sideToMove == White then m.to >= 8 else m.to < 56))
    && (m.kind == Castle ==> CastleTarget(m.to))
  }

  /** The double pawn push that sets the en-passant square: from rank index 1 to 3, or from 6 to 4. */
  predicate DoublePush(m: Move, moving: PieceType)
  {
    moving == Pawn && ((Rank(m.from) == 1 && Rank(m.to) == 3) || (Rank(m.from) == 6 && Rank(m.to) == 4))
  }

  /** `u16 + 1` as the release build computes it: wrapping at 65536. */
  function WrappingInc(x: U16): (y: U16)
    ensures y == (x + 1) % 0x1_0000
  {
    if x == 0xFFFF then 0 else x + 1
  }

  /** `u16::saturating_add(1)`. */
  function SaturatingInc(x: U16): (y: U16)
    ensures x < 0xFFFF ==> y == x + 1
    ensures x == 0xFFFF ==> y == x
  {
    if x == 0xFFFF then x else x + 1
  }

  /** The piece bitboards and occupancies after the move, before `all` and the other fields are updated. */
  function MoveBoards(p: Position, m: Move): Position
    requires Applicable(p, m)
  {
    var us := p.sideToMove;
    var moving := PieceTypeAt(p, m.from, us).value;
    var lifted := Toggle(p, us, moving, {m.from});
    var captured := CaptureAt(lifted, Opposite(us), m.to);
    var passed := TakeEnPassant(captured, m, us);
    var placed := Place(passed, us, PlacedType(m, moving), m.to);
    MoveRook(placed, m, us)
  }

  /**
   * `apply_unchecked`: move the piece (capturing, taking en passant,
   * promoting, moving the castling rook), then set the en-passant square,
   * clear the castling rights of both squares, recompute `all`, update the
   * halfmove clock from the capture seen before the move, flip the side and
   * count a full move after Black's.
   */
  function Apply(p: Position, m: Move): (q: Position)
    requires Applicable(p, m)
    ensures q.sideToMove == Opposite(p.sideToMove)
    ensures q.all == Occupancy(q, White) + Occupancy(q, Black)
    ensures q.fullmoveNumber == if p.sideToMove == Black then SaturatingInc(p.fullmoveNumber) else p.fullmoveNumber
    ensures q.halfmoveClock == 0 <==>
              PieceTypeAt(p, m.from, p.sideToMove) == Some(Pawn) || m.to in Occupancy(p, Opposite(p.sideToMove))
              || m.kind == EnPassant || p.halfmoveClock == 0xFFFF
    ensures q.halfmoveClock != 0 ==> q.halfmoveClock == p.halfmoveClock + 1
    ensures q.enPassant.Some? <==> DoublePush(m, PieceTypeAt(p, m.from, p.sideToMove).value)
    ensures q.enPassant.Some? ==> q.enPassant.value == (m.from + m.to) / 2
  {
    Finish(p, m, MoveBoards(p, m))
  }

  /** The fields `apply_unchecked` sets after moving the pieces, on top of the moved `boards`. */
  function Finish(p: Position, m: Move, boards: Position): Position
    requires Applicable(p, m)
  {
    var us := p.sideToMove;
    var moving := PieceTypeAt(p, m.from, us).value;
    var isCapture := m.to in Occupancy(p, Opposite(us)) || m.kind == EnPassant;
    boards.(
      all := Occupancy(boards, White) + Occupancy(boards, Black),
      sideToMove := Opposite(us),
      castling := p.castling & !MaskForSquare(m.from) & !MaskForSquare(m.to),
      enPassant := if DoublePush(m, moving) then Some((m.from + m.to) / 2) else None,
      halfmoveClock := if moving == Pawn || isCapture then 0 else WrappingInc(p.halfmoveClock),
      fullmoveNumber := if us == Black then SaturatingInc(p.fullmoveNumber) else p.fullmoveNumber)
  }

  /**
   * The castling rights after a move: a right survives exactly when it was
   * held and neither the from- nor the to-square is one of its king or rook
   * squares (e1/h1 for White kingside, e1/a1 queenside, e8/h8 and e8/a8 for
   * Black). No right is ever gained.
   */
  lemma ApplyCastlingRights(p: Position, m: Move)
    requires Applicable(p, m)
    ensures Apply(p, m).castling & !p.castling == 0
    ensures Apply(p, m).castling & WK != 0 <==> p.castling & WK != 0 && m.from !in {4, 7} && m.to !in {4, 7}
    ensures Apply(p, m).castling & WQ != 0 <==> p.castling & WQ != 0 && m.from !in {4, 0} && m.to !in {4, 0}
    ensures Apply(p, m).castling & BK != 0 <==> p.castling & BK != 0 && m.from !in {60, 63} && m.to !in {60, 63}
    ensures Apply(p, m).castling & BQ != 0 <==> p.castling & BQ != 0 && m.from !in {60, 56} && m.to !in {60, 56}
  {
    assert Apply(p, m).castling == p.castling & !MaskForSquare(m.from) & !MaskForSquare(m.to);
    ClearTwoSquares(p.castling, m.from, m.to);
  }

  /** Clearing the masks of two squares from a rights byte, right by right. */
  lemma ClearTwoSquares(rights: bv8, from: Square, to: Square)
    ensures rights & !MaskForSquare(from) & !MaskForSquare(to) & !rights == 0
    ensures rights & !MaskForSquare(from) & !MaskForSquare(to) & WK != 0 <==> rights & WK != 0 && from !in {4, 7} && to !in {4, 7}
    ensures rights & !MaskForSquare(from) & !MaskForSquare(to) & WQ != 0 <==> rights & WQ != 0 && from !in {4, 0} && to !in {4, 0}
    ensures rights & !MaskForSquare(from) & !MaskForSquare(to) & BK != 0 <==> rights & BK != 0 && from !in {60, 63} && to !in {60, 63}
    ensures rights & !MaskForSquare(from) & !MaskForSquare(to) & BQ != 0 <==> rights & BQ != 0 && from !in {60, 56} && to !in {60, 56}
  {
    var once := rights & !MaskForSquare(from);
    ClearRemovesOnlyMasked(rights, MaskForSquare(from), WK);
    ClearRemovesOnlyMasked(once, MaskForSquare(to), WK);
    ClearRemovesOnlyMasked(rights, MaskForSquare(from), WQ);
    ClearRemovesOnlyMasked(once, MaskForSquare(to), WQ);
    ClearRemovesOnlyMasked(rights, MaskForSquare(from), BK);
    ClearRemovesOnlyMasked(once, MaskForSquare(to), BK);
    ClearRemovesOnlyMasked(rights, MaskForSquare(from), BQ);
    ClearRemovesOnlyMasked(once, MaskForSquare(to), BQ);
  }

  // ---------------------------------------------------------------------------
  // The mailbox view
  // ---------------------------------------------------------------------------

  /** One optional piece per square, the view the bots and FEN take. */
  type Mailbox = s: seq<Option<Piece>> | |s| == 64 witness EMPTY_MAILBOX

  const EMPTY_MAILBOX: seq<Option<Piece>> := seq(64, i => None)

  /** The bitboard of one colour and type in a mailbox. */
  function BoardOf(mb: Mailbox, c: Color, pt: PieceType): Bitboard
  {
    set sq: Square | 0 <= sq < 64 && mb[sq] == Some(Piece(pt, c))
  }

  /** The occupancy of one colour in a mailbox. */
  function OccupancyOf(mb: Mailbox, c: Color): Bitboard
  {
    set sq: Square | 0 <= sq < 64 && mb[sq].Some? && mb[sq].value.color == c
  }

  /** Every occupied square of a mailbox. */
  function AllOf(mb: Mailbox): Bitboard
  {
    set sq: Square | 0 <= sq < 64 && mb[sq].Some?
  }

  /** The position's piece bitboards and occupancies are exactly those of `mb`. */
  ghost predicate Represents(p: Position, mb: Mailbox)
  {
    (forall c, pt :: Pieces(p, c, pt) == BoardOf(mb, c, pt))
    && (forall c :: Occupancy(p, c) == OccupancyOf(mb, c))
  }

  /** `piece_at` on every square. */
  function MailboxOf(p: Position): (mb: Mailbox)
    ensures forall sq: Square :: mb[sq] == PieceAt(p, sq)
  {
    seq(64, i requires 0 <= i < 64 => PieceAt(p, i))
  }

  /**
   * The representation invariant: no square is in two piece bitboards, each
   * occupancy is the union of its colour's six bitboards and `all` is the
   * union of the two occupancies; that is, the bitboards are those of the
   * mailbox `piece_at` reads.
   */
  ghost predicate Sound(p: Position)
  {
    Represents(p, MailboxOf(p)) && p.all == AllOf(MailboxOf(p))
  }

  /** On a represented square `piece_type_at` finds the mailbox's piece when its colour matches and nothing otherwise. */
  lemma TypeAtRepresented(p: Position, mb: Mailbox, sq: Square, c: Color)
    requires Represents(p, mb)
    ensures PieceTypeAt(p, sq, c) == if mb[sq].Some? && mb[sq].value.color == c then Some(mb[sq].value.pieceType) else None
  {
    PieceTypeAtSpec(p, sq, c);
    if mb[sq].Some? && mb[sq].value.color == c {
      assert sq in BoardOf(mb, c, mb[sq].value.pieceType);
    }
  }

  /** `piece_at` reads back the mailbox a position represents. */
  lemma ReadBack(p: Position, mb: Mailbox)
    requires Represents(p, mb)
    ensures MailboxOf(p) == mb
  {
    forall sq: Square
      ensures PieceAt(p, sq) == mb[sq]
    {
      TypeAtRepresented(p, mb, sq, White);
      TypeAtRepresented(p, mb, sq, Black);
      assert sq in OccupancyOf(mb, White) <==> mb[sq].Some? && mb[sq].value.color == White;
      assert sq in OccupancyOf(mb, Black) <==> mb[sq].Some? && mb[sq].value.color == Black;
    }
  }

  /** A position that represents a mailbox and whose `all` is that mailbox's occupied squares is sound. */
  lemma SoundWhenRepresents(p: Position, mb: Mailbox)
    requires Represents(p, mb) && p.all == AllOf(mb)
    ensures Sound(p) && MailboxOf(p) == mb
  {
    ReadBack(p, mb);
  }

  lemma BoardOfUpdate(mb: Mailbox, sq: Square, v: Option<Piece>, c: Color, pt: PieceType)
    ensures BoardOf(mb[sq := v], c, pt) == (BoardOf(mb, c, pt) - {sq}) + (if v == Some(Piece(pt, c)) then {sq} else {})
  {
  }

  lemma OccupancyOfUpdate(mb: Mailbox, sq: Square, v: Option<Piece>, c: Color)
    ensures OccupancyOf(mb[sq := v], c) == (OccupancyOf(mb, c) - {sq}) + (if v.Some? && v.value.color == c then {sq} else {})
  {
  }

  /** `all` is the union of the two colours' occupancies. */
  lemma AllOfColors(mb: Mailbox)
    ensures AllOf(mb) == OccupancyOf(mb, White) + OccupancyOf(mb, Black)
  {
    forall sq | sq in AllOf(mb)
      ensures sq in OccupancyOf(mb, White) + OccupancyOf(mb, Black)
    {
      assert mb[sq].value.color == White || mb[sq].value.color == Black;
    }
  }

  /** Toggling a square in one bitboard and in the colour's occupancy is setting that square of the mailbox: emptying it when it held the piece, filling it when it was empty. */
  lemma ToggleStep(p: Position, mb: Mailbox, c: Color, pt: PieceType, sq: Square)
    requires Represents(p, mb)
    requires mb[sq] == Some(Piece(pt, c)) || mb[sq] == None
    ensures Represents(ToggleOccupancy(TogglePieces(p, c, pt, {sq}), c, {sq}),
                       mb[sq := if mb[sq] == None then Some(Piece(pt, c)) else None])
  {
    var v := if mb[sq] == None then Some(Piece(pt, c)) else None;
    var q := ToggleOccupancy(TogglePieces(p, c, pt, {sq}), c, {sq});
    forall c', pt'
      ensures Pieces(q, c', pt') == BoardOf(mb[sq := v], c', pt')
    {
      BoardOfUpdate(mb, sq, v, c', pt');
    }
    forall c'
      ensures Occupancy(q, c') == OccupancyOf(mb[sq := v], c')
    {
      OccupancyOfUpdate(mb, sq, v, c');
    }
  }

  /** Placing a piece on a square the mailbox has emptied fills it. */
  lemma PlaceStep(p: Position, mb: Mailbox, c: Color, pt: PieceType, sq: Square)
    requires Represents(p, mb)
    requires mb[sq] == None
    ensures Represents(Place(p, c, pt, sq), mb[sq := Some(Piece(pt, c))])
  {
    var v := Some(Piece(pt, c));
    forall c', pt'
      ensures Pieces(Place(p, c, pt, sq), c', pt') == BoardOf(mb[sq := v], c', pt')
    {
      BoardOfUpdate(mb, sq, v, c', pt');
    }
    forall c'
      ensures Occupancy(Place(p, c, pt, sq), c') == OccupancyOf(mb[sq := v], c')
    {
      OccupancyOfUpdate(mb, sq, v, c');
    }
  }

  /** The capture at the destination empties it when `them` held it, and changes nothing when the square was empty. */
  lemma CaptureStep(p: Position, mb: Mailbox, them: Color, sq: Square)
    requires Represents(p, mb)
    requires mb[sq].Some? ==> mb[sq].value.color == them
    ensures Represents(CaptureAt(p, them, sq), mb[sq := None])
  {
    if mb[sq].Some? {
      TypeAtRepresented(p, mb, sq, them);
      assert sq in OccupancyOf(mb, them);
      ToggleStep(p, mb, them, mb[sq].value.pieceType, sq);
    } else {
      assert sq !in OccupancyOf(mb, them);
      assert mb[sq := None] == mb;
    }
  }

  /**
   * When a move is an ordinary relocation on the mailbox: the mover is of the
   * side to move, the destination is not, an en-passant victim is an enemy
   * pawn and a castling rook stands on its corner with its landing square
   * empty.
   */
  predicate MoveFits(mb: Mailbox, m: Move, us: Color)
  {
    m.from != m.to
    && mb[m.from].Some? && mb[m.from].value.color == us
    && (mb[m.to].Some? ==> mb[m.to].value.color != us)
    && (m.kind == EnPassant ==>
          (if us == White then m.to >= 8 else m.to < 56)
          && EpVictim(us, m.to) != m.from && mb[EpVictim(us, m.to)] == Some(Piece(Pawn, Opposite(us))))
    && (m.kind == Castle ==>
          CastleTarget(m.to) && m.from != RookFrom(m.to) && m.from != RookTo(m.to)
          && mb[RookFrom(m.to)] == Some(Piece(Rook, us)) && mb[RookTo(m.to)] == None)
  }

  /**
   * The move on the mailbox: lift the mover, remove the pawn taken en
   * passant, put the mover (or its promotion) on the destination over
   * whatever stood there, and move the castling rook to its landing square.
   */
  function MailboxMove(mb: Mailbox, m: Move, us: Color): (r: Mailbox)
    requires MoveFits(mb, m, us)
    ensures r[m.from] == None && r[m.to] == Some(Piece(PlacedType(m, mb[m.from].value.pieceType), us))
  {
    var lifted := mb[m.from := None];
    var taken := if m.kind == EnPassant then lifted[EpVictim(us, m.to) := None] else lifted;
    var placed := taken[m.to := Some(Piece(PlacedType(m, mb[m.from].value.pieceType), us))];
    if m.kind == Castle then placed[RookFrom(m.to) := None][RookTo(m.to) := Some(Piece(Rook, us))] else placed
  }

  /** The en-passant stage on the mailbox. */
  function TakeEnPassantOf(mb: Mailbox, m: Move, us: Color): Mailbox
    requires m.kind == EnPassant ==> (if us == White then m.to >= 8 else m.to < 56)
  {
    if m.kind == EnPassant then mb[EpVictim(us, m.to) := None] else mb
  }

  /** The castling-rook stage on the mailbox. */
  function MoveRookOf(mb: Mailbox, m: Move, us: Color): Mailbox
    requires m.kind == Castle ==> CastleTarget(m.to)
  {
    if m.kind == Castle then mb[RookFrom(m.to) := None][RookTo(m.to) := Some(Piece(Rook, us))] else mb
  }

  lemma EnPassantStep(p: Position, mb: Mailbox, m: Move, us: Color)
    requires Represents(p, mb)
    requires m.kind == EnPassant ==>
               (if us == White then m.to >= 8 else m.to < 56) && mb[EpVictim(us, m.to)] == Some(Piece(Pawn, Opposite(us)))
    ensures Represents(TakeEnPassant(p, m, us), TakeEnPassantOf(mb, m, us))
  {
    if m.kind == EnPassant {
      ToggleStep(p, mb, Opposite(us), Pawn, EpVictim(us, m.to));
    }
  }

  lemma RookStep(p: Position, mb: Mailbox, m: Move, us: Color)
    requires Represents(p, mb)
    requires m.kind == Castle ==>
               CastleTarget(m.to) && mb[RookFrom(m.to)] == Some(Piece(Rook, us)) && mb[RookTo(m.to)] == None
    ensures Represents(MoveRook(p, m, us), MoveRookOf(mb, m, us))
  {
    if m.kind == Castle {
      var rf, rt := RookFrom(m.to), RookTo(m.to);
      var half := Toggle(p, us, Rook, {rf});
      ToggleStep(p, mb, us, Rook, rf);
      ToggleStep(half, mb[rf := None], us, Rook, rt);
      var twice, both := Toggle(half, us, Rook, {rt}), Toggle(p, us, Rook, {rf, rt});
      assert Xor(Xor(Pieces(p, us, Rook), {rf}), {rt}) == Xor(Pieces(p, us, Rook), {rf, rt});
      assert Xor(Xor(Occupancy(p, us), {rf}), {rt}) == Xor(Occupancy(p, us), {rf, rt});
      assert forall c, pt :: Pieces(twice, c, pt) == Pieces(both, c, pt);
      assert forall c :: Occupancy(twice, c) == Occupancy(both, c);
    }
  }

  /** Emptying the destination before the en-passant stage and then filling it is filling it. */
  lemma StagesAgree(mb: Mailbox, m: Move, us: Color)
    requires MoveFits(mb, m, us)
    ensures var lifted := mb[m.from := None];
            MoveRookOf(TakeEnPassantOf(lifted[m.to := None], m, us)[m.to := Some(Piece(PlacedType(m, mb[m.from].value.pieceType), us))], m, us)
            == MailboxMove(mb, m, us)
  {
    var lifted := mb[m.from := None];
    var v := Some(Piece(PlacedType(m, mb[m.from].value.pieceType), us));
    assert TakeEnPassantOf(lifted[m.to := None], m, us)[m.to := v] == TakeEnPassantOf(lifted, m, us)[m.to := v];
  }

  /** The bitboards after the move are those of the mailbox after the move. */
  lemma MoveBoardsRefine(p: Position, mb: Mailbox, m: Move)
    requires Represents(p, mb)
    requires MoveFits(mb, m, p.sideToMove)
    ensures Applicable(p, m)
    ensures Represents(MoveBoards(p, m), MailboxMove(mb, m, p.sideToMove))
  {
    var us := p.sideToMove;
    TypeAtRepresented(p, mb, m.from, us);
    var moving := mb[m.from].value.pieceType;
    var lifted := Toggle(p, us, moving, {m.from});
    ToggleStep(p, mb, us, moving, m.from);
    var mb1 := mb[m.from := None];
    var captured := CaptureAt(lifted, Opposite(us), m.to);
    CaptureStep(lifted, mb1, Opposite(us), m.to);
    var mb2 := mb1[m.to := None];
    var passed := TakeEnPassant(captured, m, us);
    EnPassantStep(captured, mb2, m, us);
    var mb3 := TakeEnPassantOf(mb2, m, us);
    var placed := Place(passed, us, PlacedType(m, moving), m.to);
    PlaceStep(passed, mb3, us, PlacedType(m, moving), m.to);
    var mb4 := mb3[m.to := Some(Piece(PlacedType(m, moving), us))];
    RookStep(placed, mb4, m, us);
    StagesAgree(mb, m, us);
  }

  /**
   * On a sound position, `apply_unchecked` of a move that fits the mailbox
   * runs without panicking, keeps the position sound, and leaves on every
   * square what the plain mailbox move leaves there.
   */
  lemma ApplyRefinesMailbox(p: Position, m: Move)
    requires Sound(p)
    requires MoveFits(MailboxOf(p), m, p.sideToMove)
    ensures Applicable(p, m)
    ensures Sound(Apply(p, m))
    ensures MailboxOf(Apply(p, m)) == MailboxMove(MailboxOf(p), m, p.sideToMove)
  {
    var mb := MailboxOf(p);
    MoveBoardsRefine(p, mb, m);
    var after := MailboxMove(mb, m, p.sideToMove);
    AllOfColors(after);
    SoundWhenRepresents(Apply(p, m), after);
  }
}
