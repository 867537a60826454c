/**
 * The chess engine's domain types: squares as `rank * 8 + file`, piece types
 * and colours, FEN piece characters, moves and their UCI text, the castling
 * rights bitfield and the game outcome.
 *
 * Text is a sequence of characters. The Rust code looks at bytes where it
 * measures lengths and subtracts `'a'`/`'1'`; on a multi-byte character the
 * lead byte fails the same range test that the character itself fails, and a
 * non-ASCII character always lengthens the byte count past the accepted
 * length, so the character-level checks below accept exactly the same strings.
 */
module Types {
  import opened Wrappers

  /** A `u16` value. */
  type U16 = x: int | 0 <= x < 0x1_0000

  // ---------------------------------------------------------------------------
  // Squares
  // ---------------------------------------------------------------------------

  /** A board index in 0..64: `rank * 8 + file`. */
  type Square = i: int | 0 <= i < 64

  /** `Square::rank`: 0 is rank 1. */
  function Rank(sq: Square): (r: int)
    ensures 0 <= r < 8
  {
    sq / 8
  }

  /** `Square::file`: 0 is file a. */
  function File(sq: Square): (f: int)
    ensures 0 <= f < 8
  {
    sq % 8
  }

  /** `Square::new`: the square on `file` and `rank`; both must be below 8 (the source asserts it). */
  function SquareNew(file: int, rank: int): Square
    requires 0 <= file < 8 && 0 <= rank < 8
  {
    rank * 8 + file
  }

  /** The square `Square::new` builds has the file and rank it was built from. */
  lemma SquareNewCoordinates(file: int, rank: int)
    requires 0 <= file < 8 && 0 <= rank < 8
    ensures File(SquareNew(file, rank)) == file && Rank(SquareNew(file, rank)) == rank
  {
  }

  /** `Square::from_index`: any index below 64 is a square, and it is the square of its own file and rank. */
  function FromIndex(i: int): (sq: Square)
    requires 0 <= i < 64
    ensures SquareNew(File(sq), Rank(sq)) == i
  {
    i
  }

  /** `Square::from_algebraic`: exactly two characters, a file letter a..h then a rank digit 1..8. */
  function FromAlgebraic(s: string): (r: Option<Square>)
    ensures r.Some? <==> |s| == 2 && 'a' <= s[0] <= 'h' && '1' <= s[1] <= '8'
    ensures r.Some? ==> File(r.value) == s[0] as int - 'a' as int && Rank(r.value) == s[1] as int - '1' as int
  {
    if |s| != 2 then None
    else
      var file := s[0] as int - 'a' as int;
      var rank := s[1] as int - '1' as int;
      if 0 <= file < 8 && 0 <= rank < 8 then Some(SquareNew(file, rank)) else None
  }

  /** `Display for Square`: the file letter followed by the rank digit. */
  function SquareName(sq: Square): (s: string)
    ensures |s| == 2 && 'a' <= s[0] <= 'h' && '1' <= s[1] <= '8'
  {
    [('a' as int + File(sq)) as char, ('1' as int + Rank(sq)) as char]
  }

  /** The name of a square is its file letter and its rank digit. */
  lemma NameOfCoordinates(file: int, rank: int)
    requires 0 <= file < 8 && 0 <= rank < 8
    ensures SquareName(SquareNew(file, rank)) == [('a' as int + file) as char, ('1' as int + rank) as char]
  {
  }

  /** Printing a square and parsing the text gives the square back. */
  lemma AlgebraicRoundTrip(sq: Square)
    ensures FromAlgebraic(SquareName(sq)) == Some(sq)
  {
    var r := FromAlgebraic(SquareName(sq));
    assert File(r.value) == File(sq) && Rank(r.value) == Rank(sq);
  }

  /** Conversely, every accepted text is the name of the square it parses to. */
  lemma AlgebraicRoundTripBack(s: string)
    requires FromAlgebraic(s).Some?
    ensures SquareName(FromAlgebraic(s).value) == s
  {
  }

  /** The rejected inputs of the unit tests. */
  lemma FromAlgebraicExamples()
    ensures FromAlgebraic("e4") == Some(28) && FromAlgebraic("a1") == Some(0) && FromAlgebraic("h8") == Some(63)
    ensures FromAlgebraic("") == None && FromAlgebraic("a") == None && FromAlgebraic("a0") == None
    ensures FromAlgebraic("a9") == None && FromAlgebraic("i1") == None && FromAlgebraic("e4x") == None
  {
  }

  // ---------------------------------------------------------------------------
  // Piece types, colours, pieces
  // ---------------------------------------------------------------------------

  datatype PieceType = Pawn | Knight | Bishop | Rook | Queen | King

  /** `PieceType::ALL`, pawn first and king last: the order in which squares are searched. */
  const ALL: seq<PieceType> := [Pawn, Knight, Bishop, Rook, Queen, King]

  /** `PieceType::PROMOTABLE`. */
  const PROMOTABLE: seq<PieceType> := [Queen, Rook, Bishop, Knight]

  /** `pt as usize`: the discriminant, which is also the position of `pt` in `ALL`. */
  function TypeIndex(pt: PieceType): (i: int)
    ensures 0 <= i < 6 && ALL[i] == pt
  {
    match pt
    case Pawn => 0
    case Knight => 1
    case Bishop => 2
    case Rook => 3
    case Queen => 4
    case King => 5
  }

  /** `PieceType::to_uci_char`; the source panics on a pawn or a king. */
  function ToUciChar(pt: PieceType): (c: char)
    requires pt in PROMOTABLE
    ensures c in "qrbn"
  {
    match pt
    case Queen => 'q'
    case Rook => 'r'
    case Bishop => 'b'
    case Knight => 'n'
  }

  /** `PieceType::from_uci_char`: a promotion letter in either case. */
  function FromUciChar(c: char): (r: Option<PieceType>)
    ensures r.Some? <==> c in "qQrRbBnN"
    ensures r.Some? ==> r.value in PROMOTABLE
  {
    match c
    case 'q' | 'Q' => Some(Queen)
    case 'r' | 'R' => Some(Rook)
    case 'b' | 'B' => Some(Bishop)
    case 'n' | 'N' => Some(Knight)
    case _ => None
  }

  /** `from_uci_char` inverts `to_uci_char` on the four promotion targets. */
  lemma UciCharRoundTrip(pt: PieceType)
    requires pt in PROMOTABLE
    ensures FromUciChar(ToUciChar(pt)) == Some(pt)
  {
  }

  /** `to_uci_char` gives back any accepted letter, in lower case. */
  lemma UciCharRoundTripBack(c: char)
    requires FromUciChar(c).Some?
    ensures ToUciChar(FromUciChar(c).value) == AsciiLower(c)
  {
  }

  /** `from_uci_char` does not depend on the letter's case. */
  lemma UciCharCaseInsensitive(c: char)
    requires 'a' <= c <= 'z'
    ensures FromUciChar(AsciiUpper(c)) == FromUciChar(c)
  {
  }

  datatype Color = White | Black

  /** `Color::opposite`. */
  function Opposite(c: Color): (o: Color)
    ensures o != c
  {
    match c
    case White => Black
    case Black => White
  }

  /** `Color::index`: 0 for White, 1 for Black. */
  function ColorIndex(c: Color): (i: int)
    ensures 0 <= i < 2
    ensures i == 0 <==> c == White
  {
    if c == White then 0 else 1
  }

  /** `opposite` is an involution without a fixed point. */
  lemma OppositeInvolution(c: Color)
    ensures Opposite(Opposite(c)) == c && Opposite(c) != c
  {
  }

  datatype Piece = Piece(pieceType: PieceType, color: Color)

  predicate IsAsciiUpper(c: char) { 'A' <= c <= 'Z' }

  function AsciiUpper(c: char): (u: char)
  {
    if 'a' <= c <= 'z' then (c as int - 32) as char else c
  }

  function AsciiLower(c: char): (l: char)
  {
    if 'A' <= c <= 'Z' then (c as int + 32) as char else c
  }

  /** `Piece::to_fen_char`: the type's letter, upper case for White. */
  function ToFenChar(p: Piece): (c: char)
    ensures c in "PNBRQKpnbrqk"
    ensures IsAsciiUpper(c) <==> p.color == White
  {
    var base :=
      match p.pieceType
      case Pawn => 'p'
      case Knight => 'n'
      case Bishop => 'b'
      case Rook => 'r'
      case Queen => 'q'
      case King => 'k';
    match p.color
    case White => AsciiUpper(base)
    case Black => base
  }

  /** `Piece::from_fen_char`: the colour from the case, the type from the lower-cased letter. */
  function FromFenChar(c: char): (r: Option<Piece>)
    ensures r.Some? <==> c in "PNBRQKpnbrqk"
    ensures r.Some? ==> (r.value.color == White <==> IsAsciiUpper(c))
  {
    var color := if IsAsciiUpper(c) then White else Black;
    match AsciiLower(c)
    case 'p' => Some(Piece(Pawn, color))
    case 'n' => Some(Piece(Knight, color))
    case 'b' => Some(Piece(Bishop, color))
    case 'r' => Some(Piece(Rook, color))
    case 'q' => Some(Piece(Queen, color))
    case 'k' => Some(Piece(King, color))
    case _ => None
  }

  /** Every piece survives the trip through its FEN character. */
  lemma FenCharRoundTrip(p: Piece)
    ensures FromFenChar(ToFenChar(p)) == Some(p)
  {
  }

  /** Every accepted FEN character is the character of the piece it denotes. */
  lemma FenCharRoundTripBack(c: char)
    requires FromFenChar(c).Some?
    ensures ToFenChar(FromFenChar(c).value) == c
  {
  }

  // ---------------------------------------------------------------------------
  // Moves
  // ---------------------------------------------------------------------------

  datatype MoveKind = Normal | Castle | EnPassant | Promotion(piece: PieceType)

  datatype Move = Move(from: Square, to: Square, kind: MoveKind)

  /** `Move::promotion_piece`. */
  function PromotionPiece(m: Move): (r: Option<PieceType>)
    ensures r.Some? <==> m.kind.Promotion?
    ensures r.Some? ==> m.kind == Promotion(r.value)
  {
    match m.kind
    case Promotion(pt) => Some(pt)
    case _ => None
  }

  /** A move whose promotion piece, if any, `to_uci_char` accepts. */
  predicate UciPrintable(m: Move)
  {
    m.kind.Promotion? ==> m.kind.piece in PROMOTABLE
  }

  /** `Move::to_uci` (and `Display`): both square names, then the promotion letter. */
  function ToUci(m: Move): (s: string)
    requires UciPrintable(m)
    ensures |s| == if m.kind.Promotion? then 5 else 4
    ensures s[..2] == SquareName(m.from) && s[2..4] == SquareName(m.to)
  {
    SquareName(m.from) + SquareName(m.to) + (if m.kind.Promotion? then [ToUciChar(m.kind.piece)] else [])
  }

  /**
   * `Move::from_uci`: four or five characters, both squares in range and any
   * fifth character a promotion letter. The kind is `Normal` unless a
   * promotion is given; the board resolves castling and en passant.
   */
  function FromUci(uci: string): (r: Option<Move>)
    ensures r.Some? <==> 4 <= |uci| <= 5 && 'a' <= uci[0] <= 'h' && '1' <= uci[1] <= '8'
                         && 'a' <= uci[2] <= 'h' && '1' <= uci[3] <= '8' && (|uci| == 5 ==> uci[4] in "qQrRbBnN")
    ensures r.Some? ==> r.value.kind.Normal? || r.value.kind.Promotion?
    ensures r.Some? ==> (r.value.kind.Promotion? <==> |uci| == 5)
  {
    if |uci| < 4 || |uci| > 5 then None
    else
      var fromFile := uci[0] as int - 'a' as int;
      var fromRank := uci[1] as int - '1' as int;
      var toFile := uci[2] as int - 'a' as int;
      var toRank := uci[3] as int - '1' as int;
      if !(0 <= fromFile < 8 && 0 <= fromRank < 8 && 0 <= toFile < 8 && 0 <= toRank < 8) then None
      else
        var from := SquareNew(fromFile, fromRank);
        var to := SquareNew(toFile, toRank);
        if |uci| > 4 then
          match FromUciChar(uci[4])
          case Some(pt) => Some(Move(from, to, Promotion(pt)))
          case None => None
        else Some(Move(from, to, Normal))
  }

  /** Parsing a printed move gives back its squares and promotion piece; castling and en passant read back as `Normal`. */
  lemma UciRoundTrip(m: Move)
    requires UciPrintable(m)
    ensures FromUci(ToUci(m)).Some?
    ensures var r := FromUci(ToUci(m)).value;
            r.from == m.from && r.to == m.to && PromotionPiece(r) == PromotionPiece(m)
  {
    var s := ToUci(m);
    assert s[..2] == SquareName(m.from) && s[2..4] == SquareName(m.to);
    AlgebraicRoundTrip(m.from);
    AlgebraicRoundTrip(m.to);
    if m.kind.Promotion? {
      UciCharRoundTrip(m.kind.piece);
    }
  }

  /** The squares of a parsed move print as the first four characters of the input. */
  lemma UciSquaresBack(uci: string)
    requires FromUci(uci).Some?
    ensures SquareName(FromUci(uci).value.from) + SquareName(FromUci(uci).value.to) == uci[..4]
  {
    var m := FromUci(uci).value;
    var fromFile, fromRank := uci[0] as int - 'a' as int, uci[1] as int - '1' as int;
    var toFile, toRank := uci[2] as int - 'a' as int, uci[3] as int - '1' as int;
    assert m.from == SquareNew(fromFile, fromRank) && m.to == SquareNew(toFile, toRank);
    NameOfCoordinates(fromFile, fromRank);
    NameOfCoordinates(toFile, toRank);
  }

  /** The promotion letter of a parsed move prints as the input's fifth character in lower case. */
  lemma UciPromotionBack(uci: string)
    requires FromUci(uci).Some?
    ensures var m := FromUci(uci).value;
            (if m.kind.Promotion? then [ToUciChar(m.kind.piece)] else []) == (if |uci| == 5 then [AsciiLower(uci[4])] else [])
  {
    if |uci| == 5 {
      UciCharRoundTripBack(uci[4]);
    }
  }

  /** Printing a parsed move gives the input back, with the promotion letter in lower case. */
  lemma UciRoundTripBack(uci: string)
    requires FromUci(uci).Some?
    ensures ToUci(FromUci(uci).value) == uci[..4] + (if |uci| == 5 then [AsciiLower(uci[4])] else [])
  {
    UciSquaresBack(uci);
    UciPromotionBack(uci);
  }

  /** The worked examples and rejections of the unit tests. */
  lemma FromUciExamples()
    ensures FromUci("e2e4") == Some(Move(12, 28, Normal))
    ensures FromUci("e7e8q") == Some(Move(52, 60, Promotion(Queen)))
    ensures FromUci("e7e8N") == Some(Move(52, 60, Promotion(Knight)))
    ensures FromUci("e2") == None && FromUci("e2e4qq") == None && FromUci("e7e8k") == None
    ensures FromUci("i2e4") == None && FromUci("e0e4") == None
    ensures FromUci("") == None && FromUci("z9z9") == None && FromUci("e7e8qX") == None && FromUci("e2e4extra") == None
  {
  }

  // ---------------------------------------------------------------------------
  // Castling rights
  // ---------------------------------------------------------------------------

  const WK: bv8 := 1
  const WQ: bv8 := 2
  const BK: bv8 := 4
  const BQ: bv8 := 8

  /** `CastlingRights::NONE` and `CastlingRights::ALL`. */
  const NO_RIGHTS: bv8 := 0
  const ALL_RIGHTS: bv8 := WK | WQ | BK | BQ

  /** `CastlingRights::mask_for_square`: the rights a king or rook home square guards. */
  function MaskForSquare(sq: int): (mask: bv8)
    ensures mask & !ALL_RIGHTS == 0
    ensures mask != 0 <==> sq in {0, 4, 7, 56, 60, 63}
    ensures mask & WK != 0 <==> sq == 4 || sq == 7
    ensures mask & WQ != 0 <==> sq == 4 || sq == 0
    ensures mask & BK != 0 <==> sq == 60 || sq == 63
    ensures mask & BQ != 0 <==> sq == 60 || sq == 56
  {
    match sq
    case 0 => WQ
    case 4 => WK | WQ
    case 7 => WK
    case 56 => BQ
    case 60 => BK | BQ
    case 63 => BK
    case _ => 0
  }

  /** The rights bitfield, which `clear` changes in place. */
  class CastlingRights {
    var bits: bv8

    constructor (bits: bv8)
      ensures this.bits == bits
    {
      this.bits := bits;
    }

    function WhiteKingside(): bool
      reads this
    {
      bits & WK != 0
    }

    function WhiteQueenside(): bool
      reads this
    {
      bits & WQ != 0
    }

    function BlackKingside(): bool
      reads this
    {
      bits & BK != 0
    }

    function BlackQueenside(): bool
      reads this
    {
      bits & BQ != 0
    }

    /** `clear`: removes exactly the rights in `mask` and adds none. */
    method Clear(mask: bv8)
      modifies this
      ensures bits == old(bits) & !mask
      ensures bits & !old(bits) == 0
    {
      bits := bits & !mask;
    }
  }

  /** Clearing with a mask removes a right exactly when the mask names it. */
  lemma ClearRemovesOnlyMasked(bits: bv8, mask: bv8, right: bv8)
    requires right in {WK, WQ, BK, BQ}
    ensures (bits & !mask) & right != 0 <==> bits & right != 0 && mask & right == 0
  {
  }

  datatype GameState = InProgress | Checkmate | Stalemate | Draw
}
