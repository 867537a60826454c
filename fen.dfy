/**
 * Forsyth–Edwards Notation, as `Board::from_fen` reads it and
 * `Board::to_fen` writes it: six whitespace-separated fields (piece
 * placement from rank 8 down to rank 1, side to move, castling letters,
 * en-passant square, halfmove clock, fullmove number), the last two
 * optional on input.
 */
module Fen {
  import opened Wrappers
  import opened Types
  import opened Bitboards
  import opened Positions

  // ---------------------------------------------------------------------------
  // Fields
  // ---------------------------------------------------------------------------

  /** `char::is_whitespace`: the characters with the Unicode `White_Space` property. */
  predicate IsWhitespace(c: char)
  {
    ('\t' <= c <= '\r') || c == ' ' || c == '\U{85}' || c == '\U{A0}' || c == '\U{1680}'
    || ('\U{2000}' <= c <= '\U{200A}') || c == '\U{2028}' || c == '\U{2029}'
    || c == '\U{202F}' || c == '\U{205F}' || c == '\U{3000}'
  }

  /** A field: non-empty and free of whitespace. */
  predicate IsField(s: string)
  {
    s != [] && forall i :: 0 <= i < |s| ==> !IsWhitespace(s[i])
  }

  /** The length of the field at the start of `s`: up to the first whitespace or the end. */
  function FieldLength(s: string): (n: nat)
    ensures n <= |s|
    ensures forall i :: 0 <= i < n ==> !IsWhitespace(s[i])
    ensures n < |s| ==> IsWhitespace(s[n])
  {
    if s == [] || IsWhitespace(s[0]) then 0 else 1 + FieldLength(s[1..])
  }

  /** `str::split_whitespace`: the maximal whitespace-free runs, in order. */
  function SplitWhitespace(s: string): (parts: seq<string>)
    ensures forall i :: 0 <= i < |parts| ==> IsField(parts[i])
    decreases |s|
  {
    if s == [] then []
    else if IsWhitespace(s[0]) then SplitWhitespace(s[1..])
    else
      var n := FieldLength(s);
      [s[..n]] + SplitWhitespace(s[n..])
  }

  /** Fields joined by single spaces, the way `to_fen` writes them. */
  function JoinFields(parts: seq<string>): string
  {
    if parts == [] then []
    else if |parts| == 1 then parts[0]
    else parts[0] + " " + JoinFields(parts[1..])
  }

  /** The field at the start of a joined text is the first field. */
  lemma {:induction false} FieldLengthOfField(a: string, rest: string)
    requires IsField(a)
    requires rest == [] || IsWhitespace(rest[0])
    ensures FieldLength(a + rest) == |a|
    decreases |a|
  {
    if |a| > 1 {
      assert (a + rest)[1..] == a[1..] + rest;
      FieldLengthOfField(a[1..], rest);
    } else {
      assert (a + rest)[1..] == rest;
    }
  }

  /** Splitting fields joined by spaces gives the fields back. */
  lemma {:induction false} SplitJoin(parts: seq<string>)
    requires forall i :: 0 <= i < |parts| ==> IsField(parts[i])
    ensures SplitWhitespace(JoinFields(parts)) == parts
    decreases |parts|
  {
    if parts == [] {
    } else if |parts| == 1 {
      var a := parts[0];
      FieldLengthOfField(a, []);
      assert a + [] == a;
      assert a[|a|..] == [];
    } else {
      var a, rest := parts[0], JoinFields(parts[1..]);
      var text := a + " " + rest;
      FieldLengthOfField(a, " " + rest);
      assert text == a + (" " + rest);
      assert text[..|a|] == a;
      assert text[|a|..] == " " + rest;
      assert (" " + rest)[1..] == rest;
      SplitJoin(parts[1..]);
    }
  }

  // ---------------------------------------------------------------------------
  // Numbers
  // ---------------------------------------------------------------------------

  predicate IsDigit(c: char)
  {
    '0' <= c <= '9'
  }

  /** The value of a string of decimal digits, most significant first. */
  function DigitsValue(ds: string): nat
    requires forall i :: 0 <= i < |ds| ==> IsDigit(ds[i])
  {
    if ds == [] then 0
    else
      assert IsDigit(ds[|ds| - 1]);
      DigitsValue(ds[..|ds| - 1]) * 10 + (ds[|ds| - 1] as int - '0' as int)
  }

  /** The text after an optional leading `+`. */
  function Unsigned(s: string): string
  {
    if |s| > 0 && s[0] == '+' then s[1..] else s
  }

  /**
   * `str::parse::<u16>`: an optional `+`, then at least one decimal digit,
   * with a value that fits in sixteen bits.
   */
  function ParseU16(s: string): (r: Option<U16>)
    ensures r.Some? ==> s != [] && (s[0] == '+' || IsDigit(s[0]))
    ensures r.Some? <==> Unsigned(s) != [] && (forall i :: 0 <= i < |Unsigned(s)| ==> IsDigit(Unsigned(s)[i]))
                         && DigitsValue(Unsigned(s)) < 0x1_0000
    ensures r.Some? ==> r.value == DigitsValue(Unsigned(s))
  {
    var ds := Unsigned(s);
    if ds == [] || exists i :: 0 <= i < |ds| && !IsDigit(ds[i]) then None
    else if DigitsValue(ds) >= 0x1_0000 then None
    else Some(DigitsValue(ds))
  }

  /** `write!("{}", n)`: the decimal digits of `n`, without leading zeros. */
  function DecimalText(n: nat): (s: string)
    ensures s != [] && IsDigit(s[0])
    ensures forall i :: 0 <= i < |s| ==> IsDigit(s[i])
  {
    if n < 10 then [('0' as int + n) as char]
    else DecimalText(n / 10) + [('0' as int + n % 10) as char]
  }

  /** A printed number is a field. */
  lemma DecimalField(n: nat)
    ensures IsField(DecimalText(n))
  {
    var s := DecimalText(n);
    forall i | 0 <= i < |s|
      ensures !IsWhitespace(s[i])
    {
      assert IsDigit(s[i]);
    }
  }

  /** Reading the printed digits gives the number back. */
  lemma {:induction false} DecimalValue(n: nat)
    ensures DigitsValue(DecimalText(n)) == n
  {
    if n >= 10 {
      var s := DecimalText(n);
      assert s[..|s| - 1] == DecimalText(n / 10);
      DecimalValue(n / 10);
    }
  }

  /** Clock texts that parse, up to the top of the sixteen-bit range. */
  lemma ParseU16Accepts()
    ensures ParseU16("0") == Some(0) && ParseU16("+7") == Some(7) && ParseU16("007") == Some(7)
  {
    DigitsAppend([], '0');
    assert "0" == [] + ['0'];
    UnsignedText("0", 0);
    DigitsAppend("0", '0');
    assert "00" == "0" + ['0'];
    DigitsAppend("00", '7');
    assert "007" == "00" + ['7'];
    UnsignedText("007", 7);
    DigitsAppend([], '7');
    assert "7" == [] + ['7'] && "+7"[1..] == "7";
  }

  /** The largest clock value `u16` holds. */
  lemma ParseU16Largest()
    ensures ParseU16("65535") == Some(65535)
  {
    FiveDigits('6', '5', '5', '3', '5');
    UnsignedText("65535", 65535);
  }

  /** The clock texts of the malformed-clock tests, and the first value past sixteen bits. */
  lemma ParseU16Rejects()
    ensures ParseU16("abc") == None && ParseU16("xyz") == None && ParseU16("-1") == None
    ensures ParseU16("") == None && ParseU16("+") == None && ParseU16("1a") == None
    ensures ParseU16("65536") == None
  {
    assert "+"[1..] == [];
    NonDigitText("abc", 0);
    NonDigitText("xyz", 0);
    NonDigitText("-1", 0);
    NonDigitText("1a", 1);
    FiveDigits('6', '5', '5', '3', '6');
    UnsignedText("65536", 65536);
  }

  lemma UnsignedText(s: string, n: nat)
    requires s != [] && forall i :: 0 <= i < |s| ==> IsDigit(s[i])
    requires DigitsValue(s) == n
    ensures ParseU16(s) == if n < 0x1_0000 then Some(n) else None
  {
  }

  lemma NonDigitText(s: string, i: int)
    requires 0 <= i < |s| && !IsDigit(s[i]) && s[0] != '+'
    ensures ParseU16(s) == None
  {
    assert Unsigned(s) == s;
    assert !IsDigit(Unsigned(s)[i]);
  }

  lemma FiveDigits(a: char, b: char, c: char, d: char, e: char)
    requires IsDigit(a) && IsDigit(b) && IsDigit(c) && IsDigit(d) && IsDigit(e)
    ensures forall i :: 0 <= i < |[a, b, c, d, e]| ==> IsDigit([a, b, c, d, e][i])
    ensures DigitsValue([a, b, c, d, e]) ==
              (((((a as int - '0' as int) * 10 + (b as int - '0' as int)) * 10 + (c as int - '0' as int)) * 10
                + (d as int - '0' as int)) * 10 + (e as int - '0' as int))
  {
    DigitsAppend([], a);
    assert [a] == [] + [a];
    DigitsAppend([a], b);
    assert [a, b] == [a] + [b];
    DigitsAppend([a, b], c);
    assert [a, b, c] == [a, b] + [c];
    DigitsAppend([a, b, c], d);
    assert [a, b, c, d] == [a, b, c] + [d];
    DigitsAppend([a, b, c, d], e);
    assert [a, b, c, d, e] == [a, b, c, d] + [e];
  }

  lemma DigitsAppend(ds: string, c: char)
    requires forall i :: 0 <= i < |ds| ==> IsDigit(ds[i])
    requires IsDigit(c)
    ensures forall i :: 0 <= i < |ds + [c]| ==> IsDigit((ds + [c])[i])
    ensures DigitsValue(ds + [c]) == DigitsValue(ds) * 10 + (c as int - '0' as int)
  {
    assert (ds + [c])[..|ds|] == ds;
  }

  /** Parsing a printed sixteen-bit number gives it back. */
  lemma DecimalRoundTrip(n: U16)
    ensures ParseU16(DecimalText(n)) == Some(n)
  {
    DecimalValue(n);
  }

  // ---------------------------------------------------------------------------
  // Piece placement
  // ---------------------------------------------------------------------------

  /** The placement loop's state: the rank and file it is at and the board built so far. */
  datatype Cursor = Cursor(rank: nat, file: nat, board: Position)

  /** The board `from_fen` starts from: no pieces, White to move, no rights, no en-passant square, clocks 0 and 1. */
  const EMPTY_BOARD: Position := Position([NO_PIECES, NO_PIECES], [{}, {}], {}, White, NO_RIGHTS, None, 0, 1)

  /** Rank 8, file a. */
  const START_CURSOR: Cursor := Cursor(7, 0, EMPTY_BOARD)

  /**
   * One character of the placement field: `/` moves to the start of the next
   * rank down, a digit skips that many files, a piece letter puts the piece
   * on the current square (`|=`) and moves one file on.
   */
  function PlacementStep(cur: Cursor, c: char): (r: Option<Cursor>)
    ensures r.Some? && cur.rank < 8 && cur.file <= 8 ==> r.value.rank < 8 && r.value.file <= 8
  {
    if c == '/' then
      if cur.file > 8 || cur.rank == 0 then None else Some(Cursor(cur.rank - 1, 0, cur.board))
    else if '1' <= c <= '8' then
      var file := cur.file + (c as int - '0' as int);
      if file > 8 then None else Some(cur.(file := file))
    else if cur.file >= 8 || cur.rank >= 8 then None
    else
      match FromFenChar(c)
      case None => None
      case Some(pc) => Some(Cursor(cur.rank, cur.file + 1, Place(cur.board, pc.color, pc.pieceType, SquareNew(cur.file, cur.rank))))
  }

  /** The placement loop over `cs`, stopping at the first rejected character. */
  function RunPlacement(cur: Cursor, cs: string): (r: Option<Cursor>)
    ensures r.Some? && cur.rank < 8 && cur.file <= 8 ==> r.value.rank < 8 && r.value.file <= 8
    decreases |cs|
  {
    if cs == [] then Some(cur)
    else
      match PlacementStep(cur, cs[0])
      case None => None
      case Some(next) => RunPlacement(next, cs[1..])
  }

  /** The position of `(rank, file)` in the order the placement field is written: rank 8 first, files a to h. */
  function Scan(rank: int, file: int): int
  {
    (7 - rank) * 8 + file
  }

  /** The position of a square in the order the placement field is written. */
  function ScanOf(sq: Square): (k: int)
    ensures 0 <= k < 64
  {
    Scan(Rank(sq), File(sq))
  }

  /** Every occupied square of `mb` comes before the cursor. */
  ghost predicate FilledBefore(mb: Mailbox, cur: Cursor)
  {
    forall sq: Square :: mb[sq].Some? ==> ScanOf(sq) < Scan(cur.rank, cur.file)
  }

  /** The empty board represents the empty mailbox. */
  lemma EmptyBoardRepresents()
    ensures Represents(EMPTY_BOARD, EMPTY_MAILBOX)
  {
    forall c, pt
      ensures Pieces(EMPTY_BOARD, c, pt) == BoardOf(EMPTY_MAILBOX, c, pt)
    {
      assert forall sq: Square :: EMPTY_MAILBOX[sq] == None;
    }
    forall c
      ensures Occupancy(EMPTY_BOARD, c) == OccupancyOf(EMPTY_MAILBOX, c)
    {
      assert forall sq: Square :: EMPTY_MAILBOX[sq] == None;
    }
  }

  /**
   * The placement loop never writes a square twice: the board it builds
   * represents a mailbox, one piece per square.
   */
  lemma {:induction false} PlacementRepresents(cur: Cursor, cs: string, mb: Mailbox) returns (mb': Mailbox)
    requires cur.rank < 8 && cur.file <= 8
    requires Represents(cur.board, mb) && FilledBefore(mb, cur)
    requires RunPlacement(cur, cs).Some?
    ensures Represents(RunPlacement(cur, cs).value.board, mb')
    decreases |cs|
  {
    if cs == [] {
      return mb;
    }
    var next := PlacementStep(cur, cs[0]).value;
    var c := cs[0];
    if c == '/' || '1' <= c <= '8' {
      assert next.board == cur.board;
      assert FilledBefore(mb, next);
      mb' := PlacementRepresents(next, cs[1..], mb);
    } else {
      var pc := FromFenChar(c).value;
      var sq := SquareNew(cur.file, cur.rank);
      SquareNewCoordinates(cur.file, cur.rank);
      PlaceStep(cur.board, mb, pc.color, pc.pieceType, sq);
      var mb1 := mb[sq := Some(pc)];
      assert FilledBefore(mb1, next);
      mb' := PlacementRepresents(next, cs[1..], mb1);
    }
  }

  // ---------------------------------------------------------------------------
  // The other fields and the whole text
  // ---------------------------------------------------------------------------

  /** The side-to-move field: exactly `w` or `b`. */
  function SideOf(s: string): (r: Option<Color>)
    ensures r.Some? <==> s == "w" || s == "b"
    ensures r == Some(White) <==> s == "w"
  {
    if |s| != 1 then None
    else if s[0] == 'w' then Some(White)
    else if s[0] == 'b' then Some(Black)
    else None
  }

  /** The right one castling letter names; any other character names none. */
  function LetterRight(c: char): bv8
  {
    match c
    case 'K' => WK
    case 'Q' => WQ
    case 'k' => BK
    case 'q' => BQ
    case _ => NO_RIGHTS
  }

  /** The castling loop: the rights named by the field's letters, ORed together. */
  function CastlingOf(s: string): (rights: bv8)
    ensures rights & !ALL_RIGHTS == 0
  {
    if s == [] then NO_RIGHTS else LetterRight(s[0]) | CastlingOf(s[1..])
  }

  /** The en-passant field: `-`, or a square on rank 3 or rank 6 (index 2 or 5). */
  function EnPassantOf(s: string): (r: Option<Option<Square>>)
    ensures r == Some(None) <==> s == "-"
    ensures r.Some? && r.value.Some? ==> FromAlgebraic(s) == r.value && (Rank(r.value.value) == 2 || Rank(r.value.value) == 5)
  {
    if s == "-" then Some(None)
    else
      match FromAlgebraic(s)
      case None => None
      case Some(ep) => if Rank(ep) != 2 && Rank(ep) != 5 then None else Some(Some(ep))
  }

  /**
   * `Board::from_fen`. At least four fields; the placement must be accepted
   * and give each side exactly one king; the side must be `w` or `b`; the
   * en-passant field must be accepted; a fifth and sixth field, when
   * present, must parse as sixteen-bit numbers (else 0 and 1).
   */
  function ParseFen(fen: string): (r: Option<Position>)
    ensures var parts := SplitWhitespace(fen);
            r.Some? <==> |parts| >= 4 && FenAccepts(parts)
    ensures var parts := SplitWhitespace(fen);
            r.Some? ==> r.value.pieces == RunPlacement(START_CURSOR, parts[0]).value.board.pieces
                        && r.value.occupancy == RunPlacement(START_CURSOR, parts[0]).value.board.occupancy
                        && Some(r.value.sideToMove) == SideOf(parts[1])
                        && r.value.castling == CastlingOf(parts[2])
                        && Some(r.value.enPassant) == EnPassantOf(parts[3])
                        && r.value.halfmoveClock == (if |parts| > 4 then ParseU16(parts[4]).value else 0)
                        && r.value.fullmoveNumber == (if |parts| > 5 then ParseU16(parts[5]).value else 1)
    ensures r.Some? ==> |Pieces(r.value, White, King)| == 1 && |Pieces(r.value, Black, King)| == 1
    ensures r.Some? ==> r.value.all == Occupancy(r.value, White) + Occupancy(r.value, Black)
    ensures r.Some? ==> r.value.castling & !ALL_RIGHTS == 0
    ensures r.Some? && r.value.enPassant.Some? ==> Rank(r.value.enPassant.value) == 2 || Rank(r.value.enPassant.value) == 5
  {
    var parts := SplitWhitespace(fen);
    if |parts| < 4 then None
    else
      match RunPlacement(START_CURSOR, parts[0])
      case None => None
      case Some(cur) => ParseFields(parts, cur.board)
  }

  /**
   * Which field lists `from_fen` accepts: a placement it reads with one king
   * per side, a side `w` or `b`, an accepted en-passant field, and clocks
   * that parse when present. The castling field never causes a rejection.
   */
  predicate FenAccepts(parts: seq<string>)
    requires |parts| >= 4
  {
    && RunPlacement(START_CURSOR, parts[0]).Some?
    && |Pieces(RunPlacement(START_CURSOR, parts[0]).value.board, White, King)| == 1
    && |Pieces(RunPlacement(START_CURSOR, parts[0]).value.board, Black, King)| == 1
    && SideOf(parts[1]).Some?
    && EnPassantOf(parts[3]).Some?
    && (|parts| > 4 ==> ParseU16(parts[4]).Some?)
    && (|parts| > 5 ==> ParseU16(parts[5]).Some?)
  }

  /** The rest of `from_fen` once the placement is read: the kings, side, castling, en-passant and clock fields. */
  function ParseFields(parts: seq<string>, board: Position): (r: Option<Position>)
    requires |parts| >= 4
  {
    if |Pieces(board, White, King)| != 1 || |Pieces(board, Black, King)| != 1 then None
    else
      match SideOf(parts[1])
      case None => None
      case Some(side) =>
        var read := Position(board.pieces, board.occupancy, Occupancy(board, White) + Occupancy(board, Black),
                             side, CastlingOf(parts[2]), None, 0, 1);
        ParseTail(parts, read)
  }

  /** The last fields of `from_fen`: the en-passant square, then the clocks when present (else 0 and 1). */
  function ParseTail(parts: seq<string>, board: Position): (r: Option<Position>)
    requires |parts| >= 4
  {
    match EnPassantOf(parts[3])
    case None => None
    case Some(ep) =>
      var half := if |parts| > 4 then ParseU16(parts[4]) else Some(0);
      var full := if |parts| > 5 then ParseU16(parts[5]) else Some(1);
      if half.None? || full.None? then None
      else Some(board.(enPassant := ep, halfmoveClock := half.value, fullmoveNumber := full.value))
  }

  /** What a position needs for `to_fen` to print it faithfully and `from_fen` to accept the text. */
  ghost predicate FenReady(p: Position)
  {
    Sound(p) && |Pieces(p, White, King)| == 1 && |Pieces(p, Black, King)| == 1
    && p.castling & !ALL_RIGHTS == 0
    && (p.enPassant.Some? ==> Rank(p.enPassant.value) == 2 || Rank(p.enPassant.value) == 5)
  }

  /** Every position `from_fen` accepts is sound: one piece per square, occupancies and `all` the unions of the bitboards. */
  lemma ParseFenReady(fen: string)
    requires ParseFen(fen).Some?
    ensures FenReady(ParseFen(fen).value)
  {
    var parts := SplitWhitespace(fen);
    var q := ParseFen(fen).value;
    EmptyBoardRepresents();
    var mb := PlacementRepresents(START_CURSOR, parts[0], EMPTY_MAILBOX);
    AllOfColors(mb);
    SoundWhenRepresents(q, mb);
  }

  // ---------------------------------------------------------------------------
  // Printing
  // ---------------------------------------------------------------------------

  /** The digit for a run of empty squares, when there is one. */
  function EmptyRun(empty: int): (s: string)
    requires 0 <= empty <= 8
  {
    if empty > 0 then [('0' as int + empty) as char] else []
  }

  /**
   * The inner loop of `to_fen` over the squares `piece_at` reads (`mb`),
   * from `file` on, with `empty` empty squares counted and not yet written:
   * each piece letter is preceded by the count.
   */
  function RankText(mb: Mailbox, rank: int, file: int, empty: int): string
    requires 0 <= rank < 8 && 0 <= empty <= file <= 8
    decreases 8 - file
  {
    if file == 8 then EmptyRun(empty)
    else
      match mb[SquareNew(file, rank)]
      case Some(pc) => EmptyRun(empty) + [ToFenChar(pc)] + RankText(mb, rank, file + 1, 0)
      case None => RankText(mb, rank, file + 1, empty + 1)
  }

  /** A printed rank is free of whitespace, and is empty only when nothing remains to be written. */
  lemma {:induction false} RankTextField(mb: Mailbox, rank: int, file: int, empty: int)
    requires 0 <= rank < 8 && 0 <= empty <= file <= 8
    ensures forall i :: 0 <= i < |RankText(mb, rank, file, empty)| ==> !IsWhitespace(RankText(mb, rank, file, empty)[i])
    ensures file < 8 || empty > 0 ==> RankText(mb, rank, file, empty) != []
    decreases 8 - file
  {
    if file < 8 {
      match mb[SquareNew(file, rank)]
      case Some(pc) =>
        RankTextField(mb, rank, file + 1, 0);
        FenCharRoundTrip(pc);
      case None =>
        RankTextField(mb, rank, file + 1, empty + 1);
    }
  }

  /** The placement field from `rank` down to rank 1, ranks separated by `/`. */
  function Rows(mb: Mailbox, rank: int): (s: string)
    requires 0 <= rank < 8
    ensures IsField(s)
    decreases rank
  {
    RankTextField(mb, rank, 0, 0);
    RankText(mb, rank, 0, 0) + (if rank > 0 then "/" + Rows(mb, rank - 1) else [])
  }

  function SideText(c: Color): (s: string)
    ensures IsField(s)
    ensures SideOf(s) == Some(c)
  {
    match c
    case White => "w"
    case Black => "b"
  }

  /** `K`, `Q`, `k`, `q` for the rights held, in that order, or `-` for none. */
  function CastlingText(bits: bv8): (s: string)
    ensures IsField(s)
  {
    var letters := (if bits & WK != 0 then "K" else []) + (if bits & WQ != 0 then "Q" else [])
                   + (if bits & BK != 0 then "k" else []) + (if bits & BQ != 0 then "q" else []);
    if letters == [] then "-" else letters
  }

  function EnPassantText(ep: Option<Square>): (s: string)
    ensures IsField(s)
  {
    match ep
    case None => "-"
    case Some(sq) => SquareName(sq)
  }

  /** The six fields `to_fen` writes. */
  function FenFields(p: Position): seq<string>
  {
    [Rows(MailboxOf(p), 7), SideText(p.sideToMove), CastlingText(p.castling), EnPassantText(p.enPassant),
     DecimalText(p.halfmoveClock), DecimalText(p.fullmoveNumber)]
  }

  /** `Board::to_fen`: the six fields separated by single spaces. */
  function FenOf(p: Position): string
  {
    JoinFields(FenFields(p))
  }

  // ---------------------------------------------------------------------------
  // Reading back what was printed
  // ---------------------------------------------------------------------------

  /** No field `to_fen` writes is empty or holds whitespace, so splitting the text gives the six fields back. */
  lemma FenSplits(p: Position)
    ensures SplitWhitespace(FenOf(p)) == FenFields(p)
  {
    var parts := FenFields(p);
    DecimalField(p.halfmoveClock);
    DecimalField(p.fullmoveNumber);
    forall i | 0 <= i < |parts|
      ensures IsField(parts[i])
    {
      if i == 0 {
        assert parts[i] == Rows(MailboxOf(p), 7);
      } else if i == 1 {
        assert parts[i] == SideText(p.sideToMove);
      } else if i == 2 {
        assert parts[i] == CastlingText(p.castling);
      } else if i == 3 {
        assert parts[i] == EnPassantText(p.enPassant);
      } else if i == 4 {
        assert parts[i] == DecimalText(p.halfmoveClock);
      } else {
        assert parts[i] == DecimalText(p.fullmoveNumber);
      }
    }
    SplitJoin(parts);
  }

  /** `CastlingOf` distributes over concatenation. */
  lemma {:induction false} CastlingOfAppend(a: string, b: string)
    ensures CastlingOf(a + b) == CastlingOf(a) | CastlingOf(b)
    decreases |a|
  {
    if a != [] {
      assert (a + b)[1..] == a[1..] + b;
      CastlingOfAppend(a[1..], b);
    } else {
      assert a + b == b;
    }
  }

  /** The printed castling letters name exactly the rights held. */
  lemma CastlingRoundTrip(bits: bv8)
    requires bits & !ALL_RIGHTS == 0
    ensures CastlingOf(CastlingText(bits)) == bits
  {
    var k := if bits & WK != 0 then "K" else [];
    var q := if bits & WQ != 0 then "Q" else [];
    var k2 := if bits & BK != 0 then "k" else [];
    var q2 := if bits & BQ != 0 then "q" else [];
    CastlingOfAppend(k + q + k2, q2);
    CastlingOfAppend(k + q, k2);
    CastlingOfAppend(k, q);
    assert CastlingOf(k) == bits & WK;
    assert CastlingOf(q) == bits & WQ;
    assert CastlingOf(k2) == bits & BK;
    assert CastlingOf(q2) == bits & BQ;
  }

  /** The printed en-passant field reads back as the en-passant square. */
  lemma EnPassantRoundTrip(ep: Option<Square>)
    requires ep.Some? ==> Rank(ep.value) == 2 || Rank(ep.value) == 5
    ensures EnPassantOf(EnPassantText(ep)) == Some(ep)
  {
    if ep.Some? {
      AlgebraicRoundTrip(ep.value);
    }
  }

  /** The squares of `mb` written before scan position `k`, every later square empty. */
  function Upto(mb: Mailbox, k: int): (up: Mailbox)
    ensures forall sq: Square :: up[sq] == if ScanOf(sq) < k then mb[sq] else None
  {
    seq(64, i requires 0 <= i < 64 => if ScanOf(i) < k then mb[i] else None)
  }

  /** Before the first square nothing is written; after the last, everything is. */
  lemma UptoEnds(mb: Mailbox)
    ensures Upto(mb, Scan(7, 0)) == EMPTY_MAILBOX
    ensures Upto(mb, 64) == mb
  {
    assert forall sq: Square :: Upto(mb, Scan(7, 0))[sq] == EMPTY_MAILBOX[sq];
  }

  /** Skipping empty squares of a rank does not change what has been written. */
  lemma UptoSkip(mb: Mailbox, rank: int, a: int, b: int)
    requires 0 <= rank < 8 && 0 <= a <= b <= 8
    requires forall j :: a <= j < b ==> mb[SquareNew(j, rank)] == None
    ensures Upto(mb, Scan(rank, a)) == Upto(mb, Scan(rank, b))
  {
    forall sq: Square
      ensures Upto(mb, Scan(rank, a))[sq] == Upto(mb, Scan(rank, b))[sq]
    {
      if Scan(rank, a) <= ScanOf(sq) < Scan(rank, b) {
        assert Rank(sq) == rank;
        assert SquareNew(File(sq), rank) == sq;
      }
    }
  }

  /** Writing the square at `(rank, file)` adds its piece to what has been written. */
  lemma UptoPlace(mb: Mailbox, rank: int, file: int)
    requires 0 <= rank < 8 && 0 <= file < 8
    ensures Upto(mb, Scan(rank, file + 1)) == Upto(mb, Scan(rank, file))[SquareNew(file, rank) := mb[SquareNew(file, rank)]]
  {
    var sq0 := SquareNew(file, rank);
    var before, after := Upto(mb, Scan(rank, file)), Upto(mb, Scan(rank, file + 1));
    forall sq: Square
      ensures after[sq] == if sq == sq0 then mb[sq0] else before[sq]
    {
      if ScanOf(sq) == Scan(rank, file) {
        assert Rank(sq) == rank && File(sq) == file;
        assert SquareNew(File(sq), Rank(sq)) == sq;
      }
    }
    assert after == before[sq0 := mb[sq0]];
  }

  /** The placement loop reads the first character, then the rest. */
  lemma RunCons(cur: Cursor, c: char, rest: string)
    ensures RunPlacement(cur, [c] + rest) == if PlacementStep(cur, c).None? then None else RunPlacement(PlacementStep(cur, c).value, rest)
  {
    assert ([c] + rest)[0] == c;
    assert ([c] + rest)[1..] == rest;
  }

  /** The length of a run of empty squares one digit can say. */
  type RunLength = n: int | 1 <= n <= 8 witness 1

  /**
   * What one character of the placement field stands for: a `/`, a run of
   * `n` empty squares (its digit), or a piece (its letter).
   */
  datatype Token = Slash | Skip(n: RunLength) | Letter(pc: Piece)

  /** The character `to_fen` writes for a token. */
  function TokenChar(t: Token): char
  {
    match t
    case Slash => '/'
    case Skip(n) => ('0' as int + n) as char
    case Letter(pc) => ToFenChar(pc)
  }

  /** The characters of a token sequence. */
  function Chars(ts: seq<Token>): (s: string)
    ensures |s| == |ts|
  {
    if ts == [] then [] else [TokenChar(ts[0])] + Chars(ts[1..])
  }

  /** What the placement loop does with a token's character, stated on the token. */
  function TokenStep(cur: Cursor, t: Token): Option<Cursor>
  {
    match t
    case Slash => if cur.file > 8 || cur.rank == 0 then None else Some(Cursor(cur.rank - 1, 0, cur.board))
    case Skip(n) => if cur.file + n > 8 then None else Some(cur.(file := cur.file + n))
    case Letter(pc) =>
      if cur.file >= 8 || cur.rank >= 8 then None
      else Some(Cursor(cur.rank, cur.file + 1, Place(cur.board, pc.color, pc.pieceType, SquareNew(cur.file, cur.rank))))
  }

  /** The placement loop read token by token. */
  function RunTokens(cur: Cursor, ts: seq<Token>): Option<Cursor>
    decreases |ts|
  {
    if ts == [] then Some(cur)
    else
      match TokenStep(cur, ts[0])
      case None => None
      case Some(next) => RunTokens(next, ts[1..])
  }

  /** The placement loop's step on a token's character is the token's step. */
  lemma TokenCharStep(cur: Cursor, t: Token)
    ensures PlacementStep(cur, TokenChar(t)) == TokenStep(cur, t)
  {
    match t
    case Slash =>
    case Skip(n) =>
    case Letter(pc) =>
      FenCharRoundTrip(pc);
      assert ToFenChar(pc) != '/' && !('1' <= ToFenChar(pc) <= '8');
  }

  /** Reading the characters of tokens is reading the tokens. */
  lemma {:induction false} ReadTokens(cur: Cursor, ts: seq<Token>)
    ensures RunPlacement(cur, Chars(ts)) == RunTokens(cur, ts)
    decreases |ts|
  {
    if ts != [] {
      RunCons(cur, TokenChar(ts[0]), Chars(ts[1..]));
      TokenCharStep(cur, ts[0]);
      if TokenStep(cur, ts[0]).Some? {
        ReadTokens(TokenStep(cur, ts[0]).value, ts[1..]);
      }
    }
  }

  /** Reading `a + b` reads `a`, then `b` from where `a` stopped. */
  lemma {:induction false} RunTokensAppend(cur: Cursor, a: seq<Token>, b: seq<Token>)
    ensures RunTokens(cur, a + b) == if RunTokens(cur, a).None? then None else RunTokens(RunTokens(cur, a).value, b)
    decreases |a|
  {
    if a == [] {
      assert a + b == b;
    } else {
      assert (a + b)[0] == a[0];
      assert (a + b)[1..] == a[1..] + b;
      if TokenStep(cur, a[0]).Some? {
        RunTokensAppend(TokenStep(cur, a[0]).value, a[1..], b);
      }
    }
  }

  /** The characters of `a + b` are those of `a`, then those of `b`. */
  lemma {:induction false} CharsAppend(a: seq<Token>, b: seq<Token>)
    ensures Chars(a + b) == Chars(a) + Chars(b)
    decreases |a|
  {
    if a == [] {
      assert a + b == b;
    } else {
      assert (a + b)[0] == a[0];
      assert (a + b)[1..] == a[1..] + b;
      CharsAppend(a[1..], b);
    }
  }

  /** The token for a pending run of empty squares, when there is one. */
  function RunToken(empty: int): (ts: seq<Token>)
    requires 0 <= empty <= 8
    ensures Chars(ts) == EmptyRun(empty)
  {
    if empty > 0 then [Skip(empty)] else []
  }

  /** The tokens of `RankText`. */
  function RankTokens(mb: Mailbox, rank: int, file: int, empty: int): seq<Token>
    requires 0 <= rank < 8 && 0 <= empty <= file <= 8
    decreases 8 - file
  {
    if file == 8 then RunToken(empty)
    else
      match mb[SquareNew(file, rank)]
      case Some(pc) => RunToken(empty) + [Letter(pc)] + RankTokens(mb, rank, file + 1, 0)
      case None => RankTokens(mb, rank, file + 1, empty + 1)
  }

  /** The tokens of `Rows`. */
  function RowTokens(mb: Mailbox, rank: int): seq<Token>
    requires 0 <= rank < 8
    decreases rank
  {
    RankTokens(mb, rank, 0, 0) + (if rank > 0 then [Slash] + RowTokens(mb, rank - 1) else [])
  }

  /** `RankText` spells its tokens. */
  lemma {:induction false} RankTextChars(mb: Mailbox, rank: int, file: int, empty: int)
    requires 0 <= rank < 8 && 0 <= empty <= file <= 8
    ensures RankText(mb, rank, file, empty) == Chars(RankTokens(mb, rank, file, empty))
    decreases 8 - file
  {
    if file < 8 {
      var next := file + 1;
      match mb[SquareNew(file, rank)]
      case Some(pc) =>
        var run, rest := RunToken(empty), RankTokens(mb, rank, next, 0);
        RankTextChars(mb, rank, next, 0);
        assert RankText(mb, rank, file, empty) == EmptyRun(empty) + [ToFenChar(pc)] + RankText(mb, rank, next, 0);
        assert RankTokens(mb, rank, file, empty) == run + [Letter(pc)] + rest;
        assert Chars([Letter(pc)]) == [ToFenChar(pc)];
        CharsAppend(run, [Letter(pc)]);
        CharsAppend(run + [Letter(pc)], rest);
      case None =>
        var more := empty + 1;
        RankTextChars(mb, rank, next, more);
        assert RankText(mb, rank, file, empty) == RankText(mb, rank, next, more);
        assert RankTokens(mb, rank, file, empty) == RankTokens(mb, rank, next, more);
    }
  }

  /** `Rows` spells its tokens. */
  lemma {:induction false} RowsChars(mb: Mailbox, rank: int)
    requires 0 <= rank < 8
    ensures Rows(mb, rank) == Chars(RowTokens(mb, rank))
    decreases rank
  {
    RankTextChars(mb, rank, 0, 0);
    if rank > 0 {
      RowsChars(mb, rank - 1);
      CharsAppend([Slash], RowTokens(mb, rank - 1));
      CharsAppend(RankTokens(mb, rank, 0, 0), [Slash] + RowTokens(mb, rank - 1));
    } else {
      assert RankText(mb, rank, 0, 0) + [] == RankText(mb, rank, 0, 0);
      CharsAppend(RankTokens(mb, rank, 0, 0), []);
    }
  }

  /** The board after the square `sq` of the mailbox is written to it. */
  function PlaceFrom(mb: Mailbox, sq: Square, board: Position): Position
  {
    match mb[sq]
    case None => board
    case Some(pc) => Place(board, pc.color, pc.pieceType, sq)
  }

  /** The board after the pieces of `rank` from `file` on are placed, in file order. */
  function RankBoard(mb: Mailbox, rank: int, file: int, board: Position): Position
    requires 0 <= rank < 8 && 0 <= file <= 8
    decreases 8 - file
  {
    if file == 8 then board else RankBoard(mb, rank, file + 1, PlaceFrom(mb, SquareNew(file, rank), board))
  }

  /** The board after the pieces of the ranks from `rank` down to rank 1 are placed. */
  function RowsBoard(mb: Mailbox, rank: int, board: Position): Position
    requires 0 <= rank < 8
    decreases rank
  {
    var b := RankBoard(mb, rank, 0, board);
    if rank == 0 then b else RowsBoard(mb, rank - 1, b)
  }

  /** Reading the tokens of one rank, from a cursor `empty` files back, places its pieces and ends at the rank's end. */
  lemma {:induction false} RankTokensRun(mb: Mailbox, rank: int, file: int, empty: int, board: Position)
    requires 0 <= rank < 8 && 0 <= empty <= file <= 8
    ensures RunTokens(Cursor(rank, file - empty, board), RankTokens(mb, rank, file, empty))
            == Some(Cursor(rank, 8, RankBoard(mb, rank, file, board)))
    decreases 8 - file
  {
    if file == 8 {
      assert RunTokens(Cursor(rank, file - empty, board), RunToken(empty)) == Some(Cursor(rank, file, board));
    } else {
      var next := file + 1;
      match mb[SquareNew(file, rank)]
      case Some(pc) =>
        var placed := Place(board, pc.color, pc.pieceType, SquareNew(file, rank));
        RankTokensRun(mb, rank, next, 0, placed);
        PieceTokensRun(mb, rank, file, empty, board, pc, next, placed);
      case None =>
        var more := empty + 1;
        RankTokensRun(mb, rank, next, more, board);
        SkipTokensRun(mb, rank, file, empty, board, next, more);
    }
  }

  /** The step of `RankTokensRun` past a piece: the pending run, the letter, then the rest of the rank. */
  lemma PieceTokensRun(mb: Mailbox, rank: int, file: int, empty: int, board: Position, pc: Piece, next: int, placed: Position)
    requires 0 <= rank < 8 && 0 <= empty <= file < 8 && next == file + 1
    requires mb[SquareNew(file, rank)] == Some(pc)
    requires placed == Place(board, pc.color, pc.pieceType, SquareNew(file, rank))
    requires RunTokens(Cursor(rank, next - 0, placed), RankTokens(mb, rank, next, 0))
             == Some(Cursor(rank, 8, RankBoard(mb, rank, next, placed)))
    ensures RunTokens(Cursor(rank, file - empty, board), RankTokens(mb, rank, file, empty))
            == Some(Cursor(rank, 8, RankBoard(mb, rank, file, board)))
  {
    var start, skipped := Cursor(rank, file - empty, board), Cursor(rank, file, board);
    var run, rest := RunToken(empty), RankTokens(mb, rank, next, 0);
    assert RunTokens(start, run) == Some(skipped);
    assert Cursor(rank, next - 0, placed) == Cursor(rank, next, placed);
    assert RunTokens(skipped, [Letter(pc)]) == Some(Cursor(rank, next, placed));
    RunTokensAppend(start, run, [Letter(pc)]);
    RunTokensAppend(start, run + [Letter(pc)], rest);
    assert RankTokens(mb, rank, file, empty) == run + [Letter(pc)] + rest;
    assert RankBoard(mb, rank, file, board) == RankBoard(mb, rank, next, placed);
  }

  /** The step of `RankTokensRun` past an empty square: the run grows by one. */
  lemma SkipTokensRun(mb: Mailbox, rank: int, file: int, empty: int, board: Position, next: int, more: int)
    requires 0 <= rank < 8 && 0 <= empty <= file < 8 && next == file + 1 && more == empty + 1
    requires mb[SquareNew(file, rank)] == None
    requires RunTokens(Cursor(rank, next - more, board), RankTokens(mb, rank, next, more))
             == Some(Cursor(rank, 8, RankBoard(mb, rank, next, board)))
    ensures RunTokens(Cursor(rank, file - empty, board), RankTokens(mb, rank, file, empty))
            == Some(Cursor(rank, 8, RankBoard(mb, rank, file, board)))
  {
    assert Cursor(rank, next - more, board) == Cursor(rank, file - empty, board);
    assert RankTokens(mb, rank, file, empty) == RankTokens(mb, rank, next, more);
    assert RankBoard(mb, rank, file, board) == RankBoard(mb, rank, next, board);
  }

  /** Reading the tokens of the ranks from `rank` down places their pieces and ends after the last file of rank 1. */
  lemma {:induction false} RowTokensRun(mb: Mailbox, rank: int, board: Position)
    requires 0 <= rank < 8
    ensures RunTokens(Cursor(rank, 0, board), RowTokens(mb, rank)) == Some(Cursor(0, 8, RowsBoard(mb, rank, board)))
    decreases rank
  {
    var start := Cursor(rank, 0, board);
    var own := RankTokens(mb, rank, 0, 0);
    var b1 := RankBoard(mb, rank, 0, board);
    RankTokensRun(mb, rank, 0, 0, board);
    assert Cursor(rank, 0 - 0, board) == start;
    assert RunTokens(start, own) == Some(Cursor(rank, 8, b1));
    if rank > 0 {
      var more := RowTokens(mb, rank - 1);
      assert RowTokens(mb, rank) == own + ([Slash] + more);
      assert RowsBoard(mb, rank, board) == RowsBoard(mb, rank - 1, b1);
      RowTokensRun(mb, rank - 1, b1);
      assert RunTokens(Cursor(rank, 8, b1), [Slash]) == Some(Cursor(rank - 1, 0, b1));
      RunTokensAppend(Cursor(rank, 8, b1), [Slash], more);
      RunTokensAppend(start, own, [Slash] + more);
    } else {
      assert RowTokens(mb, rank) == own + [];
      assert own + [] == own;
      assert RowsBoard(mb, rank, board) == b1;
    }
  }

  /** Writing one more square of a rank keeps the board in step with what has been read. */
  lemma PlaceFromRepresents(mb: Mailbox, rank: int, file: int, next: int, board: Position)
    requires 0 <= rank < 8 && 0 <= file < 8 && next == file + 1
    requires Represents(board, Upto(mb, Scan(rank, file)))
    ensures Represents(PlaceFrom(mb, SquareNew(file, rank), board), Upto(mb, Scan(rank, next)))
  {
    var sq := SquareNew(file, rank);
    match mb[sq]
    case None =>
      UptoSkip(mb, rank, file, next);
    case Some(pc) =>
      PlacePiece(mb, rank, file, next, board, pc);
  }

  /** The occupied case of `PlaceFromRepresents`. */
  lemma PlacePiece(mb: Mailbox, rank: int, file: int, next: int, board: Position, pc: Piece)
    requires 0 <= rank < 8 && 0 <= file < 8 && next == file + 1
    requires mb[SquareNew(file, rank)] == Some(pc)
    requires Represents(board, Upto(mb, Scan(rank, file)))
    ensures Represents(PlaceFrom(mb, SquareNew(file, rank), board), Upto(mb, Scan(rank, next)))
  {
    var sq := SquareNew(file, rank);
    var up0, up1 := Upto(mb, Scan(rank, file)), Upto(mb, Scan(rank, next));
    assert up0[sq] == None;
    PlaceStep(board, up0, pc.color, pc.pieceType, sq);
    UptoPlace(mb, rank, file);
    assert up1 == up0[sq := Some(Piece(pc.pieceType, pc.color))];
  }

  /** One step of `RankBoard`: the square at `file`, then the rest of the rank. */
  lemma RankUnfold(mb: Mailbox, rank: int, file: int, board: Position)
    requires 0 <= rank < 8 && 0 <= file < 8
    ensures RankBoard(mb, rank, file, board) == RankBoard(mb, rank, file + 1, PlaceFrom(mb, SquareNew(file, rank), board))
  {
  }

  /** What holds of the board after the rest of the rank holds of the board after the whole rank from `file`. */
  lemma RankNext(mb: Mailbox, rank: int, file: int, board: Position, next: int, nb: Position, up: Mailbox)
    requires 0 <= rank < 8 && 0 <= file < 8 && next == file + 1 && nb == PlaceFrom(mb, SquareNew(file, rank), board)
    requires Represents(RankBoard(mb, rank, next, nb), up)
    ensures Represents(RankBoard(mb, rank, file, board), up)
  {
    RankUnfold(mb, rank, file, board);
  }

  /** Placing the pieces of `rank` from `file` on adds exactly the position's pieces of those squares. */
  lemma {:induction false} RankRepresents(mb: Mailbox, rank: int, file: int, board: Position)
    requires 0 <= rank < 8 && 0 <= file <= 8
    requires Represents(board, Upto(mb, Scan(rank, file)))
    ensures Represents(RankBoard(mb, rank, file, board), Upto(mb, Scan(rank, 8)))
    decreases 8 - file
  {
    if file < 8 {
      var next := file + 1;
      var nb := PlaceFrom(mb, SquareNew(file, rank), board);
      PlaceFromRepresents(mb, rank, file, next, board);
      RankRepresents(mb, rank, next, nb);
      RankNext(mb, rank, file, board, next, nb, Upto(mb, Scan(rank, 8)));
    } else {
      assert RankBoard(mb, rank, file, board) == board;
    }
  }

  /** Placing the pieces of a rank above rank 1 leaves the board ready for the next rank down. */
  lemma RankThenNext(mb: Mailbox, rank: int, board: Position)
    requires 0 < rank < 8
    requires Represents(board, Upto(mb, Scan(rank, 0)))
    ensures Represents(RankBoard(mb, rank, 0, board), Upto(mb, Scan(rank - 1, 0)))
  {
    RankRepresents(mb, rank, 0, board);
    assert Upto(mb, Scan(rank, 8)) == Upto(mb, Scan(rank - 1, 0));
  }

  /** The board holds every piece of the mailbox. */
  ghost predicate Complete(board: Position, mb: Mailbox)
  {
    Represents(board, Upto(mb, 64))
  }

  /** Placing the pieces of rank 1 completes the mailbox. */
  lemma LastRank(mb: Mailbox, rank: int, board: Position)
    requires rank == 0
    requires Represents(board, Upto(mb, Scan(0, 0)))
    ensures Complete(RowsBoard(mb, rank, board), mb)
  {
    RankRepresents(mb, 0, 0, board);
    assert Upto(mb, Scan(0, 8)) == Upto(mb, 64);
  }

  /** Placing the pieces of the ranks from `rank` down completes the mailbox. */
  lemma {:induction false} RowsRepresent(mb: Mailbox, rank: int, board: Position)
    requires 0 <= rank < 8
    requires Represents(board, Upto(mb, Scan(rank, 0)))
    ensures Complete(RowsBoard(mb, rank, board), mb)
    decreases rank
  {
    if rank > 0 {
      var below, b1 := rank - 1, RankBoard(mb, rank, 0, board);
      RankThenNext(mb, rank, board);
      RowsRepresent(mb, below, b1);
      RowsNext(mb, rank, board, below, b1);
    } else {
      LastRank(mb, rank, board);
    }
  }

  /** The ranks from `rank` down are rank `rank` followed by the ranks below it. */
  lemma RowsNext(mb: Mailbox, rank: int, board: Position, below: int, next: Position)
    requires 0 < rank < 8 && below == rank - 1 && next == RankBoard(mb, rank, 0, board)
    requires Complete(RowsBoard(mb, below, next), mb)
    ensures Complete(RowsBoard(mb, rank, board), mb)
  {
    RowsUnfold(mb, rank, board);
  }

  /** One step of `RowsBoard`: rank `rank`, then the ranks below it. */
  lemma RowsUnfold(mb: Mailbox, rank: int, board: Position)
    requires 0 < rank < 8
    ensures RowsBoard(mb, rank, board) == RowsBoard(mb, rank - 1, RankBoard(mb, rank, 0, board))
  {
  }

  /** Two boards representing the same mailbox have the same bitboards. */
  lemma RepresentsUnique(a: Position, b: Position, mb: Mailbox)
    requires Represents(a, mb) && Represents(b, mb)
    ensures a.pieces == b.pieces && a.occupancy == b.occupancy
  {
    forall i, j | 0 <= i < 2 && 0 <= j < 6
      ensures a.pieces[i][j] == b.pieces[i][j]
    {
      var c := if i == 0 then White else Black;
      assert Pieces(a, c, ALL[j]) == Pieces(b, c, ALL[j]);
    }
    forall i | 0 <= i < 2
      ensures a.pieces[i] == b.pieces[i] && a.occupancy[i] == b.occupancy[i]
    {
      var c := if i == 0 then White else Black;
      assert Occupancy(a, c) == Occupancy(b, c);
    }
  }

  /** Reading the printed placement field of a sound position gives back its bitboards. */
  lemma PlacementRoundTrip(p: Position) returns (board: Position)
    requires Sound(p)
    ensures RunPlacement(START_CURSOR, Rows(MailboxOf(p), 7)) == Some(Cursor(0, 8, board))
    ensures board.pieces == p.pieces && board.occupancy == p.occupancy
  {
    var mb := MailboxOf(p);
    UptoEnds(mb);
    EmptyBoardRepresents();
    board := RowsBoard(mb, 7, EMPTY_BOARD);
    RowsRepresent(mb, 7, EMPTY_BOARD);
    RowsChars(mb, 7);
    ReadTokens(START_CURSOR, RowTokens(mb, 7));
    RowTokensRun(mb, 7, EMPTY_BOARD);
    RepresentsUnique(board, p, mb);
  }

  /** `from_fen` reads back what `to_fen` writes. */
  lemma FenRoundTrip(p: Position)
    requires FenReady(p)
    ensures ParseFen(FenOf(p)) == Some(p)
  {
    FenSplits(p);
    var parts := FenFields(p);
    var board := PlacementRoundTrip(p);
    assert ParseFen(FenOf(p)) == ParseFields(parts, board);
    CastlingRoundTrip(p.castling);
    AllOfColors(MailboxOf(p));
    var read := Position(p.pieces, p.occupancy, p.all, p.sideToMove, p.castling, None, 0, 1);
    assert ParseFields(parts, board) == ParseTail(parts, read);
    EnPassantRoundTrip(p.enPassant);
    DecimalRoundTrip(p.halfmoveClock);
    DecimalRoundTrip(p.fullmoveNumber);
  }

  /** Printing an accepted FEN text and reading it again gives the same position. */
  lemma ReparseFen(fen: string)
    requires ParseFen(fen).Some?
    ensures ParseFen(FenOf(ParseFen(fen).value)) == ParseFen(fen)
  {
    ParseFenReady(fen);
    FenRoundTrip(ParseFen(fen).value);
  }
}
