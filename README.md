# Chess engine and bots of `playground`, modelled in Dafny

The `playground` repository hosts chess bots that run as WebAssembly components
against a host, plus the chess engine the host uses. This project models three
of its pieces and proves properties of the model:

* **The move-scoring bot.** It exists as a Rust component (`bots/smart-bot`) and
  a Python component (`bots/python-smart-bot`).
  - `parse_uci` turns `"e2e4"` into the square indices `rank * 8 + file`.
  - `score_move` adds up four bonuses:
    - a capture bonus of `100 + 10 * value(victim)`;
    - a promotion bonus read from the fifth character;
    - a centre or extended-centre bonus;
    - an opening development bonus.
  - `select_move` takes the best-scoring moves and breaks ties with
    `(fullmove + halfmove) mod |tied|`, in list order.
* **The random bot** (`bots/random-bot`). It picks `moves[(fullmove + halfmove) mod |moves|]`.
* **The chess engine** (`chess-engine`). It covers:
  - squares, piece letters, UCI moves and the castling-rights byte (`types.rs`);
  - a bitboard `Board` with FEN parsing and printing (`board.rs`);
  - in-place move application;
  - pseudo-legal and legal move generation;
  - `make_move`;
  - the game-state classifier.

## Structure

The bot modules are pure, as the source is:

* `SmartBot` covers the Rust bot.
* `PySmartBot` covers the Python bot. Its `int()` calls can raise, so its
  results are `Outcome`s (a value, or a raised `ValueError`).
* `BotParity` states how far the Python bot's claim to use "the same
  strategy" holds.
* `RandomBot` covers the random bot.

The engine is layered:

* **`Types`.** Squares (`nat` below 64), piece and UCI characters, `Move`, and
  `mask_for_square`. `CastlingRights` is a class over a `bv8` whose `Clear`
  updates it in place, as `clear(&mut self)` does.
* **`Bitboards`.** A `u64` bitboard is a `set<Square>`: bit `i` is square `i`.
  `^` is symmetric difference, `count_ones` is cardinality, and
  `trailing_zeros` / `63 - leading_zeros` are the least / greatest element.
* **`Attacks`.** The attack tables are pure functions of the square:
  - knight and king attacks as leaper offsets;
  - pawn attacks;
  - the eight rays, walked as in the table builder.

  `nearest_blocker`, the sliding attack set `ray ^ rays[blocker]` and
  `ray_hits` are then characterised geometrically (the squares up to and
  including the first occupied one).
* **`Positions`.** A pure `Position` value, the abstract state of a `Board`.
  - `Apply` is `apply_unchecked` as a function. It is built from the source's
    stages: lift the piece, capture, take en passant, place, move the rook, then
    update en passant, castling, `all`, the clocks and the side.
  - A mailbox view (`MailboxOf` = `piece_at` on every square) and the invariant
    `Sound` relate the bitboards to one piece per square. On sound positions
    `Apply` is proved to do the expected mailbox move.
* **`MoveGen`.** Pseudo-legal generation, the legality filter, `make_move`'s
  matching on from/to/promotion, and `game_state`, as functions of a
  `Position`.
* **`Consistency`.** The invariant of play, `Coherent`, which holds when all of
  the following do:
  - the bitboards are sound;
  - each castling right still has its king and rook at home;
  - any en-passant square is empty, with the pawn that passed it in front;
  - no pawn stands on its last rank.

  Every generated move preserves it.
* **`Fen`.** `from_fen` and `to_fen` as functions, with the round trip
  `ParseFen(FenOf(p)) == Some(p)`.
* **`FenExamples`.** The texts of the `from_fen` unit tests, the rejected and
  the accepted ones, read by the model.
* **`StrictFen`.** Two texts `from_fen` accepts whose positions cannot be
  played (see "## Findings"), and `ParseFenChecked`, `from_fen` with the
  missing checks.
* **`Engine`.** The `Board` class itself, with the source's fields:
  - `pieces` is an array of six bitboards per colour;
  - `occupancy` is an array of two;
  - `all`, side, clocks and en passant are fields;
  - castling is a `CastlingRights` object.

  Every method is proved against the spec function its contract names.
  `ApplyUnchecked` updates the arrays in place stage by stage. `FromFen`
  loops over the placement field. `ToFen` builds the text rank by rank with
  an empty-square counter. The move generators loop over their bitboards.

Integers are unbounded in Dafny. The `u16` clocks are modelled explicitly:
`saturating_add` for the full-move number, and a wrapping `+ 1` for the
half-move clock. Strings are `seq<char>`. The Rust code checks bytes
(`checked_sub`, `wrapping_sub`), and the model writes those checks as
character ranges. Both give the same answer on any string, because a byte of
a multi-byte UTF-8 character is never in `'a'..'h'` or `'1'..'8'`.

A worked tie-break, read from the source alone: `is_center`
(`bots/smart-bot/src/lib.rs:45-48`) makes e4 and d4 centre squares worth 15,
so on an empty board at move 1 `e2e4` and `d2d4` tie at 15 while `a2a3`
scores 0. The seed `1 + 0` then picks index 1 of the two tied moves, `d2d4`
(`SmartBot.TieBreakExample`).

## Model

| member | source | states |
|---|---|---|
| SmartBot.PieceValue | bots/smart-bot/src/lib.rs:18-26 | the value lies in 0..9 and is 0 exactly for the king |
| SmartBot.ParseUci | bots/smart-bot/src/lib.rs:30-43 | a result exists iff there are at least 4 characters and they are a file, a rank, a file and a rank; both indices are below 64 |
| SmartBot.ParseUciOfNames | bots/smart-bot/src/lib.rs:30-43 | parsing two square names followed by anything gives back those two squares (the suffix after the fourth character is ignored) |
| SmartBot.ParseUciNamesItsSquares | bots/smart-bot/src/lib.rs:30-43 | a parsable string is the names of its two parsed squares followed by its tail |
| SmartBot.ParseUciExamples | bots/smart-bot/src/lib.rs:183-213 | e2e4 gives (12,28), a1h8 (0,63), e7e8q (52,60); too-short strings and bad files or ranks give None |
| SmartBot.ScoreMove | bots/smart-bot/src/lib.rs:64-99 | every score lies in [0, 303], and an unparsable move scores 0 |
| SmartBot.CaptureBonus | bots/smart-bot/src/lib.rs:71-73 | putting a victim on the empty destination raises the score by exactly 100 + 10 * value(victim) |
| SmartBot.PromotionBonusAdds | bots/smart-bot/src/lib.rs:75-82 | a move longer than 4 characters scores its first four characters plus the bonus of the fifth (q 90, r 50, b/n 30, else 0) |
| SmartBot.CenterWithinExtendedCenter | bots/smart-bot/src/lib.rs:46-55 | every centre square is in the extended centre |
| SmartBot.CenterBonus | bots/smart-bot/src/lib.rs:84-88 | a quiet four-character move from an empty square scores 15 onto d4, e4, d5 or e5, otherwise 5 onto files c-f of ranks 3-6, otherwise 0, read off the destination's letter and digit |
| SmartBot.DevelopmentBonus | bots/smart-bot/src/lib.rs:90-96 | before move 10, putting a piece on the empty from-square adds 8 unless it is a pawn |
| SmartBot.NoDevelopmentAfterOpening | bots/smart-bot/src/lib.rs:90-96 | from move 10 on, what stands on the from-square does not change the score |
| SmartBot.BestScore | bots/smart-bot/src/lib.rs:128-129 | the result bounds every move's score and is the score of some move |
| SmartBot.Tied | bots/smart-bot/src/lib.rs:130-134 | a move is kept iff it is a candidate with the given score |
| SmartBot.SelectMove | bots/smart-bot/src/lib.rs:118-149 | "" for no moves; otherwise a member of the list with maximal score, namely tied[(fullmove+halfmove) % \|tied\|] with tied non-empty; this also covers the separate one-tied branch |
| SmartBot.ScoreMoveExamples | bots/smart-bot/src/lib.rs:218-280 | a1d4 scores 15 and a1c3 5 after the opening; taking a queen on d4 scores 205; e7e8q 90 and e7e8n 30; g1f3 with a knight on g1 13 in the opening; e2e4 with a pawn on e2 15; zz 0 |
| SmartBot.TieBreakExample | bots/smart-bot/src/lib.rs:128-145 | with e2e4, d2d4 and a2a3 on move 1, ply 0, the two centre pushes tie and the index 1 picks d2d4 |
| SmartBot.SuggestMove | bots/smart-bot/src/lib.rs:151-153 | equals `SelectMove` |
| PySmartBot.Int | bots/python-smart-bot/bot.py:30-32 | `int(c)` returns exactly for an ASCII digit and raises `ValueError` otherwise |
| PySmartBot.ParseUci | bots/python-smart-bot/bot.py:26-36 | raises iff there are at least 4 characters and a rank character is not a digit; any pair returned lies in [0, 63] |
| PySmartBot.ScoreMove | bots/python-smart-bot/bot.py:39-70 | raises exactly when parsing raises, scores 0 when parsing gives None, and otherwise scores within [0, 303] |
| PySmartBot.ScoreAll | bots/python-smart-bot/bot.py:94 | the list comprehension raises iff some move's scoring raises; otherwise it gives each move's score, position by position |
| PySmartBot.Max | bots/python-smart-bot/bot.py:95 | the result bounds every score and is one of them |
| PySmartBot.TiedOf | bots/python-smart-bot/bot.py:96 | every kept move carries the best score, and some move is kept when any has it |
| PySmartBot.SelectMove | bots/python-smart-bot/bot.py:86-102 | "" for no moves; raises iff scoring some move raises; otherwise returns a member of the list with maximal score |
| PySmartBot.SuggestMove | bots/python-smart-bot/bot.py:104-106 | equals `SelectMove` |
| PySmartBot.ExtendedCenterMembership | bots/python-smart-bot/bot.py:23 | the comprehension holds exactly the indices with file and rank in 2..5 |
| PySmartBot.CenterWithinExtendedCenter | bots/python-smart-bot/bot.py:22-23 | `CENTER` is a subset of `EXTENDED_CENTER` |
| BotParity.ParseUciParity | bots/python-smart-bot/bot.py:26-36 | where Python returns, it returns what the Rust parser returns; where it raises, Rust returns None |
| BotParity.ScoreMoveParity | bots/python-smart-bot/bot.py:39-70 | where Python's score returns it equals Rust's; where it raises, Rust scores 0 |
| BotParity.MaxParity | bots/python-smart-bot/bot.py:95 | `max` over the Rust scores is Rust's best score |
| BotParity.TiedParity | bots/python-smart-bot/bot.py:96 | Python's tied list is Rust's tied list, element for element and in order |
| BotParity.SelectMoveParity | bots/python-smart-bot/bot.py:2 | whenever the Python bot returns a move, it is the move the Rust bot returns |
| BotParity.ParityGap | bots/python-smart-bot/bot.py:30-32 | on ["e2e4", "exe4"] the Python bot raises while the Rust bot answers "e2e4" |
| RandomBot.SelectMove | bots/random-bot/src/lib.rs:33-50 | "" for no moves, otherwise a member of the list |
| RandomBot.SuggestMove | bots/random-bot/src/lib.rs:52-54 | equals `SelectMove` |
| RandomBot.FirstMoveAtZeroSeed | bots/random-bot/src/lib.rs:45-46 | when fullmove + halfmove is a multiple of the list length, the first move is chosen |
| RandomBot.PliesLater | bots/random-bot/src/lib.rs:45-46 | from a board that picks the first move, k half-moves later the bot picks move k mod the length |
| RandomBot.StartPicksSecond | bots/random-bot/src/lib.rs:45-46 | at the start of a game (move 1, half-move clock 0) any list of two or more moves gives its second move |
| RandomBot.DependsOnlyOnClocks | bots/random-bot/src/lib.rs:40-46 | two boards with equal clocks give the same move for the same list |
| RandomBot.NextPlyPicksNextMove | bots/random-bot/src/lib.rs:45-46 | one more half-move picks the next move of the list, cyclically |
| RandomBot.NextMoveNumberPicksNextMove | bots/random-bot/src/lib.rs:45-46 | one more full move picks the next move of the list, wrapping round |
| Types.Rank | chess-engine/src/types.rs:55-57 | the rank of a square is in 0..7 |
| Types.File | chess-engine/src/types.rs:62-64 | the file of a square is in 0..7 |
| Types.SquareNewCoordinates | chess-engine/src/types.rs:28-32 | `file()` and `rank()` of `Square::new(f, r)` give back f and r |
| Types.FromIndex | chess-engine/src/types.rs:40-43 | an index below 64 is the square of its own file and rank |
| Types.FromAlgebraic | chess-engine/src/types.rs:76-88 | accepts exactly two characters, a..h then 1..8, and reads the file and rank from them |
| Types.SquareName | chess-engine/src/types.rs:97-106 | prints a file letter a..h then a rank digit 1..8 |
| Types.NameOfCoordinates | chess-engine/src/types.rs:97-106 | the name of `Square::new(f, r)` is `'a'+f` followed by `'1'+r` |
| Types.AlgebraicRoundTrip | chess-engine/src/types.rs:76-106 | parsing a printed square gives the square back |
| Types.AlgebraicRoundTripBack | chess-engine/src/types.rs:76-106 | printing a parsed square gives the text back |
| Types.FromAlgebraicExamples | chess-engine/src/board.rs:1178-1187 | e4, a1 and h8 parse; "", "a", "a0", "a9", "i1" and "e4x" do not |
| Types.TypeIndex | chess-engine/src/types.rs:126-133 | each piece type's index is in 0..5 and `ALL` holds it there |
| Types.ToUciChar | chess-engine/src/types.rs:144-152 | each of the four promotable types prints as one of q, r, b, n |
| Types.FromUciChar | chess-engine/src/types.rs:156-164 | a type exists exactly for q/Q, r/R, b/B, n/N, and it is promotable |
| Types.UciCharRoundTrip | chess-engine/src/types.rs:144-164 | parsing the printed character of a promotable type gives the type back |
| Types.UciCharRoundTripBack | chess-engine/src/types.rs:144-164 | printing a parsed character gives its lower-case form |
| Types.UciCharCaseInsensitive | chess-engine/src/types.rs:156-164 | upper- and lower-case letters parse alike |
| Types.Opposite | chess-engine/src/types.rs:192-197 | the opposite colour is never the colour itself |
| Types.OppositeInvolution | chess-engine/src/types.rs:192-197 | taking the opposite twice is the identity, and there is no fixed point |
| Types.ColorIndex | chess-engine/src/types.rs:202-204 | the index is 0 or 1, and 0 exactly for White |
| Types.ToFenChar | chess-engine/src/types.rs:246-259 | a piece letter is one of PNBRQKpnbrqk, upper case exactly for White |
| Types.FromFenChar | chess-engine/src/types.rs:263-279 | a piece exists exactly for the twelve piece letters, and it is White exactly for upper case |
| Types.FenCharRoundTrip | chess-engine/src/types.rs:246-279 | parsing a piece's letter gives the piece back |
| Types.FenCharRoundTripBack | chess-engine/src/types.rs:246-279 | printing a parsed letter gives the letter back |
| Types.PromotionPiece | chess-engine/src/types.rs:358-363 | a piece is returned exactly for promotion moves, and it is their piece |
| Types.ToUci | chess-engine/src/types.rs:367-373 | the text is the two square names, plus one letter exactly for promotions |
| Types.FromUci | chess-engine/src/types.rs:381-408 | accepts exactly 4 or 5 characters with four in-range coordinates and a promotion letter as any fifth; the kind is Promotion exactly when there are 5, Normal otherwise |
| Types.UciRoundTrip | chess-engine/src/types.rs:367-408 | parsing a printed move gives back its from, to and promotion piece |
| Types.UciRoundTripBack | chess-engine/src/types.rs:367-408 | printing a parsed move gives back the text, with the promotion letter in lower case |
| Types.FromUciExamples | chess-engine/src/board.rs:1141-1161 | e2e4, e7e8q and e7e8N parse as expected; "", e2, z9z9, e7e8qX, e2e4extra, e2e4qq, e7e8k, i2e4 and e0e4 do not |
| Types.MaskForSquare | chess-engine/src/types.rs:468-478 | the mask is non-zero exactly on squares 0, 4, 7, 56, 60 and 63; it names WK exactly on e1/h1, WQ on e1/a1, BK on e8/h8 and BQ on e8/a8 |
| Types.CastlingRights.constructor | chess-engine/src/types.rs:430 | wraps the given rights byte |
| Types.CastlingRights.Clear | chess-engine/src/types.rs:462 | the new byte is the old one with the mask's bits removed, so no bit is ever gained |
| Types.ClearRemovesOnlyMasked | chess-engine/src/types.rs:462 | after clearing, a right survives iff it was held and the mask does not name it |
| Bitboards.Xor | chess-engine/src/board.rs:740-741 | a square is in `a ^ b` iff it is in exactly one of them |
| Bitboards.Lsb | chess-engine/src/board.rs:129-132 | `trailing_zeros` of a non-empty bitboard is its least square |
| Bitboards.Msb | chess-engine/src/board.rs:145 | `63 - leading_zeros` of a non-empty bitboard is its greatest square |
| Attacks.Leaper | chess-engine/src/board.rs:106-118 | the loop collects exactly the on-board squares at the given offsets |
| Attacks.ReachMember | chess-engine/src/board.rs:106-118 | a square is reached iff its rank and file difference is one of the offsets |
| Attacks.KnightAttackGeometry | chess-engine/src/board.rs:52-55 | the knight table holds exactly the squares a (1,2) or (2,1) jump away |
| Attacks.KnightAttackSymmetric | chess-engine/src/board.rs:52-55 | a attacks b by knight iff b attacks a |
| Attacks.KingAttackGeometry | chess-engine/src/board.rs:56-59 | the king table holds exactly the other squares at distance 1 |
| Attacks.PawnAttackGeometry | chess-engine/src/board.rs:61-83 | a pawn attacks exactly the squares one rank forward and one file aside |
| Attacks.PawnAttackDuality | chess-engine/src/board.rs:502-506 | a pawn of colour c on a attacks b iff a pawn of the other colour on b attacks a; this is why `is_attacked` reads the defender's table |
| Attacks.StepOrder | chess-engine/src/board.rs:134-147 | an ascending direction steps to a higher square index and every other direction to a lower one, so the least or greatest blocker is the nearest |
| Attacks.RayGeometry | chess-engine/src/board.rs:87-100 | the k-th square of a ray lies k+1 steps along the direction |
| Attacks.RayMonotone | chess-engine/src/board.rs:134-147 | a ray's squares run in index order along its direction |
| Attacks.RaySuffix | chess-engine/src/board.rs:91-100 | the ray from a ray's square is the rest of the ray |
| Attacks.NearestBlocker | chess-engine/src/board.rs:140-147 | the result is a blocker, and it comes before every other blocker along the direction |
| Attacks.FirstBlocker | chess-engine/src/board.rs:140-147 | on a ray, the nearest blocker is the first occupied square of the walk |
| Attacks.CutAfter | chess-engine/src/board.rs:649 | `ray ^ rays[blocker]` holds exactly the walk up to and including the blocker |
| Attacks.SlideAttacksReach | chess-engine/src/board.rs:643-650 | a slider attacks exactly the ray squares with nothing occupied before them |
| Attacks.RayHitsReach | chess-engine/src/board.rs:527-535 | `ray_hits` holds iff some target is on the ray with nothing occupied before it |
| Positions.PieceTypeAtSpec | chess-engine/src/board.rs:477-483 | the first type, in `ALL` order, whose bitboard holds the square; None iff none does |
| Positions.KingSquare | chess-engine/src/board.rs:471-475 | the square returned holds a king of that colour |
| Positions.TogglePieces | chess-engine/src/board.rs:740 | XOR on one piece bitboard; every other bitboard is unchanged |
| Positions.ToggleOccupancy | chess-engine/src/board.rs:741 | XOR on one occupancy; the other is unchanged |
| Positions.Place | chess-engine/src/board.rs:768-769 | OR of the square into one piece bitboard and its colour's occupancy; nothing else changes |
| Positions.EpVictim | chess-engine/src/board.rs:752-757 | the pawn taken en passant stands on the destination's file, one rank behind it |
| Positions.WrappingInc | chess-engine/src/board.rs:808 | the half-move clock's `+ 1` modulo 2^16 |
| Positions.SaturatingInc | chess-engine/src/board.rs:814 | `saturating_add(1)`: one more below 65535, stuck at 65535 |
| Positions.Apply | chess-engine/src/board.rs:724-816 | the side flips; `all` is the union of the occupancies; the full-move number increments (saturating) only after Black; the half-move clock resets exactly on a pawn move, a capture or en passant (or wraps), and otherwise adds one; en passant is set exactly by a double push, to the midpoint |
| Positions.ApplyCastlingRights | chess-engine/src/board.rs:796-799 | no right is gained; each right survives iff held and neither the from- nor the to-square is its king or rook square |
| Positions.ClearTwoSquares | chess-engine/src/types.rs:462-478 | clearing the masks of two squares removes exactly the rights naming either square |
| Positions.MailboxOf | chess-engine/src/board.rs:432-444 | each square holds what `piece_at` reports |
| Positions.TypeAtRepresented | chess-engine/src/board.rs:477-483 | on a represented board, `piece_type_at` returns the square's piece type when the colour matches, else None |
| Positions.ReadBack | chess-engine/src/board.rs:432-444 | reading back a board that represents a mailbox gives that mailbox |
| Positions.SoundWhenRepresents | chess-engine/src/board.rs:315-321 | bitboards built from a mailbox, with `all` its occupied squares, are sound |
| Positions.AllOfColors | chess-engine/src/board.rs:321 | the occupied squares are the union of both colours' |
| Positions.ToggleStep | chess-engine/src/board.rs:740-741 | toggling a square in a piece board and its occupancy adds or removes that piece in the mailbox |
| Positions.PlaceStep | chess-engine/src/board.rs:768-769 | OR-ing a piece onto an empty square puts it there in the mailbox |
| Positions.CaptureStep | chess-engine/src/board.rs:743-749 | removing the captured piece empties the square in the mailbox |
| Positions.MailboxMove | chess-engine/src/board.rs:724-784 | the intended mailbox effect of a move: from-square empty, to-square holding the mover or its promotion |
| Positions.EnPassantStep | chess-engine/src/board.rs:751-761 | the en-passant stage removes exactly the passed pawn |
| Positions.RookStep | chess-engine/src/board.rs:771-784 | the castling stage moves exactly the rook, from its corner to beside the king |
| Positions.StagesAgree | chess-engine/src/board.rs:739-784 | the source's stages, composed on a mailbox, are the intended mailbox move |
| Positions.MoveBoardsRefine | chess-engine/src/board.rs:739-784 | the bitboard updates represent the mailbox move |
| Positions.ApplyRefinesMailbox | chess-engine/src/board.rs:724-816 | on a sound board a fitting move keeps the board sound and does the mailbox move |
| MoveGen.TargetMoves | chess-engine/src/board.rs:669-674 | one Normal move from `from` to each target, and nothing else |
| MoveGen.Promotions | chess-engine/src/board.rs:582-584 | four promotion moves between the two squares, to promotable types |
| MoveGen.Ahead | chess-engine/src/board.rs:577 | the push square is on the same file, one rank forward |
| MoveGen.PawnPushes | chess-engine/src/board.rs:579-598 | pushes go to empty squares on the pawn's file; they promote exactly on the last rank; a push other than one rank forward is a double push from the start rank over an empty square |
| MoveGen.PawnCaptures | chess-engine/src/board.rs:600-613 | captures go to the given squares and promote exactly on the promotion rank |
| MoveGen.PawnMovesOf | chess-engine/src/board.rs:571-620 | every move is a push, a capture of an enemy on an attacked square, or en passant onto the en-passant square the pawn attacks |
| MoveGen.PawnMoves | chess-engine/src/board.rs:566-621 | every move comes from one of the pawns and is one of its moves |
| MoveGen.LeaperMoves | chess-engine/src/board.rs:664-676 | Normal moves from the pieces to table squares not holding a piece of their own |
| MoveGen.ConfigsOf | chess-engine/src/board.rs:684-685 | the configurations of one colour, each attacked by the other |
| MoveGen.CastlesFrom | chess-engine/src/board.rs:687-695 | each move is a configuration whose right is held, whose path is empty and whose transit and target squares are safe |
| MoveGen.CastlingMoves | chess-engine/src/board.rs:678-696 | no castling while in check; otherwise only the allowed configurations of the side to move |
| MoveGen.DirectionMoves | chess-engine/src/board.rs:642-657 | Normal moves to squares a slider attacks along one of the directions and not holding a piece of its own |
| MoveGen.SliderMoves | chess-engine/src/board.rs:632-659 | the same, for every piece of the type |
| MoveGen.TypeOfMember | chess-engine/src/board.rs:477-483 | a square on a piece bitboard has a type, and on the pawn board it is the pawn |
| MoveGen.KingStaysOnBoard | chess-engine/src/board.rs:764-769 | a move that does not promote the king leaves the mover a king |
| MoveGen.ConfigTarget | chess-engine/src/board.rs:184-221 | every configuration's king target is one of the four castling targets |
| MoveGen.CastleMovesPlayable | chess-engine/src/board.rs:678-696 | every generated castling can be applied and leaves the mover a king |
| MoveGen.PawnMovesPlayable | chess-engine/src/board.rs:566-621 | every generated pawn move can be applied and leaves the mover a king |
| MoveGen.PseudoLegalPlayable | chess-engine/src/board.rs:721-723 | every pseudo-legal move can be applied, which is the precondition `apply_unchecked` documents |
| MoveGen.LegalAmong | chess-engine/src/board.rs:550-557 | keeps exactly the moves after which the mover is not in check |
| MoveGen.Legal | chess-engine/src/board.rs:549-558 | a move is legal iff it is pseudo-legal and does not leave the mover in check |
| MoveGen.FindMatch | chess-engine/src/board.rs:709-711 | returns a member with the same from, to and promotion, or None when none has them |
| MoveGen.ResolveMove | chess-engine/src/board.rs:707-711 | finds a legal move matching on from, to and promotion, or None iff none matches |
| MoveGen.MakeMove | chess-engine/src/board.rs:707-715 | false with the position unchanged iff no legal move matches; otherwise true with a matching legal move applied, after which the mover is not in check |
| MoveGen.Classify | chess-engine/src/board.rs:824-859 | Checkmate iff no legal move and in check; Stalemate iff no legal move and not in check; Draw iff there are legal moves and material is insufficient or the half-move clock is at least 100; InProgress otherwise |
| Consistency.SquareReading | chess-engine/src/board.rs:315-321 | on a sound board each bitboard, each occupancy and `all` agree with `piece_at` |
| Consistency.CoherentCanPlay | chess-engine/src/board.rs:678-696 | a coherent position with the mover's king present meets `CanPlay`: every castle the generator offers starts from a square holding the mover's piece, and no pawn of the mover stands on its last rank |
| Consistency.GeneratedShape | chess-engine/src/board.rs:560-662 | every pseudo-legal move is a pawn move, a castling or a piece move of the expected shape |
| Consistency.ConfigGeometry | chess-engine/src/board.rs:184-221 | the king and rook squares of each configuration lie on its home rank, with the target and the rook's square on the path |
| Consistency.GeneratedMoveFits | chess-engine/src/board.rs:721-733 | on a coherent position every generated move starts from a piece of the mover and captures no own piece |
| Consistency.Untouched | chess-engine/src/board.rs:724-784 | squares other than from, to, the en-passant victim and the castling rook squares keep their piece |
| Consistency.RightSurvives | chess-engine/src/board.rs:796-799 | a right that survives a move was held, and the move touched neither its king square nor its rook square |
| Consistency.SideSquares | chess-engine/src/board.rs:751-779 | en passant and castling touch the ranks the source assumes |
| Consistency.CastlingStaysSound | chess-engine/src/board.rs:796-799 | after a generated move every surviving right still has its king and rook at home |
| Consistency.ConfigStaysSound | chess-engine/src/board.rs:184-221 | the same, for one configuration |
| Consistency.DoublePushShape | chess-engine/src/board.rs:786-794 | a move that sets en passant is a pawn's double push over an empty square |
| Consistency.EpStaysSound | chess-engine/src/board.rs:786-794 | after a generated move, any en-passant square is empty with the pawn that passed it in front |
| Consistency.CastleRookCells | chess-engine/src/board.rs:771-784 | castling leaves the rook squares empty or holding the mover's rook |
| Consistency.NoPawnOnLastRank | chess-engine/src/board.rs:581-584 | pushes and captures onto the last rank promote, so no pawn lands there |
| Consistency.PawnsStayBehind | chess-engine/src/board.rs:606-609 | after a generated move, no pawn of either colour is on its last rank |
| Consistency.PseudoLegalKeepsCoherent | chess-engine/src/board.rs:740-802 | every pseudo-legal move applies, does the mailbox move and keeps the position coherent |
| Fen.SplitWhitespace | chess-engine/src/board.rs:274 | every field is non-empty and contains no whitespace |
| Fen.SplitJoin | chess-engine/src/board.rs:274 | splitting fields joined by single spaces gives the fields back |
| Fen.ParseU16 | chess-engine/src/board.rs:359-365 | a clock parses iff, after one optional leading '+', it is a non-empty run of ASCII digits whose value is below 65536, and then its value is that number |
| Fen.ParseU16Accepts | chess-engine/src/board.rs:359-365 | "0" gives 0, "+7" gives 7 and "007" gives 7 |
| Fen.ParseU16Largest | chess-engine/src/board.rs:359-365 | "65535" gives 65535 |
| Fen.ParseU16Rejects | chess-engine/src/board.rs:933-939 | "abc", "xyz", "-1", "", "+", "1a" and "65536" are rejected |
| Fen.DecimalText | chess-engine/src/board.rs:422 | a number prints as a non-empty run of digits |
| Fen.DecimalValue | chess-engine/src/board.rs:422 | the printed digits denote the number |
| Fen.DecimalRoundTrip | chess-engine/src/board.rs:361-364 | parsing a printed `u16` gives it back |
| Fen.PlacementStep | chess-engine/src/board.rs:294-319 | one character of the placement loop keeps the rank below 8 and the file at most 8 |
| Fen.RunPlacement | chess-engine/src/board.rs:291-320 | the whole loop keeps the rank below 8 and the file at most 8 |
| Fen.EmptyBoardRepresents | chess-engine/src/board.rs:279-288 | the starting board represents the empty mailbox |
| Fen.PlacementRepresents | chess-engine/src/board.rs:291-321 | any accepted placement field yields bitboards that represent some mailbox: one piece per square |
| Fen.SideOf | chess-engine/src/board.rs:331-335 | only "w" and "b" are accepted, and "w" is White |
| Fen.CastlingOf | chess-engine/src/board.rs:338-348 | the byte has only the four right bits |
| Fen.CastlingOfAppend | chess-engine/src/board.rs:338-348 | the rights of two texts joined are the OR of their rights |
| Fen.EnPassantOf | chess-engine/src/board.rs:350-357 | "-" gives no square; any square accepted parses as algebraic and lies on rank index 2 or 5 |
| Fen.ParseFen | chess-engine/src/board.rs:273-368 | a FEN is accepted iff it has at least four fields, its placement is read with exactly one king per side, its side is `w` or `b`, its en-passant field is accepted, and its fifth and sixth fields, when present, parse as `u16`; the accepted position holds the placement's bitboards, `all` as the union of the occupancies, that side, the castling letters' rights, that en-passant square, and the clocks of fields five and six (0 and 1 when absent) |
| Fen.ParseFenReady | chess-engine/src/board.rs:273-368 | every accepted FEN gives a position that is sound, has one king per side, only the four right bits and en passant only on rank index 2 or 5, which is what `Fen.FenRoundTrip` asks for |
| Fen.RankTextField | chess-engine/src/board.rs:377-396 | a rank's text has no whitespace and is non-empty |
| Fen.Rows | chess-engine/src/board.rs:377-396 | the placement text is one whitespace-free field |
| Fen.SideText | chess-engine/src/board.rs:399-403 | the side letter parses back to the side |
| Fen.CastlingText | chess-engine/src/board.rs:405-412 | the castling text is one field ("-" when empty) |
| Fen.EnPassantText | chess-engine/src/board.rs:414-419 | the en-passant text is one field |
| Fen.FenSplits | chess-engine/src/board.rs:372-424 | splitting the printed FEN gives its six fields |
| Fen.CastlingRoundTrip | chess-engine/src/board.rs:338-412 | parsing the printed rights gives the rights byte back |
| Fen.EnPassantRoundTrip | chess-engine/src/board.rs:350-419 | parsing the printed en-passant square gives it back |
| Fen.PlacementRoundTrip | chess-engine/src/board.rs:291-396 | parsing the printed placement of a sound board gives its bitboards back |
| Fen.FenRoundTrip | chess-engine/src/board.rs:273-424 | for every sound position with one king per side, legal castling bits and en passant on rank index 2 or 5, parsing its FEN gives the position back |
| Fen.ReparseFen | chess-engine/src/board.rs:899-909 | printing any accepted FEN and parsing it again gives the same position |
| FenExamples.RejectsTooFewFields | chess-engine/src/board.rs:911-915 | "invalid", "" and a bare placement are rejected |
| FenExamples.RejectsField | chess-engine/src/board.rs:274-365 | six fields with a bad side, en-passant field or clock are rejected |
| FenExamples.RejectsPlacement | chess-engine/src/board.rs:290-320 | six fields with a placement the loop rejects are rejected |
| FenExamples.RejectsKings | chess-engine/src/board.rs:323-328 | six fields whose placement does not give each side exactly one king are rejected |
| FenExamples.RejectsNoKings | chess-engine/src/board.rs:917-920 | a board without kings is rejected |
| FenExamples.RejectsLoneWhiteKing | chess-engine/src/board.rs:917-922 | a board with only the white king is rejected |
| FenExamples.RejectsTwoWhiteKings | chess-engine/src/board.rs:917-925 | a board with two white kings is rejected |
| FenExamples.RejectsSideX | chess-engine/src/board.rs:927-929 | side `x` is rejected |
| FenExamples.RejectsSideUpper | chess-engine/src/board.rs:927-931 | side `W` is rejected: the letter is case-sensitive |
| FenExamples.RejectsHalfmoveText | chess-engine/src/board.rs:933-936 | a half-move clock `abc` is rejected |
| FenExamples.RejectsFullmoveText | chess-engine/src/board.rs:933-939 | a full-move number `xyz` is rejected |
| FenExamples.RejectsEnPassantRank | chess-engine/src/board.rs:941-943 | an en-passant square e4 (rank 4) is rejected |
| FenExamples.AcceptsEnPassantRank3 | chess-engine/src/board.rs:941-945 | en passant e3 is accepted and read as square 20 |
| FenExamples.AcceptsEnPassantRank6 | chess-engine/src/board.rs:941-947 | en passant e6 is accepted and read as square 44 |
| FenExamples.RejectsRankOverflow | chess-engine/src/board.rs:951-955 | nine pieces on the eighth rank are rejected |
| FenExamples.OverfullRank | chess-engine/src/board.rs:308-311 | any placement starting with nine piece letters is rejected at the ninth |
| FenExamples.PieceLetters | chess-engine/src/board.rs:308-318 | piece letters fill the rank one file each |
| FenExamples.SkipEmptyRanks | chess-engine/src/board.rs:295-307 | each `/8` after a full rank moves one rank down and leaves the board unchanged |
| FenExamples.RunAppend | chess-engine/src/board.rs:293-320 | reading a concatenation reads the first part, then the second from where the first stopped |
| FenExamples.SixFields | chess-engine/src/board.rs:274 | six fields joined by spaces split back into the six |
| StrictFen.PawnOnLastRankAccepted | chess-engine/src/board.rs:570-577 | `from_fen` accepts "P3k3/8/8/8/8/8/8/4K3 w - - 0 1", and the position cannot be played (a white pawn on a8, White to move) |
| StrictFen.CastleWithoutKingAccepted | chess-engine/src/board.rs:678-696 | `from_fen` accepts "4k3/8/8/8/8/8/8/3K4 w K - 0 1", and the position cannot be played: e1g1 is offered with e1 empty |
| StrictFen.CastleOffered | chess-engine/src/board.rs:678-696 | with bare kings on d1 and e8, White to move and the right K, e1g1 is generated and e1 holds no white piece |
| StrictFen.FarFromLoneKing | chess-engine/src/board.rs:489-525 | a square two ranks below a lone king is not attacked by its side |
| StrictFen.ParseFenChecked | chess-engine/src/board.rs:273-368 | accepts exactly what `from_fen` accepts and `Checked` approves (castling rights backed by king and rook, a consistent en-passant square, no pawn on its last rank); every such position is coherent and can be played |
| StrictFen.CheckedRejectsUnplayable | chess-engine/src/board.rs:273-368 | the checked reading rejects both texts above |
| Engine.Board.Empty | chess-engine/src/board.rs:279-288 | a fresh empty board: no pieces, White to move, no rights, no en passant, clocks 0 and 1 |
| Engine.Board.Clone | chess-engine/src/board.rs:553 | a fresh board with the same position |
| Engine.Board.TogglePiecesAt | chess-engine/src/board.rs:740 | XORs one piece bitboard in place |
| Engine.Board.ToggleOccupancyAt | chess-engine/src/board.rs:741 | XORs one occupancy in place |
| Engine.Board.PlaceAt | chess-engine/src/board.rs:768-769 | ORs a piece into its bitboard and occupancy in place |
| Engine.Board.PieceTypeAt | chess-engine/src/board.rs:477-483 | the search over `ALL` returns `Positions.PieceTypeAt` |
| Engine.Board.PieceAt | chess-engine/src/board.rs:432-444 | the two-colour search returns `Positions.PieceAt` |
| Engine.Board.KingSquare | chess-engine/src/board.rs:471-475 | the bit scan returns `Positions.KingSquare`, a square holding that colour's king |
| Engine.Board.RayHits | chess-engine/src/board.rs:527-535 | returns whether the nearest blocker on the ray is a target |
| Engine.Board.AnyRayHits | chess-engine/src/board.rs:513-523 | the loop over directions returns whether any ray hits |
| Engine.Board.IsAttacked | chess-engine/src/board.rs:489-525 | returns `Positions.IsAttacked`: knight, king, pawn, diagonal or straight attack |
| Engine.Board.IsInCheck | chess-engine/src/board.rs:539-541 | returns whether the colour's king is attacked by the other colour |
| Engine.Board.CaptureOn | chess-engine/src/board.rs:743-749 | removes the captured piece in place |
| Engine.Board.TakeEnPassantFor | chess-engine/src/board.rs:751-761 | removes the passed pawn in place |
| Engine.Board.MovePieces | chess-engine/src/board.rs:739-784 | the in-place stages reach `MoveBoards` |
| Engine.Board.FinishMove | chess-engine/src/board.rs:786-815 | the in-place updates of en passant, rights, `all`, clocks and side reach `Finish` |
| Engine.Board.ApplyUnchecked | chess-engine/src/board.rs:724-816 | the board afterwards is `Apply` of the board before, so every `Apply` property holds of it |
| Engine.ClearRights | chess-engine/src/board.rs:797-799 | the loop clears each listed square's mask from the rights |
| Engine.ClearBoth | chess-engine/src/board.rs:797-799 | clearing from and to is `rights & !mask(from) & !mask(to)` |
| Engine.FinishByFields | chess-engine/src/board.rs:786-815 | a position with `Finish`'s fields is `Finish` |
| Engine.Board.PushTargets | chess-engine/src/board.rs:669-674 | the bit-popping loop returns `TargetMoves` |
| Engine.Board.PushPawn | chess-engine/src/board.rs:579-598 | returns the pawn's pushes |
| Engine.Board.PawnCapturesFrom | chess-engine/src/board.rs:600-613 | the capture loop returns `PawnCaptures` |
| Engine.Board.GenPawn | chess-engine/src/board.rs:571-620 | returns the pawn's moves |
| Engine.Board.GenPawns | chess-engine/src/board.rs:566-621 | the loop over the pawns returns `PawnMoves` |
| Engine.Board.GenLeaper | chess-engine/src/board.rs:664-676 | returns `LeaperMoves` |
| Engine.Board.GenCastling | chess-engine/src/board.rs:678-696 | returns `CastlingMoves` |
| Engine.Board.GenSlider | chess-engine/src/board.rs:642-657 | the per-direction loop, with `ray ^ rays[blocker]`, returns `DirectionMoves` |
| Engine.Board.GenSliders | chess-engine/src/board.rs:638-658 | returns `SliderMoves` |
| Engine.Board.GeneratePseudoLegal | chess-engine/src/board.rs:560-662 | returns `PseudoLegal` |
| Engine.Board.LeavesKingSafe | chess-engine/src/board.rs:552-556 | a clone applies the move; the result is whether the mover is then out of check, and the board itself is untouched |
| Engine.Board.FilterLegal | chess-engine/src/board.rs:550-557 | the filter returns `LegalAmong` |
| Engine.Board.GenerateLegalMoves | chess-engine/src/board.rs:549-558 | returns `Legal` |
| Engine.Board.FindLegal | chess-engine/src/board.rs:709-711 | the search returns `FindMatch` |
| Engine.Board.MakeMove | chess-engine/src/board.rs:707-715 | the flag and the new board are `MoveGen.MakeMove` of the old board |
| Engine.Board.HasInsufficientMaterial | chess-engine/src/board.rs:833-851 | the counts decide `InsufficientMaterial` |
| Engine.Board.CurrentState | chess-engine/src/board.rs:824-859 | returns `Classify` |
| Engine.Board.PlacePieces | chess-engine/src/board.rs:290-320 | the placement loop succeeds iff `RunPlacement` does, and then leaves its bitboards |
| Engine.Board.FromFen | chess-engine/src/board.rs:273-368 | None iff `ParseFen` rejects; otherwise a fresh valid board holding `ParseFen`'s position |
| Engine.Board.FromFenChecked | chess-engine/src/board.rs:273-368 | None iff `ParseFenChecked` rejects; otherwise a fresh valid board holding its position, on which `CanPlay` holds so that move generation and `make_move` apply |
| Engine.Board.ReadFields | chess-engine/src/board.rs:321-365 | the kings, side, castling, en-passant and clock steps succeed iff `ParseFields` does, and then leave its position |
| Engine.Board.ReadTail | chess-engine/src/board.rs:350-365 | the en-passant and clock steps succeed iff `ParseTail` does, and then leave its position |
| Engine.ReadCastling | chess-engine/src/board.rs:338-348 | the letter loop returns `CastlingOf` |
| Engine.Board.WriteRank | chess-engine/src/board.rs:378-395 | the loop with the empty counter writes the rank's text |
| Engine.Board.WriteRows | chess-engine/src/board.rs:377-396 | writes the placement field |
| Engine.WriteCastling | chess-engine/src/board.rs:405-412 | writes the castling field |
| Engine.Board.ToFen | chess-engine/src/board.rs:372-424 | returns `FenOf`, so `ParseFen` gives the position back (`Fen.FenRoundTrip`) |

## Left out

- `chess-engine/src/wasm.rs` and `chess-engine/src/lib.rs` are not part of this model. They hold the WIT bindings, `RefCell` plumbing and re-exports.
- Host calls are not modelled: `host::get_legal_moves`, `host::get_board` and `host::log`. The move list and the board are parameters, and logging is dropped.
- The bots' constant metadata methods (`get_name`, `get_description`, `get_preferred_color`, `on_game_start`) are left out.
- `Board::new` (`board.rs:264-266`) is left out. It unwraps `from_fen` on the built-in start FEN, and showing that this literal parses would mean evaluating the parser on it symbolically.
- The `Default` and `Debug` impls, the trivial accessors and the `Display` of `PieceType` and `Color` are left out.
- The `OnceLock` attack tables and `AttackTables::new`'s filling loops are pure functions of the square. `Attacks.Leaper` keeps the leaper loop.
- The perft node counts are left out. They are exhaustive enumeration counts, not statements.
- Legality is not proved to conform to the FIDE Laws of Chess. The move generators are proved to equal their specification functions, not to be complete.
- `Consistency.PseudoLegalKeepsCoherent` does not show that a legal move never captures the opponent's king. So "both kings present" is not part of the invariant, and `MoveGen.MakeMove`, `MoveGen.Classify` and the `Engine` methods over them require `CanPlay`. `CanPlay` asks for the mover's king, for no pawn of the mover on its last rank, and for a piece of the mover on the from-square of every castle the generator offers. Without these, the source would hit `expect`, `debug_assert` or an out-of-range square; "## Findings" shows that `from_fen` lets such positions through, and `StrictFen.ParseFenChecked` gives positions that meet `CanPlay`.
- Positions.Apply: the half-move clock's `+ 1` is modelled as wrapping at 2^16. A debug build of the source would panic there instead.
- Engine.Board.GeneratePseudoLegal: each generator returns its own list, and the caller concatenates them in the source's order. The source pushes into one shared `Vec`, and the resulting sequence is the same.
- Engine.Board.GenSliders: the loop over bishop, rook and queen with their direction lists is written as three calls.
- RandomBot.SelectMove: the contract says only that the result is a member of the list. The index `(fullmove + halfmove) mod |moves|` is fixed on every board by the lemmas beside it, by induction on the two clocks: `RandomBot.FirstMoveAtZeroSeed` gives index 0 at move 0 with no half-moves, `RandomBot.NextMoveNumberPicksNextMove` steps the index by one per full move, `RandomBot.NextPlyPicksNextMove` and `RandomBot.PliesLater` step it by one per half-move, and `RandomBot.DependsOnlyOnClocks` rules out any other input.
- PySmartBot.Int: non-ASCII digits are left out. They are characters that Python's `int()` accepts, and the model treats them as raising.
- PySmartBot.TiedOf: the contract states only soundness (every kept move has the best score) and non-emptiness. Order and completeness follow from `BotParity.TiedParity`, which equates it with `SmartBot.Tied`.
- PySmartBot.SelectMove: the tie-break index is not restated here. `BotParity.SelectMoveParity` equates the result with `SmartBot.SelectMove`, which states it.

## Findings

| source | as written | input that shows it | evidently intended | confidence | as-written member | corrected member |
|---|---|---|---|---|---|---|
| chess-engine/src/board.rs:678-696 | `from_fen` (lines 338-348) keeps every castling letter without looking for the king and rook; `gen_castling` then offers the castle from the empty home square, and applying it reaches the `expect` on the moving piece (lines 728-732) | `4k3/8/8/8/8/8/8/3K4 w K - 0 1`: e1g1 is generated with e1 empty | a castling right is accepted only with its king and rook on their home squares, so every generated move has a piece to move | not executed | `StrictFen.CastleWithoutKingAccepted` | `StrictFen.ParseFenChecked` (`Engine.Board.FromFenChecked`) |
| chess-engine/src/board.rs:570-577 | the placement loop (lines 290-320) accepts a pawn on its own last rank; the pawn generator then computes the square one step ahead as `from_index(64)` or above, which fails the assertion in `from_index` (`chess-engine/src/types.rs:40-43`) | `P3k3/8/8/8/8/8/8/4K3 w - - 0 1`: the white pawn on a8 steps to index 64 | a pawn on its side's last rank is rejected when the FEN is read | not executed | `StrictFen.PawnOnLastRankAccepted` | `StrictFen.ParseFenChecked` (`Engine.Board.FromFenChecked`) |

`StrictFen.ParseFenChecked` accepts exactly what `Fen.ParseFen` accepts and `StrictFen.Checked` approves. Every position it returns is `Coherent` and meets `CanPlay`, so `MoveGen.MakeMove` and `MoveGen.Classify` apply to it without further conditions.
