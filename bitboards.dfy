/**
 * Bitboards. The engine keeps each set of squares in a `u64` whose bit `i`
 * stands for square `i`; here a bitboard is that set of squares itself. The
 * bit operations become set operations: `|` is union, `&` intersection,
 * `& !` difference, `^` symmetric difference, `count_ones` the cardinality,
 * `bb & (bb - 1)` removes the lowest member, `trailing_zeros` is the lowest
 * member and `63 - leading_zeros` the highest.
 */
module Bitboards {
  import opened Types

  type Bitboard = set<Square>

  /** `^`: the squares in exactly one of the two boards. */
  function Xor(a: Bitboard, b: Bitboard): (x: Bitboard)
    ensures forall sq :: sq in x <==> (sq in a) != (sq in b)
  {
    (a - b) + (b - a)
  }

  /** The lowest member at or above `i`, searching upwards. */
  function LsbFrom(bb: Bitboard, i: int): (sq: Square)
    requires 0 <= i < 64
    requires exists s :: s in bb && i <= s
    ensures sq in bb && i <= sq
    ensures forall s :: s in bb && i <= s ==> sq <= s
    decreases 64 - i
  {
    if i in bb then i
    else
      assert exists s :: s in bb && i + 1 <= s;
      LsbFrom(bb, i + 1)
  }

  /** `lsb_index` (`trailing_zeros`): the lowest square of a non-empty board. */
  function Lsb(bb: Bitboard): (sq: Square)
    requires bb != {}
    ensures sq in bb && forall s :: s in bb ==> sq <= s
  {
    assert exists s :: s in bb && 0 <= s;
    LsbFrom(bb, 0)
  }

  /** The highest member at or below `i`, searching downwards. */
  function MsbFrom(bb: Bitboard, i: int): (sq: Square)
    requires 0 <= i < 64
    requires exists s :: s in bb && s <= i
    ensures sq in bb && sq <= i
    ensures forall s :: s in bb && s <= i ==> s <= sq
    decreases i
  {
    if i in bb then i
    else
      assert exists s :: s in bb && s <= i - 1;
      MsbFrom(bb, i - 1)
  }

  /** `63 - leading_zeros`: the highest square of a non-empty board. */
  function Msb(bb: Bitboard): (sq: Square)
    requires bb != {}
    ensures sq in bb && forall s :: s in bb ==> s <= sq
  {
    assert exists s :: s in bb && s <= 63;
    MsbFrom(bb, 63)
  }
}
