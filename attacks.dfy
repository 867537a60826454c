/**
 * The attack tables: knight, king and pawn targets of every square and the
 * eight rays, with the nearest-blocker rule that turns a ray into the
 * squares a slider reaches. The engine computes the tables once, lazily; here
 * each table entry is a function of its square, and the one table routine the
 * engine factors out, `leaper`, is a method proved to compute its entry.
 */
module Attacks {
  import opened Types
  import opened Wrappers
  import opened Bitboards

  predicate OnBoard(rank: int, file: int)
  {
    0 <= rank < 8 && 0 <= file < 8
  }

  function Abs(x: int): int
  {
    if x < 0 then -x else x
  }

  /** `(rank delta, file delta)` of the eight knight jumps, in the table's order. */
  const KNIGHT_OFFSETS: seq<(int, int)> := [(-2, -1), (-2, 1), (-1, -2), (-1, 2), (1, -2), (1, 2), (2, -1), (2, 1)]

  /** The eight king steps. */
  const KING_OFFSETS: seq<(int, int)> := [(-1, -1), (-1, 0), (-1, 1), (0, -1), (0, 1), (1, -1), (1, 0), (1, 1)]

  /** The squares that `offsets` reach from `(rank, file)` without leaving the board. */
  function Reach(rank: int, file: int, offsets: seq<(int, int)>): Bitboard
  {
    set k | 0 <= k < |offsets| && OnBoard(rank + offsets[k].0, file + offsets[k].1)
      :: SquareNew(file + offsets[k].1, rank + offsets[k].0)
  }

  lemma ReachSnoc(rank: int, file: int, offsets: seq<(int, int)>, o: (int, int))
    ensures Reach(rank, file, offsets + [o]) ==
            Reach(rank, file, offsets) + (if OnBoard(rank + o.0, file + o.1) then {SquareNew(file + o.1, rank + o.0)} else {})
  {
    var all := offsets + [o];
    assert forall k :: 0 <= k < |offsets| ==> all[k] == offsets[k];
    assert all[|offsets|] == o;
  }

  /** `AttackTables::leaper`: the set of on-board squares among `(rank, file) + offset`. */
  method Leaper(rank: int, file: int, offsets: seq<(int, int)>) returns (bb: Bitboard)
    ensures bb == Reach(rank, file, offsets)
    ensures forall sq :: sq in bb <==> exists k :: 0 <= k < |offsets| && OnBoard(rank + offsets[k].0, file + offsets[k].1)
                                                 && sq == SquareNew(file + offsets[k].1, rank + offsets[k].0)
  {
    bb := {};
    for i := 0 to |offsets|
      invariant bb == Reach(rank, file, offsets[..i])
    {
      var (dr, df) := offsets[i];
      var (nr, nf) := (rank + dr, file + df);
      ReachSnoc(rank, file, offsets[..i], offsets[i]);
      assert offsets[..i + 1] == offsets[..i] + [offsets[i]];
      if OnBoard(nr, nf) {
        bb := bb + {SquareNew(nf, nr)};
      }
    }
    assert offsets[..|offsets|] == offsets;
  }

  /** The knight table entry of `sq`. */
  function KnightAttacks(sq: Square): Bitboard
  {
    Reach(Rank(sq), File(sq), KNIGHT_OFFSETS)
  }

  /** The king table entry of `sq`. */
  function KingAttacks(sq: Square): Bitboard
  {
    Reach(Rank(sq), File(sq), KING_OFFSETS)
  }

  /** A square is its file and rank: the decomposition the geometry lemmas rely on. */
  lemma SquareOfCoordinates(sq: Square)
    ensures SquareNew(File(sq), Rank(sq)) == sq
  {
  }

  /** A square is reached exactly when its offset from `(rank, file)` is one of `offsets`. */
  lemma ReachMember(rank: int, file: int, offsets: seq<(int, int)>, to: Square)
    ensures to in Reach(rank, file, offsets) <==> (Rank(to) - rank, File(to) - file) in offsets
  {
    var d := (Rank(to) - rank, File(to) - file);
    if to in Reach(rank, file, offsets) {
      var k :| 0 <= k < |offsets| && OnBoard(rank + offsets[k].0, file + offsets[k].1)
               && to == SquareNew(file + offsets[k].1, rank + offsets[k].0);
      SquareNewCoordinates(file + offsets[k].1, rank + offsets[k].0);
      assert offsets[k] == d;
    }
    if d in offsets {
      var k :| 0 <= k < |offsets| && offsets[k] == d;
      SquareOfCoordinates(to);
      assert OnBoard(rank + offsets[k].0, file + offsets[k].1);
    }
  }

  /** A knight attacks exactly the squares one rank and two files, or two ranks and one file, away. */
  lemma KnightAttackGeometry(from: Square, to: Square)
    ensures to in KnightAttacks(from) <==>
            var dr, df := Abs(Rank(to) - Rank(from)), Abs(File(to) - File(from));
            (dr == 1 && df == 2) || (dr == 2 && df == 1)
  {
    ReachMember(Rank(from), File(from), KNIGHT_OFFSETS, to);
    KnightOffsets(Rank(to) - Rank(from), File(to) - File(from));
  }

  /** The knight offsets are the eight moves of one and two squares. */
  lemma KnightOffsets(dr: int, df: int)
    ensures (dr, df) in KNIGHT_OFFSETS <==> (Abs(dr) == 1 && Abs(df) == 2) || (Abs(dr) == 2 && Abs(df) == 1)
  {
  }

  /** Knight attacks are symmetric. */
  lemma KnightAttackSymmetric(a: Square, b: Square)
    ensures b in KnightAttacks(a) <==> a in KnightAttacks(b)
  {
    KnightAttackGeometry(a, b);
    KnightAttackGeometry(b, a);
  }

  /** A king attacks exactly the other squares at most one rank and one file away. */
  lemma KingAttackGeometry(from: Square, to: Square)
    ensures to in KingAttacks(from) <==>
            to != from && Abs(Rank(to) - Rank(from)) <= 1 && Abs(File(to) - File(from)) <= 1
  {
    ReachMember(Rank(from), File(from), KING_OFFSETS, to);
    KingOffsets(Rank(to) - Rank(from), File(to) - File(from));
    SquareOfCoordinates(to);
    SquareOfCoordinates(from);
  }

  /** The king offsets are the eight steps to a neighbouring square. */
  lemma KingOffsets(dr: int, df: int)
    ensures (dr, df) in KING_OFFSETS <==> (dr, df) != (0, 0) && Abs(dr) <= 1 && Abs(df) <= 1
  {
  }

  /**
   * The pawn table entry: the two diagonal squares one rank forward (up for
   * White, down for Black), those that exist.
   */
  function PawnAttacks(c: Color, sq: Square): Bitboard
  {
    var nr := Rank(sq) + (if c == White then 1 else -1);
    var f := File(sq);
    if 0 <= nr < 8 then
      (if f > 0 then {SquareNew(f - 1, nr)} else {}) + (if f < 7 then {SquareNew(f + 1, nr)} else {})
    else {}
  }

  /** A pawn attacks exactly the squares one rank forward on a neighbouring file. */
  lemma PawnAttackGeometry(c: Color, from: Square, to: Square)
    ensures to in PawnAttacks(c, from) <==>
            Rank(to) == Rank(from) + (if c == White then 1 else -1) && Abs(File(to) - File(from)) == 1
  {
    SquareOfCoordinates(to);
  }

  /**
   * A `c` pawn on `a` attacks `b` exactly when a pawn of the other colour on
   * `b` would attack `a`: why `is_attacked` reads the defender's pawn table.
   */
  lemma PawnAttackDuality(c: Color, a: Square, b: Square)
    ensures b in PawnAttacks(c, a) <==> a in PawnAttacks(Opposite(c), b)
  {
    PawnAttackGeometry(c, a, b);
    PawnAttackGeometry(Opposite(c), b, a);
  }

  // ---------------------------------------------------------------------------
  // Rays
  // ---------------------------------------------------------------------------

  /** Ray directions, indices into `DIRS`: 0 N, 1 NE, 2 E, 3 SE, 4 S, 5 SW, 6 W, 7 NW. */
  type Direction = d: int | 0 <= d < 8

  /** The `(rank, file)` step of each direction, in the table builder's order. */
  const DIRS: seq<(int, int)> := [(1, 0), (1, 1), (0, 1), (-1, 1), (-1, 0), (-1, -1), (0, -1), (1, -1)]

  /** The rank step of direction `d`. */
  function DirRank(d: Direction): (dr: int)
    ensures -1 <= dr <= 1
  {
    DIRS[d].0
  }

  /** The file step of direction `d`. */
  function DirFile(d: Direction): (df: int)
    ensures -1 <= df <= 1
  {
    DIRS[d].1
  }

  /** The directions whose squares have increasing indices: the ones `nearest_blocker` scans from the bottom. */
  predicate Ascending(d: Direction)
  {
    d == 0 || d == 1 || d == 2 || d == 7
  }

  /** `a` comes before `b` when walking along `d`: below it on an ascending direction, above it on a descending one. */
  predicate Before(a: Square, b: Square, d: Direction)
  {
    if Ascending(d) then a < b else a > b
  }

  /** One step along `d` moves the index up on an ascending direction and down on a descending one. */
  lemma StepOrder(d: Direction)
    ensures Ascending(d) ==> 8 * DirRank(d) + DirFile(d) > 0
    ensures !Ascending(d) ==> 8 * DirRank(d) + DirFile(d) < 0
  {
  }

  /**
   * The squares beyond `(rank, file)` along `d`, nearest first: the walk the
   * table builder makes, stepping `(cr, cf) += (dr, df)` and taking
   * `Square::new(cf, cr)` while the coordinates stay on the board.
   */
  function RayWalk(rank: int, file: int, d: Direction): seq<Square>
    requires OnBoard(rank, file)
    decreases if Ascending(d) then 64 - (rank * 8 + file) else rank * 8 + file + 1
  {
    StepOrder(d);
    var r, f := rank + DirRank(d), file + DirFile(d);
    if OnBoard(r, f) then [r * 8 + f] + RayWalk(r, f, d) else []
  }

  /** The squares beyond `sq` along `d`, nearest first. */
  function RaySquares(sq: Square, d: Direction): seq<Square>
  {
    RayWalk(Rank(sq), File(sq), d)
  }

  /** The squares of a walk, as a bitboard. */
  function Members(walk: seq<Square>): Bitboard
  {
    set s | s in walk
  }

  /** The `rays[sq][d]` table entry. */
  function Ray(sq: Square, d: Direction): Bitboard
  {
    Members(RaySquares(sq, d))
  }

  /** `k` steps of size `unit`, which is -1, 0 or 1. */
  function Steps(k: int, unit: int): int
  {
    if unit == 0 then 0 else if unit > 0 then k else -k
  }

  /** The `i`-th square of a walk is `i + 1` steps from its start. */
  lemma {:induction false} RayWalkAt(rank: int, file: int, d: Direction, i: int)
    requires OnBoard(rank, file)
    requires 0 <= i < |RayWalk(rank, file, d)|
    ensures OnBoard(rank + Steps(i + 1, DirRank(d)), file + Steps(i + 1, DirFile(d)))
    ensures RayWalk(rank, file, d)[i] == (rank + Steps(i + 1, DirRank(d))) * 8 + file + Steps(i + 1, DirFile(d))
    decreases i
  {
    var r, f := rank + DirRank(d), file + DirFile(d);
    assert OnBoard(r, f) && RayWalk(rank, file, d) == [r * 8 + f] + RayWalk(r, f, d);
    if i > 0 {
      RayWalkAt(r, f, d, i - 1);
      assert r + Steps(i, DirRank(d)) == rank + Steps(i + 1, DirRank(d));
      assert f + Steps(i, DirFile(d)) == file + Steps(i + 1, DirFile(d));
    }
  }

  /** The walk from the `i`-th square of a walk on is the rest of the walk. */
  lemma {:induction false} RayWalkSuffix(rank: int, file: int, d: Direction, i: int)
    requires OnBoard(rank, file)
    requires 0 <= i < |RayWalk(rank, file, d)|
    requires OnBoard(rank + Steps(i + 1, DirRank(d)), file + Steps(i + 1, DirFile(d)))
    ensures RayWalk(rank + Steps(i + 1, DirRank(d)), file + Steps(i + 1, DirFile(d)), d) == RayWalk(rank, file, d)[i + 1..]
    decreases i
  {
    var r, f := rank + DirRank(d), file + DirFile(d);
    var walk := RayWalk(rank, file, d);
    assert OnBoard(r, f) && walk == [r * 8 + f] + RayWalk(r, f, d);
    if i > 0 {
      var j := i - 1;
      assert r + Steps(j + 1, DirRank(d)) == rank + Steps(i + 1, DirRank(d));
      assert f + Steps(j + 1, DirFile(d)) == file + Steps(i + 1, DirFile(d));
      RayWalkSuffix(r, f, d, j);
      assert walk[i + 1..] == RayWalk(r, f, d)[j + 1..];
    } else {
      assert Steps(1, DirRank(d)) == DirRank(d) && Steps(1, DirFile(d)) == DirFile(d);
      assert walk[1..] == RayWalk(r, f, d);
    }
  }

  /** Every square of a walk lies beyond its start. */
  lemma {:induction false} RayWalkBeyond(rank: int, file: int, d: Direction, j: int)
    requires OnBoard(rank, file)
    requires 0 <= j < |RayWalk(rank, file, d)|
    ensures Before(rank * 8 + file, RayWalk(rank, file, d)[j], d)
    decreases j
  {
    StepOrder(d);
    var r, f := rank + DirRank(d), file + DirFile(d);
    assert OnBoard(r, f) && RayWalk(rank, file, d) == [r * 8 + f] + RayWalk(r, f, d);
    if j > 0 {
      RayWalkBeyond(r, f, d, j - 1);
    }
  }

  /** A walk that never turns back: each square comes before every later one. */
  ghost predicate Monotone(walk: seq<Square>, d: Direction)
  {
    forall i, j :: 0 <= i < j < |walk| ==> Before(walk[i], walk[j], d)
  }

  /** A ray never turns back. */
  lemma RayMonotone(sq: Square, d: Direction)
    ensures Monotone(RaySquares(sq, d), d)
  {
    var rank, file := Rank(sq), File(sq);
    var walk := RayWalk(rank, file, d);
    forall i, j | 0 <= i < j < |walk|
      ensures Before(walk[i], walk[j], d)
    {
      RayWalkAt(rank, file, d, i);
      var r, f := rank + Steps(i + 1, DirRank(d)), file + Steps(i + 1, DirFile(d));
      RayWalkSuffix(rank, file, d, i);
      RayWalkBeyond(r, f, d, j - i - 1);
      assert RayWalk(r, f, d)[j - i - 1] == walk[j];
    }
  }

  /** The ray from the `i`-th square of a ray is the rest of that ray. */
  lemma RaySuffix(sq: Square, d: Direction, i: int)
    requires 0 <= i < |RaySquares(sq, d)|
    ensures RaySquares(RaySquares(sq, d)[i], d) == RaySquares(sq, d)[i + 1..]
  {
    var rank, file := Rank(sq), File(sq);
    RayWalkAt(rank, file, d, i);
    var r, f := rank + Steps(i + 1, DirRank(d)), file + Steps(i + 1, DirFile(d));
    RayWalkSuffix(rank, file, d, i);
    assert SquareNew(f, r) == RaySquares(sq, d)[i];
    SquareNewCoordinates(f, r);
  }

  /** The `k`-th square of a ray is `k + 1` steps of `DIRS[d]` from `sq`: rays are straight lines that stop at the edge. */
  lemma RayGeometry(sq: Square, d: Direction, k: int)
    requires 0 <= k < |RaySquares(sq, d)|
    ensures Rank(RaySquares(sq, d)[k]) == Rank(sq) + Steps(k + 1, DirRank(d))
    ensures File(RaySquares(sq, d)[k]) == File(sq) + Steps(k + 1, DirFile(d))
  {
    var rank, file := Rank(sq), File(sq);
    RayWalkAt(rank, file, d, k);
    var r, f := rank + Steps(k + 1, DirRank(d)), file + Steps(k + 1, DirFile(d));
    assert SquareNew(f, r) == RaySquares(sq, d)[k];
    SquareNewCoordinates(f, r);
  }

  /** `nearest_blocker`: the lowest blocker on an ascending ray, the highest on a descending one. */
  function NearestBlocker(blockers: Bitboard, d: Direction): (b: Square)
    requires blockers != {}
    ensures b in blockers
    ensures forall s :: s in blockers ==> b == s || Before(b, s, d)
  {
    if Ascending(d) then Lsb(blockers) else Msb(blockers)
  }

  /** None of the first `k` squares of the walk is occupied. */
  ghost predicate Unobstructed(walk: seq<Square>, k: int, occupied: Bitboard)
  {
    forall j :: 0 <= j < k && j < |walk| ==> walk[j] !in occupied
  }

  /**
   * On a walk that never turns back, the nearest blocker is the first
   * occupied square met: the `k`-th one, with nothing occupied before it.
   */
  lemma FirstBlocker(walk: seq<Square>, d: Direction, occupied: Bitboard) returns (k: int)
    requires Monotone(walk, d)
    requires Members(walk) * occupied != {}
    ensures 0 <= k < |walk| && walk[k] == NearestBlocker(Members(walk) * occupied, d)
    ensures walk[k] in occupied && Unobstructed(walk, k, occupied)
  {
    var b := NearestBlocker(Members(walk) * occupied, d);
    k :| 0 <= k < |walk| && walk[k] == b;
    forall j | 0 <= j < k
      ensures walk[j] !in occupied
    {
      assert walk[j] in Members(walk);
      assert Before(walk[j], walk[k], d);
    }
  }

  /** Cutting a walk after its `kb`-th square (the `^` of a ray and the ray beyond it) leaves the squares up to it. */
  lemma CutAfter(walk: seq<Square>, d: Direction, kb: int, t: Square)
    requires Monotone(walk, d)
    requires 0 <= kb < |walk|
    ensures t in Xor(Members(walk), Members(walk[kb + 1..])) <==> exists k :: 0 <= k <= kb && walk[k] == t
  {
    var rest := walk[kb + 1..];
    if k :| 0 <= k <= kb && walk[k] == t {
      assert t in Members(walk);
      forall m | 0 <= m < |rest|
        ensures rest[m] != t
      {
        assert rest[m] == walk[kb + 1 + m];
        assert Before(walk[k], walk[kb + 1 + m], d);
      }
      assert t !in Members(rest);
    } else if t in Members(walk) {
      var i :| 0 <= i < |walk| && walk[i] == t;
      assert rest[i - kb - 1] == t;
      assert t in Members(rest);
    } else {
      assert forall m :: 0 <= m < |rest| ==> rest[m] == walk[kb + 1 + m];
      assert t !in Members(rest);
    }
  }

  /**
   * The squares a slider on `sq` reaches along `d`: the whole ray when it is
   * empty, otherwise the ray minus the ray beyond the nearest blocker.
   */
  function SlideAttacks(sq: Square, d: Direction, occupied: Bitboard): Bitboard
  {
    var ray := Ray(sq, d);
    var blockers := ray * occupied;
    if blockers == {} then ray else Xor(ray, Ray(NearestBlocker(blockers, d), d))
  }

  /** With nothing occupied on a walk, every square of it is reached. */
  lemma OpenWalk(walk: seq<Square>, occupied: Bitboard, t: Square)
    requires Members(walk) * occupied == {}
    ensures t in Members(walk) <==> exists k :: 0 <= k < |walk| && t == walk[k] && Unobstructed(walk, k, occupied)
  {
    if t in Members(walk) {
      var k :| 0 <= k < |walk| && t == walk[k];
      forall j | 0 <= j < k
        ensures walk[j] !in occupied
      {
        assert walk[j] in Members(walk);
        assert walk[j] !in Members(walk) * occupied;
      }
    }
  }

  /** Cut after the first occupied square, a walk keeps exactly the squares with nothing occupied before them. */
  lemma BlockedWalk(walk: seq<Square>, d: Direction, occupied: Bitboard, kb: int, t: Square)
    requires Monotone(walk, d)
    requires 0 <= kb < |walk| && walk[kb] in occupied && Unobstructed(walk, kb, occupied)
    ensures t in Xor(Members(walk), Members(walk[kb + 1..])) <==>
            exists k :: 0 <= k < |walk| && t == walk[k] && Unobstructed(walk, k, occupied)
  {
    CutAfter(walk, d, kb, t);
    if k :| 0 <= k < |walk| && t == walk[k] && Unobstructed(walk, k, occupied) {
      assert k <= kb;
    }
  }

  /**
   * A slider reaches exactly the ray squares with nothing occupied strictly
   * between: every square up to and including the first occupied one.
   */
  lemma SlideAttacksReach(sq: Square, d: Direction, occupied: Bitboard, t: Square)
    ensures t in SlideAttacks(sq, d, occupied) <==>
            exists k :: 0 <= k < |RaySquares(sq, d)| && t == RaySquares(sq, d)[k] && Unobstructed(RaySquares(sq, d), k, occupied)
  {
    var walk := RaySquares(sq, d);
    RayMonotone(sq, d);
    if Members(walk) * occupied == {} {
      OpenWalk(walk, occupied, t);
    } else {
      var kb := FirstBlocker(walk, d, occupied);
      RaySuffix(sq, d, kb);
      BlockedWalk(walk, d, occupied, kb, t);
    }
  }

  /** `ray_hits`: the nearest occupied square along `d` holds one of `targets`. */
  function RayHits(sq: Square, d: Direction, targets: Bitboard, occupied: Bitboard): bool
  {
    var blockers := Ray(sq, d) * occupied;
    blockers != {} && NearestBlocker(blockers, d) in targets
  }

  /** On a walk that never turns back, the nearest blocker is a target exactly when some occupied target has nothing occupied before it. */
  lemma HitsOnWalk(walk: seq<Square>, d: Direction, targets: Bitboard, occupied: Bitboard)
    requires Monotone(walk, d)
    ensures (Members(walk) * occupied != {} && NearestBlocker(Members(walk) * occupied, d) in targets) <==>
            exists k :: 0 <= k < |walk| && walk[k] in targets * occupied && Unobstructed(walk, k, occupied)
  {
    var blockers := Members(walk) * occupied;
    if blockers != {} {
      var kb := FirstBlocker(walk, d, occupied);
      if k :| 0 <= k < |walk| && walk[k] in targets * occupied && Unobstructed(walk, k, occupied) {
        assert k <= kb;
        assert walk[k] in Members(walk);
      }
    } else {
      forall k | 0 <= k < |walk|
        ensures walk[k] !in targets * occupied
      {
        assert walk[k] in Members(walk);
        assert walk[k] !in blockers;
      }
    }
  }

  /** A ray hits exactly when some occupied target on it has nothing occupied in between. */
  lemma RayHitsReach(sq: Square, d: Direction, targets: Bitboard, occupied: Bitboard)
    ensures RayHits(sq, d, targets, occupied) <==>
            exists k :: 0 <= k < |RaySquares(sq, d)| && RaySquares(sq, d)[k] in targets * occupied
                        && Unobstructed(RaySquares(sq, d), k, occupied)
  {
    RayMonotone(sq, d);
    HitsOnWalk(RaySquares(sq, d), d, targets, occupied);
  }
}
