// Bitboards as sets of board indices. A `Bitboard` here is the set of
// squares whose bit is set in the 64-bit mask; the module `Bits` connects
// these definitions to the machine operations on the mask itself.

module Bitboards {
  import opened Squares

  type Bitboard = set<Sq>

  function FileOf(s: Sq): int { s % 8 }
  function RankOf(s: Sq): int { s / 8 }

  /** The square on file f and rank r. */
  function At(f: int, r: int): Sq
    requires 0 <= f < 8 && 0 <= r < 8
  {
    8 * r + f
  }

  lemma AtCoords(f: int, r: int)
    requires 0 <= f < 8 && 0 <= r < 8
    ensures FileOf(At(f, r)) == f && RankOf(At(f, r)) == r
  {
  }

  predicate OnBoard(f: int, r: int) { 0 <= f < 8 && 0 <= r < 8 }

  /** Offsetting an index, kept as a function so that set comprehensions have a trigger. */
  function Off(s: int, d: int): int { s + d }

  // ----- Shifts (bitboard.hpp: north/south/east/west) -----

  /** `mask << 8`: everything one rank up; rank 8 falls off the board. */
  function North(b: Bitboard): Bitboard { set s: Sq | 8 <= s && Off(s, -8) in b }

  /** `mask >> 8`: everything one rank down; rank 1 falls off the board. */
  function South(b: Bitboard): Bitboard { set s: Sq | Off(s, 8) in b }

  /** `(mask << 1) & ~FileA`: one file right, nothing wraps onto file a. */
  function East(b: Bitboard): Bitboard { set s: Sq | s % 8 != 0 && Off(s, -1) in b }

  /** `(mask >> 1) & ~FileH`: one file left, nothing wraps onto file h. */
  function West(b: Bitboard): Bitboard { set s: Sq | s % 8 != 7 && Off(s, 1) in b }

  lemma InNorth(b: Bitboard, s: Sq)
    ensures s in North(b) <==> RankOf(s) > 0 && s - 8 in b
  {
  }

  lemma InSouth(b: Bitboard, s: Sq)
    ensures s in South(b) <==> RankOf(s) < 7 && s + 8 in b
  {
  }

  lemma InEast(b: Bitboard, s: Sq)
    ensures s in East(b) <==> FileOf(s) > 0 && s - 1 in b
  {
  }

  lemma InWest(b: Bitboard, s: Sq)
    ensures s in West(b) <==> FileOf(s) < 7 && s + 1 in b
  {
  }

  /** North moves each square up one rank on the same file, and nothing else arrives. */
  lemma NorthShifts(b: Bitboard)
    ensures forall s :: s in b && RankOf(s) < 7 ==> s + 8 in North(b)
    ensures forall t :: t in North(b) ==> RankOf(t) > 0 && t - 8 in b
  {
    forall s | s in b && RankOf(s) < 7 ensures s + 8 in North(b) {
      assert Off(s + 8, -8) == s;
    }
  }

  lemma SouthShifts(b: Bitboard)
    ensures forall s :: s in b && RankOf(s) > 0 ==> s - 8 in South(b)
    ensures forall t :: t in South(b) ==> RankOf(t) < 7 && t + 8 in b
  {
    forall s | s in b && RankOf(s) > 0 ensures s - 8 in South(b) {
      assert Off(s - 8, 8) == s;
    }
  }

  /** East moves each square one file right; nothing arrives on file A. */
  lemma EastShifts(b: Bitboard)
    ensures forall t :: t in East(b) ==> FileOf(t) != 0 && t - 1 in b
    ensures forall s :: s in b && FileOf(s) < 7 ==> s + 1 in East(b)
  {
    forall s | s in b && FileOf(s) < 7 ensures s + 1 in East(b) {
      InEast(b, s + 1);
    }
  }

  /** West moves each square one file left; nothing arrives on file H. */
  lemma WestShifts(b: Bitboard)
    ensures forall t :: t in West(b) ==> FileOf(t) != 7 && t + 1 in b
    ensures forall s :: s in b && FileOf(s) > 0 ==> s - 1 in West(b)
  {
    forall s | s in b && FileOf(s) > 0 ensures s - 1 in West(b) {
      InWest(b, s - 1);
    }
  }

  // ----- Constants (namespace bitboards) -----

  const Empty: Bitboard := {}
  const AllSquares: Bitboard := set s: Sq | true

  function FileMask(f: int): Bitboard { set s: Sq | s % 8 == f }
  function RankMask(r: int): Bitboard { set s: Sq | s / 8 == r }

  const FileA: Bitboard := FileMask(0)
  const FileH: Bitboard := FileMask(7)
  const Rank1: Bitboard := RankMask(0)
  const Rank2: Bitboard := RankMask(1)
  const Rank3: Bitboard := RankMask(2)
  const Rank4: Bitboard := RankMask(3)
  const Rank5: Bitboard := RankMask(4)
  const Rank6: Bitboard := RankMask(5)
  const Rank7: Bitboard := RankMask(6)
  const Rank8: Bitboard := RankMask(7)

  const LightSquares: Bitboard := set s: Sq | (s / 8 + s % 8) % 2 == 1
  const DarkSquares: Bitboard := set s: Sq | (s / 8 + s % 8) % 2 == 0

  /** `~b` on a full 64-bit mask. */
  function Complement(b: Bitboard): (c: Bitboard)
    ensures forall s: Sq :: s in c <==> s !in b
  {
    AllSquares - b
  }

  /** `operator^`: the squares in exactly one of the two boards. */
  function Toggle(a: Bitboard, b: Bitboard): Bitboard { (a - b) + (b - a) }

  /** `adjacent()` as written in bitboard.hpp: the squares above and below only. */
  function AdjacentAsWritten(b: Bitboard): Bitboard
  {
    North(b) + South(b)
  }

  // ----- count() -----

  function Count(b: Bitboard): nat { |b| }

  /** The squares 0 .. n-1. */
  function Range(n: nat): Bitboard
    requires n <= 64
  {
    if n == 0 then {} else Range(n - 1) + {n - 1}
  }

  lemma {:induction false} RangeFacts(n: nat)
    requires n <= 64
    ensures |Range(n)| == n
    ensures forall s: Sq :: s in Range(n) <==> s < n
  {
    if n > 0 {
      RangeFacts(n - 1);
    }
  }

  /** Squares x and x + 1 (x even) share a rank, so exactly one of them is light. */
  lemma PairSplits(x: nat)
    requires x % 2 == 0 && x + 2 <= 64
    ensures (x in LightSquares) != (x + 1 in LightSquares)
    ensures (x in DarkSquares) != (x in LightSquares) && (x + 1 in DarkSquares) != (x + 1 in LightSquares)
  {
    assert (x + 1) / 8 == x / 8 && (x + 1) % 8 == x % 8 + 1;
  }

  lemma AddOne(a: Bitboard, x: Sq)
    requires x !in a
    ensures |a + {x}| == |a| + 1
  {
  }

  /** A set holding exactly one of x and x + 1 gains one member when the range grows by those two. */
  lemma PairStep(c: Bitboard, x: nat)
    requires x + 2 <= 64 && (x in c) != (x + 1 in c)
    ensures |c * Range(x + 2)| == |c * Range(x)| + 1
  {
    RangeFacts(x);
    var l := c * Range(x);
    assert x !in l && x + 1 !in l;
    if x in c {
      MeetPair(c, Range(x), x, x + 1);
      AddOne(l, x);
    } else {
      MeetPair(c, Range(x), x + 1, x);
      AddOne(l, x + 1);
    }
  }

  /** Of two squares added to a, c keeps the one it holds. */
  lemma MeetPair(c: Bitboard, a: Bitboard, y: Sq, z: Sq)
    requires y in c && z !in c
    ensures c * (a + {y} + {z}) == c * (a + {z} + {y}) == c * a + {y}
  {
  }

  /** c holds exactly one of x and x + 1. */
  predicate SplitsAt(c: Bitboard, x: int)
  {
    (x in c) != (x + 1 in c)
  }

  /** A set holding exactly one square of each pair 2j, 2j + 1 below 2k has k members below 2k. */
  lemma {:induction false} HalfBelow(c: Bitboard, k: nat)
    requires k <= 32
    requires forall x :: 0 <= x < 2 * k && x % 2 == 0 ==> SplitsAt(c, x)
    ensures |c * Range(2 * k)| == k
  {
    if k > 0 {
      HalfBelow(c, k - 1);
      var x := 2 * k - 2;
      assert SplitsAt(c, x);
      PairStep(c, x);
      assert x + 2 == 2 * k;
    }
  }

  /** Of the squares 0 .. 2k-1, exactly k are light and k are dark. */
  lemma LightBelow(k: nat)
    requires k <= 32
    ensures |LightSquares * Range(2 * k)| == k
    ensures |DarkSquares * Range(2 * k)| == k
  {
    forall x | 0 <= x < 2 * k && x % 2 == 0
      ensures SplitsAt(LightSquares, x) && SplitsAt(DarkSquares, x)
    {
      PairSplits(x);
    }
    HalfBelow(LightSquares, k);
    HalfBelow(DarkSquares, k);
  }

  /** count() of the named constants: Empty 0, AllSquares 64, Light and Dark 32 each. */
  lemma ConstantCounts()
    ensures Count(Empty) == 0 && Count(AllSquares) == 64
    ensures Count(LightSquares) == 32 && Count(DarkSquares) == 32
    ensures LightSquares * DarkSquares == Empty && LightSquares + DarkSquares == AllSquares
    ensures Complement(Empty) == AllSquares && Complement(AllSquares) == Empty
  {
    RangeFacts(64);
    assert AllSquares == Range(64);
    LightBelow(32);
    assert LightSquares * Range(64) == LightSquares;
    assert DarkSquares * Range(64) == DarkSquares;
  }

  // ----- Iteration order: lowest square first (BitboardIterator) -----

  function LowestFrom(b: Bitboard, k: nat): (r: Sq)
    requires b != {} && forall s :: s in b ==> k <= s
    ensures r in b && forall s :: s in b ==> r <= s
    decreases 64 - k
  {
    if k in b then k
    else
      var w :| w in b;
      assert k < w;
      LowestFrom(b, k + 1)
  }

  /** `lsbll`: the lowest-index member; the source asserts the board is non-empty. */
  function Lowest(b: Bitboard): (r: Sq)
    requires b != {}
    ensures r in b && forall s :: s in b ==> r <= s
  {
    LowestFrom(b, 0)
  }

  /** The order in which `for (sq : bb)` visits the members. */
  function Ascending(b: Bitboard): (xs: seq<Sq>)
    decreases |b|
  {
    if b == {} then [] else [Lowest(b)] + Ascending(b - {Lowest(b)})
  }

  /** Iteration yields every member, and nothing else. */
  lemma {:induction false} AscendingMembers(b: Bitboard)
    ensures |Ascending(b)| == |b|
    ensures forall s :: s in b <==> s in Ascending(b)
    decreases |b|
  {
    if b != {} {
      AscendingMembers(b - {Lowest(b)});
    }
  }

  /** Iteration visits the members in strictly ascending order, so each once. */
  lemma {:induction false} AscendingSorted(b: Bitboard)
    ensures Increasing(Ascending(b))
    decreases |b|
  {
    if b != {} {
      var m := Lowest(b);
      var rest := Ascending(b - {m});
      AscendingSorted(b - {m});
      AscendingMembers(b - {m});
      assert Ascending(b) == [m] + rest;
      LowestBelowOthers(b);
      ConsIncreasing(m, b - {m}, rest);
    }
  }

  /** Every member other than the lowest lies above it. */
  lemma LowestBelowOthers(b: Bitboard)
    requires b != {}
    ensures forall s :: s in b - {Lowest(b)} ==> Lowest(b) < s
  {
  }

  predicate Increasing(xs: seq<Sq>)
  {
    forall i, j :: 0 <= i < j < |xs| ==> xs[i] < xs[j]
  }

  /** A square below every member of an increasing list can go in front of it. */
  lemma ConsIncreasing(m: Sq, c: Bitboard, rest: seq<Sq>)
    requires Increasing(rest) && (forall x :: x in c ==> m < x) && (forall x :: x in c <==> x in rest)
    ensures Increasing([m] + rest)
  {
    var xs := [m] + rest;
    forall i, j | 0 <= i < j < |xs| ensures xs[i] < xs[j] {
      assert xs[j] == rest[j - 1];
      assert rest[j - 1] in rest;
      assert rest[j - 1] in c;
      if i > 0 {
        assert xs[i] == rest[i - 1];
      }
    }
  }

  /**
   * `BitboardIterator`: `operator*` is the lowest member and `operator++`
   * clears it, so the visited squares are `Ascending` of the start board.
   */
  class BitboardIterator {
    var data: Bitboard

    constructor (mask: Bitboard)
      ensures data == mask
    {
      data := mask;
    }

    function Current(): (sq: Sq)
      reads this
      requires data != {}
      ensures sq in data && forall s :: s in data ==> sq <= s
    {
      Lowest(data)
    }

    method Next()
      requires data != {}
      modifies this
      ensures data == old(data) - {old(Current())}
      ensures Ascending(old(data)) == [old(Current())] + Ascending(data)
    {
      data := data - {Current()};
    }
  }

  /**
   * The iteration test: toggling each visited square into an empty board
   * rebuilds the board, and the squares are visited in `Ascending` order.
   */
  method RebuildByToggling(mask: Bitboard) returns (rebuilt: Bitboard, visited: seq<Sq>)
    ensures rebuilt == mask
    ensures visited == Ascending(mask)
  {
    var it := new BitboardIterator(mask);
    rebuilt := {};
    visited := [];
    while it.data != {}
      invariant Rebuilding(rebuilt, visited, it.data, mask)
      decreases |it.data|
    {
      var sq := it.Current();
      RebuildStep(rebuilt, visited, it.data, mask);
      rebuilt := Toggle(rebuilt, {sq});
      visited := visited + [sq];
      it.Next();
    }
    assert visited + [] == visited;
  }

  /** The loop state: the visited squares are toggled in, the rest still to come in order. */
  predicate Rebuilding(rebuilt: Bitboard, visited: seq<Sq>, data: Bitboard, mask: Bitboard)
  {
    rebuilt * data == {} && rebuilt + data == mask && visited + Ascending(data) == Ascending(mask)
  }

  /** Visiting the lowest remaining square keeps the loop state. */
  lemma RebuildStep(rebuilt: Bitboard, visited: seq<Sq>, data: Bitboard, mask: Bitboard)
    requires Rebuilding(rebuilt, visited, data, mask) && data != {}
    ensures Rebuilding(Toggle(rebuilt, {Lowest(data)}), visited + [Lowest(data)], data - {Lowest(data)}, mask)
  {
    var sq := Lowest(data);
    assert sq in data && sq !in rebuilt * data;
    ToggleAbsent(rebuilt, sq);
    assert Ascending(data) == [sq] + Ascending(data - {sq});
    SeqRegroup(visited, [sq], Ascending(data - {sq}));
  }

  /** Toggling in a square that is absent adds it. */
  lemma ToggleAbsent(x: Bitboard, sq: Sq)
    requires sq !in x
    ensures Toggle(x, {sq}) == x + {sq}
  {
  }

  lemma SeqRegroup(a: seq<Sq>, b: seq<Sq>, c: seq<Sq>)
    ensures (a + b) + c == a + (b + c)
  {
  }

  // ----- squares_between -----

  function Sign(x: int): int { if x > 0 then 1 else if x < 0 then -1 else 0 }
  function Abs(x: int): nat { if x < 0 then -x else x }

  /** k steps in the direction of sign d. */
  function Scale(k: int, d: int): int { if d > 0 then k else if d < 0 then -k else 0 }

  /** The two squares share a rank, a file or a diagonal (the test the source uses). */
  predicate Aligned(a: Sq, b: Sq)
  {
    var dx := FileOf(b) - FileOf(a);
    var dy := RankOf(b) - RankOf(a);
    dx == 0 || dy == 0 || Abs(dx) == Abs(dy)
  }

  /** Number of king steps from a to b. */
  function Distance(a: Sq, b: Sq): nat
  {
    var dx := FileOf(b) - FileOf(a);
    var dy := RankOf(b) - RankOf(a);
    if Abs(dx) > Abs(dy) then Abs(dx) else Abs(dy)
  }

  /** The k-th square from a towards b along their common line. */
  function StepToward(a: Sq, b: Sq, k: nat): Sq
    requires Aligned(a, b) && k <= Distance(a, b)
  {
    At(FileOf(a) + Scale(k, FileOf(b) - FileOf(a)), RankOf(a) + Scale(k, RankOf(b) - RankOf(a)))
  }

  lemma StepCoords(a: Sq, b: Sq, k: nat)
    requires Aligned(a, b) && k <= Distance(a, b)
    ensures FileOf(StepToward(a, b, k)) == FileOf(a) + Scale(k, FileOf(b) - FileOf(a))
    ensures RankOf(StepToward(a, b, k)) == RankOf(a) + Scale(k, RankOf(b) - RankOf(a))
  {
    AtCoords(FileOf(a) + Scale(k, FileOf(b) - FileOf(a)), RankOf(a) + Scale(k, RankOf(b) - RankOf(a)));
  }

  lemma StepEnds(a: Sq, b: Sq, k: nat)
    requires Aligned(a, b) && k <= Distance(a, b)
    ensures StepToward(a, b, k) == b <==> k == Distance(a, b)
    ensures k == 0 ==> StepToward(a, b, k) == a
  {
    StepCoords(a, b, k);
  }

  /** One more step moves one file and one rank towards b, each where b lies that way. */
  lemma NextStep(a: Sq, b: Sq, k: nat)
    requires Aligned(a, b) && k < Distance(a, b)
    ensures StepToward(a, b, k + 1) == StepToward(a, b, k) + Sign(FileOf(b) - FileOf(a)) + 8 * Sign(RankOf(b) - RankOf(a))
  {
    var dx := FileOf(b) - FileOf(a);
    var dy := RankOf(b) - RankOf(a);
    assert Scale(k + 1, dx) == Scale(k, dx) + Sign(dx);
    assert Scale(k + 1, dy) == Scale(k, dy) + Sign(dy);
    StepCoords(a, b, k);
    StepCoords(a, b, k + 1);
  }

  /** The first k squares from a towards b, a itself excluded. */
  function Steps(a: Sq, b: Sq, k: nat): Bitboard
    requires Aligned(a, b) && k <= Distance(a, b)
  {
    if k == 0 then {} else Steps(a, b, k - 1) + {StepToward(a, b, k)}
  }

  /** Specification of `squares_between`: the steps strictly before b, or nothing when not aligned. */
  function Between(a: Sq, b: Sq): Bitboard
  {
    if Aligned(a, b) && a != b then Steps(a, b, Distance(a, b) - 1) else {}
  }

  /** Coordinate-wise reference: s lies on the line from a towards b, strictly between them. */
  predicate StrictlyBetween(a: Sq, b: Sq, s: Sq)
  {
    var dx := FileOf(b) - FileOf(a);
    var dy := RankOf(b) - RankOf(a);
    var ex := FileOf(s) - FileOf(a);
    var ey := RankOf(s) - RankOf(a);
    && Aligned(a, b)
    && Sign(ex) == Sign(dx) && Sign(ey) == Sign(dy)
    && (dx != 0 && dy != 0 ==> Abs(ex) == Abs(ey))
    && 0 < Distance(a, s) < Distance(a, b)
  }

  lemma {:induction false} StepsMembers(a: Sq, b: Sq, k: nat, s: Sq)
    requires Aligned(a, b) && k <= Distance(a, b)
    ensures s in Steps(a, b, k) <==> exists j :: 1 <= j <= k && s == StepToward(a, b, j)
  {
    if k > 0 {
      StepsMembers(a, b, k - 1, s);
      if s == StepToward(a, b, k) {
        assert exists j :: 1 <= j <= k && s == StepToward(a, b, j);
      }
    }
  }

  lemma StepIsBetween(a: Sq, b: Sq, j: nat)
    requires Aligned(a, b) && 1 <= j < Distance(a, b)
    ensures StrictlyBetween(a, b, StepToward(a, b, j))
  {
    StepCoords(a, b, j);
  }

  lemma BetweenIsStep(a: Sq, b: Sq, s: Sq)
    requires StrictlyBetween(a, b, s)
    ensures 1 <= Distance(a, s) < Distance(a, b) && s == StepToward(a, b, Distance(a, s))
  {
    var j := Distance(a, s);
    var t := StepToward(a, b, j);
    StepCoords(a, b, j);
    assert FileOf(t) == FileOf(s) && RankOf(t) == RankOf(s);
  }

  /** `squares_between(a, b)` is empty unless a and b are aligned, and then is exactly the squares strictly between them. */
  lemma BetweenIsSegment(a: Sq, b: Sq, s: Sq)
    ensures s in Between(a, b) <==> StrictlyBetween(a, b, s)
    ensures !Aligned(a, b) ==> Between(a, b) == {}
  {
    if Aligned(a, b) && a != b {
      StepsMembers(a, b, Distance(a, b) - 1, s);
      if s in Between(a, b) {
        var j :| 1 <= j <= Distance(a, b) - 1 && s == StepToward(a, b, j);
        StepIsBetween(a, b, j);
      }
      if StrictlyBetween(a, b, s) {
        BetweenIsStep(a, b, s);
      }
    }
  }

  lemma StrictlyBetweenSymmetric(a: Sq, b: Sq, s: Sq)
    requires StrictlyBetween(a, b, s)
    ensures StrictlyBetween(b, a, s)
  {
    BetweenIsStep(a, b, s);
  }

  /** `squares_between` does not depend on the order of its arguments. */
  lemma BetweenSymmetric(a: Sq, b: Sq)
    ensures Between(a, b) == Between(b, a)
  {
    forall s: Sq ensures s in Between(a, b) <==> s in Between(b, a) {
      BetweenIsSegment(a, b, s);
      BetweenIsSegment(b, a, s);
      if StrictlyBetween(a, b, s) {
        StrictlyBetweenSymmetric(a, b, s);
      }
      if StrictlyBetween(b, a, s) {
        StrictlyBetweenSymmetric(b, a, s);
      }
    }
  }

  lemma {:induction false} StepsExcludeEnd(a: Sq, b: Sq, k: nat)
    requires Aligned(a, b) && k < Distance(a, b)
    ensures b !in Steps(a, b, k)
  {
    if k > 0 {
      StepsExcludeEnd(a, b, k - 1);
      StepEnds(a, b, k);
    }
  }

  /** The loop in `squares_between`: step from a towards b, collecting each square, then drop b. */
  method SquaresBetween(a: Sq, b: Sq) returns (mask: Bitboard)
    ensures mask == Between(a, b)
  {
    var dx := FileOf(b) - FileOf(a);
    var dy := RankOf(b) - RankOf(a);
    var adx := if dx > 0 then dx else -dx;
    var ady := if dy > 0 then dy else -dy;
    if dx == 0 || dy == 0 || adx == ady {
      mask := {};
      var sq1: Sq := a;
      ghost var k: nat := 0;
      StepEnds(a, b, 0);
      while sq1 != b
        invariant k <= Distance(a, b)
        invariant sq1 == StepToward(a, b, k)
        invariant mask == Steps(a, b, k)
        decreases Distance(a, b) - k
      {
        StepEnds(a, b, k);
        var next := sq1;
        if dx > 0 {
          next := next + 1;
        } else if dx < 0 {
          next := next - 1;
        }
        if dy > 0 {
          next := next + 8;
        } else if dy < 0 {
          next := next - 8;
        }
        assert next == sq1 + Sign(dx) + 8 * Sign(dy);
        NextStep(a, b, k);
        k := k + 1;
        sq1 := next;
        mask := mask + {sq1};
      }
      StepEnds(a, b, k);
      StepsToEnd(a, b);
      mask := mask - {b};
    } else {
      assert !Aligned(a, b);
      mask := {};
    }
  }

  /** All the steps up to b, b itself dropped, are the squares between. */
  lemma StepsToEnd(a: Sq, b: Sq)
    requires Aligned(a, b)
    ensures Steps(a, b, Distance(a, b)) - {b} == Between(a, b)
  {
    var d := Distance(a, b);
    if d == 0 {
      assert a == 8 * RankOf(a) + FileOf(a) && b == 8 * RankOf(b) + FileOf(b);
    } else {
      StepEnds(a, b, d);
      StepsExcludeEnd(a, b, d - 1);
      assert Steps(a, b, d) == Steps(a, b, d - 1) + {b};
    }
  }

  /** Same file: a1 to a4 and back. */
  lemma BetweenSameFile()
    ensures Between(0, 24) == {8, 16} && Between(24, 0) == {8, 16}
  {
    assert Aligned(0, 24) && Distance(0, 24) == 3;
    assert StepToward(0, 24, 1) == 8 && StepToward(0, 24, 2) == 16;
    assert Steps(0, 24, 2) == {8, 16};
  }

  /** Same rank: a1 to d1 and back. */
  lemma BetweenSameRank()
    ensures Between(0, 3) == {1, 2} && Between(3, 0) == {1, 2}
  {
    assert Steps(0, 3, 2) == {1, 2};
    assert Steps(3, 0, 2) == {2, 1};
  }

  /** The a1-h8 diagonal: a1 to d4 and back. */
  lemma BetweenDiagonal()
    ensures Between(0, 27) == {9, 18} && Between(27, 0) == {9, 18}
  {
    assert Steps(0, 27, 2) == {9, 18};
    assert Steps(27, 0, 2) == {18, 9};
  }

  /** The a8-h1 direction: a4 to d1 and back. */
  lemma BetweenAntiDiagonal()
    ensures Between(24, 3) == {10, 17} && Between(3, 24) == {10, 17}
  {
    assert Steps(24, 3, 2) == {17, 10};
    assert Steps(3, 24, 2) == {10, 17};
  }

  /** Adjacent, identical and unaligned pairs give nothing. */
  lemma BetweenEmptyCases()
    ensures Between(0, 0) == {} && Between(0, 1) == {} && Between(0, 9) == {} && Between(0, 8) == {}
    ensures Between(0, 17) == {} && Between(0, 10) == {} && Between(17, 0) == {}
  {
    assert Steps(0, 1, 0) == {};
  }
}
