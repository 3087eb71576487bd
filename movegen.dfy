// Attack tables of movegen.cpp: the fixed knight and king masks, the
// relevant-occupancy masks of the sliders, the reference ray-caster and the
// lookups built on them. The magic-multiplication index is not modelled: a
// slider lookup is the ray-cast of the occupancy restricted to the mask,
// which is what the table stores for that occupancy.

module Movegen {
  import opened Squares
  import opened Bitboards

  // ----- rays -----

  /** A direction of one king step: each component -1, 0 or 1, not both 0. */
  predicate Direction(dx: int, dy: int)
  {
    -1 <= dx <= 1 && -1 <= dy <= 1 && (dx != 0 || dy != 0)
  }

  /** Step k of the ray from (f, r) in direction (dx, dy) is on the board. */
  predicate OnRay(f: int, r: int, dx: int, dy: int, k: int)
  {
    OnBoard(f + Scale(k, dx), r + Scale(k, dy))
  }

  /** Step k of the ray from (f, r) in direction (dx, dy). */
  function RaySq(f: int, r: int, dx: int, dy: int, k: int): Sq
    requires OnRay(f, r, dx, dy, k)
  {
    At(f + Scale(k, dx), r + Scale(k, dy))
  }

  /** How many squares a ray from (x, y) in direction (dx, dy) can still take. */
  function RayRoom(x: int, y: int, dx: int, dy: int): int
  {
    if dx > 0 then 8 - x else if dx < 0 then x + 1 else if dy > 0 then 8 - y else y + 1
  }

  /**
   * The reference ray-cast, as the source's loop runs it: from (x, y) on,
   * each on-board square, up to and including the first one in `blockers`.
   */
  function RayFrom(x: int, y: int, dx: int, dy: int, blockers: Bitboard): Bitboard
    requires Direction(dx, dy)
    decreases RayRoom(x, y, dx, dy)
  {
    if !OnBoard(x, y) then {}
    else
      var s := At(x, y);
      {s} + if s in blockers then {} else RayFrom(x + dx, y + dy, dx, dy, blockers)
  }

  /** The ray from (f, r) from its k-th step on. */
  function Ray(f: int, r: int, dx: int, dy: int, k: nat, blockers: Bitboard): Bitboard
    requires Direction(dx, dy)
  {
    RayFrom(f + Scale(k, dx), r + Scale(k, dy), dx, dy, blockers)
  }

  lemma RayFromStep(x: int, y: int, dx: int, dy: int, blockers: Bitboard)
    requires Direction(dx, dy) && OnBoard(x, y)
    ensures RayFrom(x, y, dx, dy, blockers) ==
              {At(x, y)} + if At(x, y) in blockers then {} else RayFrom(x + dx, y + dy, dx, dy, blockers)
  {
  }

  /** One unfolding of `Ray` past the board's edge. */
  lemma RayStepOff(f: int, r: int, dx: int, dy: int, k: nat, blockers: Bitboard)
    requires Direction(dx, dy) && !OnRay(f, r, dx, dy, k)
    ensures Ray(f, r, dx, dy, k, blockers) == {}
  {
  }

  /** One unfolding of `Ray` on the board. */
  lemma RayStepOn(f: int, r: int, dx: int, dy: int, k: nat, blockers: Bitboard)
    requires Direction(dx, dy) && OnRay(f, r, dx, dy, k)
    ensures Ray(f, r, dx, dy, k, blockers) ==
              {RaySq(f, r, dx, dy, k)} + if RaySq(f, r, dx, dy, k) in blockers then {} else Ray(f, r, dx, dy, k + 1, blockers)
  {
    var x := f + Scale(k, dx);
    var y := r + Scale(k, dy);
    assert f + Scale(k + 1, dx) == x + dx && r + Scale(k + 1, dy) == y + dy;
    RayFromStep(x, y, dx, dy, blockers);
  }

  lemma RayStep(f: int, r: int, dx: int, dy: int, k: nat, blockers: Bitboard)
    requires Direction(dx, dy)
    ensures !OnRay(f, r, dx, dy, k) ==> Ray(f, r, dx, dy, k, blockers) == {}
    ensures OnRay(f, r, dx, dy, k) ==>
              Ray(f, r, dx, dy, k, blockers) ==
              {RaySq(f, r, dx, dy, k)} + if RaySq(f, r, dx, dy, k) in blockers then {} else Ray(f, r, dx, dy, k + 1, blockers)
  {
    if OnRay(f, r, dx, dy, k) {
      RayStepOn(f, r, dx, dy, k, blockers);
    } else {
      RayStepOff(f, r, dx, dy, k, blockers);
    }
  }

  /** A step on the board is at most 7 squares from an on-board origin. */
  lemma RayBound(f: int, r: int, dx: int, dy: int, k: nat)
    requires OnBoard(f, r) && Direction(dx, dy) && OnRay(f, r, dx, dy, k)
    ensures k < 8
  {
  }

  /** No square among steps k .. j-1 of the ray is a blocker. */
  predicate Clear(f: int, r: int, dx: int, dy: int, k: int, j: int, blockers: Bitboard)
  {
    forall i :: k <= i < j ==> OnRay(f, r, dx, dy, i) && RaySq(f, r, dx, dy, i) !in blockers
  }

  /** The line from a to s leaves a in direction (dx, dy). */
  predicate InDirection(a: Sq, s: Sq, dx: int, dy: int)
  {
    Sign(FileOf(s) - FileOf(a)) == dx && Sign(RankOf(s) - RankOf(a)) == dy
  }

  /** A slider on a sees s: they share a line and nothing in `blockers` stands strictly between. */
  predicate Sees(a: Sq, s: Sq, blockers: Bitboard)
  {
    a != s && Aligned(a, s) && Between(a, s) * blockers == {}
  }

  lemma RayCoords(f: int, r: int, dx: int, dy: int, j: nat)
    requires OnRay(f, r, dx, dy, j)
    ensures FileOf(RaySq(f, r, dx, dy, j)) == f + Scale(j, dx)
    ensures RankOf(RaySq(f, r, dx, dy, j)) == r + Scale(j, dy)
  {
    AtCoords(f + Scale(j, dx), r + Scale(j, dy));
  }

  lemma RayLine(f: int, r: int, dx: int, dy: int, j: nat)
    requires OnBoard(f, r) && Direction(dx, dy) && OnRay(f, r, dx, dy, j)
    ensures Aligned(At(f, r), RaySq(f, r, dx, dy, j)) && Distance(At(f, r), RaySq(f, r, dx, dy, j)) == j
    ensures j >= 1 ==> InDirection(At(f, r), RaySq(f, r, dx, dy, j), dx, dy)
  {
    AtCoords(f, r);
    RayCoords(f, r, dx, dy, j);
  }

  lemma RayPrefix(f: int, r: int, dx: int, dy: int, j: nat, i: nat)
    requires OnBoard(f, r) && Direction(dx, dy) && OnRay(f, r, dx, dy, j) && i <= j
    ensures OnRay(f, r, dx, dy, i)
    ensures Aligned(At(f, r), RaySq(f, r, dx, dy, j)) && i <= Distance(At(f, r), RaySq(f, r, dx, dy, j))
    ensures StepToward(At(f, r), RaySq(f, r, dx, dy, j), i) == RaySq(f, r, dx, dy, i)
  {
    AtCoords(f, r);
    RayCoords(f, r, dx, dy, j);
    RayLine(f, r, dx, dy, j);
    StepCoords(At(f, r), RaySq(f, r, dx, dy, j), i);
    AtCoords(f + Scale(i, dx), r + Scale(i, dy));
  }

  /** The ray steps j away: its coordinates, its distance and the squares before it. */
  lemma RaySqFacts(f: int, r: int, dx: int, dy: int, j: nat, i: nat)
    requires OnBoard(f, r) && Direction(dx, dy) && OnRay(f, r, dx, dy, j) && i <= j
    ensures FileOf(RaySq(f, r, dx, dy, j)) == f + Scale(j, dx)
    ensures RankOf(RaySq(f, r, dx, dy, j)) == r + Scale(j, dy)
    ensures Aligned(At(f, r), RaySq(f, r, dx, dy, j)) && Distance(At(f, r), RaySq(f, r, dx, dy, j)) == j
    ensures j >= 1 ==> InDirection(At(f, r), RaySq(f, r, dx, dy, j), dx, dy)
    ensures OnRay(f, r, dx, dy, i)
    ensures StepToward(At(f, r), RaySq(f, r, dx, dy, j), i) == RaySq(f, r, dx, dy, i)
  {
    RayCoords(f, r, dx, dy, j);
    RayLine(f, r, dx, dy, j);
    RayPrefix(f, r, dx, dy, j, i);
  }

  /** Every step before j is clear, so step j is reached. */
  lemma {:induction false} RayReaches(f: int, r: int, dx: int, dy: int, k: nat, j: nat, blockers: Bitboard)
    requires OnBoard(f, r) && Direction(dx, dy) && 1 <= k <= j
    requires OnRay(f, r, dx, dy, j) && Clear(f, r, dx, dy, k, j, blockers)
    ensures RaySq(f, r, dx, dy, j) in Ray(f, r, dx, dy, k, blockers)
    decreases j - k
  {
    assert OnRay(f, r, dx, dy, k);
    RayStep(f, r, dx, dy, k, blockers);
    if k < j {
      assert RaySq(f, r, dx, dy, k) !in blockers;
      RayReaches(f, r, dx, dy, k + 1, j, blockers);
    }
  }

  /** Every member of the ray is some step j, and the steps before it are clear. */
  lemma {:induction false} RayIndex(f: int, r: int, dx: int, dy: int, k: nat, blockers: Bitboard, s: Sq) returns (j: nat)
    requires OnBoard(f, r) && Direction(dx, dy) && k >= 1
    requires s in Ray(f, r, dx, dy, k, blockers)
    ensures k <= j && OnRay(f, r, dx, dy, j) && RaySq(f, r, dx, dy, j) == s
    ensures Clear(f, r, dx, dy, k, j, blockers)
    decreases 8 - k
  {
    RayStep(f, r, dx, dy, k, blockers);
    RayBound(f, r, dx, dy, k);
    if s == RaySq(f, r, dx, dy, k) {
      j := k;
    } else {
      j := RayIndex(f, r, dx, dy, k + 1, blockers, s);
    }
  }

  /** Clear steps before step j are exactly an empty `squares_between` from the origin to step j. */
  lemma ClearIsBetween(f: int, r: int, dx: int, dy: int, j: nat, blockers: Bitboard)
    requires OnBoard(f, r) && Direction(dx, dy) && j >= 1 && OnRay(f, r, dx, dy, j)
    ensures Clear(f, r, dx, dy, 1, j, blockers) <==> Between(At(f, r), RaySq(f, r, dx, dy, j)) * blockers == {}
  {
    var a := At(f, r);
    var b := RaySq(f, r, dx, dy, j);
    RaySqFacts(f, r, dx, dy, j, 0);
    if Clear(f, r, dx, dy, 1, j, blockers) {
      forall t | t in Between(a, b) ensures t !in blockers {
        BetweenIsSegment(a, b, t);
        BetweenIsStep(a, b, t);
        RaySqFacts(f, r, dx, dy, j, Distance(a, t));
      }
    }
    if Between(a, b) * blockers == {} {
      forall i | 1 <= i < j ensures OnRay(f, r, dx, dy, i) && RaySq(f, r, dx, dy, i) !in blockers {
        RaySqFacts(f, r, dx, dy, j, i);
        StepIsBetween(a, b, i);
        BetweenIsSegment(a, b, RaySq(f, r, dx, dy, i));
        assert RaySq(f, r, dx, dy, i) !in Between(a, b) * blockers;
      }
    }
  }

  /** A square in direction (dx, dy) from the origin is a step of that ray. */
  lemma DirectionIsRay(f: int, r: int, dx: int, dy: int, s: Sq)
    requires OnBoard(f, r) && Direction(dx, dy)
    requires At(f, r) != s && Aligned(At(f, r), s) && InDirection(At(f, r), s, dx, dy)
    ensures OnRay(f, r, dx, dy, Distance(At(f, r), s)) && RaySq(f, r, dx, dy, Distance(At(f, r), s)) == s
  {
    AtCoords(f, r);
    var j := Distance(At(f, r), s);
    assert f + Scale(j, dx) == FileOf(s) && r + Scale(j, dy) == RankOf(s);
  }

  /**
   * Reference characterization of one ray: it holds exactly the squares in
   * its direction that the origin sees past `blockers`.
   */
  lemma RaySees(f: int, r: int, dx: int, dy: int, blockers: Bitboard, s: Sq)
    requires OnBoard(f, r) && Direction(dx, dy)
    ensures s in Ray(f, r, dx, dy, 1, blockers) <==> Sees(At(f, r), s, blockers) && InDirection(At(f, r), s, dx, dy)
  {
    var a := At(f, r);
    if s in Ray(f, r, dx, dy, 1, blockers) {
      var j := RayIndex(f, r, dx, dy, 1, blockers, s);
      RaySqFacts(f, r, dx, dy, j, 0);
      ClearIsBetween(f, r, dx, dy, j, blockers);
    }
    if Sees(a, s, blockers) && InDirection(a, s, dx, dy) {
      DirectionIsRay(f, r, dx, dy, s);
      var j := Distance(a, s);
      RaySqFacts(f, r, dx, dy, j, 0);
      ClearIsBetween(f, r, dx, dy, j, blockers);
      RayReaches(f, r, dx, dy, 1, j, blockers);
    }
  }

  // ----- the slider ray-casters: calculate_bishop_moves, calculate_rook_moves -----

  /** The four diagonal rays from sq, in the order of the source's loops. */
  function BishopAttacks(sq: Sq, blockers: Bitboard): Bitboard
  {
    var f := FileOf(sq);
    var r := RankOf(sq);
    RayFrom(f + 1, r + 1, 1, 1, blockers) + RayFrom(f - 1, r + 1, -1, 1, blockers)
      + RayFrom(f + 1, r - 1, 1, -1, blockers) + RayFrom(f - 1, r - 1, -1, -1, blockers)
  }

  /** The four orthogonal rays from sq: up, down, right, left. */
  function RookAttacks(sq: Sq, blockers: Bitboard): Bitboard
  {
    var f := FileOf(sq);
    var r := RankOf(sq);
    RayFrom(f, r + 1, 0, 1, blockers) + RayFrom(f, r - 1, 0, -1, blockers)
      + RayFrom(f + 1, r, 1, 0, blockers) + RayFrom(f - 1, r, -1, 0, blockers)
  }

  /** a and s differ in both file and rank: they can only share a diagonal. */
  predicate OffAxis(a: Sq, s: Sq) { FileOf(s) != FileOf(a) && RankOf(s) != RankOf(a) }

  lemma CentreIsAt(sq: Sq)
    ensures OnBoard(FileOf(sq), RankOf(sq)) && At(FileOf(sq), RankOf(sq)) == sq
  {
  }

  /** A bishop on sq attacks exactly the diagonal squares it sees past the blockers. */
  lemma BishopAttacksSees(sq: Sq, blockers: Bitboard, s: Sq)
    ensures s in BishopAttacks(sq, blockers) <==> Sees(sq, s, blockers) && OffAxis(sq, s)
  {
    var f := FileOf(sq);
    var r := RankOf(sq);
    CentreIsAt(sq);
    RaySees(f, r, 1, 1, blockers, s);
    RaySees(f, r, -1, 1, blockers, s);
    RaySees(f, r, 1, -1, blockers, s);
    RaySees(f, r, -1, -1, blockers, s);
  }

  /** A rook on sq attacks exactly the same-file and same-rank squares it sees past the blockers. */
  lemma RookAttacksSees(sq: Sq, blockers: Bitboard, s: Sq)
    ensures s in RookAttacks(sq, blockers) <==> Sees(sq, s, blockers) && !OffAxis(sq, s)
  {
    var f := FileOf(sq);
    var r := RankOf(sq);
    CentreIsAt(sq);
    RaySees(f, r, 0, 1, blockers, s);
    RaySees(f, r, 0, -1, blockers, s);
    RaySees(f, r, 1, 0, blockers, s);
    RaySees(f, r, -1, 0, blockers, s);
  }

  lemma Absorb(a: Bitboard, s: Sq, rest: Bitboard, whole: Bitboard)
    requires a + ({s} + rest) == whole
    ensures (a + {s}) + rest == whole
  {
  }

  lemma BishopRays(sq: Sq, blockers: Bitboard, a: Bitboard, b: Bitboard, c: Bitboard, d: Bitboard)
    requires a == RayFrom(FileOf(sq) + 1, RankOf(sq) + 1, 1, 1, blockers)
    requires b == RayFrom(FileOf(sq) - 1, RankOf(sq) + 1, -1, 1, blockers)
    requires c == RayFrom(FileOf(sq) + 1, RankOf(sq) - 1, 1, -1, blockers)
    requires d == RayFrom(FileOf(sq) - 1, RankOf(sq) - 1, -1, -1, blockers)
    ensures a + b + c + d == BishopAttacks(sq, blockers)
  {
  }

  lemma RookRays(sq: Sq, blockers: Bitboard, a: Bitboard, b: Bitboard, c: Bitboard, d: Bitboard)
    requires a == RayFrom(FileOf(sq), RankOf(sq) + 1, 0, 1, blockers)
    requires b == RayFrom(FileOf(sq), RankOf(sq) - 1, 0, -1, blockers)
    requires c == RayFrom(FileOf(sq) + 1, RankOf(sq), 1, 0, blockers)
    requires d == RayFrom(FileOf(sq) - 1, RankOf(sq), -1, 0, blockers)
    ensures a + b + c + d == RookAttacks(sq, blockers)
  {
  }

  lemma UnionEmpty(a: Bitboard)
    ensures a + {} == a && {} + a == a
  {
  }

  /** A ray walk standing at (x, y) has collected `result`, and the rest of the ray completes it. */
  predicate RayWalked(result: Bitboard, x: int, y: int, dx: int, dy: int, blockers: Bitboard, whole: Bitboard)
    requires Direction(dx, dy)
  {
    result + RayFrom(x, y, dx, dy, blockers) == whole
  }

  /** A walk that stops on a blocker has added the whole ray. */
  lemma RayWalkStop(result: Bitboard, x: int, y: int, dx: int, dy: int, blockers: Bitboard, whole: Bitboard)
    requires Direction(dx, dy) && OnBoard(x, y) && x + y * 8 in blockers
    requires RayWalked(result, x, y, dx, dy, blockers, whole)
    ensures result + {x + y * 8} == whole
  {
    RayFromStep(x, y, dx, dy, blockers);
    UnionEmpty({x + y * 8});
  }

  /** A walk past an empty square moves it from the rest of the ray into the result. */
  lemma RayWalkStep(result: Bitboard, x: int, y: int, dx: int, dy: int, blockers: Bitboard, whole: Bitboard)
    requires Direction(dx, dy) && OnBoard(x, y) && x + y * 8 !in blockers
    requires RayWalked(result, x, y, dx, dy, blockers, whole)
    ensures RayWalked(result + {x + y * 8}, x + dx, y + dy, dx, dy, blockers, whole)
  {
    RayFromStep(x, y, dx, dy, blockers);
    Absorb(result, x + y * 8, RayFrom(x + dx, y + dy, dx, dy, blockers), whole);
  }

  /** A walk that leaves the board has collected the whole ray. */
  lemma RayWalkDone(result: Bitboard, x: int, y: int, dx: int, dy: int, blockers: Bitboard, whole: Bitboard)
    requires Direction(dx, dy) && !OnBoard(x, y)
    requires RayWalked(result, x, y, dx, dy, blockers, whole)
    ensures result == whole
  {
    assert RayFrom(x, y, dx, dy, blockers) == {};
    UnionEmpty(result);
  }

  /** One loop of a ray-caster: OR in each square, stop after the first blocker. */
  method WalkRay(f: int, r: int, dx: int, dy: int, blockers: Bitboard) returns (result: Bitboard)
    requires Direction(dx, dy)
    ensures result == RayFrom(f + dx, r + dy, dx, dy, blockers)
  {
    result := {};
    var x := f + dx;
    var y := r + dy;
    ghost var whole := RayFrom(x, y, dx, dy, blockers);
    UnionEmpty(whole);
    while 0 <= x <= 7 && 0 <= y <= 7
      invariant RayWalked(result, x, y, dx, dy, blockers, whole)
      decreases RayRoom(x, y, dx, dy)
    {
      var nsq := x + y * 8;
      if nsq in blockers {
        RayWalkStop(result, x, y, dx, dy, blockers, whole);
        result := result + {nsq};
        return;
      }
      RayWalkStep(result, x, y, dx, dy, blockers, whole);
      result := result + {nsq};
      x := x + dx;
      y := y + dy;
    }
    RayWalkDone(result, x, y, dx, dy, blockers, whole);
  }

  /** `calculate_bishop_moves(sq, blockers)`. */
  method CalculateBishopMoves(sq: Sq, blockers: Bitboard) returns (result: Bitboard)
    ensures result == BishopAttacks(sq, blockers)
  {
    var file := FileOf(sq);
    var rank := RankOf(sq);
    var upRight := WalkRay(file, rank, 1, 1, blockers);
    var upLeft := WalkRay(file, rank, -1, 1, blockers);
    var downRight := WalkRay(file, rank, 1, -1, blockers);
    var downLeft := WalkRay(file, rank, -1, -1, blockers);
    result := upRight + upLeft + downRight + downLeft;
    BishopRays(sq, blockers, upRight, upLeft, downRight, downLeft);
  }

  /** `calculate_rook_moves(sq, blockers)`. */
  method CalculateRookMoves(sq: Sq, blockers: Bitboard) returns (result: Bitboard)
    ensures result == RookAttacks(sq, blockers)
  {
    var file := FileOf(sq);
    var rank := RankOf(sq);
    var up := WalkRay(file, rank, 0, 1, blockers);
    var down := WalkRay(file, rank, 0, -1, blockers);
    var right := WalkRay(file, rank, 1, 0, blockers);
    var left := WalkRay(file, rank, -1, 0, blockers);
    result := up + down + right + left;
    RookRays(sq, blockers, up, down, right, left);
  }

  // ----- relevant-occupancy masks: calculate_bishop_masks, generate_rook_masks -----

  /**
   * The interior of a ray from (x, y) on: each on-board square whose next
   * square in the same direction is also on the board. The edge square that
   * ends the ray never matters as a blocker, so the masks leave it out.
   */
  function MaskFrom(x: int, y: int, dx: int, dy: int): Bitboard
    requires Direction(dx, dy)
    decreases RayRoom(x, y, dx, dy)
  {
    if OnBoard(x, y) && OnBoard(x + dx, y + dy) then {At(x, y)} + MaskFrom(x + dx, y + dy, dx, dy) else {}
  }

  function BishopMask(sq: Sq): Bitboard
  {
    var f := FileOf(sq);
    var r := RankOf(sq);
    MaskFrom(f + 1, r + 1, 1, 1) + MaskFrom(f - 1, r + 1, -1, 1)
      + MaskFrom(f + 1, r - 1, 1, -1) + MaskFrom(f - 1, r - 1, -1, -1)
  }

  function RookMask(sq: Sq): Bitboard
  {
    var f := FileOf(sq);
    var r := RankOf(sq);
    MaskFrom(f, r + 1, 0, 1) + MaskFrom(f, r - 1, 0, -1)
      + MaskFrom(f + 1, r, 1, 0) + MaskFrom(f - 1, r, -1, 0)
  }

  /** The mask is the ray cast over an empty board without its last square. */
  lemma {:induction false} MaskIsRayInterior(x: int, y: int, dx: int, dy: int, s: Sq)
    requires Direction(dx, dy)
    ensures s in MaskFrom(x, y, dx, dy) <==>
              s in RayFrom(x, y, dx, dy, {}) && OnBoard(FileOf(s) + dx, RankOf(s) + dy)
    decreases RayRoom(x, y, dx, dy)
  {
    if OnBoard(x, y) {
      AtCoords(x, y);
      RayFromStep(x, y, dx, dy, {});
      if OnBoard(x + dx, y + dy) {
        MaskIsRayInterior(x + dx, y + dy, dx, dy, s);
      } else {
        assert RayFrom(x + dx, y + dy, dx, dy, {}) == {};
      }
    }
  }

  /**
   * Blockers that agree on a ray's interior give the same ray: the lookup
   * may drop every occupant outside the mask.
   */
  lemma {:induction false} RayAgree(x: int, y: int, dx: int, dy: int, b1: Bitboard, b2: Bitboard)
    requires Direction(dx, dy)
    requires forall s :: s in MaskFrom(x, y, dx, dy) ==> (s in b1 <==> s in b2)
    ensures RayFrom(x, y, dx, dy, b1) == RayFrom(x, y, dx, dy, b2)
    decreases RayRoom(x, y, dx, dy)
  {
    if OnBoard(x, y) {
      RayFromStep(x, y, dx, dy, b1);
      RayFromStep(x, y, dx, dy, b2);
      if OnBoard(x + dx, y + dy) {
        assert At(x, y) in MaskFrom(x, y, dx, dy);
        RayAgree(x + dx, y + dy, dx, dy, b1, b2);
      } else {
        assert RayFrom(x + dx, y + dy, dx, dy, b1) == {} == RayFrom(x + dx, y + dy, dx, dy, b2);
      }
    }
  }

  /** The table entry for `occ & bishop_mask` is the ray-cast of the whole occupancy. */
  lemma BishopLookup(sq: Sq, occ: Bitboard)
    ensures BishopAttacks(sq, occ * BishopMask(sq)) == BishopAttacks(sq, occ)
  {
    var f := FileOf(sq);
    var r := RankOf(sq);
    var m := occ * BishopMask(sq);
    RayAgree(f + 1, r + 1, 1, 1, m, occ);
    RayAgree(f - 1, r + 1, -1, 1, m, occ);
    RayAgree(f + 1, r - 1, 1, -1, m, occ);
    RayAgree(f - 1, r - 1, -1, -1, m, occ);
  }

  lemma RookLookup(sq: Sq, occ: Bitboard)
    ensures RookAttacks(sq, occ * RookMask(sq)) == RookAttacks(sq, occ)
  {
    var f := FileOf(sq);
    var r := RankOf(sq);
    var m := occ * RookMask(sq);
    RayAgree(f, r + 1, 0, 1, m, occ);
    RayAgree(f, r - 1, 0, -1, m, occ);
    RayAgree(f + 1, r, 1, 0, m, occ);
    RayAgree(f - 1, r, -1, 0, m, occ);
  }

  /** Every bishop mask is non-empty: the diagonal step toward the centre is interior. */
  lemma BishopMaskNonEmpty(sq: Sq)
    ensures BishopMask(sq) != {}
  {
    var f := FileOf(sq);
    var r := RankOf(sq);
    if f < 4 && r < 4 {
      assert At(f + 1, r + 1) in MaskFrom(f + 1, r + 1, 1, 1);
    } else if f >= 4 && r < 4 {
      assert At(f - 1, r + 1) in MaskFrom(f - 1, r + 1, -1, 1);
    } else if f < 4 {
      assert At(f + 1, r - 1) in MaskFrom(f + 1, r - 1, 1, -1);
    } else {
      assert At(f - 1, r - 1) in MaskFrom(f - 1, r - 1, -1, -1);
    }
  }

  /** Every rook mask is non-empty: the file step toward the centre is interior. */
  lemma RookMaskNonEmpty(sq: Sq)
    ensures RookMask(sq) != {}
  {
    var f := FileOf(sq);
    var r := RankOf(sq);
    if r < 4 {
      assert At(f, r + 1) in MaskFrom(f, r + 1, 0, 1);
    } else {
      assert At(f, r - 1) in MaskFrom(f, r - 1, 0, -1);
    }
  }

  /** The square one step further from sq than s, in the direction from sq to s, is on the board. */
  predicate BeyondOnBoard(sq: Sq, s: Sq)
  {
    OnBoard(FileOf(s) + Sign(FileOf(s) - FileOf(sq)), RankOf(s) + Sign(RankOf(s) - RankOf(sq)))
  }

  /** One ray's part of a mask: the ray over an empty board minus its last square. */
  lemma MaskRayMembers(f: int, r: int, dx: int, dy: int, s: Sq)
    requires OnBoard(f, r) && Direction(dx, dy)
    ensures s in MaskFrom(f + dx, r + dy, dx, dy) <==>
              s in RayFrom(f + dx, r + dy, dx, dy, {}) && BeyondOnBoard(At(f, r), s)
  {
    AtCoords(f, r);
    assert Ray(f, r, dx, dy, 1, {}) == RayFrom(f + dx, r + dy, dx, dy, {});
    MaskIsRayInterior(f + dx, r + dy, dx, dy, s);
    if s in RayFrom(f + dx, r + dy, dx, dy, {}) {
      RaySees(f, r, dx, dy, {}, s);
      BeyondInDirection(At(f, r), s, dx, dy);
    }
  }

  lemma BeyondInDirection(a: Sq, s: Sq, dx: int, dy: int)
    requires InDirection(a, s, dx, dy)
    ensures BeyondOnBoard(a, s) == OnBoard(FileOf(s) + dx, RankOf(s) + dy)
  {
  }

  /**
   * The bishop mask is the empty-board bishop attack set minus the last
   * square of each ray; in particular it never holds the origin.
   */
  lemma BishopMaskMembers(sq: Sq, s: Sq)
    ensures s in BishopMask(sq) <==> s in BishopAttacks(sq, {}) && BeyondOnBoard(sq, s)
    ensures sq !in BishopMask(sq)
  {
    var f := FileOf(sq);
    var r := RankOf(sq);
    CentreIsAt(sq);
    MaskRayMembers(f, r, 1, 1, s);
    MaskRayMembers(f, r, -1, 1, s);
    MaskRayMembers(f, r, 1, -1, s);
    MaskRayMembers(f, r, -1, -1, s);
    BishopAttacksSees(sq, {}, sq);
    MaskRayMembers(f, r, 1, 1, sq);
    MaskRayMembers(f, r, -1, 1, sq);
    MaskRayMembers(f, r, 1, -1, sq);
    MaskRayMembers(f, r, -1, -1, sq);
  }

  /** The rook mask is the empty-board rook attack set minus the last square of each ray. */
  lemma RookMaskMembers(sq: Sq, s: Sq)
    ensures s in RookMask(sq) <==> s in RookAttacks(sq, {}) && BeyondOnBoard(sq, s)
    ensures sq !in RookMask(sq)
  {
    var f := FileOf(sq);
    var r := RankOf(sq);
    CentreIsAt(sq);
    MaskRayMembers(f, r, 0, 1, s);
    MaskRayMembers(f, r, 0, -1, s);
    MaskRayMembers(f, r, 1, 0, s);
    MaskRayMembers(f, r, -1, 0, s);
    RookAttacksSees(sq, {}, sq);
    MaskRayMembers(f, r, 0, 1, sq);
    MaskRayMembers(f, r, 0, -1, sq);
    MaskRayMembers(f, r, 1, 0, sq);
    MaskRayMembers(f, r, -1, 0, sq);
  }

  /** One step of a mask walk: the square moves from the rest of the interior into the result. */
  lemma MaskWalkStep(result: Bitboard, x: int, y: int, dx: int, dy: int, whole: Bitboard)
    requires Direction(dx, dy) && OnBoard(x, y) && OnBoard(x + dx, y + dy)
    requires result + MaskFrom(x, y, dx, dy) == whole
    ensures (result + {x + y * 8}) + MaskFrom(x + dx, y + dy, dx, dy) == whole
  {
    Absorb(result, x + y * 8, MaskFrom(x + dx, y + dy, dx, dy), whole);
  }

  lemma MaskFromEnd(x: int, y: int, dx: int, dy: int)
    requires Direction(dx, dy) && !(OnBoard(x, y) && OnBoard(x + dx, y + dy))
    ensures MaskFrom(x, y, dx, dy) == {}
  {
  }

  /** One loop of a mask builder: OR in each square while the next one is still on the board. */
  method WalkMask(f: int, r: int, dx: int, dy: int) returns (result: Bitboard)
    requires Direction(dx, dy)
    ensures result == MaskFrom(f + dx, r + dy, dx, dy)
  {
    result := {};
    var x := f + dx;
    var y := r + dy;
    ghost var whole := MaskFrom(x, y, dx, dy);
    UnionEmpty(whole);
    while 0 <= x <= 7 && 0 <= y <= 7 && 0 <= x + dx <= 7 && 0 <= y + dy <= 7
      invariant result + MaskFrom(x, y, dx, dy) == whole
      decreases RayRoom(x, y, dx, dy)
    {
      var nsq := x + y * 8;
      MaskWalkStep(result, x, y, dx, dy, whole);
      result := result + {nsq};
      x := x + dx;
      y := y + dy;
    }
    MaskFromEnd(x, y, dx, dy);
    UnionEmpty(result);
  }

  lemma BishopMaskRays(sq: Sq, a: Bitboard, b: Bitboard, c: Bitboard, d: Bitboard)
    requires a == MaskFrom(FileOf(sq) + 1, RankOf(sq) + 1, 1, 1)
    requires b == MaskFrom(FileOf(sq) - 1, RankOf(sq) + 1, -1, 1)
    requires c == MaskFrom(FileOf(sq) + 1, RankOf(sq) - 1, 1, -1)
    requires d == MaskFrom(FileOf(sq) - 1, RankOf(sq) - 1, -1, -1)
    ensures a + b + c + d == BishopMask(sq)
  {
  }

  lemma RookMaskRays(sq: Sq, a: Bitboard, b: Bitboard, c: Bitboard, d: Bitboard)
    requires a == MaskFrom(FileOf(sq), RankOf(sq) + 1, 0, 1)
    requires b == MaskFrom(FileOf(sq), RankOf(sq) - 1, 0, -1)
    requires c == MaskFrom(FileOf(sq) + 1, RankOf(sq), 1, 0)
    requires d == MaskFrom(FileOf(sq) - 1, RankOf(sq), -1, 0)
    ensures a + b + c + d == RookMask(sq)
  {
  }

  /** `calculate_bishop_masks`: the 64 bishop masks, each asserted non-empty. */
  method CalculateBishopMasks() returns (masks: seq<Bitboard>)
    ensures |masks| == 64
    ensures forall i :: 0 <= i < 64 ==> masks[i] == BishopMask(i) && masks[i] != {}
  {
    masks := [];
    var i := 0;
    while i < 64
      invariant 0 <= i <= 64 && |masks| == i
      invariant forall j :: 0 <= j < i ==> masks[j] == BishopMask(j) && masks[j] != {}
    {
      var file := i % 8;
      var rank := i / 8;
      var upRight := WalkMask(file, rank, 1, 1);
      var upLeft := WalkMask(file, rank, -1, 1);
      var downRight := WalkMask(file, rank, 1, -1);
      var downLeft := WalkMask(file, rank, -1, -1);
      BishopMaskRays(i, upRight, upLeft, downRight, downLeft);
      BishopMaskNonEmpty(i);
      masks := masks + [upRight + upLeft + downRight + downLeft];
      i := i + 1;
    }
  }

  /** `generate_rook_masks`: the 64 rook masks, each asserted non-empty. */
  method GenerateRookMasks() returns (masks: seq<Bitboard>)
    ensures |masks| == 64
    ensures forall i :: 0 <= i < 64 ==> masks[i] == RookMask(i) && masks[i] != {}
  {
    masks := [];
    var i := 0;
    while i < 64
      invariant 0 <= i <= 64 && |masks| == i
      invariant forall j :: 0 <= j < i ==> masks[j] == RookMask(j) && masks[j] != {}
    {
      var file := i % 8;
      var rank := i / 8;
      var up := WalkMask(file, rank, 0, 1);
      var down := WalkMask(file, rank, 0, -1);
      var right := WalkMask(file, rank, 1, 0);
      var left := WalkMask(file, rank, -1, 0);
      RookMaskRays(i, up, down, right, left);
      RookMaskNonEmpty(i);
      masks := masks + [up + down + right + left];
      i := i + 1;
    }
  }

  // ----- knight and king masks -----

  /** The board holding only the square (df, dr) away from sq, or nothing when that is off the board. */
  function Jump(sq: Sq, df: int, dr: int): Bitboard
  {
    var f := FileOf(sq) + df;
    var r := RankOf(sq) + dr;
    if OnBoard(f, r) then {At(f, r)} else {}
  }

  lemma JumpMembers(sq: Sq, df: int, dr: int, s: Sq)
    ensures s in Jump(sq, df, dr) <==> FileOf(s) - FileOf(sq) == df && RankOf(s) - RankOf(sq) == dr
  {
    if OnBoard(FileOf(sq) + df, RankOf(sq) + dr) {
      AtCoords(FileOf(sq) + df, RankOf(sq) + dr);
    }
  }

  lemma JumpZero(sq: Sq)
    ensures Jump(sq, 0, 0) == {sq}
  {
  }

  /** The coordinates of the squares one step up, down, right and left. */
  lemma NorthCoords(t: Sq)
    requires RankOf(t) < 7
    ensures t + 8 < 64 && FileOf(t + 8) == FileOf(t) && RankOf(t + 8) == RankOf(t) + 1
  {
  }

  lemma SouthCoords(t: Sq)
    requires RankOf(t) > 0
    ensures t >= 8 && FileOf(t - 8) == FileOf(t) && RankOf(t - 8) == RankOf(t) - 1
  {
  }

  lemma EastCoords(t: Sq)
    requires FileOf(t) < 7
    ensures t + 1 < 64 && FileOf(t + 1) == FileOf(t) + 1 && RankOf(t + 1) == RankOf(t)
  {
  }

  lemma WestCoords(t: Sq)
    requires FileOf(t) > 0
    ensures t >= 1 && FileOf(t - 1) == FileOf(t) - 1 && RankOf(t - 1) == RankOf(t)
  {
  }

  /** Shifting a jump further along a direction it already moves in (or not at all) extends the jump. */
  lemma NorthJump(sq: Sq, df: int, dr: int)
    requires dr >= 0
    ensures North(Jump(sq, df, dr)) == Jump(sq, df, dr + 1)
  {
    forall t: Sq ensures t in North(Jump(sq, df, dr)) <==> t in Jump(sq, df, dr + 1) {
      NorthJumpAt(sq, df, dr, t);
    }
  }

  lemma NorthJumpAt(sq: Sq, df: int, dr: int, t: Sq)
    requires dr >= 0
    ensures t in North(Jump(sq, df, dr)) <==> t in Jump(sq, df, dr + 1)
  {
    InNorth(Jump(sq, df, dr), t);
    JumpMembers(sq, df, dr + 1, t);
    if RankOf(t) > 0 {
      SouthCoords(t);
      JumpMembers(sq, df, dr, t - 8);
    }
  }

  lemma SouthJump(sq: Sq, df: int, dr: int)
    requires dr <= 0
    ensures South(Jump(sq, df, dr)) == Jump(sq, df, dr - 1)
  {
    forall t: Sq ensures t in South(Jump(sq, df, dr)) <==> t in Jump(sq, df, dr - 1) {
      SouthJumpAt(sq, df, dr, t);
    }
  }

  lemma SouthJumpAt(sq: Sq, df: int, dr: int, t: Sq)
    requires dr <= 0
    ensures t in South(Jump(sq, df, dr)) <==> t in Jump(sq, df, dr - 1)
  {
    InSouth(Jump(sq, df, dr), t);
    JumpMembers(sq, df, dr - 1, t);
    if RankOf(t) < 7 {
      NorthCoords(t);
      JumpMembers(sq, df, dr, t + 8);
    }
  }

  lemma EastJump(sq: Sq, df: int, dr: int)
    requires df >= 0
    ensures East(Jump(sq, df, dr)) == Jump(sq, df + 1, dr)
  {
    forall t: Sq ensures t in East(Jump(sq, df, dr)) <==> t in Jump(sq, df + 1, dr) {
      EastJumpAt(sq, df, dr, t);
    }
  }

  lemma EastJumpAt(sq: Sq, df: int, dr: int, t: Sq)
    requires df >= 0
    ensures t in East(Jump(sq, df, dr)) <==> t in Jump(sq, df + 1, dr)
  {
    InEast(Jump(sq, df, dr), t);
    JumpMembers(sq, df + 1, dr, t);
    if FileOf(t) > 0 {
      WestCoords(t);
      JumpMembers(sq, df, dr, t - 1);
    }
  }

  lemma WestJump(sq: Sq, df: int, dr: int)
    requires df <= 0
    ensures West(Jump(sq, df, dr)) == Jump(sq, df - 1, dr)
  {
    forall t: Sq ensures t in West(Jump(sq, df, dr)) <==> t in Jump(sq, df - 1, dr) {
      WestJumpAt(sq, df, dr, t);
    }
  }

  lemma WestJumpAt(sq: Sq, df: int, dr: int, t: Sq)
    requires df <= 0
    ensures t in West(Jump(sq, df, dr)) <==> t in Jump(sq, df - 1, dr)
  {
    InWest(Jump(sq, df, dr), t);
    JumpMembers(sq, df - 1, dr, t);
    if FileOf(t) < 7 {
      EastCoords(t);
      JumpMembers(sq, df, dr, t + 1);
    }
  }

  /** `calculate_knight_masks` for one square: the eight L-shaped shift compositions, in the source's order. */
  function KnightMask(sq: Sq): Bitboard
  {
    var bb: Bitboard := {sq};
    East(North(North(bb))) + West(North(North(bb)))
      + East(South(South(bb))) + West(South(South(bb)))
      + North(East(East(bb))) + South(East(East(bb)))
      + North(West(West(bb))) + South(West(West(bb)))
  }

  /** The knight mask is the union of the eight on-board L-jumps. */
  lemma KnightJumps(sq: Sq)
    ensures KnightMask(sq) ==
              Jump(sq, 1, 2) + Jump(sq, -1, 2) + Jump(sq, 1, -2) + Jump(sq, -1, -2)
              + Jump(sq, 2, 1) + Jump(sq, 2, -1) + Jump(sq, -2, 1) + Jump(sq, -2, -1)
  {
    var bb: Bitboard := {sq};
    JumpZero(sq);
    NorthJump(sq, 0, 0);
    NorthJump(sq, 0, 1);
    EastJump(sq, 0, 2);
    WestJump(sq, 0, 2);
    SouthJump(sq, 0, 0);
    SouthJump(sq, 0, -1);
    EastJump(sq, 0, -2);
    WestJump(sq, 0, -2);
    EastJump(sq, 0, 0);
    EastJump(sq, 1, 0);
    NorthJump(sq, 2, 0);
    SouthJump(sq, 2, 0);
    WestJump(sq, 0, 0);
    WestJump(sq, -1, 0);
    NorthJump(sq, -2, 0);
    SouthJump(sq, -2, 0);
    assert East(North(North(bb))) == Jump(sq, 1, 2);
    assert West(North(North(bb))) == Jump(sq, -1, 2);
    assert East(South(South(bb))) == Jump(sq, 1, -2);
    assert West(South(South(bb))) == Jump(sq, -1, -2);
    assert North(East(East(bb))) == Jump(sq, 2, 1);
    assert South(East(East(bb))) == Jump(sq, 2, -1);
    assert North(West(West(bb))) == Jump(sq, -2, 1);
    assert South(West(West(bb))) == Jump(sq, -2, -1);
  }

  /** a and s are a knight's move apart: one file and two ranks, or two files and one rank. */
  predicate KnightApart(a: Sq, s: Sq)
  {
    var df := Abs(FileOf(s) - FileOf(a));
    var dr := Abs(RankOf(s) - RankOf(a));
    (df == 1 && dr == 2) || (df == 2 && dr == 1)
  }

  /** Knight-mask membership is exactly the knight's move, with nothing wrapping around a board edge. */
  lemma KnightMaskMembers(sq: Sq, s: Sq)
    ensures s in KnightMask(sq) <==> KnightApart(sq, s)
  {
    KnightJumps(sq);
    JumpMembers(sq, 1, 2, s);
    JumpMembers(sq, -1, 2, s);
    JumpMembers(sq, 1, -2, s);
    JumpMembers(sq, -1, -2, s);
    JumpMembers(sq, 2, 1, s);
    JumpMembers(sq, 2, -1, s);
    JumpMembers(sq, -2, 1, s);
    JumpMembers(sq, -2, -1, s);
  }

  /** Knight masks are symmetric, which `attackers` relies on when it looks up knights from the target. */
  lemma KnightMaskSymmetric(a: Sq, b: Sq)
    ensures b in KnightMask(a) <==> a in KnightMask(b)
  {
    KnightMaskMembers(a, b);
    KnightMaskMembers(b, a);
  }

  /** The source's `assert(result[i])`: every knight has a move on an empty board. */
  lemma KnightMaskNonEmpty(sq: Sq)
    ensures KnightMask(sq) != {}
  {
    var f := FileOf(sq);
    var r := RankOf(sq);
    var df := if f < 4 then 1 else -1;
    var dr := if r < 4 then 2 else -2;
    KnightMaskMembers(sq, At(f + df, r + dr));
    AtCoords(f + df, r + dr);
  }

  /** The body of `calculate_knight_masks` for one square: OR together the eight shift compositions. */
  method KnightMaskOf(sq: Sq) returns (m: Bitboard)
    ensures m == KnightMask(sq)
  {
    var bb: Bitboard := {sq};
    m := East(North(North(bb)));
    m := m + West(North(North(bb)));
    m := m + East(South(South(bb)));
    m := m + West(South(South(bb)));
    m := m + North(East(East(bb)));
    m := m + South(East(East(bb)));
    m := m + North(West(West(bb)));
    m := m + South(West(West(bb)));
  }

  /** The first n entries of a mask table hold the knight masks, each non-empty. */
  predicate KnightTable(masks: seq<Bitboard>, n: int)
  {
    0 <= n <= 64 && |masks| == n && forall j :: 0 <= j < n ==> masks[j] == KnightMask(j) && masks[j] != {}
  }

  lemma KnightTableExtend(masks: seq<Bitboard>, n: int, m: Bitboard)
    requires 0 <= n < 64 && KnightTable(masks, n) && m == KnightMask(n)
    ensures KnightTable(masks + [m], n + 1)
  {
    KnightMaskNonEmpty(n);
    var grown := masks + [m];
    forall j | 0 <= j < n + 1 ensures grown[j] == KnightMask(j) && grown[j] != {} {
      if j < n {
        assert grown[j] == masks[j];
      }
    }
  }

  /** `calculate_knight_masks`. */
  method CalculateKnightMasks() returns (masks: seq<Bitboard>)
    ensures |masks| == 64
    ensures forall i :: 0 <= i < 64 ==> masks[i] == KnightMask(i) && masks[i] != {}
  {
    masks := [];
    var i: int := 0;
    while i < 64
      invariant 0 <= i <= 64 && KnightTable(masks, i)
    {
      var m := KnightMaskOf(i);
      KnightTableExtend(masks, i, m);
      masks := masks + [m];
      i := i + 1;
    }
  }

  /** `adjacent()` with all eight neighbours, as the king tests expect. */
  function Adjacent(b: Bitboard): Bitboard
  {
    North(b) + South(b) + East(b) + West(b)
      + North(East(b)) + North(West(b)) + South(East(b)) + South(West(b))
  }

  /** The king masks as `calculate_king_masks` builds them from the two-direction `adjacent()`. */
  function KingMaskAsWritten(sq: Sq): Bitboard { AdjacentAsWritten({sq}) }

  /** The king masks with the eight-neighbour `adjacent()`. */
  function KingMask(sq: Sq): Bitboard { Adjacent({sq}) }

  lemma KingJumps(sq: Sq)
    ensures KingMask(sq) ==
              Jump(sq, 0, 1) + Jump(sq, 0, -1) + Jump(sq, 1, 0) + Jump(sq, -1, 0)
              + Jump(sq, 1, 1) + Jump(sq, -1, 1) + Jump(sq, 1, -1) + Jump(sq, -1, -1)
  {
    var bb: Bitboard := {sq};
    JumpZero(sq);
    NorthJump(sq, 0, 0);
    SouthJump(sq, 0, 0);
    EastJump(sq, 0, 0);
    WestJump(sq, 0, 0);
    NorthJump(sq, 1, 0);
    NorthJump(sq, -1, 0);
    SouthJump(sq, 1, 0);
    SouthJump(sq, -1, 0);
    assert North(bb) == Jump(sq, 0, 1);
    assert South(bb) == Jump(sq, 0, -1);
    assert East(bb) == Jump(sq, 1, 0);
    assert West(bb) == Jump(sq, -1, 0);
    assert North(East(bb)) == Jump(sq, 1, 1);
    assert North(West(bb)) == Jump(sq, -1, 1);
    assert South(East(bb)) == Jump(sq, 1, -1);
    assert South(West(bb)) == Jump(sq, -1, -1);
  }

  lemma KingAsWrittenJumps(sq: Sq)
    ensures KingMaskAsWritten(sq) == Jump(sq, 0, 1) + Jump(sq, 0, -1)
  {
    var bb: Bitboard := {sq};
    JumpZero(sq);
    NorthJump(sq, 0, 0);
    SouthJump(sq, 0, 0);
    assert North(bb) == Jump(sq, 0, 1);
    assert South(bb) == Jump(sq, 0, -1);
  }

  /** a and s are distinct and at most one file and one rank apart. */
  predicate KingApart(a: Sq, s: Sq)
  {
    a != s && Abs(FileOf(s) - FileOf(a)) <= 1 && Abs(RankOf(s) - RankOf(a)) <= 1
  }

  lemma KingMaskMembers(sq: Sq, s: Sq)
    ensures s in KingMask(sq) <==> KingApart(sq, s)
  {
    KingJumps(sq);
    JumpMembers(sq, 0, 1, s);
    JumpMembers(sq, 0, -1, s);
    JumpMembers(sq, 1, 0, s);
    JumpMembers(sq, -1, 0, s);
    JumpMembers(sq, 1, 1, s);
    JumpMembers(sq, -1, 1, s);
    JumpMembers(sq, 1, -1, s);
    JumpMembers(sq, -1, -1, s);
  }

  lemma KingMaskSymmetric(a: Sq, b: Sq)
    ensures b in KingMask(a) <==> a in KingMask(b)
  {
    KingMaskMembers(a, b);
    KingMaskMembers(b, a);
  }

  lemma KingMaskNonEmpty(sq: Sq)
    ensures KingMask(sq) != {}
  {
    var f := FileOf(sq);
    var r := RankOf(sq);
    var dr := if r < 4 then 1 else -1;
    KingMaskMembers(sq, At(f, r + dr));
    AtCoords(f, r + dr);
  }

  /**
   * The as-written king mask only holds the squares straight above and below:
   * on A1 it is {A2}, where the tests expect {B1, A2, B2} (0x302).
   */
  lemma KingMaskAsWrittenA1()
    ensures KingMaskAsWritten(0) == {8}
    ensures KingMask(0) == {1, 8, 9}
  {
    AsWrittenA1();
    KingMaskA1();
  }

  lemma AsWrittenA1()
    ensures KingMaskAsWritten(0) == {8}
  {
    KingAsWrittenJumps(0);
    JumpsAtA1();
    UnionEmpty({8});
  }

  lemma JumpsAtA1()
    ensures Jump(0, 0, 1) == {8} && Jump(0, 0, -1) == {}
  {
    assert At(0, 1) == 8;
  }

  lemma KingMaskA1()
    ensures KingMask(0) == {1, 8, 9}
  {
    forall s: Sq ensures s in KingMask(0) <==> s in {1, 8, 9} {
      KingA1At(s);
    }
  }

  lemma KingA1At(s: Sq)
    ensures s in KingMask(0) <==> s == 1 || s == 8 || s == 9
  {
    KingMaskMembers(0, s);
    if s >= 16 {
      assert RankOf(s) >= 2;
    } else if s >= 8 {
      assert RankOf(s) == 1 && FileOf(s) == s - 8;
    } else {
      assert RankOf(s) == 0 && FileOf(s) == s;
    }
  }

  /** The first n entries of a mask table hold the king masks, each non-empty. */
  predicate KingTable(masks: seq<Bitboard>, n: int)
  {
    0 <= n <= 64 && |masks| == n && forall j :: 0 <= j < n ==> masks[j] == KingMask(j) && masks[j] != {}
  }

  lemma KingTableExtend(masks: seq<Bitboard>, n: int, m: Bitboard)
    requires 0 <= n < 64 && KingTable(masks, n) && m == KingMask(n)
    ensures KingTable(masks + [m], n + 1)
  {
    KingMaskNonEmpty(n);
    var grown := masks + [m];
    forall j | 0 <= j < n + 1 ensures grown[j] == KingMask(j) && grown[j] != {} {
      if j < n {
        assert grown[j] == masks[j];
      }
    }
  }

  /** `calculate_king_masks`, with the eight-neighbour `adjacent()`. */
  method CalculateKingMasks() returns (masks: seq<Bitboard>)
    ensures |masks| == 64
    ensures forall i :: 0 <= i < 64 ==> masks[i] == KingMask(i) && masks[i] != {}
  {
    masks := [];
    var i: int := 0;
    while i < 64
      invariant 0 <= i <= 64 && KingTable(masks, i)
    {
      var bb: Bitboard := {i};
      var m := Adjacent(bb);
      KingTableExtend(masks, i, m);
      masks := masks + [m];
      i := i + 1;
    }
  }

  // ----- the lookups -----

  /** `knight_moves(sq, occ)`: the knight mask minus the occupied squares. */
  function KnightMoves(sq: Sq, occ: Bitboard): Bitboard { KnightMask(sq) - occ }

  /** `king_moves(sq, occ)`: the king mask minus the occupied squares. */
  function KingMoves(sq: Sq, occ: Bitboard): Bitboard { KingMask(sq) - occ }

  /**
   * `bishop_moves(sq, occ)`: the table entry filled in for the relevant
   * occupancy `occ & bishop_mask`, which is the ray-cast of `occ` itself.
   */
  function BishopMoves(sq: Sq, occ: Bitboard): (moves: Bitboard)
    ensures moves == BishopAttacks(sq, occ)
  {
    BishopLookup(sq, occ);
    BishopAttacks(sq, occ * BishopMask(sq))
  }

  /** `rook_moves(sq, occ)`, likewise for the rook table. */
  function RookMoves(sq: Sq, occ: Bitboard): (moves: Bitboard)
    ensures moves == RookAttacks(sq, occ)
  {
    RookLookup(sq, occ);
    RookAttacks(sq, occ * RookMask(sq))
  }

  /** `queen_moves(sq, occ)`. */
  function QueenMoves(sq: Sq, occ: Bitboard): Bitboard { BishopMoves(sq, occ) + RookMoves(sq, occ) }

  lemma KnightMovesMembers(sq: Sq, occ: Bitboard, s: Sq)
    ensures s in KnightMoves(sq, occ) <==> KnightApart(sq, s) && s !in occ
  {
    KnightMaskMembers(sq, s);
  }

  lemma KingMovesMembers(sq: Sq, occ: Bitboard, s: Sq)
    ensures s in KingMoves(sq, occ) <==> KingApart(sq, s) && s !in occ
  {
    KingMaskMembers(sq, s);
  }

  /** The slider lookups hold exactly the squares the piece sees past `occ`, on its own lines. */
  lemma SliderMovesMembers(sq: Sq, occ: Bitboard, s: Sq)
    ensures s in BishopMoves(sq, occ) <==> Sees(sq, s, occ) && OffAxis(sq, s)
    ensures s in RookMoves(sq, occ) <==> Sees(sq, s, occ) && !OffAxis(sq, s)
    ensures s in QueenMoves(sq, occ) <==> Sees(sq, s, occ)
  {
    BishopAttacksSees(sq, occ, s);
    RookAttacksSees(sq, occ, s);
  }

  /** The knight on A1 over an empty board (the first knight test). */
  lemma KnightMovesA1()
    ensures KnightMoves(0, {}) == {10, 17}
  {
    forall s: Sq
      ensures s in KnightMoves(0, {}) <==> s in {10, 17}
    {
      KnightMovesMembers(0, {}, s);
    }
  }

  /** The bishop on A1 over an empty board (the first bishop test). */
  lemma BishopAttacksA1()
    ensures BishopAttacks(0, {}) == {9, 18, 27, 36, 45, 54, 63}
  {
    assert RayFrom(8, 8, 1, 1, {}) == {};
    RayFromStep(7, 7, 1, 1, {});
    assert RayFrom(7, 7, 1, 1, {}) == {63};
    RayFromStep(6, 6, 1, 1, {});
    assert RayFrom(6, 6, 1, 1, {}) == {54, 63};
    RayFromStep(5, 5, 1, 1, {});
    assert RayFrom(5, 5, 1, 1, {}) == {45, 54, 63};
    RayFromStep(4, 4, 1, 1, {});
    assert RayFrom(4, 4, 1, 1, {}) == {36, 45, 54, 63};
    RayFromStep(3, 3, 1, 1, {});
    assert RayFrom(3, 3, 1, 1, {}) == {27, 36, 45, 54, 63};
    RayFromStep(2, 2, 1, 1, {});
    assert RayFrom(2, 2, 1, 1, {}) == {18, 27, 36, 45, 54, 63};
    RayFromStep(1, 1, 1, 1, {});
    assert RayFrom(1, 1, 1, 1, {}) == {9, 18, 27, 36, 45, 54, 63};
    assert RayFrom(-1, 1, -1, 1, {}) == {};
    assert RayFrom(1, -1, 1, -1, {}) == {};
    assert RayFrom(-1, -1, -1, -1, {}) == {};
  }

  lemma BishopMovesA1()
    ensures BishopMoves(0, {}) == {9, 18, 27, 36, 45, 54, 63}
  {
    BishopAttacksA1();
  }

  /** The bishop on D4 blocked on C3, C5 and G7 (the third bishop test). */
  lemma BishopAttacksD4()
    ensures BishopAttacks(27, {18, 34, 54}) == {6, 13, 18, 20, 34, 36, 45, 54}
  {
    RayFromStep(6, 6, 1, 1, {18, 34, 54});
    assert RayFrom(6, 6, 1, 1, {18, 34, 54}) == {54};
    RayFromStep(5, 5, 1, 1, {18, 34, 54});
    assert RayFrom(5, 5, 1, 1, {18, 34, 54}) == {45, 54};
    RayFromStep(4, 4, 1, 1, {18, 34, 54});
    assert RayFrom(4, 4, 1, 1, {18, 34, 54}) == {36, 45, 54};
    RayFromStep(2, 4, -1, 1, {18, 34, 54});
    assert RayFrom(2, 4, -1, 1, {18, 34, 54}) == {34};
    assert RayFrom(7, -1, 1, -1, {18, 34, 54}) == {};
    RayFromStep(6, 0, 1, -1, {18, 34, 54});
    assert RayFrom(6, 0, 1, -1, {18, 34, 54}) == {6};
    RayFromStep(5, 1, 1, -1, {18, 34, 54});
    assert RayFrom(5, 1, 1, -1, {18, 34, 54}) == {13, 6};
    RayFromStep(4, 2, 1, -1, {18, 34, 54});
    assert RayFrom(4, 2, 1, -1, {18, 34, 54}) == {20, 13, 6};
    RayFromStep(2, 2, -1, -1, {18, 34, 54});
    assert RayFrom(2, 2, -1, -1, {18, 34, 54}) == {18};
  }

  lemma BishopMovesD4()
    ensures BishopMoves(27, {18, 34, 54}) == {6, 13, 18, 20, 34, 36, 45, 54}
  {
    BishopAttacksD4();
  }

  /** The rook on A1 over an empty board (the first rook test). */
  lemma RookAttacksA1()
    ensures RookAttacks(0, {}) == {1, 2, 3, 4, 5, 6, 7, 8, 16, 24, 32, 40, 48, 56}
  {
    assert RayFrom(0, 8, 0, 1, {}) == {};
    RayFromStep(0, 7, 0, 1, {});
    assert RayFrom(0, 7, 0, 1, {}) == {56};
    RayFromStep(0, 6, 0, 1, {});
    assert RayFrom(0, 6, 0, 1, {}) == {48, 56};
    RayFromStep(0, 5, 0, 1, {});
    assert RayFrom(0, 5, 0, 1, {}) == {40, 48, 56};
    RayFromStep(0, 4, 0, 1, {});
    assert RayFrom(0, 4, 0, 1, {}) == {32, 40, 48, 56};
    RayFromStep(0, 3, 0, 1, {});
    assert RayFrom(0, 3, 0, 1, {}) == {24, 32, 40, 48, 56};
    RayFromStep(0, 2, 0, 1, {});
    assert RayFrom(0, 2, 0, 1, {}) == {16, 24, 32, 40, 48, 56};
    RayFromStep(0, 1, 0, 1, {});
    assert RayFrom(0, 1, 0, 1, {}) == {8, 16, 24, 32, 40, 48, 56};
    assert RayFrom(0, -1, 0, -1, {}) == {};
    assert RayFrom(8, 0, 1, 0, {}) == {};
    RayFromStep(7, 0, 1, 0, {});
    assert RayFrom(7, 0, 1, 0, {}) == {7};
    RayFromStep(6, 0, 1, 0, {});
    assert RayFrom(6, 0, 1, 0, {}) == {6, 7};
    RayFromStep(5, 0, 1, 0, {});
    assert RayFrom(5, 0, 1, 0, {}) == {5, 6, 7};
    RayFromStep(4, 0, 1, 0, {});
    assert RayFrom(4, 0, 1, 0, {}) == {4, 5, 6, 7};
    RayFromStep(3, 0, 1, 0, {});
    assert RayFrom(3, 0, 1, 0, {}) == {3, 4, 5, 6, 7};
    RayFromStep(2, 0, 1, 0, {});
    assert RayFrom(2, 0, 1, 0, {}) == {2, 3, 4, 5, 6, 7};
    RayFromStep(1, 0, 1, 0, {});
    assert RayFrom(1, 0, 1, 0, {}) == {1, 2, 3, 4, 5, 6, 7};
    assert RayFrom(-1, 0, -1, 0, {}) == {};
  }

  lemma RookMovesA1()
    ensures RookMoves(0, {}) == {1, 2, 3, 4, 5, 6, 7, 8, 16, 24, 32, 40, 48, 56}
  {
    RookAttacksA1();
  }

  /** The rook on D4 blocked on D2, G4 and D5 (the third rook test). */
  lemma RookAttacksD4()
    ensures RookAttacks(27, {11, 30, 35}) == {11, 19, 24, 25, 26, 28, 29, 30, 35}
  {
    RayFromStep(3, 4, 0, 1, {11, 30, 35});
    assert RayFrom(3, 4, 0, 1, {11, 30, 35}) == {35};
    RayFromStep(3, 1, 0, -1, {11, 30, 35});
    assert RayFrom(3, 1, 0, -1, {11, 30, 35}) == {11};
    RayFromStep(3, 2, 0, -1, {11, 30, 35});
    assert RayFrom(3, 2, 0, -1, {11, 30, 35}) == {19, 11};
    RayFromStep(6, 3, 1, 0, {11, 30, 35});
    assert RayFrom(6, 3, 1, 0, {11, 30, 35}) == {30};
    RayFromStep(5, 3, 1, 0, {11, 30, 35});
    assert RayFrom(5, 3, 1, 0, {11, 30, 35}) == {29, 30};
    RayFromStep(4, 3, 1, 0, {11, 30, 35});
    assert RayFrom(4, 3, 1, 0, {11, 30, 35}) == {28, 29, 30};
    assert RayFrom(-1, 3, -1, 0, {11, 30, 35}) == {};
    RayFromStep(0, 3, -1, 0, {11, 30, 35});
    assert RayFrom(0, 3, -1, 0, {11, 30, 35}) == {24};
    RayFromStep(1, 3, -1, 0, {11, 30, 35});
    assert RayFrom(1, 3, -1, 0, {11, 30, 35}) == {25, 24};
    RayFromStep(2, 3, -1, 0, {11, 30, 35});
    assert RayFrom(2, 3, -1, 0, {11, 30, 35}) == {26, 25, 24};
  }

  lemma RookMovesD4()
    ensures RookMoves(27, {11, 30, 35}) == {11, 19, 24, 25, 26, 28, 29, 30, 35}
  {
    RookAttacksD4();
  }
}
