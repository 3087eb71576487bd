// Attack queries of `Position`: attackers.cpp, square_attacked.cpp,
// checkers.cpp (functions), squares_attacked.cpp and king_allowed.cpp
// (loops over the attacking pieces, here methods proved against the
// functions `Threats` and `KingSafe`).

module Attacks {
  import opened Squares
  import opened Bitboards
  import opened Pieces
  import opened Boards
  import opened Movegen

  // ----- pawns -----

  /** A pawn of side s on t attacks sq: one rank forward, one file to either side. */
  predicate PawnHits(s: Side, t: Sq, sq: Sq)
  {
    Abs(FileOf(sq) - FileOf(t)) == 1 && RankOf(sq) - RankOf(t) == (if s == White then 1 else -1)
  }

  /** The squares the pawns of side s attack (`north().east() | north().west()` for White). */
  function PawnAttacks(s: Side, pawns: Bitboard): Bitboard
  {
    if s == White then East(North(pawns)) + West(North(pawns))
    else East(South(pawns)) + West(South(pawns))
  }

  /** The squares a pawn of side s would have to stand on to attack sq (`bb.south().east()` … in attackers.cpp). */
  function PawnSources(s: Side, sq: Sq): Bitboard
  {
    var bb := {sq};
    if s == White then East(South(bb)) + West(South(bb))
    else East(North(bb)) + West(North(bb))
  }

  /** The four diagonal steps from a single square, as index arithmetic. */
  lemma DiagonalsOfSingle(sq: Sq, t: Sq)
    ensures t in East(South({sq})) <==> FileOf(t) > 0 && t + 7 == sq
    ensures t in West(South({sq})) <==> FileOf(t) < 7 && t + 9 == sq
    ensures t in East(North({sq})) <==> FileOf(t) > 0 && t - 9 == sq
    ensures t in West(North({sq})) <==> FileOf(t) < 7 && t - 7 == sq
  {
    InEast(South({sq}), t);
    InWest(South({sq}), t);
    InEast(North({sq}), t);
    InWest(North({sq}), t);
    if t >= 1 {
      InSouth({sq}, t - 1);
      InNorth({sq}, t - 1);
    }
    if t <= 62 {
      InSouth({sq}, t + 1);
      InNorth({sq}, t + 1);
    }
  }

  /** A pawn's capture, as index offsets: +7 or +9 for White, -9 or -7 for Black, never across the edge. */
  lemma PawnHitsOffsets(s: Side, t: Sq, sq: Sq)
    ensures s == White ==> (PawnHits(s, t, sq) <==> (FileOf(t) > 0 && t + 7 == sq) || (FileOf(t) < 7 && t + 9 == sq))
    ensures s == Black ==> (PawnHits(s, t, sq) <==> (FileOf(t) > 0 && t - 9 == sq) || (FileOf(t) < 7 && t - 7 == sq))
  {
    var ft, rt, fs, rs := t % 8, t / 8, sq % 8, sq / 8;
    assert t == 8 * rt + ft && sq == 8 * rs + fs;
  }

  lemma PawnSourcesMembers(s: Side, sq: Sq, t: Sq)
    ensures t in PawnSources(s, sq) <==> PawnHits(s, t, sq)
  {
    DiagonalsOfSingle(sq, t);
    PawnHitsOffsets(s, t, sq);
  }

  /** The diagonal steps of a whole board, read from the arriving square. */
  lemma DiagonalsOfBoard(pawns: Bitboard, sq: Sq)
    ensures sq in East(North(pawns)) <==> FileOf(sq) > 0 && sq >= 9 && sq - 9 in pawns
    ensures sq in West(North(pawns)) <==> FileOf(sq) < 7 && sq >= 7 && sq - 7 in pawns
    ensures sq in East(South(pawns)) <==> FileOf(sq) > 0 && sq <= 56 && sq + 7 in pawns
    ensures sq in West(South(pawns)) <==> FileOf(sq) < 7 && sq <= 54 && sq + 9 in pawns
  {
    InEast(North(pawns), sq);
    InWest(North(pawns), sq);
    InEast(South(pawns), sq);
    InWest(South(pawns), sq);
    if sq >= 1 {
      InNorth(pawns, sq - 1);
      InSouth(pawns, sq - 1);
    }
    if sq <= 62 {
      InNorth(pawns, sq + 1);
      InSouth(pawns, sq + 1);
    }
  }

  /** The edge conditions on the two ends of a pawn capture agree. */
  lemma PawnEdges(t: Sq, sq: Sq)
    ensures sq == t + 9 ==> (FileOf(t) < 7 <==> FileOf(sq) > 0)
    ensures sq == t + 7 ==> (FileOf(t) > 0 <==> FileOf(sq) < 7)
    ensures sq == t - 9 ==> (FileOf(t) > 0 <==> FileOf(sq) < 7)
    ensures sq == t - 7 ==> (FileOf(t) < 7 <==> FileOf(sq) > 0)
  {
  }

  lemma PawnAttacksMembers(s: Side, pawns: Bitboard, sq: Sq)
    ensures sq in PawnAttacks(s, pawns) <==> exists t :: t in pawns && PawnHits(s, t, sq)
  {
    DiagonalsOfBoard(pawns, sq);
    if t :| t in pawns && PawnHits(s, t, sq) {
      PawnHitsOffsets(s, t, sq);
      PawnEdges(t, sq);
    }
    if sq in PawnAttacks(s, pawns) {
      var t: Sq;
      if s == White {
        t := if sq in East(North(pawns)) then sq - 9 else sq - 7;
      } else {
        t := if sq in East(South(pawns)) then sq + 7 else sq + 9;
      }
      PawnHitsOffsets(s, t, sq);
      PawnEdges(t, sq);
      assert t in pawns && PawnHits(s, t, sq);
    }
  }

  // ----- the attack relation -----

  /** a sees s exactly when s sees a. */
  lemma SeesSymmetric(a: Sq, s: Sq, occ: Bitboard)
    ensures Sees(a, s, occ) <==> Sees(s, a, occ)
  {
    BetweenSymmetric(a, s);
  }

  /**
   * A non-king piece of side s on t attacks sq, the sliders seeing past
   * `occ`: the reference every attack query is checked against.
   */
  predicate PieceHits(b: Board, s: Side, t: Sq, sq: Sq, occ: Bitboard)
  {
    || (t in b.PiecesOf(s, Pawn) && PawnHits(s, t, sq))
    || (t in b.PiecesOf(s, Knight) && KnightApart(t, sq))
    || (t in b.PiecesOf(s, Bishop) + b.PiecesOf(s, Queen) && Sees(t, sq, occ) && OffAxis(t, sq))
    || (t in b.PiecesOf(s, Rook) + b.PiecesOf(s, Queen) && Sees(t, sq, occ) && !OffAxis(t, sq))
  }

  /** Any piece of side s on t, king included, attacks sq on the current board. */
  predicate Hits(b: Board, s: Side, t: Sq, sq: Sq)
  {
    PieceHits(b, s, t, sq, b.Occupied()) || (t in b.PiecesOf(s, King) && KingApart(t, sq))
  }

  // ----- attackers, square_attacked, checkers, in_check -----

  /**
   * `attackers(sq, s)`: looks up from the target square, using each mask
   * in reverse (pawns from the opposite diagonals, sliders through the full
   * occupancy). The knight and king masks are taken with nothing blocked.
   * The two pawn diagonals are intersected with the pawns in one step.
   */
  function Attackers(b: Board, sq: Sq, s: Side): Bitboard
  {
    var occ := b.Occupied();
    (b.PiecesOf(s, Pawn) * PawnSources(s, sq))
    + (KnightMoves(sq, {}) * b.PiecesOf(s, Knight))
    + (BishopMoves(sq, occ) * (b.PiecesOf(s, Bishop) + b.PiecesOf(s, Queen)))
    + (RookMoves(sq, occ) * (b.PiecesOf(s, Rook) + b.PiecesOf(s, Queen)))
    + (KingMoves(sq, {}) * b.PiecesOf(s, King))
  }

  /** Looking up a knight or king from the target finds the pieces that reach it. */
  lemma JumpersFromTarget(sq: Sq, t: Sq)
    ensures t in KnightMoves(sq, {}) <==> KnightApart(t, sq)
    ensures t in KingMoves(sq, {}) <==> KingApart(t, sq)
  {
    KnightMovesMembers(sq, {}, t);
    KnightMaskMembers(t, sq);
    KnightMaskSymmetric(sq, t);
    KingMovesMembers(sq, {}, t);
    KingMaskMembers(t, sq);
    KingMaskSymmetric(sq, t);
  }

  /** Looking up a slider from the target finds the sliders that see it. */
  lemma SlidersFromTarget(sq: Sq, occ: Bitboard, t: Sq)
    ensures t in BishopMoves(sq, occ) <==> Sees(t, sq, occ) && OffAxis(t, sq)
    ensures t in RookMoves(sq, occ) <==> Sees(t, sq, occ) && !OffAxis(t, sq)
  {
    SliderMovesMembers(sq, occ, t);
    SeesSymmetric(sq, t, occ);
  }

  /** The five parts of `attackers`, one piece type each. */
  lemma AttackerParts(b: Board, sq: Sq, s: Side, t: Sq)
    ensures t in b.PiecesOf(s, Pawn) * PawnSources(s, sq) <==> t in b.PiecesOf(s, Pawn) && PawnHits(s, t, sq)
    ensures t in KnightMoves(sq, {}) * b.PiecesOf(s, Knight) <==> t in b.PiecesOf(s, Knight) && KnightApart(t, sq)
    ensures t in BishopMoves(sq, b.Occupied()) * (b.PiecesOf(s, Bishop) + b.PiecesOf(s, Queen)) <==>
              t in b.PiecesOf(s, Bishop) + b.PiecesOf(s, Queen) && Sees(t, sq, b.Occupied()) && OffAxis(t, sq)
    ensures t in RookMoves(sq, b.Occupied()) * (b.PiecesOf(s, Rook) + b.PiecesOf(s, Queen)) <==>
              t in b.PiecesOf(s, Rook) + b.PiecesOf(s, Queen) && Sees(t, sq, b.Occupied()) && !OffAxis(t, sq)
    ensures t in KingMoves(sq, {}) * b.PiecesOf(s, King) <==> t in b.PiecesOf(s, King) && KingApart(t, sq)
  {
    PawnSourcesMembers(s, sq, t);
    JumpersFromTarget(sq, t);
    SlidersFromTarget(sq, b.Occupied(), t);
  }

  /** The reverse lookups find exactly the pieces that attack sq, because every mask is symmetric. */
  lemma AttackersMembers(b: Board, sq: Sq, s: Side, t: Sq)
    ensures t in Attackers(b, sq, s) <==> Hits(b, s, t, sq)
  {
    AttackerParts(b, sq, s, t);
  }

  /** Only pieces of side s are attackers of side s. */
  lemma AttackersOwn(b: Board, sq: Sq, s: Side)
    ensures Attackers(b, sq, s) <= b.Occupancy(s)
  {
    forall t | t in Attackers(b, sq, s) ensures t in b.Occupancy(s) {
      AttackersMembers(b, sq, s, t);
    }
  }

  /** `square_attacked(sq, s)`: some piece of s attacks sq. */
  predicate SquareAttacked(b: Board, sq: Sq, s: Side)
  {
    Attackers(b, sq, s) != {}
  }

  lemma SquareAttackedMeans(b: Board, sq: Sq, s: Side)
    ensures SquareAttacked(b, sq, s) <==> exists t :: Hits(b, s, t, sq)
  {
    if t :| Hits(b, s, t, sq) {
      AttackersMembers(b, sq, s, t);
    }
    if SquareAttacked(b, sq, s) {
      var t :| t in Attackers(b, sq, s);
      AttackersMembers(b, sq, s, t);
    }
  }

  /** `checkers()`: the enemy pieces attacking the king of the side to move. */
  function Checkers(b: Board): (mask: Bitboard)
    requires b.HasKing(b.turn)
    ensures mask <= b.Occupancy(b.turn.Other())
  {
    AttackersOwn(b, b.KingPosition(b.turn), b.turn.Other());
    Attackers(b, b.KingPosition(b.turn), b.turn.Other())
  }

  /** `in_check()`: the mover's king square is attacked by the opponent. */
  predicate InCheck(b: Board)
    requires b.HasKing(b.turn)
  {
    SquareAttacked(b, b.KingPosition(b.turn), b.turn.Other())
  }

  /** There are checkers exactly when the side to move is in check, and each of them attacks the king. */
  lemma CheckersInCheck(b: Board)
    requires b.HasKing(b.turn)
    ensures Checkers(b) != {} <==> InCheck(b)
    ensures forall t :: t in Checkers(b) <==> Hits(b, b.turn.Other(), t, b.KingPosition(b.turn))
  {
    forall t ensures t in Checkers(b) <==> Hits(b, b.turn.Other(), t, b.KingPosition(b.turn)) {
      AttackersMembers(b, b.KingPosition(b.turn), b.turn.Other(), t);
    }
  }

  // ----- squares_attacked and king_allowed -----

  /** The union of `f(fr)` over the squares fr of `froms`. */
  function Cover(froms: Bitboard, f: Sq -> Bitboard): Bitboard
  {
    set t: Sq | Covers(froms, f, t)
  }

  /** Some square of `froms` has t in its image under f. */
  predicate Covers(froms: Bitboard, f: Sq -> Bitboard, t: Sq)
  {
    exists fr :: fr in froms && t in f(fr)
  }

  lemma CoverAdd(done: Bitboard, fr: Sq, f: Sq -> Bitboard)
    ensures Cover(done + {fr}, f) == Cover(done, f) + f(fr)
  {
    forall t: Sq | t in f(fr) ensures t in Cover(done + {fr}, f) {
      assert fr in done + {fr};
    }
  }

  /** `for (fr : froms) mask |= f(fr);` */
  method CoverLoop(froms: Bitboard, f: Sq -> Bitboard) returns (mask: Bitboard)
    ensures mask == Cover(froms, f)
  {
    mask := {};
    var rest := froms;
    while rest != {}
      invariant rest <= froms
      invariant mask == Cover(froms - rest, f)
      decreases |rest|
    {
      var fr := Lowest(rest);
      CoverAdd(froms - rest, fr, f);
      assert froms - (rest - {fr}) == (froms - rest) + {fr};
      mask := mask + f(fr);
      rest := rest - {fr};
    }
    assert froms - rest == froms;
  }

  /**
   * Every square a piece of side s attacks, sliders seeing past `occ`, and
   * the neighbours of the king on `ksq` (the union squares_attacked.cpp and
   * king_allowed.cpp build).
   */
  function Threats(b: Board, s: Side, occ: Bitboard, ksq: Sq): Bitboard
  {
    PawnAttacks(s, b.PiecesOf(s, Pawn))
    + Cover(b.PiecesOf(s, Knight), fr => KnightMoves(fr, {}))
    + Cover(b.PiecesOf(s, Bishop), fr => BishopMoves(fr, occ))
    + Cover(b.PiecesOf(s, Rook), fr => RookMoves(fr, occ))
    + Cover(b.PiecesOf(s, Queen), fr => QueenMoves(fr, occ))
    + KingMoves(ksq, {})
  }

  /** Knights cover the squares a knight's move away. */
  lemma KnightCover(knights: Bitboard, sq: Sq)
    ensures sq in Cover(knights, fr => KnightMoves(fr, {})) <==> exists t :: t in knights && KnightApart(t, sq)
  {
    if t :| t in knights && KnightApart(t, sq) {
      KnightMovesMembers(t, {}, sq);
      assert Covers(knights, fr => KnightMoves(fr, {}), sq);
    }
    if sq in Cover(knights, fr => KnightMoves(fr, {})) {
      var t :| t in knights && sq in KnightMoves(t, {});
      KnightMovesMembers(t, {}, sq);
    }
  }

  /** Bishops cover the squares they see along their diagonals. */
  lemma BishopCover(froms: Bitboard, occ: Bitboard, sq: Sq)
    ensures sq in Cover(froms, fr => BishopMoves(fr, occ)) <==> exists t :: t in froms && Sees(t, sq, occ) && OffAxis(t, sq)
  {
    if t :| t in froms && Sees(t, sq, occ) && OffAxis(t, sq) {
      SliderMovesMembers(t, occ, sq);
      assert Covers(froms, fr => BishopMoves(fr, occ), sq);
    }
    if sq in Cover(froms, fr => BishopMoves(fr, occ)) {
      var t :| t in froms && sq in BishopMoves(t, occ);
      SliderMovesMembers(t, occ, sq);
    }
  }

  /** Rooks cover the squares they see along their rank and file. */
  lemma RookCover(froms: Bitboard, occ: Bitboard, sq: Sq)
    ensures sq in Cover(froms, fr => RookMoves(fr, occ)) <==> exists t :: t in froms && Sees(t, sq, occ) && !OffAxis(t, sq)
  {
    if t :| t in froms && Sees(t, sq, occ) && !OffAxis(t, sq) {
      SliderMovesMembers(t, occ, sq);
      assert Covers(froms, fr => RookMoves(fr, occ), sq);
    }
    if sq in Cover(froms, fr => RookMoves(fr, occ)) {
      var t :| t in froms && sq in RookMoves(t, occ);
      SliderMovesMembers(t, occ, sq);
    }
  }

  /** Queens cover every square they see. */
  lemma QueenCover(froms: Bitboard, occ: Bitboard, sq: Sq)
    ensures sq in Cover(froms, fr => QueenMoves(fr, occ)) <==> exists t :: t in froms && Sees(t, sq, occ)
  {
    if t :| t in froms && Sees(t, sq, occ) {
      SliderMovesMembers(t, occ, sq);
      assert Covers(froms, fr => QueenMoves(fr, occ), sq);
    }
    if sq in Cover(froms, fr => QueenMoves(fr, occ)) {
      var t :| t in froms && sq in QueenMoves(t, occ);
      SliderMovesMembers(t, occ, sq);
    }
  }

  /** Some piece of s other than the king hits sq exactly when one of the five piece-type unions holds sq. */
  lemma SomePieceHits(b: Board, s: Side, occ: Bitboard, sq: Sq)
    ensures (exists t :: PieceHits(b, s, t, sq, occ)) <==>
              || (exists t :: t in b.PiecesOf(s, Pawn) && PawnHits(s, t, sq))
              || (exists t :: t in b.PiecesOf(s, Knight) && KnightApart(t, sq))
              || (exists t :: t in b.PiecesOf(s, Bishop) && Sees(t, sq, occ) && OffAxis(t, sq))
              || (exists t :: t in b.PiecesOf(s, Rook) && Sees(t, sq, occ) && !OffAxis(t, sq))
              || (exists t :: t in b.PiecesOf(s, Queen) && Sees(t, sq, occ))
  {
    if t :| t in b.PiecesOf(s, Pawn) && PawnHits(s, t, sq) {
      assert PieceHits(b, s, t, sq, occ);
    }
    if t :| t in b.PiecesOf(s, Knight) && KnightApart(t, sq) {
      assert PieceHits(b, s, t, sq, occ);
    }
    if t :| t in b.PiecesOf(s, Bishop) && Sees(t, sq, occ) && OffAxis(t, sq) {
      assert PieceHits(b, s, t, sq, occ);
    }
    if t :| t in b.PiecesOf(s, Rook) && Sees(t, sq, occ) && !OffAxis(t, sq) {
      assert PieceHits(b, s, t, sq, occ);
    }
    if t :| t in b.PiecesOf(s, Queen) && Sees(t, sq, occ) {
      assert PieceHits(b, s, t, sq, occ);
    }
  }

  /** A square is threatened exactly when some piece of s hits it, or it neighbours the king. */
  lemma ThreatsMembers(b: Board, s: Side, occ: Bitboard, ksq: Sq, sq: Sq)
    ensures sq in Threats(b, s, occ, ksq) <==> (exists t :: PieceHits(b, s, t, sq, occ)) || KingApart(ksq, sq)
  {
    PawnAttacksMembers(s, b.PiecesOf(s, Pawn), sq);
    KnightCover(b.PiecesOf(s, Knight), sq);
    BishopCover(b.PiecesOf(s, Bishop), occ, sq);
    RookCover(b.PiecesOf(s, Rook), occ, sq);
    QueenCover(b.PiecesOf(s, Queen), occ, sq);
    KingMovesMembers(ksq, {}, sq);
    SomePieceHits(b, s, occ, sq);
  }

  /** `squares_attacked(s)`: pawns, then a loop per piece type, then the king. */
  method SquaresAttacked(b: Board, s: Side) returns (mask: Bitboard)
    requires b.HasKing(s)
    ensures mask == Threats(b, s, b.Occupied(), b.KingPosition(s))
  {
    var occ := Complement(b.EmptySquares());
    assert occ == b.Occupied();
    var pawns := b.PiecesOf(s, Pawn);
    if s == White {
      mask := East(North(pawns)) + West(North(pawns));
    } else {
      mask := East(South(pawns)) + West(South(pawns));
    }
    var knights := CoverLoop(b.PiecesOf(s, Knight), fr => KnightMoves(fr, {}));
    var bishops := CoverLoop(b.PiecesOf(s, Bishop), fr => BishopMoves(fr, occ));
    var rooks := CoverLoop(b.PiecesOf(s, Rook), fr => RookMoves(fr, occ));
    var queens := CoverLoop(b.PiecesOf(s, Queen), fr => QueenMoves(fr, occ));
    mask := mask + knights + bishops + rooks + queens + KingMoves(b.KingPosition(s), {});
  }

  /** A one-square set is the singleton of its member. */
  lemma SingleKing(kings: Bitboard, k: Sq)
    requires |kings| == 1 && k in kings
    ensures kings == {k}
  {
    assert |kings - {k}| == 0;
  }

  /**
   * With a single king, the attacked squares are exactly the squares with an
   * attacker: the loop from the pieces and the reverse lookup agree.
   */
  lemma SquaresAttackedAgree(b: Board, s: Side, sq: Sq)
    requires |b.PiecesOf(s, King)| == 1
    ensures sq in Threats(b, s, b.Occupied(), b.KingPosition(s)) <==> SquareAttacked(b, sq, s)
  {
    var k := b.KingPosition(s);
    SingleKing(b.PiecesOf(s, King), k);
    ThreatsMembers(b, s, b.Occupied(), k, sq);
    SquareAttackedMeans(b, sq, s);
    HitsByKing(b, s, k, sq);
  }

  /** With the king alone on k, a piece hits sq exactly when a non-king piece does or k neighbours sq. */
  lemma HitsByKing(b: Board, s: Side, k: Sq, sq: Sq)
    requires b.PiecesOf(s, King) == {k}
    ensures (exists t :: Hits(b, s, t, sq)) <==> (exists t :: PieceHits(b, s, t, sq, b.Occupied())) || KingApart(k, sq)
  {
    if KingApart(k, sq) {
      assert Hits(b, s, k, sq);
    }
    if t :| PieceHits(b, s, t, sq, b.Occupied()) {
      assert Hits(b, s, t, sq);
    }
  }


  /**
   * `king_allowed(s)`: the squares not threatened by the enemy when the own
   * king is lifted off the board (so it cannot hide behind itself on a
   * checking line), minus friendly squares and the enemy king's square.
   */
  function KingSafe(b: Board, s: Side): Bitboard
    requires b.HasKing(s) && b.HasKing(s.Other())
  {
    var them := s.Other();
    var blockers := Toggle(b.Occupied(), {b.KingPosition(s)});
    Complement(Threats(b, them, blockers, b.KingPosition(them)) + b.Occupancy(s) + {b.KingPosition(them)})
  }

  /** The king may step to sq exactly when sq is free of own pieces, not the enemy king, not next to it, and not hit. */
  lemma KingSafeMembers(b: Board, s: Side, sq: Sq)
    requires b.HasKing(s) && b.HasKing(s.Other())
    ensures sq in KingSafe(b, s) <==>
              && sq !in b.Occupancy(s)
              && sq != b.KingPosition(s.Other())
              && !KingApart(b.KingPosition(s.Other()), sq)
              && forall t :: !PieceHits(b, s.Other(), t, sq, b.Occupied() - {b.KingPosition(s)})
  {
    var blockers := Toggle(b.Occupied(), {b.KingPosition(s)});
    assert blockers == b.Occupied() - {b.KingPosition(s)};
    ThreatsMembers(b, s.Other(), blockers, b.KingPosition(s.Other()), sq);
  }

  /** `king_allowed(s)`: enemy pawns, the loops over enemy pieces, then the exclusions, then `~mask`. */
  method KingAllowed(b: Board, s: Side) returns (allowed: Bitboard)
    requires b.HasKing(s) && b.HasKing(s.Other())
    ensures allowed == KingSafe(b, s)
  {
    var them := s.Other();
    var blockers := Toggle(Complement(b.EmptySquares()), {b.KingPosition(s)});
    assert Complement(b.EmptySquares()) == b.Occupied();
    var pawns := b.PiecesOf(them, Pawn);
    var mask: Bitboard;
    if s == White {
      mask := East(South(pawns)) + West(South(pawns));
    } else {
      mask := East(North(pawns)) + West(North(pawns));
    }
    var knights := CoverLoop(b.PiecesOf(them, Knight), fr => KnightMoves(fr, {}));
    var bishops := CoverLoop(b.PiecesOf(them, Bishop), fr => BishopMoves(fr, blockers));
    var rooks := CoverLoop(b.PiecesOf(them, Rook), fr => RookMoves(fr, blockers));
    var queens := CoverLoop(b.PiecesOf(them, Queen), fr => QueenMoves(fr, blockers));
    mask := mask + knights + bishops + rooks + queens + KingMoves(b.KingPosition(them), {});
    mask := mask + b.Occupancy(s);
    mask := mask + {b.KingPosition(them)};
    allowed := Complement(mask);
  }

  /** `king_allowed()` with no argument is `king_allowed(turn())`. */
  function KingAllowedToMove(b: Board): (allowed: Bitboard)
    requires b.HasKing(b.turn) && b.HasKing(b.turn.Other())
    ensures allowed * b.Occupancy(b.turn) == {}
    ensures b.KingPosition(b.turn.Other()) !in allowed
  {
    KingSafe(b, b.turn)
  }
}
