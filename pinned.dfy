// Pins: `Position::pinned` (pinned.cpp) and the pin test that
// legal_captures.cpp and legal_noncaptures.cpp run inline. Both lift one
// friendly piece off the board and look for an enemy slider that the king
// square sees only without it; the two files phrase that test differently
// (`blockers & discovery & ~before` against `new_rays ^ rays`), and both are
// proved equal to the same geometric statement.

module Pins {
  import opened Squares
  import opened Bitboards
  import opened Pieces
  import opened Boards
  import opened Movegen

  /** The sliders of `pinner` that move along diagonals (bishops, queens) or along ranks and files (rooks, queens). */
  function Pinners(b: Board, pinner: Side, diag: bool): (p: Bitboard)
    ensures p <= b.Occupancy(pinner)
  {
    if diag then b.PiecesOf(pinner, Bishop) + b.PiecesOf(pinner, Queen) else b.PiecesOf(pinner, Rook) + b.PiecesOf(pinner, Queen)
  }

  /** `bishop_moves` for the diagonals, `rook_moves` for ranks and files. */
  function Lines(sq: Sq, occ: Bitboard, diag: bool): Bitboard
  {
    if diag then BishopMoves(sq, occ) else RookMoves(sq, occ)
  }

  lemma LinesMembers(sq: Sq, occ: Bitboard, diag: bool, t: Sq)
    ensures t in Lines(sq, occ, diag) <==> Sees(sq, t, occ) && OffAxis(sq, t) == diag
  {
    SliderMovesMembers(sq, occ, t);
  }

  /**
   * The geometric pin: a is a slider of `pinner` on the line through sq and n, n
   * stands between them, and nothing else does.
   */
  predicate PinsThrough(b: Board, sq: Sq, n: Sq, a: Sq, diag: bool, pinner: Side)
  {
    a in Pinners(b, pinner, diag) && OffAxis(sq, a) == diag && Sees(sq, a, b.Occupied() - {n}) && n in Between(sq, a)
  }

  /** Lifting one piece off the occupancy is removing it. */
  lemma ToggleOne(occ: Bitboard, n: Sq)
    requires n in occ
    ensures Toggle(occ, {n}) == occ - {n}
  {
  }

  /** A square never lies strictly between itself and another. */
  lemma NotBetweenEnd(sq: Sq, a: Sq)
    ensures a !in Between(sq, a)
  {
    BetweenIsSegment(sq, a, a);
  }

  /** Seeing past a board with n removed, but not past the full board, means n is in the way. */
  lemma OnlyBlocker(sq: Sq, a: Sq, occ: Bitboard, n: Sq)
    requires n in occ
    ensures Sees(sq, a, occ - {n}) && !Sees(sq, a, occ) <==> Sees(sq, a, occ - {n}) && n in Between(sq, a)
  {
    if Sees(sq, a, occ - {n}) && !Sees(sq, a, occ) {
      var t :| t in Between(sq, a) * occ;
      if t != n {
        assert t in Between(sq, a) * (occ - {n});
      }
    }
    if n in Between(sq, a) {
      assert n in Between(sq, a) * occ;
    }
  }

  /** Two squares with the same file and rank are the same square. */
  lemma SameCoords(a: Sq, c: Sq)
    requires FileOf(a) == FileOf(c) && RankOf(a) == RankOf(c)
    ensures a == c
  {
    assert a == 8 * RankOf(a) + FileOf(a) && c == 8 * RankOf(c) + FileOf(c);
  }

  /** Two squares beyond n on the line from k: the nearer one lies between k and the farther one. */
  lemma SameRay(k: Sq, n: Sq, a1: Sq, a2: Sq)
    requires n in Between(k, a1) && n in Between(k, a2)
    ensures a1 == a2 || a1 in Between(k, a2) || a2 in Between(k, a1)
  {
    BetweenIsSegment(k, a1, n);
    BetweenIsSegment(k, a2, n);
    BetweenIsSegment(k, a2, a1);
    BetweenIsSegment(k, a1, a2);
    if Distance(k, a1) == Distance(k, a2) {
      SameCoords(a1, a2);
    }
  }

  /** A square between k and a lies on the same kind of line from k as a. */
  lemma BetweenAxis(k: Sq, a: Sq, n: Sq)
    requires n in Between(k, a)
    ensures k != n && Aligned(k, n) && OffAxis(k, n) == OffAxis(k, a)
  {
    BetweenIsSegment(k, a, n);
  }

  /** The squares between k and a square n between k and a lie between k and a. */
  lemma BetweenPrefix(k: Sq, a: Sq, n: Sq, t: Sq)
    requires n in Between(k, a) && t in Between(k, n)
    ensures t in Between(k, a)
  {
    BetweenIsSegment(k, a, n);
    BetweenIsSegment(k, n, t);
    BetweenIsSegment(k, a, t);
  }

  /** A pinned piece is one the king sees, along the pin's kind of line. */
  lemma PinnedSeen(b: Board, ksq: Sq, n: Sq, a: Sq, diag: bool, pinner: Side)
    requires n in b.Occupied() && PinsThrough(b, ksq, n, a, diag, pinner)
    ensures n in Lines(ksq, b.Occupied(), diag)
  {
    var occ := b.Occupied();
    LinesMembers(ksq, occ, diag, n);
    BetweenAxis(ksq, a, n);
    NotBetweenEnd(ksq, n);
    forall t | t in Between(ksq, n) ensures t !in occ {
      BetweenPrefix(ksq, a, n, t);
      assert t !in Between(ksq, a) * (occ - {n});
    }
  }

  /** Behind a given piece there is at most one pinner. */
  lemma PinnerUnique(b: Board, ksq: Sq, n: Sq, diag: bool, pinner: Side, a1: Sq, a2: Sq)
    requires PinsThrough(b, ksq, n, a1, diag, pinner) && PinsThrough(b, ksq, n, a2, diag, pinner)
    ensures a1 == a2
  {
    SameRay(ksq, n, a1, a2);
    NotBetweenEnd(ksq, a1);
    NotBetweenEnd(ksq, a2);
  }

  // ----- pinned.cpp: `blockers & discovery & ~before & sliders` -----

  /** The pinners found behind n by the test in pinned.cpp. */
  function PinnersBehind(b: Board, sq: Sq, n: Sq, diag: bool, pinner: Side): Bitboard
  {
    var occ := b.Occupied();
    var blockers := Toggle(occ, {n});
    var before := RookMoves(sq, occ) + BishopMoves(sq, occ);
    blockers * Lines(sq, blockers, diag) * Complement(before) * Pinners(b, pinner, diag)
  }

  lemma PinnersBehindMembers(b: Board, sq: Sq, n: Sq, diag: bool, pinner: Side, a: Sq)
    requires n in b.Occupied()
    ensures a in PinnersBehind(b, sq, n, diag, pinner) <==> PinsThrough(b, sq, n, a, diag, pinner)
  {
    var occ := b.Occupied();
    ToggleOne(occ, n);
    LinesMembers(sq, occ - {n}, diag, a);
    SliderMovesMembers(sq, occ, a);
    OnlyBlocker(sq, a, occ, n);
    NotBetweenEnd(sq, a);
  }

  // ----- legal_captures.cpp / legal_noncaptures.cpp: `(new_rays ^ rays) & sliders` -----

  /** The pinners found behind n by the test the legal generators run inline. */
  function Discovered(b: Board, ksq: Sq, n: Sq, diag: bool, pinner: Side): Bitboard
  {
    var occ := b.Occupied();
    Toggle(Lines(ksq, Toggle(occ, {n}), diag), Lines(ksq, occ, diag)) * Pinners(b, pinner, diag)
  }

  lemma DiscoveredMembers(b: Board, ksq: Sq, n: Sq, diag: bool, pinner: Side, a: Sq)
    requires n in b.Occupied()
    ensures a in Discovered(b, ksq, n, diag, pinner) <==> PinsThrough(b, ksq, n, a, diag, pinner)
  {
    var occ := b.Occupied();
    ToggleOne(occ, n);
    LinesMembers(ksq, occ - {n}, diag, a);
    LinesMembers(ksq, occ, diag, a);
    OnlyBlocker(ksq, a, occ, n);
  }

  /** The inline test finds at most one pinner: its lowest member is all of it. */
  lemma DiscoveredSingle(b: Board, ksq: Sq, n: Sq, diag: bool, pinner: Side)
    requires n in b.Occupied() && Discovered(b, ksq, n, diag, pinner) != {}
    ensures Discovered(b, ksq, n, diag, pinner) == {Lowest(Discovered(b, ksq, n, diag, pinner))}
  {
    var d := Discovered(b, ksq, n, diag, pinner);
    var a := Lowest(d);
    DiscoveredMembers(b, ksq, n, diag, pinner, a);
    forall c | c in d ensures c == a {
      DiscoveredMembers(b, ksq, n, diag, pinner, c);
      PinnerUnique(b, ksq, n, diag, pinner, a, c);
    }
  }

  /** The two phrasings of the pin test find the same pinners. */
  lemma PinTestsAgree(b: Board, sq: Sq, n: Sq, diag: bool, pinner: Side)
    requires n in b.Occupied()
    ensures PinnersBehind(b, sq, n, diag, pinner) == Discovered(b, sq, n, diag, pinner)
  {
    forall a: Sq ensures a in PinnersBehind(b, sq, n, diag, pinner) <==> a in Discovered(b, sq, n, diag, pinner) {
      PinnersBehindMembers(b, sq, n, diag, pinner, a);
      DiscoveredMembers(b, sq, n, diag, pinner, a);
    }
  }

  // ----- Position::pinned(s, sq) -----

  /** The squares of `done` with a pinner behind them. */
  function Found(b: Board, sq: Sq, pinner: Side, diag: bool, done: Bitboard): Bitboard
  {
    set n: Sq | n in done && PinnersBehind(b, sq, n, diag, pinner) != {}
  }

  lemma FoundAdd(b: Board, sq: Sq, pinner: Side, diag: bool, done: Bitboard, x: Sq)
    ensures Found(b, sq, pinner, diag, done + {x}) ==
            Found(b, sq, pinner, diag, done) + (if PinnersBehind(b, sq, x, diag, pinner) != {} then {x} else {})
  {
  }

  /** The friendly pieces one loop of pinned.cpp marks: those on the lines seen from sq with a pinner behind. */
  function PinnedAlong(b: Board, s: Side, sq: Sq, pinner: Side, diag: bool): Bitboard
  {
    Found(b, sq, pinner, diag, Lines(sq, b.Occupied(), diag) * b.Occupancy(s))
  }

  /** `pinned(s, sq)` with the sliders of `pinner` as pinners: the diagonal loop, then the orthogonal loop. */
  function PinnedBy(b: Board, s: Side, sq: Sq, pinner: Side): (p: Bitboard)
    ensures p <= b.Occupancy(s)
  {
    PinnedAlong(b, s, sq, pinner, true) + PinnedAlong(b, s, sq, pinner, false)
  }

  /** Some pinner stands behind n exactly when the test finds one. */
  lemma PinnersBehindNonEmpty(b: Board, sq: Sq, n: Sq, diag: bool, pinner: Side)
    requires n in b.Occupied()
    ensures PinnersBehind(b, sq, n, diag, pinner) != {} <==> exists a :: PinsThrough(b, sq, n, a, diag, pinner)
  {
    if a :| a in PinnersBehind(b, sq, n, diag, pinner) {
      PinnersBehindMembers(b, sq, n, diag, pinner, a);
    }
    if a :| PinsThrough(b, sq, n, a, diag, pinner) {
      PinnersBehindMembers(b, sq, n, diag, pinner, a);
    }
  }

  lemma PinnedAlongMembers(b: Board, s: Side, sq: Sq, pinner: Side, diag: bool, n: Sq)
    ensures n in PinnedAlong(b, s, sq, pinner, diag) <==>
              n in b.Occupancy(s) && Sees(sq, n, b.Occupied()) && OffAxis(sq, n) == diag &&
              exists a :: PinsThrough(b, sq, n, a, diag, pinner)
  {
    LinesMembers(sq, b.Occupied(), diag, n);
    if n in b.Occupancy(s) {
      PinnersBehindNonEmpty(b, sq, n, diag, pinner);
    }
  }

  /**
   * A piece is pinned exactly when it is the first piece seen from sq along a
   * line and a slider of `pinner` that moves along that line stands behind it.
   */
  lemma PinnedByMembers(b: Board, s: Side, sq: Sq, pinner: Side, n: Sq)
    ensures n in PinnedBy(b, s, sq, pinner) <==>
              n in b.Occupancy(s) && Sees(sq, n, b.Occupied()) &&
              exists a :: PinsThrough(b, sq, n, a, OffAxis(sq, n), pinner)
  {
    PinnedAlongMembers(b, s, sq, pinner, true, n);
    PinnedAlongMembers(b, s, sq, pinner, false, n);
  }

  /** The body of the loops in pinned.cpp: lift nsq off the board and collect the sliders it uncovered. */
  method PinTest(b: Board, sq: Sq, nsq: Sq, diag: bool, pinner: Side) returns (attackers: Bitboard)
    ensures attackers == PinnersBehind(b, sq, nsq, diag, pinner)
  {
    var occ := b.Occupied();
    var blockers := Toggle(occ, {nsq});
    var discovery := Lines(sq, blockers, diag);
    var before := RookMoves(sq, occ) + BishopMoves(sq, occ);
    attackers := blockers * discovery * Complement(before) * Pinners(b, pinner, diag);
  }

  /** `for (nsq : mask) if (attackers) pinned |= nsq`. */
  method ScanMask(b: Board, sq: Sq, pinner: Side, diag: bool, mask: Bitboard, acc: Bitboard) returns (pinned: Bitboard)
    ensures pinned == acc + Found(b, sq, pinner, diag, mask)
  {
    pinned := acc;
    var rest := mask;
    ghost var done: Bitboard := {};
    while rest != {}
      invariant done + rest == mask
      invariant pinned == acc + Found(b, sq, pinner, diag, done)
      decreases |rest|
    {
      var nsq := Lowest(rest);
      var attackers := PinTest(b, sq, nsq, diag, pinner);
      FoundAdd(b, sq, pinner, diag, done, nsq);
      if attackers != {} {
        pinned := pinned + {nsq};
      }
      rest := rest - {nsq};
      done := done + {nsq};
    }
  }

  /** One loop of pinned.cpp: over the friendly pieces on the lines seen from sq. */
  method ScanAlong(b: Board, s: Side, sq: Sq, pinner: Side, diag: bool, acc: Bitboard) returns (pinned: Bitboard)
    ensures pinned == acc + PinnedAlong(b, s, sq, pinner, diag)
  {
    pinned := ScanMask(b, sq, pinner, diag, Lines(sq, b.Occupied(), diag) * b.Occupancy(s), acc);
  }

  /** `pinned(s, sq)`: both loops, pinners taken from `pinner`. */
  method PinnedScan(b: Board, s: Side, sq: Sq, pinner: Side) returns (pinned: Bitboard)
    ensures pinned == PinnedBy(b, s, sq, pinner)
  {
    pinned := ScanAlong(b, s, sq, pinner, true, {});
    pinned := ScanAlong(b, s, sq, pinner, false, pinned);
  }

  /**
   * `pinned(s)` as written: the pinners are the sliders of `!turn()`, the
   * side not to move, whichever side s is.
   */
  function PinnedAsWritten(b: Board, s: Side): Bitboard
    requires b.HasKing(s)
  {
    PinnedBy(b, s, b.KingPosition(s), b.turn.Other())
  }

  /** `pinned(s)` as evidently intended: the pieces of s pinned to its king by the other side's sliders. */
  function PinnedOf(b: Board, s: Side): Bitboard
    requires b.HasKing(s)
  {
    PinnedBy(b, s, b.KingPosition(s), s.Other())
  }

  /** `pinned()`: the side to move's pinned pieces; here both readings agree. */
  method Pinned(b: Board) returns (pinned: Bitboard)
    requires b.HasKing(b.turn)
    ensures pinned == PinnedOf(b, b.turn)
    ensures pinned == PinnedAsWritten(b, b.turn)
  {
    pinned := PinnedScan(b, b.turn, b.KingPosition(b.turn), b.turn.Other());
  }

  /** `pinned(s)` as the source computes it. */
  method PinnedSide(b: Board, s: Side) returns (pinned: Bitboard)
    requires b.HasKing(s)
    ensures pinned == PinnedAsWritten(b, s)
  {
    pinned := PinnedScan(b, s, b.KingPosition(s), b.turn.Other());
  }

  /**
   * For the side not to move, `pinned(s)` takes that side's own sliders as
   * pinners: a piece with a friendly rook behind it on the king's file is
   * reported pinned while nothing of the opponent's pins it.
   */
  lemma PinnedAsWrittenOwnSliders(b: Board, s: Side, n: Sq, a: Sq)
    requires s == b.turn.Other() && b.HasKing(s)
    requires b.PiecesOf(b.turn, Bishop) == {} && b.PiecesOf(b.turn, Rook) == {} && b.PiecesOf(b.turn, Queen) == {}
    requires n in b.Occupancy(s) && Sees(b.KingPosition(s), n, b.Occupied())
    requires PinsThrough(b, b.KingPosition(s), n, a, OffAxis(b.KingPosition(s), n), s)
    ensures n in PinnedAsWritten(b, s)
    ensures PinnedOf(b, s) == {}
  {
    var k := b.KingPosition(s);
    PinnedByMembers(b, s, k, s, n);
    OtherInvolution(b.turn);
    assert Pinners(b, s.Other(), true) == {} && Pinners(b, s.Other(), false) == {};
    forall t: Sq ensures t !in PinnedOf(b, s) {
      PinnedByMembers(b, s, k, s.Other(), t);
    }
  }
}
