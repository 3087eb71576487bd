// `Position::legal_noncaptures` (legal_noncaptures.cpp): every legal move
// that takes nothing, generated without making any move. In double check
// only the king steps away. Otherwise every target lies in `allowed` (the
// empty squares, or the squares between king and checker in single check),
// a pinned piece slides only along its pin, pawns pinned along a diagonal or
// a rank stay put, the free pieces move as usual, and out of check the king
// may castle.

module Noncaptures {
  import opened Squares
  import opened Bitboards
  import opened Pieces
  import opened Boards
  import opened Movegen
  import opened Attacks
  import opened Emit
  import opened Pawns
  import opened Pins
  import opened Captures

  /** `allowed`: the squares between king and the one checker in single check, else every empty square. */
  function QuietTargets(b: Board): Bitboard
    requires Ready(b)
  {
    var ch := Checkers(b);
    if |ch| == 1 then Between(b.KingPosition(b.turn), Lowest(ch)) else b.EmptySquares()
  }

  // ----- pinned pieces -----

  /**
   * The body of the pin loops for one friendly piece on sq: when lifting it
   * uncovers an enemy slider, a bishop or queen (along a diagonal) or a rook
   * or queen (along a line) slides to the squares of `allowed` between the
   * king and that slider.
   */
  function PinQuiet(b: Board, ksq: Sq, sq: Sq, diag: bool, allowed: Bitboard): seq<Move>
  {
    var us := b.turn;
    var attackers := Discovered(b, ksq, sq, diag, us.Other());
    if attackers == {} then []
    else
      var mask := Toggle(Between(ksq, Lowest(attackers)), {sq}) * allowed;
      if diag then
        if sq in b.PiecesOf(us, Bishop) then Emitted(b, mask, From(sq), Normal, Bishop)
        else if sq in b.PiecesOf(us, Queen) then Emitted(b, mask, From(sq), Normal, Queen)
        else []
      else
        if sq in b.PiecesOf(us, Rook) then Emitted(b, mask, From(sq), Normal, Rook)
        else if sq in b.PiecesOf(us, Queen) then Emitted(b, mask, From(sq), Normal, Queen)
        else []
  }

  /** The quiet pin loop over the candidate squares, lowest first. */
  function PinQuietLoop(b: Board, ksq: Sq, cands: Bitboard, diag: bool, allowed: Bitboard): seq<Move>
    decreases |cands|
  {
    if cands == {} then []
    else
      var sq := Lowest(cands);
      PinQuiet(b, ksq, sq, diag, allowed) + PinQuietLoop(b, ksq, cands - {sq}, diag, allowed)
  }

  /** `horizontal_pinned`: the pieces the line loop records that share the king's rank. */
  function HorizontalPinned(b: Board): Bitboard
    requires b.HasKing(b.turn)
  {
    var ksq := b.KingPosition(b.turn);
    PinnedAmong(b, ksq, PinCandidates(b, false), false) * RankMask(RankOf(ksq))
  }

  /** The pawns that may step: none pinned along a diagonal or along the king's rank. */
  function MovablePawns(b: Board): Bitboard
    requires b.HasKing(b.turn)
  {
    var ksq := b.KingPosition(b.turn);
    b.PiecesOf(b.turn, Pawn) * Complement(HorizontalPinned(b) + PinnedAmong(b, ksq, PinCandidates(b, true), true))
  }

  // ----- pawns, pieces, king -----

  /** The single steps (four promotions each from the seventh rank), then the double steps. */
  function PawnQuiet(b: Board, pawns: Bitboard, allowed: Bitboard): seq<Move>
  {
    var s := b.turn;
    Pushes(b, s, pawns * Complement(PromotionRank(s)), allowed, Normal)
    + Pushes(b, s, pawns * PromotionRank(s), allowed, Promo)
    + Doubles(b, s, pawns, DoubleRank(s) * allowed)
  }

  /** The quiet moves of the free knights, bishops, rooks and queens, in that order. */
  function PieceQuiet(b: Board, free: Bitboard, allowed: Bitboard): seq<Move>
  {
    var us := b.turn;
    var occ := b.Occupied();
    EmittedFrom(b, b.PiecesOf(us, Knight) * free, Knight, occ, allowed, Normal)
    + EmittedFrom(b, b.PiecesOf(us, Bishop) * free, Bishop, occ, allowed, Normal)
    + EmittedFrom(b, b.PiecesOf(us, Rook) * free, Rook, occ, allowed, Normal)
    + EmittedFrom(b, b.PiecesOf(us, Queen) * free, Queen, occ, allowed, Normal)
  }

  /** The king's steps onto empty squares it may enter. */
  function KingQuiet(b: Board): seq<Move>
    requires Ready(b)
  {
    var ksq := b.KingPosition(b.turn);
    Emitted(b, KingMoves(ksq, {}) * KingAllowedToMove(b) * b.EmptySquares(), From(ksq), Normal, King)
  }

  /** Double check: only the king moves, onto empty squares it may enter. */
  function DoubleCheckQuiet(b: Board): seq<Move>
    requires Ready(b)
  {
    EmittedFrom(b, b.PiecesOf(b.turn, King), King, b.Occupied(), KingAllowedToMove(b) * b.EmptySquares(), Normal)
  }

  // ----- castling -----

  /** The square on file f of side s's back rank (`squares::E1`, `squares::G8`, …). */
  function HomeSquare(s: Side, f: int): (sq: Sq)
    requires 0 <= f < 8
    ensures FileOf(sq) == f && RankOf(sq) == (if s == White then 0 else 7)
  {
    if s == White then f else 56 + f
  }

  /**
   * The castling test for side s: the right is held, the squares between
   * king and rook are empty (F and G, or D, C and B), and the squares the
   * king crosses and lands on are not attacked (F and G, or D and C).
   */
  predicate CastleClear(b: Board, s: Side, kingSide: bool)
  {
    var them := s.Other();
    if kingSide then
      && b.CanCastle(s, true)
      && PieceOn(b, HomeSquare(s, 5)) == None && PieceOn(b, HomeSquare(s, 6)) == None
      && !SquareAttacked(b, HomeSquare(s, 5), them) && !SquareAttacked(b, HomeSquare(s, 6), them)
    else
      && b.CanCastle(s, false)
      && PieceOn(b, HomeSquare(s, 3)) == None && PieceOn(b, HomeSquare(s, 2)) == None
      && PieceOn(b, HomeSquare(s, 1)) == None
      && !SquareAttacked(b, HomeSquare(s, 3), them) && !SquareAttacked(b, HomeSquare(s, 2), them)
  }

  /** The castling move on one wing, when its test passes. */
  function CastleOn(b: Board, kingSide: bool): seq<Move>
  {
    if CastleClear(b, b.turn, kingSide) then [CastleMove(b.turn, kingSide)] else []
  }

  /** The castling moves of the side to move: king side first, the king going from E to G or C. */
  function Castles(b: Board): seq<Move>
  {
    CastleOn(b, true) + CastleOn(b, false)
  }

  /** The two pin loops, diagonal first. */
  function PinQuietLoops(b: Board, allowed: Bitboard): seq<Move>
    requires b.HasKing(b.turn)
  {
    var ksq := b.KingPosition(b.turn);
    PinQuietLoop(b, ksq, PinCandidates(b, true), true, allowed) + PinQuietLoop(b, ksq, PinCandidates(b, false), false, allowed)
  }

  /** The pawns that may step, then the free knights, bishops, rooks and queens. */
  function FreeQuiet(b: Board, allowed: Bitboard): seq<Move>
    requires b.HasKing(b.turn)
  {
    PawnQuiet(b, MovablePawns(b), allowed) + PieceQuiet(b, FreePieces(b), allowed)
  }

  /** The king's steps, then castling when not in check. */
  function KingSteps(b: Board): seq<Move>
    requires Ready(b)
  {
    KingQuiet(b) + (if Checkers(b) == {} then Castles(b) else [])
  }

  /** Out of double check: the pin loops, the pawns and free pieces, the king. */
  function UnforcedQuiet(b: Board): seq<Move>
    requires Ready(b)
  {
    var allowed := QuietTargets(b);
    PinQuietLoops(b, allowed) + FreeQuiet(b, allowed) + KingSteps(b)
  }

  /** Everything `legal_noncaptures` appends. */
  function LegalNoncapturesSpec(b: Board): seq<Move>
    requires Ready(b)
  {
    if |Checkers(b)| > 1 then DoubleCheckQuiet(b) else UnforcedQuiet(b)
  }

  // ----- the methods -----

  /** One turn of a quiet pin loop: the inline pin test, then the slides of the pinned piece. */
  method AppendPinQuiet(b: Board, ksq: Sq, sq: Sq, diag: bool, allowed: Bitboard, moves: seq<Move>, pinned: Bitboard)
    returns (out: seq<Move>, pinned': Bitboard)
    ensures out == moves + PinQuiet(b, ksq, sq, diag, allowed)
    ensures pinned' == pinned + (if Discovered(b, ksq, sq, diag, b.turn.Other()) != {} then {sq} else {})
  {
    var us := b.turn;
    var occ := b.Occupied();
    var rays := Lines(ksq, occ, diag);
    var newRays := Lines(ksq, Toggle(occ, {sq}), diag);
    var attackers := Toggle(newRays, rays) * Pinners(b, us.Other(), diag);
    pinned' := pinned;
    out := moves;
    if attackers != {} {
      pinned' := pinned + {sq};
      var mask := Toggle(Between(ksq, Lowest(attackers)), {sq}) * allowed;
      if diag {
        if sq in b.PiecesOf(us, Bishop) {
          out := EmitTargets(b, out, mask, From(sq), Normal, Bishop);
        } else if sq in b.PiecesOf(us, Queen) {
          out := EmitTargets(b, out, mask, From(sq), Normal, Queen);
        }
      } else {
        if sq in b.PiecesOf(us, Rook) {
          out := EmitTargets(b, out, mask, From(sq), Normal, Rook);
        } else if sq in b.PiecesOf(us, Queen) {
          out := EmitTargets(b, out, mask, From(sq), Normal, Queen);
        }
      }
    }
  }

  lemma PinQuietLoopStep(b: Board, ksq: Sq, cands: Bitboard, diag: bool, allowed: Bitboard, done: seq<Move>)
    requires cands != {}
    ensures done + PinQuietLoop(b, ksq, cands, diag, allowed) ==
            (done + PinQuiet(b, ksq, Lowest(cands), diag, allowed)) + PinQuietLoop(b, ksq, cands - {Lowest(cands)}, diag, allowed)
  {
    var sq := Lowest(cands);
    AppendTwo(done, PinQuiet(b, ksq, sq, diag, allowed), PinQuietLoop(b, ksq, cands - {sq}, diag, allowed));
  }

  /** The loop state of a quiet pin scan: `rest` still to visit, the rest of the loop's moves still to come. */
  predicate PinScanned(b: Board, ksq: Sq, moves: seq<Move>, cands: Bitboard, diag: bool, allowed: Bitboard,
                       rest: Bitboard, done: Bitboard, out: seq<Move>, pinned: Bitboard)
  {
    && done + rest == cands
    && out + PinQuietLoop(b, ksq, rest, diag, allowed) == moves + PinQuietLoop(b, ksq, cands, diag, allowed)
    && pinned == PinnedAmong(b, ksq, done, diag)
  }

  lemma PinScanStep(b: Board, ksq: Sq, moves: seq<Move>, cands: Bitboard, diag: bool, allowed: Bitboard,
                    rest: Bitboard, done: Bitboard, out: seq<Move>, pinned: Bitboard)
    requires rest != {} && PinScanned(b, ksq, moves, cands, diag, allowed, rest, done, out, pinned)
    ensures var sq := Lowest(rest);
            PinScanned(b, ksq, moves, cands, diag, allowed, rest - {sq}, done + {sq},
              out + PinQuiet(b, ksq, sq, diag, allowed),
              pinned + (if Discovered(b, ksq, sq, diag, b.turn.Other()) != {} then {sq} else {}))
  {
    var sq := Lowest(rest);
    PinQuietLoopStep(b, ksq, rest, diag, allowed, out);
    PinnedAmongAdd(b, ksq, done, diag, sq);
  }

  /** A quiet pin loop, collecting the pinned squares (`bishop_pinned`, `rook_pinned`) as it goes. */
  method PinQuietScan(b: Board, ksq: Sq, moves: seq<Move>, cands: Bitboard, diag: bool, allowed: Bitboard)
    returns (out: seq<Move>, pinned: Bitboard)
    ensures out == moves + PinQuietLoop(b, ksq, cands, diag, allowed)
    ensures pinned == PinnedAmong(b, ksq, cands, diag)
  {
    out := moves;
    pinned := {};
    var rest := cands;
    ghost var done: Bitboard := {};
    assert PinnedAmong(b, ksq, {}, diag) == {};
    while rest != {}
      invariant PinScanned(b, ksq, moves, cands, diag, allowed, rest, done, out, pinned)
      decreases |rest|
    {
      var sq := Lowest(rest);
      PinScanStep(b, ksq, moves, cands, diag, allowed, rest, done, out, pinned);
      out, pinned := AppendPinQuiet(b, ksq, sq, diag, allowed, out, pinned);
      rest := rest - {sq};
      done := done + {sq};
    }
  }

  /** The pawn loops: single steps, promoting single steps, double steps. */
  method AppendPawnQuiet(b: Board, moves: seq<Move>, pawns: Bitboard, allowed: Bitboard) returns (out: seq<Move>)
    ensures out == moves + PawnQuiet(b, pawns, allowed)
  {
    var s := b.turn;
    var promo := pawns * PromotionRank(s);
    var nonpromo := pawns * Complement(PromotionRank(s));
    var o1 := AppendPushes(b, s, moves, nonpromo, allowed, Normal);
    var o2 := AppendPushes(b, s, o1, promo, allowed, Promo);
    out := AppendDoubles(b, s, o2, pawns, DoubleRank(s) * allowed);
    AppendThree(moves, Pushes(b, s, nonpromo, allowed, Normal), Pushes(b, s, promo, allowed, Promo),
      Doubles(b, s, pawns, DoubleRank(s) * allowed));
  }

  /** The free pieces' loops. */
  method AppendPieceQuiet(b: Board, moves: seq<Move>, free: Bitboard, allowed: Bitboard) returns (out: seq<Move>)
    ensures out == moves + PieceQuiet(b, free, allowed)
  {
    var us := b.turn;
    var occ := b.Occupied();
    var o1 := EmitFrom(b, moves, b.PiecesOf(us, Knight) * free, Knight, occ, allowed, Normal);
    var o2 := EmitFrom(b, o1, b.PiecesOf(us, Bishop) * free, Bishop, occ, allowed, Normal);
    var o3 := EmitFrom(b, o2, b.PiecesOf(us, Rook) * free, Rook, occ, allowed, Normal);
    out := EmitFrom(b, o3, b.PiecesOf(us, Queen) * free, Queen, occ, allowed, Normal);
    AppendFour(moves, EmittedFrom(b, b.PiecesOf(us, Knight) * free, Knight, occ, allowed, Normal),
      EmittedFrom(b, b.PiecesOf(us, Bishop) * free, Bishop, occ, allowed, Normal),
      EmittedFrom(b, b.PiecesOf(us, Rook) * free, Rook, occ, allowed, Normal),
      EmittedFrom(b, b.PiecesOf(us, Queen) * free, Queen, occ, allowed, Normal));
  }

  /** The king's loop, with `king_allowed()` computed by its own loops. */
  method AppendKingQuiet(b: Board, moves: seq<Move>) returns (out: seq<Move>)
    requires Ready(b)
    ensures out == moves + KingQuiet(b)
  {
    var ksq := b.KingPosition(b.turn);
    var safe := KingAllowed(b, b.turn);
    out := EmitTargets(b, moves, KingMoves(ksq, {}) * safe * b.EmptySquares(), From(ksq), Normal, King);
  }

  /** The king's move when castling on the king side or the queen side. */
  function CastleMove(s: Side, kingSide: bool): Move
  {
    if kingSide then Quiet(KingSide, HomeSquare(s, 4), HomeSquare(s, 6), King)
    else Quiet(QueenSide, HomeSquare(s, 4), HomeSquare(s, 2), King)
  }

  /** The king-side castling test, `piece_on` and `square_attacked` square by square. */
  method AppendKingSide(b: Board, moves: seq<Move>) returns (out: seq<Move>)
    ensures out == moves + CastleOn(b, true)
  {
    var s := b.turn;
    var f := PieceOnScan(b, HomeSquare(s, 5));
    var g := PieceOnScan(b, HomeSquare(s, 6));
    var clear := b.CanCastle(s, true) && f == None && g == None
       && !SquareAttacked(b, HomeSquare(s, 5), s.Other()) && !SquareAttacked(b, HomeSquare(s, 6), s.Other());
    assert clear == CastleClear(b, s, true);
    out := moves + (if clear then [CastleMove(s, true)] else []);
  }

  /** The queen-side castling test. */
  method AppendQueenSide(b: Board, moves: seq<Move>) returns (out: seq<Move>)
    ensures out == moves + CastleOn(b, false)
  {
    var s := b.turn;
    var d := PieceOnScan(b, HomeSquare(s, 3));
    var c := PieceOnScan(b, HomeSquare(s, 2));
    var n := PieceOnScan(b, HomeSquare(s, 1));
    var clear := b.CanCastle(s, false) && d == None && c == None && n == None
       && !SquareAttacked(b, HomeSquare(s, 3), s.Other()) && !SquareAttacked(b, HomeSquare(s, 2), s.Other());
    assert clear == CastleClear(b, s, false);
    out := moves + (if clear then [CastleMove(s, false)] else []);
  }

  /** Both castling tests, king side first. */
  method AppendCastles(b: Board, moves: seq<Move>) returns (out: seq<Move>)
    ensures out == moves + Castles(b)
  {
    var mid := AppendKingSide(b, moves);
    out := AppendQueenSide(b, mid);
    AppendTwo(moves, CastleOn(b, true), CastleOn(b, false));
  }

  /** Both pin loops, returning `bishop_pinned` and `rook_pinned`. */
  method AppendPinQuietLoops(b: Board, moves: seq<Move>, allowed: Bitboard)
    returns (out: seq<Move>, bishopPinned: Bitboard, rookPinned: Bitboard)
    requires b.HasKing(b.turn)
    ensures out == moves + PinQuietLoops(b, allowed)
    ensures bishopPinned == PinnedAmong(b, b.KingPosition(b.turn), PinCandidates(b, true), true)
    ensures rookPinned == PinnedAmong(b, b.KingPosition(b.turn), PinCandidates(b, false), false)
  {
    var us := b.turn;
    var ksq := b.KingPosition(us);
    var occ := b.Occupied();
    var diagonal := b.Occupancy(us) * BishopMoves(ksq, occ);
    var straight := b.Occupancy(us) * RookMoves(ksq, occ);
    var mid;
    mid, bishopPinned := PinQuietScan(b, ksq, moves, diagonal, true, allowed);
    out, rookPinned := PinQuietScan(b, ksq, mid, straight, false, allowed);
    AppendTwo(moves, PinQuietLoop(b, ksq, diagonal, true, allowed), PinQuietLoop(b, ksq, straight, false, allowed));
  }

  /** The pawn and piece loops, given the pinned sets: `horizontal_pinned` and `nonpinned_pieces` computed here. */
  method AppendFreeQuiet(b: Board, moves: seq<Move>, allowed: Bitboard, bishopPinned: Bitboard, rookPinned: Bitboard)
    returns (out: seq<Move>)
    requires b.HasKing(b.turn)
    requires bishopPinned == PinnedAmong(b, b.KingPosition(b.turn), PinCandidates(b, true), true)
    requires rookPinned == PinnedAmong(b, b.KingPosition(b.turn), PinCandidates(b, false), false)
    ensures out == moves + FreeQuiet(b, allowed)
  {
    var us := b.turn;
    var horizontal := rookPinned * RankMask(RankOf(b.KingPosition(us)));
    var free := Toggle(b.Occupancy(us), rookPinned + bishopPinned);
    var pawns := b.PiecesOf(us, Pawn) * Complement(horizontal + bishopPinned);
    var mid := AppendPawnQuiet(b, moves, pawns, allowed);
    out := AppendPieceQuiet(b, mid, free, allowed);
    AppendTwo(moves, PawnQuiet(b, pawns, allowed), PieceQuiet(b, free, allowed));
  }

  /** The king loop, then castling when not in check. */
  method AppendKingSteps(b: Board, moves: seq<Move>) returns (out: seq<Move>)
    requires Ready(b)
    ensures out == moves + KingSteps(b)
  {
    out := AppendKingQuiet(b, moves);
    if Checkers(b) == {} {
      var mid := out;
      out := AppendCastles(b, mid);
      AppendTwo(moves, KingQuiet(b), Castles(b));
    }
  }

  /** Out of double check: `allowed`, the pin loops, the pawns and free pieces, the king. */
  method AppendUnforcedQuiet(b: Board, moves: seq<Move>) returns (out: seq<Move>)
    requires Ready(b)
    ensures out == moves + UnforcedQuiet(b)
  {
    var ch := Checkers(b);
    var allowed := b.EmptySquares();
    if |ch| == 1 {
      allowed := Between(b.KingPosition(b.turn), Lowest(ch));
    }
    var o1, bishopPinned, rookPinned := AppendPinQuietLoops(b, moves, allowed);
    var o2 := AppendFreeQuiet(b, o1, allowed, bishopPinned, rookPinned);
    out := AppendKingSteps(b, o2);
    AppendThree(moves, PinQuietLoops(b, allowed), FreeQuiet(b, allowed), KingSteps(b));
  }

  /** `legal_noncaptures(moves)`. */
  method LegalNoncaptures(b: Board, moves: seq<Move>) returns (out: seq<Move>)
    requires Ready(b)
    ensures out == moves + LegalNoncapturesSpec(b)
  {
    var us := b.turn;
    if |Checkers(b)| > 1 {
      var safe := KingAllowed(b, us);
      out := EmitFrom(b, moves, b.PiecesOf(us, King), King, b.Occupied(), safe * b.EmptySquares(), Normal);
      return;
    }
    out := AppendUnforcedQuiet(b, moves);
  }

  // ----- what the generated moves are -----

  /** Squares at most one king step apart have nothing between them. */
  lemma NearBetweenEmpty(a: Sq, c: Sq)
    requires Distance(a, c) <= 1
    ensures Between(a, c) == {}
  {
    forall t: Sq | t in Between(a, c) ensures false {
      BetweenIsSegment(a, c, t);
    }
  }

  /**
   * The squares between the king and a checker are empty: a slider sees the
   * king past them, and a pawn, knight or king has none.
   */
  lemma CheckLineEmpty(b: Board, c: Sq)
    requires b.HasKing(b.turn) && c in Checkers(b)
    ensures Between(b.KingPosition(b.turn), c) <= b.EmptySquares()
  {
    var ksq := b.KingPosition(b.turn);
    CheckersInCheck(b);
    assert Hits(b, b.turn.Other(), c, ksq);
    HitLineEmpty(b, b.turn.Other(), c, ksq);
    OffTheBoard(b, Between(ksq, c));
  }

  lemma OffTheBoard(b: Board, x: Bitboard)
    requires x * b.Occupied() == {}
    ensures x <= b.EmptySquares()
  {
    forall t | t in x ensures t in b.EmptySquares() {
      assert t !in x * b.Occupied();
    }
  }

  /** Nothing stands between a piece and a square it attacks. */
  lemma HitLineEmpty(b: Board, s: Side, t: Sq, sq: Sq)
    requires Hits(b, s, t, sq)
    ensures Between(sq, t) * b.Occupied() == {}
  {
    if t in b.PiecesOf(s, Pawn) && PawnHits(s, t, sq) {
      NearBetweenEmpty(sq, t);
    } else if t in b.PiecesOf(s, Knight) && KnightApart(t, sq) {
      BetweenIsSegment(sq, t, sq);
    } else if Sees(t, sq, b.Occupied()) {
      BetweenSymmetric(t, sq);
    } else {
      assert KingApart(t, sq);
      NearBetweenEmpty(sq, t);
    }
  }

  /** `allowed` holds only empty squares, so no loop over it captures. */
  lemma QuietTargetsEmpty(b: Board)
    requires Ready(b)
    ensures QuietTargets(b) <= b.EmptySquares()
  {
    var ch := Checkers(b);
    if |ch| == 1 {
      CheckLineEmpty(b, Lowest(ch));
    }
  }

  /** Every move of one quiet pin-loop step slides a pinned bishop, rook or queen to a square of `allowed` between the king and its pinner. */
  lemma PinQuietShape(b: Board, ksq: Sq, sq: Sq, diag: bool, allowed: Bitboard, m: Move) returns (a: Sq)
    requires sq in b.Occupancy(b.turn) && m in PinQuiet(b, ksq, sq, diag, allowed)
    ensures m == Quiet(Normal, sq, m.to, m.piece)
    ensures (m.piece == Bishop || m.piece == Rook || m.piece == Queen) && sq in b.PiecesOf(b.turn, m.piece)
    ensures PinsThrough(b, ksq, sq, a, diag, b.turn.Other())
    ensures m.to in allowed * Between(ksq, a)
  {
    var us := b.turn;
    var attackers := Discovered(b, ksq, sq, diag, us.Other());
    assert attackers != {};
    a := Lowest(attackers);
    DiscoveredMembers(b, ksq, sq, diag, us.Other(), a);
    var mask := Toggle(Between(ksq, a), {sq}) * allowed;
    if diag {
      if sq in b.PiecesOf(us, Bishop) {
        PinnedSlide(b, sq, mask, Bishop, m);
      } else {
        PinnedSlide(b, sq, mask, Queen, m);
      }
    } else {
      if sq in b.PiecesOf(us, Rook) {
        PinnedSlide(b, sq, mask, Rook, m);
      } else {
        PinnedSlide(b, sq, mask, Queen, m);
      }
    }
  }

  lemma PinnedSlide(b: Board, sq: Sq, mask: Bitboard, p: Piece, m: Move)
    requires m in Emitted(b, mask, From(sq), Normal, p)
    ensures m == Quiet(Normal, sq, m.to, p) && m.to in mask
  {
    EmittedHas(b, mask, From(sq), Normal, p, m);
  }

  /** A move of the quiet pin loop is one of the moves of one of its candidates. */
  lemma {:induction false} PinQuietLoopHas(b: Board, ksq: Sq, cands: Bitboard, diag: bool, allowed: Bitboard, m: Move)
    ensures m in PinQuietLoop(b, ksq, cands, diag, allowed) <==> exists sq :: sq in cands && m in PinQuiet(b, ksq, sq, diag, allowed)
    decreases |cands|
  {
    if cands != {} {
      var sq := Lowest(cands);
      PinQuietLoopHas(b, ksq, cands - {sq}, diag, allowed, m);
    }
  }

  /** The quiet pin loop over friendly pieces only slides pinned pieces along their pins. */
  lemma PinQuietLoopShape(b: Board, ksq: Sq, cands: Bitboard, diag: bool, allowed: Bitboard, m: Move) returns (a: Sq)
    requires cands <= b.Occupancy(b.turn) && m in PinQuietLoop(b, ksq, cands, diag, allowed)
    ensures m.from in cands && m == Quiet(Normal, m.from, m.to, m.piece)
    ensures (m.piece == Bishop || m.piece == Rook || m.piece == Queen) && m.from in b.PiecesOf(b.turn, m.piece)
    ensures PinsThrough(b, ksq, m.from, a, diag, b.turn.Other())
    ensures m.to in allowed * Between(ksq, a)
  {
    PinQuietLoopHas(b, ksq, cands, diag, allowed, m);
    var sq :| sq in cands && m in PinQuiet(b, ksq, sq, diag, allowed);
    a := PinQuietShape(b, ksq, sq, diag, allowed, m);
  }

  /** A pawn's quiet move: one step, four promotions from the seventh rank, or two steps over an empty square onto the fourth rank. */
  predicate PawnStep(b: Board, m: Move)
  {
    var s := b.turn;
    && m.piece == Pawn && m.captured == None
    && if m.kind == Double then
         m.to == m.from + 2 * Push(s) && m.from + Push(s) in b.EmptySquares() && m.to in DoubleRank(s) && m.promotion == None
       else
         && m.to == m.from + Push(s)
         && (m.kind == Normal || m.kind == Promo)
         && (m.kind == Promo <==> m.from in PromotionRank(s))
         && (if m.kind == Promo then m.promotion in PromotionOrder else m.promotion == None)
  }

  /** The pawn loops emit exactly the steps of the given pawns onto `allowed`. */
  lemma PawnQuietLand(b: Board, pawns: Bitboard, allowed: Bitboard, m: Move)
    requires m in PawnQuiet(b, pawns, allowed)
    ensures m.from in pawns && m.to in allowed && PawnStep(b, m)
  {
    var s := b.turn;
    if m in Pushes(b, s, pawns * Complement(PromotionRank(s)), allowed, Normal) {
      NormalPushLand(b, pawns, allowed, m);
    } else if m in Pushes(b, s, pawns * PromotionRank(s), allowed, Promo) {
      PromoPushLand(b, pawns, allowed, m);
    } else {
      DoubleLand(b, pawns, allowed, m);
    }
  }

  lemma NormalPushLand(b: Board, pawns: Bitboard, allowed: Bitboard, m: Move)
    requires m in Pushes(b, b.turn, pawns * Complement(PromotionRank(b.turn)), allowed, Normal)
    ensures m.from in pawns && m.to in allowed && PawnStep(b, m)
  {
    PushesHas(b, b.turn, pawns * Complement(PromotionRank(b.turn)), allowed, Normal, m);
  }

  lemma PromoPushLand(b: Board, pawns: Bitboard, allowed: Bitboard, m: Move)
    requires m in Pushes(b, b.turn, pawns * PromotionRank(b.turn), allowed, Promo)
    ensures m.from in pawns && m.to in allowed && PawnStep(b, m)
  {
    PushesHas(b, b.turn, pawns * PromotionRank(b.turn), allowed, Promo, m);
  }

  lemma DoubleLand(b: Board, pawns: Bitboard, allowed: Bitboard, m: Move)
    requires m in Doubles(b, b.turn, pawns, DoubleRank(b.turn) * allowed)
    ensures m.from in pawns && m.to in allowed && PawnStep(b, m)
  {
    DoublesHas(b, b.turn, pawns, DoubleRank(b.turn) * allowed, m);
  }

  /** The free pieces' loops: a free knight, bishop, rook or queen steps onto a square of `allowed` it reaches. */
  lemma PieceQuietLand(b: Board, free: Bitboard, allowed: Bitboard, m: Move)
    requires m in PieceQuiet(b, free, allowed)
    ensures m == Quiet(Normal, m.from, m.to, m.piece)
    ensures m.piece == Knight || m.piece == Bishop || m.piece == Rook || m.piece == Queen
    ensures m.from in b.PiecesOf(b.turn, m.piece) * free
    ensures m.to in Reach(m.piece, m.from, b.Occupied()) * allowed
  {
    var us := b.turn;
    var occ := b.Occupied();
    EmittedFromHas(b, b.PiecesOf(us, Knight) * free, Knight, occ, allowed, Normal, m);
    EmittedFromHas(b, b.PiecesOf(us, Bishop) * free, Bishop, occ, allowed, Normal, m);
    EmittedFromHas(b, b.PiecesOf(us, Rook) * free, Rook, occ, allowed, Normal, m);
    EmittedFromHas(b, b.PiecesOf(us, Queen) * free, Queen, occ, allowed, Normal, m);
  }

  /** The king's loop: a step onto an empty neighbour it may enter. */
  lemma KingQuietLand(b: Board, m: Move)
    requires Ready(b) && m in KingQuiet(b)
    ensures m == Quiet(Normal, b.KingPosition(b.turn), m.to, King)
    ensures m.to in KingMoves(b.KingPosition(b.turn), {}) * KingSafe(b, b.turn) * b.EmptySquares()
  {
    var ksq := b.KingPosition(b.turn);
    EmittedHas(b, KingMoves(ksq, {}) * KingAllowedToMove(b) * b.EmptySquares(), From(ksq), Normal, King, m);
  }

  /** A castling move is the king's move from E to G or C, on a wing whose test passed. */
  lemma CastlesLand(b: Board, m: Move)
    requires m in Castles(b)
    ensures (m.kind == KingSide || m.kind == QueenSide) && m.piece == King
    ensures m == CastleMove(b.turn, m.kind == KingSide) && CastleClear(b, b.turn, m.kind == KingSide)
  {
    if m in CastleOn(b, true) {
      assert CastleClear(b, b.turn, true) && m == CastleMove(b.turn, true);
    } else {
      assert m in CastleOn(b, false);
      assert CastleClear(b, b.turn, false) && m == CastleMove(b.turn, false);
    }
  }

  /** In double check the king alone moves: onto each empty neighbour it may enter. */
  lemma DoubleCheckQuietKingOnly(b: Board, m: Move)
    requires Ready(b) && |b.PiecesOf(b.turn, King)| == 1
    ensures m in DoubleCheckQuiet(b) <==>
              && m == Quiet(Normal, b.KingPosition(b.turn), m.to, King)
              && m.to in KingMoves(b.KingPosition(b.turn), {}) * KingSafe(b, b.turn) * b.EmptySquares()
  {
    var us := b.turn;
    var k := b.KingPosition(us);
    SingleKing(b.PiecesOf(us, King), k);
    var within := KingAllowedToMove(b) * b.EmptySquares();
    var targets := KingMoves(k, {}) * KingSafe(b, us) * b.EmptySquares();
    assert DoubleCheckQuiet(b) == EmittedFrom(b, {k}, King, b.Occupied(), within, Normal);
    EmittedFromHas(b, {k}, King, b.Occupied(), within, Normal, m);
    KingWithin(b, k);
    KingOnlyFrom(b, DoubleCheckQuiet(b), k, within, targets, m);
  }

  /** The king's reach cut down to the squares it may enter is the king mask met with those squares. */
  lemma KingWithin(b: Board, k: Sq)
    requires b.HasKing(b.turn) && b.HasKing(b.turn.Other())
    ensures Reach(King, k, b.Occupied()) * (KingAllowedToMove(b) * b.EmptySquares())
         == KingMoves(k, {}) * KingSafe(b, b.turn) * b.EmptySquares()
  {
    var reach := Reach(King, k, b.Occupied());
    var safe := KingAllowedToMove(b);
    ReachKing(k, b.Occupied());
    assert safe == KingSafe(b, b.turn);
    MeetAssoc(reach, safe, b.EmptySquares());
  }

  lemma MeetAssoc(x: Bitboard, y: Bitboard, z: Bitboard)
    ensures x * (y * z) == x * y * z
  {
  }

  /** A list of the moves emitted from k alone holds exactly the king steps onto the targets. */
  lemma KingOnlyFrom(b: Board, ms: seq<Move>, k: Sq, within: Bitboard, targets: Bitboard, m: Move)
    requires Reach(King, k, b.Occupied()) * within == targets
    requires m in ms <==> m.from in {k} && Yields(b, Reach(King, m.from, b.Occupied()) * within, From(m.from), Normal, King, m)
    ensures m in ms <==> m == Quiet(Normal, k, m.to, King) && m.to in targets
  {
    KingStepYields(b, targets, k, m);
  }

  /** A king step from k is the one quiet move with these fields. */
  lemma KingStepYields(b: Board, targets: Bitboard, k: Sq, m: Move)
    ensures m.from == k && Yields(b, targets, From(k), Normal, King, m) <==>
              m == Quiet(Normal, k, m.to, King) && m.to in targets
  {
  }

  /** The pin loops and the pawn and piece loops: quiet moves of a piece other than the king onto `allowed`. */
  lemma NonKingLand(b: Board, allowed: Bitboard, m: Move)
    requires b.HasKing(b.turn) && m in PinQuietLoops(b, allowed) + FreeQuiet(b, allowed)
    ensures (m.kind == Normal || m.kind == Promo || m.kind == Double) && m.captured == None
    ensures m.piece != None && m.piece != King && m.from in b.PiecesOf(b.turn, m.piece) && m.to in allowed
  {
    var ksq := b.KingPosition(b.turn);
    var a: Sq;
    if m in PinQuietLoop(b, ksq, PinCandidates(b, true), true, allowed) {
      a := PinQuietLoopShape(b, ksq, PinCandidates(b, true), true, allowed, m);
    } else if m in PinQuietLoop(b, ksq, PinCandidates(b, false), false, allowed) {
      a := PinQuietLoopShape(b, ksq, PinCandidates(b, false), false, allowed, m);
    } else if m in PawnQuiet(b, MovablePawns(b), allowed) {
      PawnQuietLand(b, MovablePawns(b), allowed, m);
    } else {
      PieceQuietLand(b, FreePieces(b), allowed, m);
    }
  }

  /** The king's part: a step onto an empty neighbour it may enter, or castling out of check. */
  lemma KingStepsLand(b: Board, m: Move)
    requires Ready(b) && m in KingSteps(b)
    ensures m.piece == King && m.captured == None
    ensures || (m == Quiet(Normal, b.KingPosition(b.turn), m.to, King)
                && m.to in KingMoves(b.KingPosition(b.turn), {}) * KingSafe(b, b.turn) * b.EmptySquares())
            || (&& Checkers(b) == {} && (m.kind == KingSide || m.kind == QueenSide)
                && m == CastleMove(b.turn, m.kind == KingSide) && CastleClear(b, b.turn, m.kind == KingSide))
  {
    if m in KingQuiet(b) {
      KingQuietLand(b, m);
    } else {
      CastlesLand(b, m);
    }
  }

  /**
   * What every appended move is, as the source's closing asserts demand (it
   * captures nothing), and more: a piece of the side to move steps onto an
   * empty square, or the king castles.
   */
  predicate MovesQuietly(b: Board, m: Move)
  {
    && !IsCapturing(m) && m.captured == None && m.piece != None
    && if m.kind == KingSide || m.kind == QueenSide then m.piece == King
       else m.from in b.PiecesOf(b.turn, m.piece) && m.to in b.EmptySquares()
  }

  /** Every move `legal_noncaptures` appends captures nothing and lands on an empty square, castling aside. */
  lemma LegalNoncapturesQuiet(b: Board)
    requires Ready(b)
    ensures forall m :: m in LegalNoncapturesSpec(b) ==> MovesQuietly(b, m)
  {
    forall m | m in LegalNoncapturesSpec(b) ensures MovesQuietly(b, m) {
      NoncaptureQuiet(b, m);
    }
  }

  lemma NoncaptureQuiet(b: Board, m: Move)
    requires Ready(b) && m in LegalNoncapturesSpec(b)
    ensures MovesQuietly(b, m)
  {
    var allowed := QuietTargets(b);
    NoncaptureGroups(b, m);
    if |Checkers(b)| > 1 {
      DoubleCheckQuietly(b, m);
    } else if m in PinQuietLoops(b, allowed) + FreeQuiet(b, allowed) {
      QuietTargetsEmpty(b);
      NonKingQuietly(b, allowed, m);
    } else if m in KingQuiet(b) {
      KingQuietQuiet(b, m);
    } else {
      CastlesQuiet(b, m);
    }
  }

  /** The generator's output split into the groups its loops append. */
  lemma NoncaptureGroups(b: Board, m: Move)
    requires Ready(b) && m in LegalNoncapturesSpec(b)
    ensures |Checkers(b)| > 1 ==> m in DoubleCheckQuiet(b)
    ensures |Checkers(b)| <= 1 ==>
              || m in PinQuietLoops(b, QuietTargets(b)) + FreeQuiet(b, QuietTargets(b))
              || m in KingQuiet(b) || m in Castles(b)
  {
    if |Checkers(b)| <= 1 {
      var allowed := QuietTargets(b);
      assert m in PinQuietLoops(b, allowed) + FreeQuiet(b, allowed) + KingSteps(b);
    }
  }

  lemma DoubleCheckQuietly(b: Board, m: Move)
    requires Ready(b) && m in DoubleCheckQuiet(b)
    ensures MovesQuietly(b, m)
  {
    DoubleCheckStep(b, m);
  }

  lemma NonKingQuietly(b: Board, allowed: Bitboard, m: Move)
    requires b.HasKing(b.turn) && allowed <= b.EmptySquares()
    requires m in PinQuietLoops(b, allowed) + FreeQuiet(b, allowed)
    ensures MovesQuietly(b, m)
  {
    var ksq := b.KingPosition(b.turn);
    if m in PinQuietLoop(b, ksq, PinCandidates(b, true), true, allowed) {
      PinLoopQuietly(b, ksq, PinCandidates(b, true), true, allowed, m);
    } else if m in PinQuietLoop(b, ksq, PinCandidates(b, false), false, allowed) {
      PinLoopQuietly(b, ksq, PinCandidates(b, false), false, allowed, m);
    } else if m in PawnQuiet(b, MovablePawns(b), allowed) {
      PawnQuietly(b, MovablePawns(b), allowed, m);
    } else {
      PieceQuietly(b, FreePieces(b), allowed, m);
    }
  }

  lemma PinLoopQuietly(b: Board, ksq: Sq, cands: Bitboard, diag: bool, allowed: Bitboard, m: Move)
    requires cands <= b.Occupancy(b.turn) && allowed <= b.EmptySquares()
    requires m in PinQuietLoop(b, ksq, cands, diag, allowed)
    ensures MovesQuietly(b, m)
  {
    var a := PinQuietLoopShape(b, ksq, cands, diag, allowed, m);
  }

  lemma PawnQuietly(b: Board, pawns: Bitboard, allowed: Bitboard, m: Move)
    requires pawns <= b.PiecesOf(b.turn, Pawn) && allowed <= b.EmptySquares()
    requires m in PawnQuiet(b, pawns, allowed)
    ensures MovesQuietly(b, m)
  {
    PawnQuietLand(b, pawns, allowed, m);
  }

  lemma PieceQuietly(b: Board, free: Bitboard, allowed: Bitboard, m: Move)
    requires allowed <= b.EmptySquares() && m in PieceQuiet(b, free, allowed)
    ensures MovesQuietly(b, m)
  {
    PieceQuietLand(b, free, allowed, m);
  }

  lemma KingQuietQuiet(b: Board, m: Move)
    requires Ready(b) && m in KingQuiet(b)
    ensures MovesQuietly(b, m)
  {
    KingQuietLand(b, m);
  }

  lemma CastlesQuiet(b: Board, m: Move)
    requires m in Castles(b)
    ensures MovesQuietly(b, m)
  {
    if m in CastleOn(b, true) {
      CastleOnQuietly(b, true, m);
    } else {
      CastleOnQuietly(b, false, m);
    }
  }

  lemma CastleOnQuietly(b: Board, kingSide: bool, m: Move)
    requires m in CastleOn(b, kingSide)
    ensures MovesQuietly(b, m)
  {
    assert m == CastleMove(b.turn, kingSide);
    CastleMoveQuietly(b, kingSide);
  }

  lemma CastleMoveQuietly(b: Board, kingSide: bool)
    ensures MovesQuietly(b, CastleMove(b.turn, kingSide))
  {
  }

  /** In double check every quiet move is a king step onto an empty square. */
  lemma DoubleCheckStep(b: Board, m: Move)
    requires Ready(b) && m in DoubleCheckQuiet(b)
    ensures m == Quiet(Normal, m.from, m.to, King) && m.from in b.PiecesOf(b.turn, King) && m.to in b.EmptySquares()
  {
    EmittedFromHas(b, b.PiecesOf(b.turn, King), King, b.Occupied(), KingAllowedToMove(b) * b.EmptySquares(), Normal, m);
  }

  /** In single check every quiet move is a king step or blocks: it lands between the king and the checker. */
  lemma SingleCheckBlocks(b: Board, m: Move)
    requires Ready(b) && |Checkers(b)| == 1
    requires m in LegalNoncapturesSpec(b)
    ensures || (m.piece == King && m.kind == Normal)
            || m.to in Between(b.KingPosition(b.turn), Lowest(Checkers(b)))
  {
    var allowed := QuietTargets(b);
    if m in PinQuietLoops(b, allowed) + FreeQuiet(b, allowed) {
      NonKingLand(b, allowed, m);
    } else {
      KingStepsLand(b, m);
    }
  }

  /** A castling move is generated only out of check, on a wing whose right, empty squares and safe squares the test confirmed. */
  lemma CastlingOutOfCheck(b: Board, m: Move)
    requires Ready(b) && m in LegalNoncapturesSpec(b)
    requires m.kind == KingSide || m.kind == QueenSide
    ensures Checkers(b) == {}
    ensures m == CastleMove(b.turn, m.kind == KingSide) && CastleClear(b, b.turn, m.kind == KingSide)
  {
    var us := b.turn;
    var allowed := QuietTargets(b);
    if |Checkers(b)| > 1 {
      DoubleCheckStep(b, m);
      assert false;
    } else if m in PinQuietLoops(b, allowed) + FreeQuiet(b, allowed) {
      NonKingLand(b, allowed, m);
      assert false;
    } else {
      KingStepsLand(b, m);
    }
  }

  /** One step along the king's file, from a square between king and pinner onto a square that is neither, stays between them. */
  lemma FileStep(k: Sq, a: Sq, n: Sq, t: Sq)
    requires n in Between(k, a) && FileOf(n) == FileOf(k) && FileOf(t) == FileOf(n)
    requires RankOf(t) - RankOf(n) == 1 || RankOf(t) - RankOf(n) == -1
    requires t != k && t != a
    ensures t in Between(k, a)
  {
    BetweenIsSegment(k, a, n);
    BetweenIsSegment(k, a, t);
    assert k == 8 * RankOf(k) + FileOf(k) && a == 8 * RankOf(a) + FileOf(a) && t == 8 * RankOf(t) + FileOf(t);
    assert FileOf(a) == FileOf(k);
  }

  /** A pawn step along the king's file, from between king and pinner onto an empty square, stays between them. */
  lemma PawnFileStep(b: Board, k: Sq, a: Sq, m: Move)
    requires m.from in Between(k, a) && FileOf(m.from) == FileOf(k)
    requires PawnStep(b, m) && m.to in b.EmptySquares() && k in b.Occupied() && a in b.Occupied()
    ensures m.to in Between(k, a)
  {
    var s := b.turn;
    assert m.to != k && m.to != a;
    if m.kind == Double {
      var i: Sq := m.from + Push(s);
      assert i != k && i != a;
      VerticalCoords(m.from, i);
      VerticalCoords(i, m.to);
      FileStep(k, a, m.from, i);
      FileStep(k, a, i, m.to);
    } else {
      VerticalCoords(m.from, m.to);
      FileStep(k, a, m.from, m.to);
    }
  }

  /** One rank up or down keeps the file. */
  lemma VerticalCoords(x: Sq, y: Sq)
    requires y == x + 8 || y == x - 8
    ensures FileOf(y) == FileOf(x) && (RankOf(y) - RankOf(x) == 1 || RankOf(y) - RankOf(x) == -1)
  {
  }

  /**
   * A piece pinned to the king by the slider on a moves only along the pin:
   * onto a square between the king and a. Pawns pinned along a diagonal or
   * the king's rank stay put; one pinned along the king's file steps along it.
   */
  lemma PinnedQuietStayOnLine(b: Board, m: Move, a: Sq, diag: bool)
    requires Ready(b) && m in LegalNoncapturesSpec(b) && m.piece != King
    requires m.from in b.Occupancy(b.turn)
    requires PinsThrough(b, b.KingPosition(b.turn), m.from, a, diag, b.turn.Other())
    ensures m.to in Between(b.KingPosition(b.turn), a)
  {
    var allowed := QuietTargets(b);
    NoncaptureGroups(b, m);
    if |Checkers(b)| > 1 {
      DoubleCheckStep(b, m);
      assert false;
    } else if m in PinQuietLoops(b, allowed) {
      PinLoopsOnLine(b, allowed, m, a, diag);
    } else if m in FreeQuiet(b, allowed) {
      FreeOnLine(b, m, a, diag);
    } else if m in KingQuiet(b) {
      KingQuietLand(b, m);
      assert false;
    } else {
      CastlesLand(b, m);
      assert false;
    }
  }

  /** The pin loops' branch: the loop that moved the piece found the same pinner. */
  lemma PinLoopsOnLine(b: Board, allowed: Bitboard, m: Move, a: Sq, diag: bool)
    requires b.HasKing(b.turn) && m in PinQuietLoops(b, allowed)
    requires PinsThrough(b, b.KingPosition(b.turn), m.from, a, diag, b.turn.Other())
    ensures m.to in Between(b.KingPosition(b.turn), a)
  {
    var ksq := b.KingPosition(b.turn);
    var d := m in PinQuietLoop(b, ksq, PinCandidates(b, true), true, allowed);
    var a' := PinQuietLoopShape(b, ksq, PinCandidates(b, d), d, allowed, m);
    SamePinner(b, ksq, m.from, a, diag, a', d);
  }

  /** The free loops' branch: a pinned piece is not free, so only a pawn pinned along the king's file moves. */
  lemma FreeOnLine(b: Board, m: Move, a: Sq, diag: bool)
    requires Ready(b) && m in FreeQuiet(b, QuietTargets(b)) && m.from in b.Occupancy(b.turn)
    requires PinsThrough(b, b.KingPosition(b.turn), m.from, a, diag, b.turn.Other())
    ensures m.to in Between(b.KingPosition(b.turn), a)
  {
    var allowed := QuietTargets(b);
    PinnedNotFree(b, m.from, a, diag);
    if m in PawnQuiet(b, MovablePawns(b), allowed) {
      PinnedPawnStep(b, m, a, diag);
    } else {
      PieceQuietLand(b, FreePieces(b), allowed, m);
      assert false;
    }
  }

  /** The pawn branch: a pinned pawn the pawn loops move steps along the king's file towards or away from the pinner. */
  lemma PinnedPawnStep(b: Board, m: Move, a: Sq, diag: bool)
    requires Ready(b) && m in PawnQuiet(b, MovablePawns(b), QuietTargets(b))
    requires PinsThrough(b, b.KingPosition(b.turn), m.from, a, diag, b.turn.Other())
    requires m.from in PinnedAmong(b, b.KingPosition(b.turn), PinCandidates(b, diag), diag)
    ensures m.to in Between(b.KingPosition(b.turn), a)
  {
    PawnQuietLand(b, MovablePawns(b), QuietTargets(b), m);
    QuietTargetsEmpty(b);
    PinnedPawnOnFile(b, m.from, a, diag);
    PawnFileStep(b, b.KingPosition(b.turn), a, m);
  }

  /** Two pins of the same piece to the king, found by either loop, name the same pinner. */
  lemma SamePinner(b: Board, ksq: Sq, n: Sq, a: Sq, diag: bool, a': Sq, diag': bool)
    requires PinsThrough(b, ksq, n, a, diag, b.turn.Other()) && PinsThrough(b, ksq, n, a', diag', b.turn.Other())
    ensures a' == a
  {
    BetweenAxis(ksq, a, n);
    BetweenAxis(ksq, a', n);
    assert diag' == diag;
    PinnerUnique(b, ksq, n, diag, b.turn.Other(), a, a');
  }

  /** A pinned pawn that the pawn loops move is pinned along the king's file, and the pinner stands on the board. */
  lemma PinnedPawnOnFile(b: Board, n: Sq, a: Sq, diag: bool)
    requires Ready(b) && n in MovablePawns(b)
    requires PinsThrough(b, b.KingPosition(b.turn), n, a, diag, b.turn.Other())
    requires n in PinnedAmong(b, b.KingPosition(b.turn), PinCandidates(b, diag), diag)
    ensures FileOf(n) == FileOf(b.KingPosition(b.turn))
    ensures b.KingPosition(b.turn) in b.Occupied() && a in b.Occupied()
  {
    var ksq := b.KingPosition(b.turn);
    assert !diag;
    assert n !in HorizontalPinned(b);
    BetweenAxis(ksq, a, n);
  }
}
