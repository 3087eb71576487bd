// Pawn move generation: pawn_moves_white.cpp / pawn_moves_black.cpp and
// promotions_white.cpp / promotions_black.cpp, written once with the side
// as a parameter (the two files of each pair mirror each other: `north`
// for White is `south` for Black). The pieces are shared with the pawn
// parts of legal_captures.cpp and legal_noncaptures.cpp.

module Pawns {
  import opened Squares
  import opened Bitboards
  import opened Pieces
  import opened Boards
  import opened Movegen
  import opened Attacks
  import opened Emit

  // ----- directions -----

  /** One rank towards the opponent: `north()` for White, `south()` for Black. */
  function Forward(s: Side, bb: Bitboard): Bitboard
  {
    if s == White then North(bb) else South(bb)
  }

  /** The index step of a push: +8 for White, -8 for Black. */
  function Push(s: Side): int
  {
    if s == White then 8 else -8
  }

  /** The rank a double push lands on: rank 4 for White, rank 5 for Black. */
  function DoubleRank(s: Side): Bitboard
  {
    if s == White then Rank4 else Rank5
  }

  /** The rank pawns promote from: rank 7 for White, rank 2 for Black. */
  function PromotionRank(s: Side): Bitboard
  {
    if s == White then Rank7 else Rank2
  }

  /** The rank of a pawn that can be taken en passant: rank 5 for White to take, rank 4 for Black. */
  function EpRank(s: Side): Bitboard
  {
    if s == White then Rank5 else Rank4
  }

  /** `files[ep_] & Rank6` for White, `& Rank3` for Black: where the capturing pawn lands. */
  function EpTarget(s: Side, file: int): (t: Sq)
    requires 0 <= file < 8
    ensures FileOf(t) == file && RankOf(t) == (if s == White then 5 else 2)
  {
    if s == White then 40 + file else 16 + file
  }

  lemma InForward(s: Side, bb: Bitboard, t: Sq)
    ensures t in Forward(s, bb) <==> 0 <= t - Push(s) < 64 && t - Push(s) in bb
  {
    InNorth(bb, t);
    InSouth(bb, t);
  }

  lemma FitsPush(s: Side, bb: Bitboard, targets: Bitboard)
    requires targets <= Forward(s, bb)
    ensures Fits(targets, Behind(Push(s)))
  {
    forall t | t in targets ensures 0 <= t - Push(s) < 64 {
      InForward(s, bb, t);
    }
  }

  lemma InDoubles(b: Board, s: Side, pawns: Bitboard, within: Bitboard, t: Sq)
    ensures t in Forward(s, b.EmptySquares() * Forward(s, pawns)) * within <==>
              t in within && 0 <= t - 2 * Push(s) < 64 && t - 2 * Push(s) in pawns && t - Push(s) in b.EmptySquares()
  {
    InForward(s, b.EmptySquares() * Forward(s, pawns), t);
    if 0 <= t - Push(s) < 64 {
      InForward(s, pawns, t - Push(s));
    }
  }

  lemma FitsDoubles(b: Board, s: Side, pawns: Bitboard, within: Bitboard)
    ensures Fits(Forward(s, b.EmptySquares() * Forward(s, pawns)) * within, Behind(2 * Push(s)))
  {
    forall t | t in Forward(s, b.EmptySquares() * Forward(s, pawns)) * within ensures 0 <= t - 2 * Push(s) < 64 {
      InDoubles(b, s, pawns, within, t);
    }
  }

  /** `east()` of the forward shift: the capture to the higher file. */
  lemma InRight(s: Side, bb: Bitboard, t: Sq)
    ensures t in East(Forward(s, bb)) <==> FileOf(t) > 0 && 0 <= t - Push(s) - 1 < 64 && t - Push(s) - 1 in bb
  {
    InEast(Forward(s, bb), t);
    if t >= 1 {
      InForward(s, bb, t - 1);
    }
  }

  /** `west()` of the forward shift: the capture to the lower file. */
  lemma InLeft(s: Side, bb: Bitboard, t: Sq)
    ensures t in West(Forward(s, bb)) <==> FileOf(t) < 7 && 0 <= t - Push(s) + 1 < 64 && t - Push(s) + 1 in bb
  {
    InWest(Forward(s, bb), t);
    if t <= 62 {
      InForward(s, bb, t + 1);
    }
  }

  lemma FitsDiagonals(s: Side, bb: Bitboard, right: Bitboard, left: Bitboard)
    requires right <= East(Forward(s, bb)) && left <= West(Forward(s, bb))
    ensures Fits(right, Behind(Push(s) + 1)) && Fits(left, Behind(Push(s) - 1))
  {
    forall t | t in right ensures 0 <= t - (Push(s) + 1) < 64 {
      InRight(s, bb, t);
    }
    forall t | t in left ensures 0 <= t - (Push(s) - 1) < 64 {
      InLeft(s, bb, t);
    }
  }

  // ----- the emitting loops -----

  /** `for (sq : pawns.north() & within) emplace_back(kind, sq.south(), sq, Pawn)`. */
  function Pushes(b: Board, s: Side, pawns: Bitboard, within: Bitboard, kind: MoveType): seq<Move>
  {
    FitsPush(s, pawns, Forward(s, pawns) * within);
    Emitted(b, Forward(s, pawns) * within, Behind(Push(s)), kind, Pawn)
  }

  /** `for (sq : (empty & pawns.north()).north() & within) emplace_back(Double, sq.south().south(), sq, Pawn)`. */
  function Doubles(b: Board, s: Side, pawns: Bitboard, within: Bitboard): seq<Move>
  {
    FitsDoubles(b, s, pawns, within);
    Emitted(b, Forward(s, b.EmptySquares() * Forward(s, pawns)) * within, Behind(2 * Push(s)), Double, Pawn)
  }

  /** The two diagonal capture loops, `north().east()` first, then `north().west()`. */
  function Diagonals(b: Board, s: Side, pawns: Bitboard, within: Bitboard, kind: MoveType): seq<Move>
  {
    var right := East(Forward(s, pawns)) * within;
    var left := West(Forward(s, pawns)) * within;
    FitsDiagonals(s, pawns, right, left);
    Emitted(b, right, Behind(Push(s) + 1), kind, Pawn) + Emitted(b, left, Behind(Push(s) - 1), kind, Pawn)
  }

  /**
   * The en-passant guard: with both pawns lifted off the board, an enemy
   * rook or queen on the pawns' rank would see the king.
   */
  predicate EpExposes(b: Board, s: Side, t: Sq, from: Sq)
    requires b.HasKing(b.turn)
    requires 0 <= t - Push(s) < 64
  {
    var them := b.turn.Other();
    var blockers := Toggle(Toggle(b.Occupied(), {t - Push(s)}), {from});
    RookMoves(b.KingPosition(b.turn), blockers) * EpRank(s) * (b.PiecesOf(them, Rook) + b.PiecesOf(them, Queen)) != {}
  }

  /** One en-passant capture onto t from `t - delta`, when the pawn is there and the guard lets it through. */
  function EpCapture(b: Board, s: Side, t: Sq, delta: int, candidate: bool): seq<Move>
    requires b.HasKing(b.turn)
    requires 0 <= t - Push(s) < 64 && 0 <= t - delta < 64
  {
    if candidate && !EpExposes(b, s, t, t - delta) then [Move(EnPassant, t - delta, t, Pawn, Pawn, None)] else []
  }

  /** The board's en-passant field is a file or unset, as every reader of `ep_` assumes. */
  predicate EpWellFormed(b: Board)
  {
    b.ep == NoEp || 0 <= b.ep < 8
  }

  /** `if (ep_ != 0xFF)`: the capture from the lower file (`north().west()`), then from the higher file. */
  function EnPassants(b: Board, s: Side, pawns: Bitboard, allowed: Bitboard): seq<Move>
    requires EpWellFormed(b)
    requires b.ep != NoEp ==> b.HasKing(b.turn)
  {
    if b.ep == NoEp then []
    else
      var t := EpTarget(s, b.ep);
      EpCapture(b, s, t, Push(s) - 1, t in West(Forward(s, pawns)) * allowed)
      + EpCapture(b, s, t, Push(s) + 1, t in East(Forward(s, pawns)) * allowed)
  }

  /** Everything `pawn_moves_white` (s = White) or `pawn_moves_black` appends, in order. */
  function PawnMovesSpec(b: Board, s: Side, pawns: Bitboard, allowed: Bitboard): seq<Move>
    requires EpWellFormed(b)
    requires b.ep != NoEp ==> b.HasKing(b.turn)
  {
    var empty := b.EmptySquares();
    var enemy := b.Occupancy(b.turn.Other());
    Pushes(b, s, pawns, empty * allowed, Normal)
    + Doubles(b, s, pawns, empty * DoubleRank(s) * allowed)
    + Diagonals(b, s, pawns, enemy * allowed, Capture)
    + EnPassants(b, s, pawns, allowed)
  }

  /** Everything `promotions_white` (s = White) or `promotions_black` appends, in order. */
  function PromotionsSpec(b: Board, s: Side, pawns: Bitboard, allowed: Bitboard): seq<Move>
  {
    Pushes(b, s, pawns, b.EmptySquares() * allowed, Promo)
    + Diagonals(b, s, pawns, b.Occupancy(b.turn.Other()) * allowed, PromoCapture)
  }

  // ----- what the pawn loops emit, square by square -----

  /** The kind, piece, captured piece and promotion a pawn loop of this kind gives its move. */
  predicate Shaped(b: Board, kind: MoveType, m: Move)
  {
    m.kind == kind && m.piece == Pawn && m.captured == CapturedAt(b, kind, m.to) && PromotionFits(kind, m.promotion)
  }

  /** A single step straight ahead onto a square of `within`. */
  predicate PushOf(s: Side, pawns: Bitboard, within: Bitboard, m: Move)
  {
    m.from in pawns && m.to == m.from + Push(s) && m.to in within
  }

  /** A double step over an empty square onto a square of `within`. */
  predicate DoubleOf(b: Board, s: Side, pawns: Bitboard, within: Bitboard, m: Move)
  {
    m.from in pawns && m.to == m.from + 2 * Push(s) && m.from + Push(s) in b.EmptySquares() && m.to in within
  }

  /** A diagonal step, as a pawn of side s attacks, onto a square of `within`. */
  predicate CaptureOf(s: Side, pawns: Bitboard, within: Bitboard, m: Move)
  {
    m.from in pawns && PawnHits(s, m.from, m.to) && m.to in within
  }

  /** An en-passant capture onto the board's target square that the guard does not reject. */
  predicate EpOf(b: Board, s: Side, pawns: Bitboard, allowed: Bitboard, m: Move)
    requires EpWellFormed(b)
    requires b.ep != NoEp ==> b.HasKing(b.turn)
  {
    && b.ep != NoEp
    && m == Move(EnPassant, m.from, EpTarget(s, b.ep), Pawn, Pawn, None)
    && m.from in pawns && PawnHits(s, m.from, m.to) && m.to in allowed
    && !EpExposes(b, s, m.to, m.from)
  }

  /** The two diagonal steps of a pawn: towards the higher file, or towards the lower one. */
  lemma PawnSteps(s: Side, from: Sq, to: Sq)
    ensures PawnHits(s, from, to) <==>
              (FileOf(to) > 0 && to - from == Push(s) + 1) || (FileOf(to) < 7 && to - from == Push(s) - 1)
  {
    var ff, rf, ft, rt := from % 8, from / 8, to % 8, to / 8;
    assert from == 8 * rf + ff && to == 8 * rt + ft;
  }

  lemma PushYields(b: Board, s: Side, pawns: Bitboard, within: Bitboard, kind: MoveType, m: Move)
    ensures Yields(b, Forward(s, pawns) * within, Behind(Push(s)), kind, Pawn, m) <==>
              PushOf(s, pawns, within, m) && Shaped(b, kind, m)
  {
    InForward(s, pawns, m.to);
  }

  lemma PushesHas(b: Board, s: Side, pawns: Bitboard, within: Bitboard, kind: MoveType, m: Move)
    ensures m in Pushes(b, s, pawns, within, kind) <==> PushOf(s, pawns, within, m) && Shaped(b, kind, m)
  {
    FitsPush(s, pawns, Forward(s, pawns) * within);
    EmittedHas(b, Forward(s, pawns) * within, Behind(Push(s)), kind, Pawn, m);
    PushYields(b, s, pawns, within, kind, m);
  }

  lemma DoubleYields(b: Board, s: Side, pawns: Bitboard, within: Bitboard, m: Move)
    ensures Yields(b, Forward(s, b.EmptySquares() * Forward(s, pawns)) * within, Behind(2 * Push(s)), Double, Pawn, m) <==>
              DoubleOf(b, s, pawns, within, m) && Shaped(b, Double, m)
  {
    InDoubles(b, s, pawns, within, m.to);
  }

  lemma DoublesHas(b: Board, s: Side, pawns: Bitboard, within: Bitboard, m: Move)
    ensures m in Doubles(b, s, pawns, within) <==> DoubleOf(b, s, pawns, within, m) && Shaped(b, Double, m)
  {
    FitsDoubles(b, s, pawns, within);
    EmittedHas(b, Forward(s, b.EmptySquares() * Forward(s, pawns)) * within, Behind(2 * Push(s)), Double, Pawn, m);
    DoubleYields(b, s, pawns, within, m);
  }

  lemma RightYields(b: Board, s: Side, pawns: Bitboard, within: Bitboard, kind: MoveType, m: Move)
    ensures Yields(b, East(Forward(s, pawns)) * within, Behind(Push(s) + 1), kind, Pawn, m) <==>
              m.from in pawns && m.to in within && Shaped(b, kind, m) && FileOf(m.to) > 0 && m.to - m.from == Push(s) + 1
  {
    InRight(s, pawns, m.to);
  }

  /** The `east()` loop: captures towards the higher file. */
  lemma RightHas(b: Board, s: Side, pawns: Bitboard, within: Bitboard, kind: MoveType, m: Move)
    requires Fits(East(Forward(s, pawns)) * within, Behind(Push(s) + 1))
    ensures m in Emitted(b, East(Forward(s, pawns)) * within, Behind(Push(s) + 1), kind, Pawn) <==>
              m.from in pawns && m.to in within && Shaped(b, kind, m) && FileOf(m.to) > 0 && m.to - m.from == Push(s) + 1
  {
    EmittedHas(b, East(Forward(s, pawns)) * within, Behind(Push(s) + 1), kind, Pawn, m);
    RightYields(b, s, pawns, within, kind, m);
  }

  lemma LeftYields(b: Board, s: Side, pawns: Bitboard, within: Bitboard, kind: MoveType, m: Move)
    ensures Yields(b, West(Forward(s, pawns)) * within, Behind(Push(s) - 1), kind, Pawn, m) <==>
              m.from in pawns && m.to in within && Shaped(b, kind, m) && FileOf(m.to) < 7 && m.to - m.from == Push(s) - 1
  {
    InLeft(s, pawns, m.to);
  }

  /** The `west()` loop: captures towards the lower file. */
  lemma LeftHas(b: Board, s: Side, pawns: Bitboard, within: Bitboard, kind: MoveType, m: Move)
    requires Fits(West(Forward(s, pawns)) * within, Behind(Push(s) - 1))
    ensures m in Emitted(b, West(Forward(s, pawns)) * within, Behind(Push(s) - 1), kind, Pawn) <==>
              m.from in pawns && m.to in within && Shaped(b, kind, m) && FileOf(m.to) < 7 && m.to - m.from == Push(s) - 1
  {
    EmittedHas(b, West(Forward(s, pawns)) * within, Behind(Push(s) - 1), kind, Pawn, m);
    LeftYields(b, s, pawns, within, kind, m);
  }

  lemma DiagonalsHas(b: Board, s: Side, pawns: Bitboard, within: Bitboard, kind: MoveType, m: Move)
    ensures m in Diagonals(b, s, pawns, within, kind) <==> CaptureOf(s, pawns, within, m) && Shaped(b, kind, m)
  {
    DiagonalsSplit(b, s, pawns, within, kind);
    RightHas(b, s, pawns, within, kind, m);
    LeftHas(b, s, pawns, within, kind, m);
    PawnSteps(s, m.from, m.to);
  }

  lemma EpCaptureHas(b: Board, s: Side, t: Sq, delta: int, candidate: bool, m: Move)
    requires b.HasKing(b.turn)
    requires 0 <= t - Push(s) < 64 && 0 <= t - delta < 64
    ensures m in EpCapture(b, s, t, delta, candidate) <==>
              candidate && m == Move(EnPassant, t - delta, t, Pawn, Pawn, None) && !EpExposes(b, s, t, t - delta)
  {
  }

  lemma {:induction false} EnPassantsHas(b: Board, s: Side, pawns: Bitboard, allowed: Bitboard, m: Move)
    requires EpWellFormed(b)
    requires b.ep != NoEp ==> b.HasKing(b.turn)
    ensures m in EnPassants(b, s, pawns, allowed) <==> EpOf(b, s, pawns, allowed, m)
  {
    if b.ep != NoEp {
      var t := EpTarget(s, b.ep);
      var west := t in West(Forward(s, pawns)) * allowed;
      var east := t in East(Forward(s, pawns)) * allowed;
      EpCaptureHas(b, s, t, Push(s) - 1, west, m);
      EpCaptureHas(b, s, t, Push(s) + 1, east, m);
      InRight(s, pawns, t);
      InLeft(s, pawns, t);
      PawnSteps(s, m.from, t);
    }
  }

  /** A move of `pawn_moves_*`: a push, a double push, a capture or an en-passant capture. */
  predicate PawnMove(b: Board, s: Side, pawns: Bitboard, allowed: Bitboard, m: Move)
    requires EpWellFormed(b)
    requires b.ep != NoEp ==> b.HasKing(b.turn)
  {
    var empty := b.EmptySquares();
    || (PushOf(s, pawns, empty * allowed, m) && Shaped(b, Normal, m))
    || (DoubleOf(b, s, pawns, empty * DoubleRank(s) * allowed, m) && Shaped(b, Double, m))
    || (CaptureOf(s, pawns, b.Occupancy(b.turn.Other()) * allowed, m) && Shaped(b, Capture, m))
    || EpOf(b, s, pawns, allowed, m)
  }

  /** `pawn_moves_*` emits exactly the pawn moves of its pawns that land in `allowed`. */
  lemma PawnMovesMembers(b: Board, s: Side, pawns: Bitboard, allowed: Bitboard, m: Move)
    requires EpWellFormed(b)
    requires b.ep != NoEp ==> b.HasKing(b.turn)
    ensures m in PawnMovesSpec(b, s, pawns, allowed) <==> PawnMove(b, s, pawns, allowed, m)
  {
    var empty := b.EmptySquares();
    PushesHas(b, s, pawns, empty * allowed, Normal, m);
    DoublesHas(b, s, pawns, empty * DoubleRank(s) * allowed, m);
    DiagonalsHas(b, s, pawns, b.Occupancy(b.turn.Other()) * allowed, Capture, m);
    EnPassantsHas(b, s, pawns, allowed, m);
  }

  /** A move of `promotions_*`: a push or a capture, carrying one of the four promotion pieces. */
  predicate PromotionMove(b: Board, s: Side, pawns: Bitboard, allowed: Bitboard, m: Move)
  {
    || (PushOf(s, pawns, b.EmptySquares() * allowed, m) && Shaped(b, Promo, m))
    || (CaptureOf(s, pawns, b.Occupancy(b.turn.Other()) * allowed, m) && Shaped(b, PromoCapture, m))
  }

  lemma PromotionsMembers(b: Board, s: Side, pawns: Bitboard, allowed: Bitboard, m: Move)
    ensures m in PromotionsSpec(b, s, pawns, allowed) <==> PromotionMove(b, s, pawns, allowed, m)
  {
    PushesHas(b, s, pawns, b.EmptySquares() * allowed, Promo, m);
    DiagonalsHas(b, s, pawns, b.Occupancy(b.turn.Other()) * allowed, PromoCapture, m);
  }

  /** From the seventh rank every promotion lands on the last rank. */
  lemma PromotionsReachLastRank(b: Board, s: Side, pawns: Bitboard, allowed: Bitboard, m: Move)
    requires pawns <= PromotionRank(s)
    requires m in PromotionsSpec(b, s, pawns, allowed)
    ensures RankOf(m.to) == (if s == White then 7 else 0)
    ensures m.promotion in PromotionOrder
  {
    PromotionsMembers(b, s, pawns, allowed, m);
    assert m.from in PromotionRank(s);
    if m.kind == PromoCapture {
      PawnSteps(s, m.from, m.to);
    }
  }

  /** Four moves per target square: one for each promotion piece. */
  lemma PromotionsLength(b: Board, s: Side, pawns: Bitboard, allowed: Bitboard)
    ensures |PromotionsSpec(b, s, pawns, allowed)| ==
            4 * (|Forward(s, pawns) * (b.EmptySquares() * allowed)|
                 + |East(Forward(s, pawns)) * (b.Occupancy(b.turn.Other()) * allowed)|
                 + |West(Forward(s, pawns)) * (b.Occupancy(b.turn.Other()) * allowed)|)
  {
    var within := b.EmptySquares() * allowed;
    var enemy := b.Occupancy(b.turn.Other()) * allowed;
    FitsPush(s, pawns, Forward(s, pawns) * within);
    EmittedLength(b, Forward(s, pawns) * within, Behind(Push(s)), Promo, Pawn);
    DiagonalsSplit(b, s, pawns, enemy, PromoCapture);
    EmittedLength(b, East(Forward(s, pawns)) * enemy, Behind(Push(s) + 1), PromoCapture, Pawn);
    EmittedLength(b, West(Forward(s, pawns)) * enemy, Behind(Push(s) - 1), PromoCapture, Pawn);
  }

  // ----- the methods -----

  lemma AppendTwo(moves: seq<Move>, a: seq<Move>, b: seq<Move>)
    ensures moves + (a + b) == (moves + a) + b
  {
  }

  lemma AppendFour(moves: seq<Move>, a: seq<Move>, b: seq<Move>, c: seq<Move>, d: seq<Move>)
    ensures moves + (a + b + c + d) == (((moves + a) + b) + c) + d
  {
  }

  /** The push loop. */
  method AppendPushes(b: Board, s: Side, moves: seq<Move>, pawns: Bitboard, within: Bitboard, kind: MoveType)
    returns (out: seq<Move>)
    ensures out == moves + Pushes(b, s, pawns, within, kind)
  {
    FitsPush(s, pawns, Forward(s, pawns) * within);
    out := EmitTargets(b, moves, Forward(s, pawns) * within, Behind(Push(s)), kind, Pawn);
  }

  /** The double-push loop. */
  method AppendDoubles(b: Board, s: Side, moves: seq<Move>, pawns: Bitboard, within: Bitboard)
    returns (out: seq<Move>)
    ensures out == moves + Doubles(b, s, pawns, within)
  {
    var targets := Forward(s, b.EmptySquares() * Forward(s, pawns)) * within;
    ghost var d := Doubles(b, s, pawns, within);
    out := EmitTargets(b, moves, targets, Behind(2 * Push(s)), Double, Pawn);
  }

  lemma DiagonalsSplit(b: Board, s: Side, pawns: Bitboard, within: Bitboard, kind: MoveType)
    ensures Fits(East(Forward(s, pawns)) * within, Behind(Push(s) + 1))
    ensures Fits(West(Forward(s, pawns)) * within, Behind(Push(s) - 1))
    ensures Diagonals(b, s, pawns, within, kind) ==
            Emitted(b, East(Forward(s, pawns)) * within, Behind(Push(s) + 1), kind, Pawn)
            + Emitted(b, West(Forward(s, pawns)) * within, Behind(Push(s) - 1), kind, Pawn)
  {
    FitsDiagonals(s, pawns, East(Forward(s, pawns)) * within, West(Forward(s, pawns)) * within);
  }

  /** The two capture loops. */
  method AppendDiagonals(b: Board, s: Side, moves: seq<Move>, pawns: Bitboard, within: Bitboard, kind: MoveType)
    returns (out: seq<Move>)
    ensures out == moves + Diagonals(b, s, pawns, within, kind)
  {
    var right := East(Forward(s, pawns)) * within;
    var left := West(Forward(s, pawns)) * within;
    DiagonalsSplit(b, s, pawns, within, kind);
    var mid := EmitTargets(b, moves, right, Behind(Push(s) + 1), kind, Pawn);
    out := EmitTargets(b, mid, left, Behind(Push(s) - 1), kind, Pawn);
    AppendTwo(moves, Emitted(b, right, Behind(Push(s) + 1), kind, Pawn), Emitted(b, left, Behind(Push(s) - 1), kind, Pawn));
  }

  /** One en-passant test: `if (candidate && !(rook_moves(ksq, blockers) & rank & rooks_queens))`. */
  method AppendEpCapture(b: Board, s: Side, moves: seq<Move>, t: Sq, delta: int, candidate: bool)
    returns (out: seq<Move>)
    requires b.HasKing(b.turn)
    requires 0 <= t - Push(s) < 64 && 0 <= t - delta < 64
    ensures out == moves + EpCapture(b, s, t, delta, candidate)
  {
    out := moves;
    if candidate && !EpExposes(b, s, t, t - delta) {
      out := out + [Move(EnPassant, t - delta, t, Pawn, Pawn, None)];
    }
  }

  /** The en-passant part of the pawn helpers. */
  method AppendEnPassants(b: Board, s: Side, moves: seq<Move>, pawns: Bitboard, allowed: Bitboard) returns (out: seq<Move>)
    requires EpWellFormed(b)
    requires b.ep != NoEp ==> b.HasKing(b.turn)
    ensures out == moves + EnPassants(b, s, pawns, allowed)
  {
    out := moves;
    if b.ep != NoEp {
      var t := EpTarget(s, b.ep);
      var mid := AppendEpCapture(b, s, moves, t, Push(s) - 1, t in West(Forward(s, pawns)) * allowed);
      out := AppendEpCapture(b, s, mid, t, Push(s) + 1, t in East(Forward(s, pawns)) * allowed);
      AppendTwo(moves, EpCapture(b, s, t, Push(s) - 1, t in West(Forward(s, pawns)) * allowed),
        EpCapture(b, s, t, Push(s) + 1, t in East(Forward(s, pawns)) * allowed));
    }
  }

  /** `pawn_moves_white` / `pawn_moves_black`: singles, doubles, right and left captures, en passant. */
  method PawnMoves(b: Board, s: Side, moves: seq<Move>, pawns: Bitboard, allowed: Bitboard) returns (out: seq<Move>)
    requires EpWellFormed(b)
    requires b.ep != NoEp ==> b.HasKing(b.turn)
    ensures out == moves + PawnMovesSpec(b, s, pawns, allowed)
  {
    var empty := b.EmptySquares();
    var enemy := b.Occupancy(b.turn.Other());
    var o1 := AppendPushes(b, s, moves, pawns, empty * allowed, Normal);
    var o2 := AppendDoubles(b, s, o1, pawns, empty * DoubleRank(s) * allowed);
    var o3 := AppendDiagonals(b, s, o2, pawns, enemy * allowed, Capture);
    out := AppendEnPassants(b, s, o3, pawns, allowed);
    AppendFour(moves, Pushes(b, s, pawns, empty * allowed, Normal), Doubles(b, s, pawns, empty * DoubleRank(s) * allowed),
      Diagonals(b, s, pawns, enemy * allowed, Capture), EnPassants(b, s, pawns, allowed));
  }

  /** `promotions_white` / `promotions_black`: the source asserts every pawn is on its seventh rank. */
  method Promotions(b: Board, s: Side, moves: seq<Move>, pawns: Bitboard, allowed: Bitboard) returns (out: seq<Move>)
    requires pawns <= PromotionRank(s)
    ensures out == moves + PromotionsSpec(b, s, pawns, allowed)
  {
    var empty := b.EmptySquares();
    var enemy := b.Occupancy(b.turn.Other());
    var mid := AppendPushes(b, s, moves, pawns, empty * allowed, Promo);
    out := AppendDiagonals(b, s, mid, pawns, enemy * allowed, PromoCapture);
  }
}
