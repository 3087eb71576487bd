// `Position::predict_hash` (predict_hash.cpp): the hash the position will
// have after a move, computed from the current hash and the move alone by
// XOR-ing out what leaves and XOR-ing in what arrives.

module Predict {
  import opened Squares
  import opened Bitboards
  import opened Pieces
  import opened Boards
  import opened Pawns
  import opened Zobrist

  /** The square of the pawn an en-passant capture by `us` removes: one step behind the target. */
  function Victim(us: Side, to: Sq): int { to - Push(us) }

  /** The rook square guarding castling flag i: h1, a1, h8, a8. */
  function RightRook(i: int): Sq
    requires 0 <= i < 4
  {
    if i == 0 then 7 else if i == 1 then 0 else if i == 2 then 63 else 56
  }

  /** The king square guarding castling flag i: e1 for White's flags, e8 for Black's. */
  function RightKing(i: int): Sq
    requires 0 <= i < 4
  {
    if i < 2 then 4 else 60
  }

  /**
   * The move lands on the flag's rook square or leaves its king or rook
   * square, which clears the flag (makemove.cpp and predict_hash.cpp use
   * the same test).
   */
  predicate Touches(i: int, m: Move)
    requires 0 <= i < 4
  {
    m.to == RightRook(i) || m.from == RightKing(i) || m.from == RightRook(i)
  }

  /** The key of flag i, listed when the flag is held and the move touches it. */
  function LostRight(c: Rights, m: Move, i: int): seq<Key>
    requires 0 <= i < 4
  {
    if c[i] && Touches(i, m) then [CastlingKey(i)] else []
  }

  /** The castling keys `predict_hash` XORs, flag 0 to flag 3. */
  function LostRights(c: Rights, m: Move): seq<Key>
  {
    LostRight(c, m, 0) + LostRight(c, m, 1) + LostRight(c, m, 2) + LostRight(c, m, 3)
  }

  /** A move may be hashed when its en-passant victim, if any, is on the board. */
  predicate Hashable(b: Board, m: Move)
  {
    m.kind == EnPassant ==> 0 <= Victim(b.turn, m.to) < 64
  }

  /**
   * The piece keys a move XORs, by kind, in the source's order; a double
   * step also XORs the en-passant key `epIndex`.
   */
  function MoveKeys(b: Board, m: Move, epIndex: int): seq<Key>
    requires Hashable(b, m)
  {
    var us := b.turn;
    var them := us.Other();
    var moved := [PieceKey(m.piece, us, m.from), PieceKey(m.piece, us, m.to)];
    match m.kind
    case Normal => moved
    case Capture => moved + [PieceKey(m.captured, them, m.to)]
    case Double => moved + [EpKey(epIndex)]
    case EnPassant => moved + [PieceKey(Pawn, them, Victim(us, m.to) as Sq)]
    case KingSide =>
      [PieceKey(King, us, m.from), PieceKey(King, us, m.to),
       PieceKey(Rook, us, KingSideRookFrom(us)), PieceKey(Rook, us, KingSideRookTo(us))]
    case QueenSide =>
      [PieceKey(King, us, m.from), PieceKey(King, us, m.to),
       PieceKey(Rook, us, QueenSideRookFrom(us)), PieceKey(Rook, us, QueenSideRookTo(us))]
    case Promo => [PieceKey(Pawn, us, m.from), PieceKey(m.promotion, us, m.to)]
    case PromoCapture =>
      [PieceKey(Pawn, us, m.from), PieceKey(m.promotion, us, m.to), PieceKey(m.captured, them, m.to)]
  }

  /**
   * Every key `predict_hash` XORs, in order: the side key, the old
   * en-passant key when set, the move's keys, the lost castling flags.
   */
  function PredictKeys(b: Board, m: Move, epIndex: int): seq<Key>
    requires Hashable(b, m)
  {
    [TurnKey] + (if b.ep != NoEp then [EpKey(b.ep)] else []) + MoveKeys(b, m, epIndex) + LostRights(b.castling, m)
  }

  /** `predict_hash` as written: a double step XORs in the key of the target square. */
  function PredictHashAsWritten(b: Board, m: Move): Hash
    requires Hashable(b, m)
  {
    XorAll(b.hash, PredictKeys(b, m, m.to))
  }

  /**
   * `predict_hash` keyed as the position's hash is: a double step XORs in
   * the key of the en-passant file the move sets.
   */
  function PredictHash(b: Board, m: Move): Hash
    requires Hashable(b, m)
  {
    XorAll(b.hash, PredictKeys(b, m, FileOf(m.to)))
  }
}
