// Sides, piece types and moves: the plain enums of side.hpp and piece.hpp,
// and the move record the generators emit.

module Pieces {
  import opened Squares

  /** `enum Side : bool`, White = 0. */
  datatype Side = White | Black
  {
    /** The array index `colours_[s]`. */
    function Index(): (i: nat)
      ensures i < 2
    {
      if this == White then 0 else 1
    }

    /** `operator!`: the other side. */
    function Other(): (o: Side)
      ensures o != this
    {
      if this == White then Black else White
    }
  }

  /** `!!s == s`, and the two sides have different indices. */
  lemma OtherInvolution(s: Side)
    ensures s.Other().Other() == s
    ensures s.Other().Index() == 1 - s.Index()
  {
  }

  /** `enum Piece : int`: Pawn = 0 … King = 5, then the `None` marker. */
  datatype Piece = Pawn | Knight | Bishop | Rook | Queen | King | None
  {
    /** The array index `pieces_[p]`; only real pieces have one. */
    function Index(): (i: nat)
      requires this != None
      ensures i < 6
    {
      match this
      case Pawn => 0
      case Knight => 1
      case Bishop => 2
      case Rook => 3
      case Queen => 4
      case King => 5
    }
  }

  /** `Piece(i)`: the piece with array index i. */
  function PieceAt(i: int): (p: Piece)
    requires 0 <= i < 6
    ensures p != None && p.Index() == i
  {
    if i == 0 then Pawn
    else if i == 1 then Knight
    else if i == 2 then Bishop
    else if i == 3 then Rook
    else if i == 4 then Queen
    else King
  }

  /** Distinct pieces have distinct indices, so `pieces_[p]` names one mask per piece. */
  lemma IndexInjective(p: Piece, q: Piece)
    requires p != None && q != None
    ensures p.Index() == q.Index() <==> p == q
  {
  }

  /** The move kinds the generators and make-move distinguish. */
  datatype MoveType = Normal | Capture | Double | EnPassant | KingSide | QueenSide | Promo | PromoCapture

  /**
   * A move: kind, origin, target, moving piece, captured piece (`None` when
   * nothing is taken) and promotion piece (`None` when not promoting).
   */
  datatype Move = Move(kind: MoveType, from: Sq, to: Sq, piece: Piece, captured: Piece, promotion: Piece)

  /** A move that removes an enemy piece. */
  predicate IsCapturing(m: Move)
  {
    m.kind == Capture || m.kind == EnPassant || m.kind == PromoCapture
  }

  /** `Move(type, from, to, piece)`: the defaulted constructor, nothing captured or promoted. */
  function Quiet(kind: MoveType, from: Sq, to: Sq, piece: Piece): (m: Move)
    ensures m.captured == None && m.promotion == None
    ensures m.kind == kind && m.from == from && m.to == to && m.piece == piece
  {
    Move(kind, from, to, piece, None, None)
  }

  /** The four promotion choices, in the order the generators emit them. */
  const PromotionOrder: seq<Piece> := [Queen, Rook, Bishop, Knight]

  /** Castling-right indices: White king side 0, White queen side 1, Black 2 and 3. */
  function RightIndex(s: Side, kingSide: bool): (i: nat)
    ensures i < 4
  {
    2 * s.Index() + (if kingSide then 0 else 1)
  }

  /** Each (side, wing) pair has its own flag. */
  lemma RightIndexInjective(s: Side, k: bool, t: Side, l: bool)
    ensures RightIndex(s, k) == RightIndex(t, l) <==> s == t && k == l
  {
  }

  // The fixed castling squares (`ksc_rook_fr` … `qsc_rook_to`), indexed by side.
  function KingSideRookFrom(s: Side): Sq { if s == White then 7 else 63 }
  function QueenSideRookFrom(s: Side): Sq { if s == White then 0 else 56 }
  function KingSideRookTo(s: Side): Sq { if s == White then 5 else 61 }
  function QueenSideRookTo(s: Side): Sq { if s == White then 3 else 59 }
}
