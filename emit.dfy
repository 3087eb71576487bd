// The building block every generator is made of: for each target square of
// a bitboard, lowest first, `moves.emplace_back(...)` one move, or four for
// a promotion (queen, rook, bishop, knight). The caller's vector is the
// sequence `moves`; each method returns it with the new moves appended.

module Emit {
  import opened Squares
  import opened Bitboards
  import opened Pieces
  import opened Boards
  import opened Movegen

  /** Where a generated move starts: a fixed square, or `delta` squares back from its target. */
  datatype Origin = From(sq: Sq) | Behind(delta: int)

  function Start(o: Origin, to: Sq): int
  {
    match o
    case From(sq) => sq
    case Behind(d) => to - d
  }

  /** Every target has its origin on the board. */
  predicate Fits(targets: Bitboard, o: Origin)
  {
    forall to :: to in targets ==> 0 <= Start(o, to) < 64
  }

  predicate IsPromotion(kind: MoveType) { kind == Promo || kind == PromoCapture }

  /** The captured piece a generator records: what stands on `to`, a pawn for en passant, else nothing. */
  function CapturedAt(b: Board, kind: MoveType, to: Sq): Piece
  {
    if kind == Capture || kind == PromoCapture then PieceOn(b, to)
    else if kind == EnPassant then Pawn
    else None
  }

  /** The promotion pieces a move of this kind may carry. */
  predicate PromotionFits(kind: MoveType, p: Piece)
  {
    if IsPromotion(kind) then p in PromotionOrder else p == None
  }

  /** The moves one target yields: the four promotions in order, or the single move. */
  function Expand(b: Board, kind: MoveType, from: Sq, to: Sq, piece: Piece): (ms: seq<Move>)
    ensures forall m :: m in ms <==>
              m.kind == kind && m.from == from && m.to == to && m.piece == piece &&
              m.captured == CapturedAt(b, kind, to) && PromotionFits(kind, m.promotion)
  {
    var cap := CapturedAt(b, kind, to);
    if IsPromotion(kind) then
      [Move(kind, from, to, piece, cap, Queen), Move(kind, from, to, piece, cap, Rook),
       Move(kind, from, to, piece, cap, Bishop), Move(kind, from, to, piece, cap, Knight)]
    else
      [Move(kind, from, to, piece, cap, None)]
  }

  /** The moves the loop `for (to : targets) emplace_back(...)` appends. */
  function Emitted(b: Board, targets: Bitboard, o: Origin, kind: MoveType, piece: Piece): seq<Move>
    requires Fits(targets, o)
    decreases |targets|
  {
    if targets == {} then []
    else
      var to := Lowest(targets);
      Expand(b, kind, Start(o, to), to, piece) + Emitted(b, targets - {to}, o, kind, piece)
  }

  /** The move m is one that the loop over `targets` emits. */
  predicate Yields(b: Board, targets: Bitboard, o: Origin, kind: MoveType, piece: Piece, m: Move)
  {
    && m.to in targets && m.from == Start(o, m.to)
    && m.kind == kind && m.piece == piece
    && m.captured == CapturedAt(b, kind, m.to) && PromotionFits(kind, m.promotion)
  }

  /** The emitted moves are exactly the moves built from one target each. */
  lemma {:induction false} EmittedHas(b: Board, targets: Bitboard, o: Origin, kind: MoveType, piece: Piece, m: Move)
    requires Fits(targets, o)
    ensures m in Emitted(b, targets, o, kind, piece) <==> Yields(b, targets, o, kind, piece, m)
    decreases |targets|
  {
    if targets != {} {
      var to := Lowest(targets);
      EmittedHas(b, targets - {to}, o, kind, piece, m);
      assert m in Expand(b, kind, Start(o, to), to, piece) <==> m.to == to && Yields(b, targets, o, kind, piece, m);
    }
  }

  lemma EmittedMembers(b: Board, targets: Bitboard, o: Origin, kind: MoveType, piece: Piece)
    requires Fits(targets, o)
    ensures forall m :: m in Emitted(b, targets, o, kind, piece) <==> Yields(b, targets, o, kind, piece, m)
  {
    forall m ensures m in Emitted(b, targets, o, kind, piece) <==> Yields(b, targets, o, kind, piece, m) {
      EmittedHas(b, targets, o, kind, piece, m);
    }
  }

  /** One move per target, four per promoting target. */
  lemma {:induction false} EmittedLength(b: Board, targets: Bitboard, o: Origin, kind: MoveType, piece: Piece)
    requires Fits(targets, o)
    ensures |Emitted(b, targets, o, kind, piece)| == |targets| * (if IsPromotion(kind) then 4 else 1)
    decreases |targets|
  {
    if targets != {} {
      var to := Lowest(targets);
      EmittedLength(b, targets - {to}, o, kind, piece);
    }
  }

  /** `for (to : targets) moves.emplace_back(kind, origin, to, piece, …)`. */
  method EmitTargets(b: Board, moves: seq<Move>, targets: Bitboard, o: Origin, kind: MoveType, piece: Piece)
    returns (out: seq<Move>)
    requires Fits(targets, o)
    ensures out == moves + Emitted(b, targets, o, kind, piece)
  {
    out := moves;
    var rest := targets;
    while rest != {}
      invariant rest <= targets
      invariant out + Emitted(b, rest, o, kind, piece) == moves + Emitted(b, targets, o, kind, piece)
      decreases |rest|
    {
      var to := Lowest(rest);
      var ms := Expand(b, kind, Start(o, to), to, piece);
      assert Emitted(b, rest, o, kind, piece) == ms + Emitted(b, rest - {to}, o, kind, piece);
      out := out + ms;
      rest := rest - {to};
    }
  }

  // ----- one loop per piece of a kind: `for (fr : froms) for (to : reach(fr) & within)` -----

  /** The squares a piece of type p on fr reaches: its lookup, sliders blocked by `occ`, knights and kings unblocked. */
  function Reach(p: Piece, fr: Sq, occ: Bitboard): Bitboard
  {
    match p
    case Knight => KnightMoves(fr, {})
    case Bishop => BishopMoves(fr, occ)
    case Rook => RookMoves(fr, occ)
    case Queen => QueenMoves(fr, occ)
    case King => KingMoves(fr, {})
    case _ => {}
  }

  /** The king's reach ignores the occupancy: it is its mask. */
  lemma ReachKing(k: Sq, occ: Bitboard)
    ensures Reach(King, k, occ) == KingMoves(k, {})
  {
  }

  /** The moves of every piece in `froms`, each onto `Reach(p, fr, occ) & within`, pieces lowest first. */
  function EmittedFrom(b: Board, froms: Bitboard, p: Piece, occ: Bitboard, within: Bitboard, kind: MoveType): seq<Move>
    decreases |froms|
  {
    if froms == {} then []
    else
      var fr := Lowest(froms);
      Emitted(b, Reach(p, fr, occ) * within, From(fr), kind, p) + EmittedFrom(b, froms - {fr}, p, occ, within, kind)
  }

  /** A move from a piece loop starts on one of the pieces and lands on a square it reaches inside `within`. */
  lemma {:induction false} EmittedFromHas(b: Board, froms: Bitboard, p: Piece, occ: Bitboard, within: Bitboard, kind: MoveType, m: Move)
    ensures m in EmittedFrom(b, froms, p, occ, within, kind) <==>
              m.from in froms && Yields(b, Reach(p, m.from, occ) * within, From(m.from), kind, p, m)
    decreases |froms|
  {
    if froms != {} {
      var fr := Lowest(froms);
      EmittedHas(b, Reach(p, fr, occ) * within, From(fr), kind, p, m);
      EmittedFromHas(b, froms - {fr}, p, occ, within, kind, m);
    }
  }

  lemma EmittedFromMembers(b: Board, froms: Bitboard, p: Piece, occ: Bitboard, within: Bitboard, kind: MoveType)
    ensures forall m :: m in EmittedFrom(b, froms, p, occ, within, kind) <==>
              m.from in froms && Yields(b, Reach(p, m.from, occ) * within, From(m.from), kind, p, m)
  {
    forall m ensures m in EmittedFrom(b, froms, p, occ, within, kind) <==>
                     m.from in froms && Yields(b, Reach(p, m.from, occ) * within, From(m.from), kind, p, m) {
      EmittedFromHas(b, froms, p, occ, within, kind, m);
    }
  }

  /** The first piece's moves come first. */
  lemma EmittedFromStep(b: Board, froms: Bitboard, p: Piece, occ: Bitboard, within: Bitboard, kind: MoveType, done: seq<Move>)
    requires froms != {}
    ensures done + EmittedFrom(b, froms, p, occ, within, kind) ==
            (done + Emitted(b, Reach(p, Lowest(froms), occ) * within, From(Lowest(froms)), kind, p))
            + EmittedFrom(b, froms - {Lowest(froms)}, p, occ, within, kind)
  {
  }

  /** The nested loop over the pieces and their targets. */
  method EmitFrom(b: Board, moves: seq<Move>, froms: Bitboard, p: Piece, occ: Bitboard, within: Bitboard, kind: MoveType)
    returns (out: seq<Move>)
    ensures out == moves + EmittedFrom(b, froms, p, occ, within, kind)
  {
    out := moves;
    var rest := froms;
    while rest != {}
      invariant rest <= froms
      invariant out + EmittedFrom(b, rest, p, occ, within, kind) == moves + EmittedFrom(b, froms, p, occ, within, kind)
      decreases |rest|
    {
      var fr := Lowest(rest);
      EmittedFromStep(b, rest, p, occ, within, kind, out);
      out := EmitTargets(b, out, Reach(p, fr, occ) * within, From(fr), kind, p);
      rest := rest - {fr};
    }
  }
}
