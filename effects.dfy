// What making a move does to the board, stated square by square against a
// reference description of the move (the piece leaves its square and stands
// on the target, the captured piece disappears, the castling rook jumps, a
// promoted pawn becomes the new piece), and the hash prediction checked
// against the full hash of the new position.

module Effects {
  import opened Squares
  import opened Bitboards
  import opened Pieces
  import opened Boards
  import opened Pawns
  import opened Zobrist
  import opened Hashing
  import opened Predict
  import opened Making
  import opened Validity

  /** The king's home square: e1 or e8. */
  function KingHome(s: Side): Sq { if s == White then 4 else 60 }

  /**
   * A move that fits the board it is made on: its piece stands on its origin,
   * a quiet move lands on an empty square, a capture on the captured enemy
   * piece, en passant behind an enemy pawn, and castling moves the king two
   * squares from its home square towards a rook on its corner over empty
   * landing squares. A pawn reaches the last rank only by promoting.
   */
  predicate Playable(b: Board, m: Move)
  {
    && Makeable(b, m)
    && m.from in b.PiecesOf(b.turn, m.piece)
    && (m.piece == Pawn && !IsPromotion(m.kind) ==> m.to !in Rank1 + Rank8)
    && match m.kind
       case Normal => m.to in b.EmptySquares()
       case Double => m.to in b.EmptySquares()
       case Promo => m.to in b.EmptySquares()
       case Capture => m.to in b.PiecesOf(b.turn.Other(), m.captured)
       case PromoCapture => m.to in b.PiecesOf(b.turn.Other(), m.captured)
       case EnPassant =>
         m.to in b.EmptySquares() && Victim(b.turn, m.to) as Sq in b.PiecesOf(b.turn.Other(), Pawn)
       case KingSide =>
         && m.from == KingHome(b.turn) && m.to == m.from + 2
         && KingSideRookFrom(b.turn) in b.PiecesOf(b.turn, Rook)
         && m.to in b.EmptySquares() && KingSideRookTo(b.turn) in b.EmptySquares()
       case QueenSide =>
         && m.from == KingHome(b.turn) && m.to == m.from - 2
         && QueenSideRookFrom(b.turn) in b.PiecesOf(b.turn, Rook)
         && m.to in b.EmptySquares() && QueenSideRookTo(b.turn) in b.EmptySquares()
  }

  /** The placement part of the board invariant: disjoint masks, colours covering exactly the pieces. */
  predicate WellLaid(b: Board)
  {
    && b.Occupancy(White) * b.Occupancy(Black) == {}
    && PiecesDisjoint(b)
    && b.Occupied() == PieceUnion(b)
  }

  /** The castling rook's origin, for a castling move. */
  function RookFrom(us: Side, kind: MoveType): Sq
  {
    if kind == KingSide then KingSideRookFrom(us) else QueenSideRookFrom(us)
  }

  /** The castling rook's destination, for a castling move. */
  function RookTo(us: Side, kind: MoveType): Sq
  {
    if kind == KingSide then KingSideRookTo(us) else QueenSideRookTo(us)
  }

  predicate Castles(kind: MoveType) { kind == KingSide || kind == QueenSide }

  /** What stands on sq once the move is made, by the rules of chess. */
  function PieceAfter(b: Board, m: Move, sq: Sq): Piece
  {
    if sq == m.from then None
    else if sq == m.to then (if IsPromotion(m.kind) then m.promotion else m.piece)
    else if m.kind == EnPassant && sq == Victim(b.turn, m.to) then None
    else if Castles(m.kind) && sq == RookFrom(b.turn, m.kind) then None
    else if Castles(m.kind) && sq == RookTo(b.turn, m.kind) then Rook
    else PieceOn(b, sq)
  }

  /** Whose piece stands on sq once the move is made (meaningful where a piece stands). */
  function SideAfter(b: Board, m: Move, sq: Sq): Side
  {
    if sq == m.to || (Castles(m.kind) && sq == RookTo(b.turn, m.kind)) then b.turn else ColourOn(b, sq)
  }

  /** The squares a move changes: origin, target, en-passant victim, the rook's two squares. */
  function Changed(b: Board, m: Move): Bitboard
    requires Makeable(b, m)
  {
    {m.from, m.to} + TakenSquares(b.turn, m) + RookSquares(b.turn, m.kind)
  }

  // ----- the masks of the new board -----

  lemma KindAfter(b: Board, m: Move, p: Piece)
    requires Makeable(b, m) && p != None
    ensures MakeBoard(b, m).Kind(p) == Toggle(b.Kind(p), PieceFlips(b.turn, m, p))
  {
    assert PieceAt(p.Index()) == p;
  }

  lemma OccupancyAfter(b: Board, m: Move, s: Side)
    requires Makeable(b, m)
    ensures MakeBoard(b, m).Occupancy(s) == Toggle(b.Occupancy(s), ColourFlips(b.turn, m, s))
  {
  }

  /** No mask changes outside the changed squares. */
  lemma FlipsWithin(b: Board, m: Move, sq: Sq)
    requires Playable(b, m) && sq !in Changed(b, m)
    ensures forall p :: p != None ==> sq !in PieceFlips(b.turn, m, p)
    ensures forall s :: sq !in ColourFlips(b.turn, m, s)
  {
  }

  /** On a well-laid board a square is in piece p's mask exactly when `piece_on` names p. */
  lemma KindBefore(b: Board, sq: Sq)
    requires WellLaid(b)
    ensures HoldsBefore(b, sq)
  {
    forall p | p != None ensures sq in b.Kind(p) <==> PieceOn(b, sq) == p {
      PieceOnExact(b, sq, p);
    }
    PieceOnFacts(b, sq);
    if PieceOn(b, sq) != None {
      assert sq in PieceUnion(b);
    }
    if sq in b.Occupied() {
      InUnion(b, sq);
      assert sq !in b.Occupancy(White) * b.Occupancy(Black);
    }
  }

  /**
   * The new board holds on sq what the reference description says: piece
   * p's mask holds sq exactly when p stands there after the move, and side
   * s's mask exactly when a piece of s does.
   */
  predicate PlacedAt(b: Board, m: Move, sq: Sq)
    requires Makeable(b, m)
  {
    Shows(MakeBoard(b, m), b, m, sq)
  }

  /** Board a's masks hold on sq what the reference description of move m on b puts there. */
  predicate Shows(a: Board, b: Board, m: Move, sq: Sq)
  {
    && (forall p :: p != None ==> (sq in a.Kind(p) <==> PieceAfter(b, m, sq) == p))
    && (forall s :: sq in a.Occupancy(s) <==> PieceAfter(b, m, sq) != None && SideAfter(b, m, sq) == s)
  }

  /** The same, with the new masks written as the old masks and the flips. */
  predicate FlipsPlace(b: Board, m: Move, sq: Sq)
    requires Makeable(b, m)
  {
    && (forall p :: p != None ==>
          ((sq in b.Kind(p)) != (sq in PieceFlips(b.turn, m, p)) <==> PieceAfter(b, m, sq) == p))
    && (forall s ::
          ((sq in b.Occupancy(s)) != (sq in ColourFlips(b.turn, m, s)) <==>
           PieceAfter(b, m, sq) != None && SideAfter(b, m, sq) == s))
  }

  /** What a well-laid board holds on sq, mask by mask. */
  predicate HoldsBefore(b: Board, sq: Sq)
  {
    && (forall p :: p != None ==> (sq in b.Kind(p) <==> PieceOn(b, sq) == p))
    && (forall s :: sq in b.Occupancy(s) <==> PieceOn(b, sq) != None && ColourOn(b, sq) == s)
  }

  /** Making a move places every square as the reference description says. */
  lemma MakePlaces(b: Board, m: Move, sq: Sq)
    requires WellLaid(b) && Playable(b, m)
    ensures PlacedAt(b, m, sq)
  {
    KindBefore(b, sq);
    if sq !in Changed(b, m) {
      FlipsWithin(b, m, sq);
      PlacedUnchanged(b, m, sq);
    } else if sq == m.from {
      FromFlips(b, m);
      PlacedFrom(b, m);
    } else if sq == m.to {
      ToFlips(b, m);
      PlacedTo(b, m);
    } else if m.kind == EnPassant {
      VictimFlips(b, m);
      PlacedVictim(b, m);
    } else {
      RookFlips(b, m, sq);
      PlacedRook(b, m, sq);
    }
    FlipsPlaceMake(b, m, sq);
  }

  lemma FlipsPlaceMake(b: Board, m: Move, sq: Sq)
    requires Makeable(b, m) && FlipsPlace(b, m, sq)
    ensures PlacedAt(b, m, sq)
  {
    forall p | p != None ensures sq in MakeBoard(b, m).Kind(p) <==> PieceAfter(b, m, sq) == p {
      KindAfter(b, m, p);
    }
    forall s ensures sq in MakeBoard(b, m).Occupancy(s) <==> PieceAfter(b, m, sq) != None && SideAfter(b, m, sq) == s {
      OccupancyAfter(b, m, s);
    }
  }

  lemma PlacedUnchanged(b: Board, m: Move, sq: Sq)
    requires Makeable(b, m) && HoldsBefore(b, sq) && sq !in Changed(b, m)
    requires forall p :: p != None ==> sq !in PieceFlips(b.turn, m, p)
    requires forall s :: sq !in ColourFlips(b.turn, m, s)
    ensures FlipsPlace(b, m, sq)
  {
  }

  lemma PlacedFrom(b: Board, m: Move)
    requires Makeable(b, m) && HoldsBefore(b, m.from)
    requires forall p :: p != None ==> (m.from in PieceFlips(b.turn, m, p) <==> p == m.piece)
    requires forall s :: m.from in ColourFlips(b.turn, m, s) <==> s == b.turn
    requires PieceOn(b, m.from) == m.piece && ColourOn(b, m.from) == b.turn
    ensures FlipsPlace(b, m, m.from)
  {
  }

  lemma PlacedTo(b: Board, m: Move)
    requires Makeable(b, m) && HoldsBefore(b, m.to) && m.to != m.from
    requires forall p :: p != None ==> (m.to in PieceFlips(b.turn, m, p) <==> (p == Arriving(m)) != (p == TakenOnTarget(m)))
    requires forall s :: m.to in ColourFlips(b.turn, m, s) <==> s == b.turn || TakenOnTarget(m) != None
    requires PieceOn(b, m.to) == TakenOnTarget(m)
    requires TakenOnTarget(m) != None ==> ColourOn(b, m.to) != b.turn
    ensures FlipsPlace(b, m, m.to)
  {
  }

  lemma PlacedVictim(b: Board, m: Move)
    requires Makeable(b, m) && m.kind == EnPassant
    requires HoldsBefore(b, Victim(b.turn, m.to) as Sq)
    requires Victim(b.turn, m.to) != m.from && Victim(b.turn, m.to) != m.to
    requires forall p :: p != None ==> (Victim(b.turn, m.to) as Sq in PieceFlips(b.turn, m, p) <==> p == Pawn)
    requires forall s :: Victim(b.turn, m.to) as Sq in ColourFlips(b.turn, m, s) <==> s != b.turn
    requires PieceOn(b, Victim(b.turn, m.to) as Sq) == Pawn && ColourOn(b, Victim(b.turn, m.to) as Sq) != b.turn
    ensures FlipsPlace(b, m, Victim(b.turn, m.to) as Sq)
  {
  }

  lemma PlacedRook(b: Board, m: Move, sq: Sq)
    requires Makeable(b, m) && Castles(m.kind) && sq in RookSquares(b.turn, m.kind)
    requires HoldsBefore(b, sq) && sq != m.from && sq != m.to
    requires forall p :: p != None ==> (sq in PieceFlips(b.turn, m, p) <==> p == Rook)
    requires forall s :: sq in ColourFlips(b.turn, m, s) <==> s == b.turn
    requires sq == RookFrom(b.turn, m.kind) ==> PieceOn(b, sq) == Rook && ColourOn(b, sq) == b.turn
    requires sq == RookTo(b.turn, m.kind) ==> PieceOn(b, sq) == None
    ensures FlipsPlace(b, m, sq)
  {
  }

  /** The piece and colour masks that change on the origin: the mover's. */
  lemma FromFlips(b: Board, m: Move)
    requires WellLaid(b) && Playable(b, m)
    ensures forall p :: p != None ==> (m.from in PieceFlips(b.turn, m, p) <==> p == m.piece)
    ensures forall s :: m.from in ColourFlips(b.turn, m, s) <==> s == b.turn
  {
    if m.kind == EnPassant {
      assert Victim(b.turn, m.to) as Sq !in b.Occupancy(White) * b.Occupancy(Black);
    }
  }

  /** The piece that arrives on the target: the mover, or the promotion piece. */
  function Arriving(m: Move): Piece
  {
    if IsPromotion(m.kind) then m.promotion else m.piece
  }

  /** The piece taken on the target square itself (en passant takes elsewhere). */
  function TakenOnTarget(m: Move): Piece
  {
    if m.kind == Capture || m.kind == PromoCapture then m.captured else None
  }

  /** The masks that change on the target: the arriving piece's, and the captured piece's. */
  lemma ToFlips(b: Board, m: Move)
    requires WellLaid(b) && Playable(b, m)
    ensures forall p :: p != None ==> (m.to in PieceFlips(b.turn, m, p) <==> (p == Arriving(m)) != (p == TakenOnTarget(m)))
    ensures forall s :: m.to in ColourFlips(b.turn, m, s) <==> s == b.turn || TakenOnTarget(m) != None
  {
  }

  /** The masks that change on the en-passant victim's square: the enemy pawn's. */
  lemma VictimFlips(b: Board, m: Move)
    requires WellLaid(b) && Playable(b, m) && m.kind == EnPassant
    ensures forall p :: p != None ==> (Victim(b.turn, m.to) as Sq in PieceFlips(b.turn, m, p) <==> p == Pawn)
    ensures forall s :: Victim(b.turn, m.to) as Sq in ColourFlips(b.turn, m, s) <==> s != b.turn
  {
    assert Victim(b.turn, m.to) as Sq !in b.Occupancy(White) * b.Occupancy(Black);
  }

  /** The masks that change on the castling rook's squares: the mover's rook's. */
  lemma RookFlips(b: Board, m: Move, sq: Sq)
    requires WellLaid(b) && Playable(b, m) && Castles(m.kind) && sq in RookSquares(b.turn, m.kind)
    ensures forall p :: p != None ==> (sq in PieceFlips(b.turn, m, p) <==> p == Rook)
    ensures forall s :: sq in ColourFlips(b.turn, m, s) <==> s == b.turn
  {
  }

  // ----- consequences for the whole board -----

  /** `piece_on` and the colour on the new board are the reference description's. */
  lemma PieceOnAfter(b: Board, m: Move, sq: Sq)
    requires WellLaid(b) && Playable(b, m)
    ensures PieceOn(MakeBoard(b, m), sq) == PieceAfter(b, m, sq)
    ensures PieceAfter(b, m, sq) != None ==> ColourOn(MakeBoard(b, m), sq) == SideAfter(b, m, sq)
  {
    MakePlaces(b, m, sq);
    PlacedPieceOn(MakeBoard(b, m), PieceAfter(b, m, sq), SideAfter(b, m, sq), sq);
  }

  /** A square that lies in exactly the masks of piece p and side s (or in none) shows them. */
  lemma PlacedPieceOn(a: Board, p: Piece, s: Side, sq: Sq)
    requires forall q :: q != None ==> (sq in a.Kind(q) <==> p == q)
    requires forall t :: sq in a.Occupancy(t) <==> p != None && s == t
    ensures PieceOn(a, sq) == p
    ensures p != None ==> ColourOn(a, sq) == s
  {
    PieceOnFacts(a, sq);
    var q := PieceOn(a, sq);
    if p != None {
      assert sq in a.Kind(p);
      assert q != None;
    }
  }

  /**
   * A board each of whose squares lies in the mask of exactly one piece and
   * one side where `place` puts a piece, and in no mask elsewhere, is well laid.
   */
  lemma LaidByPlacement(a: Board, b: Board, m: Move)
    requires forall sq: Sq :: Shows(a, b, m, sq)
    ensures WellLaid(a)
  {
    forall i, j | 0 <= i < j < 6 ensures a.pieces[i] * a.pieces[j] == {} {
      forall sq: Sq | sq in a.pieces[i] ensures sq !in a.pieces[j] {
        assert Shows(a, b, m, sq);
        assert sq in a.Kind(PieceAt(i));
        assert PieceAfter(b, m, sq) == PieceAt(i);
        assert sq in a.Kind(PieceAt(j)) <==> PieceAfter(b, m, sq) == PieceAt(j);
      }
    }
    forall sq: Sq | sq in a.Occupancy(White) ensures sq !in a.Occupancy(Black) {
      assert Shows(a, b, m, sq);
      assert SideAfter(b, m, sq) == White;
    }
    forall sq: Sq ensures sq in a.Occupied() <==> sq in PieceUnion(a) {
      assert Shows(a, b, m, sq);
      var p := PieceAfter(b, m, sq);
      if p != None {
        assert sq in a.Kind(p);
        assert sq in a.Occupancy(SideAfter(b, m, sq));
        assert sq in a.pieces[p.Index()];
        assert p.Index() < 6;
      } else {
        assert sq !in a.Occupancy(White) && sq !in a.Occupancy(Black);
        forall j | 0 <= j < 6 ensures sq !in a.pieces[j] {
          assert sq in a.Kind(PieceAt(j)) <==> p == PieceAt(j);
        }
      }
    }
  }

  /** Making a move keeps the masks disjoint and the colours covering exactly the pieces. */
  lemma MakeWellLaid(b: Board, m: Move)
    requires WellLaid(b) && Playable(b, m)
    ensures WellLaid(MakeBoard(b, m))
  {
    var a := MakeBoard(b, m);
    forall sq: Sq ensures Shows(a, b, m, sq) {
      MakePlaces(b, m, sq);
    }
    LaidByPlacement(a, b, m);
  }
}
