// The state a `Position` holds (position.hpp): two colour masks, six piece
// masks, side to move, en-passant file, castling flags, the two clocks and
// the hash, as one value. The read-only members of `Position` are functions
// of this value; the `Position` class in position.dfy holds the same fields
// and changes them in place.

module Boards {
  import opened Squares
  import opened Bitboards
  import opened Pieces
  import opened Zobrist

  type Pair = s: seq<Bitboard> | |s| == 2 witness [{}, {}]
  type Six = s: seq<Bitboard> | |s| == 6 witness [{}, {}, {}, {}, {}, {}]
  type Rights = s: seq<bool> | |s| == 4 witness [false, false, false, false]

  /** `ep_` when no en-passant capture is possible. */
  const NoEp: int := 0xFF

  /**
   * One position. `ep` is the file (0..7) of the pawn that just made a double
   * step, or `NoEp`.
   */
  datatype Board = Board(
    colours: Pair,
    pieces: Six,
    turn: Side,
    ep: int,
    castling: Rights,
    halfmove: int,
    fullmove: int,
    hash: Hash)
  {
    /** `occupancy(Side)`. */
    function Occupancy(s: Side): Bitboard { colours[s.Index()] }

    /** `occupancy(Piece)`: every piece of that type, of either side. */
    function Kind(p: Piece): Bitboard
      requires p != None
    {
      pieces[p.Index()]
    }

    /** `pieces(s, p)`: the pieces of type p that belong to s. */
    function PiecesOf(s: Side, p: Piece): (b: Bitboard)
      requires p != None
      ensures b <= Occupancy(s) && b <= Kind(p)
    {
      Occupancy(s) * Kind(p)
    }

    /** `occupied()`. */
    function Occupied(): (b: Bitboard)
      ensures forall sq :: sq in b <==> sq in Occupancy(White) || sq in Occupancy(Black)
    {
      Occupancy(White) + Occupancy(Black)
    }

    /** `empty()`: the complement of the occupied squares. */
    function EmptySquares(): (b: Bitboard)
      ensures forall sq: Sq :: sq in b <==> sq !in Occupied()
    {
      Complement(Occupied())
    }

    /** `can_castle(s, ksc/qsc)`: flag 0 and 1 for White, 2 and 3 for Black. */
    predicate CanCastle(s: Side, kingSide: bool)
    {
      castling[RightIndex(s, kingSide)]
    }

    /** `fiftymoves()`: a hundred half-moves without a pawn move or capture. */
    predicate FiftyMoves() { halfmove >= 100 }

    /** The side has a king, so `king_position` (the lowest one) is defined. */
    predicate HasKing(s: Side) { PiecesOf(s, King) != {} }

    /** `king_position(s)`: the lowest square of the side's king mask. */
    function KingPosition(s: Side): (k: Sq)
      requires HasKing(s)
      ensures k in PiecesOf(s, King)
      ensures forall t :: t in PiecesOf(s, King) ==> k <= t
    {
      Lowest(PiecesOf(s, King))
    }

    /** `Bitboard{files[ep_] & rank}`: the en-passant target square for the side to move. */
    function EpSquare(): (sq: Sq)
      requires 0 <= ep < 8
      ensures FileOf(sq) == ep
      ensures RankOf(sq) == (if turn == White then 5 else 2)
    {
      if turn == White then 40 + ep else 16 + ep
    }
  }

  /** The first piece type at index i or above whose mask holds sq. */
  function FirstPieceFrom(b: Board, sq: Sq, i: nat): (p: Piece)
    requires i <= 6
    decreases 6 - i
  {
    if i == 6 then None
    else if sq in b.pieces[i] then PieceAt(i)
    else FirstPieceFrom(b, sq, i + 1)
  }

  /** The specification of `piece_on`: the lowest-index piece mask holding sq, or `None`. */
  function PieceOn(b: Board, sq: Sq): Piece
  {
    FirstPieceFrom(b, sq, 0)
  }

  /** What `piece_on` returns: None exactly when no mask holds sq, otherwise the first that does. */
  lemma {:induction false} FirstPieceFromFacts(b: Board, sq: Sq, i: nat)
    requires i <= 6
    ensures FirstPieceFrom(b, sq, i) == None <==> forall j :: i <= j < 6 ==> sq !in b.pieces[j]
    ensures FirstPieceFrom(b, sq, i) != None ==>
              i <= FirstPieceFrom(b, sq, i).Index() &&
              sq in b.pieces[FirstPieceFrom(b, sq, i).Index()] &&
              forall j :: i <= j < FirstPieceFrom(b, sq, i).Index() ==> sq !in b.pieces[j]
    decreases 6 - i
  {
    if i < 6 && sq !in b.pieces[i] {
      FirstPieceFromFacts(b, sq, i + 1);
    }
  }

  lemma PieceOnFacts(b: Board, sq: Sq)
    ensures PieceOn(b, sq) == None <==> forall j :: 0 <= j < 6 ==> sq !in b.pieces[j]
    ensures PieceOn(b, sq) != None ==>
              sq in b.Kind(PieceOn(b, sq)) &&
              forall j :: 0 <= j < PieceOn(b, sq).Index() ==> sq !in b.pieces[j]
  {
    FirstPieceFromFacts(b, sq, 0);
  }

  /** The six piece masks are pairwise disjoint (one of the board invariants). */
  predicate PiecesDisjoint(b: Board)
  {
    forall i, j :: 0 <= i < j < 6 ==> b.pieces[i] * b.pieces[j] == {}
  }

  /** With disjoint piece masks, `piece_on` names the one mask that holds the square. */
  lemma PieceOnExact(b: Board, sq: Sq, p: Piece)
    requires PiecesDisjoint(b) && p != None
    ensures PieceOn(b, sq) == p <==> sq in b.Kind(p)
  {
    PieceOnFacts(b, sq);
    var q := PieceOn(b, sq);
    if sq in b.Kind(p) {
      assert q != None;
      assert q.Index() <= p.Index();
      assert sq in b.pieces[q.Index()] * b.pieces[p.Index()];
      assert q.Index() >= p.Index();
      IndexInjective(p, q);
    }
  }

  /** `piece_on`: scan the six masks in index order and return the first that holds sq. */
  method PieceOnScan(b: Board, sq: Sq) returns (p: Piece)
    ensures p == PieceOn(b, sq)
  {
    var i := 0;
    while i < 6
      invariant 0 <= i <= 6
      invariant FirstPieceFrom(b, sq, i) == PieceOn(b, sq)
    {
      if sq in b.pieces[i] {
        return PieceAt(i);
      }
      i := i + 1;
    }
    return None;
  }

  /** `occupied` and `empty` partition the board. */
  lemma OccupiedEmptyPartition(b: Board)
    ensures b.Occupied() * b.EmptySquares() == {}
    ensures b.Occupied() + b.EmptySquares() == AllSquares
  {
    forall sq: Sq ensures sq in b.Occupied() + b.EmptySquares() {
    }
  }

  /** The empty board `clear()` leaves: no pieces, White to move, no en passant, no flags, clocks and hash zero. */
  const ClearBoard: Board :=
    Board([{}, {}], [{}, {}, {}, {}, {}, {}], White, NoEp, [false, false, false, false], 0, 0, {})

  /** A board with sq added to side s's mask and to piece p's mask, as `set(sq, s, p)` does. */
  function SetBoard(b: Board, sq: Sq, s: Side, p: Piece): (r: Board)
    requires p != None
    ensures r.turn == b.turn && r.ep == b.ep && r.castling == b.castling && r.hash == b.hash
    ensures r.halfmove == b.halfmove && r.fullmove == b.fullmove
  {
    b.(colours := b.colours[s.Index() := b.colours[s.Index()] + {sq}],
       pieces := b.pieces[p.Index() := b.pieces[p.Index()] + {sq}])
  }
}
