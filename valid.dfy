// `Position::valid` (valid.cpp): the board invariant. The generators rely
// on it (one king a side, disjoint masks) and make-move keeps it.

module Validity {
  import opened Squares
  import opened Bitboards
  import opened Pieces
  import opened Boards
  import opened Attacks
  import opened Pawns
  import opened Zobrist
  import opened Hashing

  /** The union of the six piece masks. */
  function PieceUnion(b: Board): Bitboard
  {
    b.pieces[0] + b.pieces[1] + b.pieces[2] + b.pieces[3] + b.pieces[4] + b.pieces[5]
  }

  /** The back rank a side's king must stand on while it holds a castling right. */
  function HomeRank(s: Side): Bitboard
  {
    if s == White then Rank1 else Rank8
  }

  /** The rook square a castling right refers to. */
  function RookHome(s: Side, kingSide: bool): Sq
  {
    if kingSide then KingSideRookFrom(s) else QueenSideRookFrom(s)
  }

  /** A held right needs the side's king on its back rank and a rook on the right's rook square. */
  predicate RightSound(b: Board, s: Side, kingSide: bool)
    requires b.HasKing(s)
  {
    b.CanCastle(s, kingSide) ==> b.KingPosition(s) in HomeRank(s) && PieceOn(b, RookHome(s, kingSide)) == Rook
  }

  /** The placement checks of `valid()`: one king a side, disjoint colours, no pawn on a back rank, disjoint piece masks, equal unions. */
  predicate Placement(b: Board)
  {
    && |b.PiecesOf(White, King)| == 1
    && |b.PiecesOf(Black, King)| == 1
    && b.Occupancy(White) * b.Occupancy(Black) == {}
    && b.Kind(Pawn) * (Rank1 + Rank8) == {}
    && PiecesDisjoint(b)
    && b.Occupied() == PieceUnion(b)
  }

  /** Every check of `valid()` except the hash, in the source's order. */
  predicate Consistent(b: Board)
  {
    && EpWellFormed(b)
    && Placement(b)
    && !SquareAttacked(b, b.KingPosition(b.turn.Other()), b.turn)
    && RightSound(b, White, true) && RightSound(b, White, false)
    && RightSound(b, Black, true) && RightSound(b, Black, false)
  }

  /** `valid()`: the stored hash is the full recomputation, and the board is consistent. */
  predicate Valid(b: Board)
  {
    b.hash == HashOf(b) && Consistent(b)
  }

  /** A consistent board has both kings and a well-formed en-passant field. */
  lemma ConsistentKings(b: Board)
    requires Placement(b)
    ensures b.HasKing(White) && b.HasKing(Black)
    ensures b.PiecesOf(White, King) == {b.KingPosition(White)}
    ensures b.PiecesOf(Black, King) == {b.KingPosition(Black)}
  {
    assert |b.PiecesOf(White, King)| == 1 && |b.PiecesOf(Black, King)| == 1;
    SingleKing(b.PiecesOf(White, King), b.KingPosition(White));
    SingleKing(b.PiecesOf(Black, King), b.KingPosition(Black));
  }

  /** A square of some piece mask holds the piece `piece_on` names. */
  lemma InUnion(b: Board, sq: Sq)
    requires sq in PieceUnion(b)
    ensures PieceOn(b, sq) != None && sq in b.Kind(PieceOn(b, sq))
  {
    PieceOnFacts(b, sq);
  }

  /** On a consistent board, each occupied square holds exactly one piece, of the side whose colour it has. */
  lemma Occupant(b: Board, s: Side, sq: Sq)
    requires Placement(b) && sq in b.Occupancy(s)
    ensures PieceOn(b, sq) != None
    ensures sq in b.PiecesOf(s, PieceOn(b, sq))
    ensures sq !in b.Occupancy(s.Other())
  {
    assert b.Occupied() == PieceUnion(b) && b.Occupancy(White) * b.Occupancy(Black) == {};
    InUnion(b, sq);
    assert sq !in b.Occupancy(White) * b.Occupancy(Black);
  }

  /** An enemy piece other than the enemy king is neither nothing nor a king. */
  lemma EnemyNotKing(b: Board, s: Side, sq: Sq)
    requires Placement(b) && sq in b.Occupancy(s) && b.HasKing(s) && sq != b.KingPosition(s)
    ensures PieceOn(b, sq) != None && PieceOn(b, sq) != King
  {
    ConsistentKings(b);
    Occupant(b, s, sq);
  }

  /** A square the side to move attacks is not the enemy king's square. */
  lemma HitNotKing(b: Board, fr: Sq, sq: Sq)
    requires Consistent(b) && Hits(b, b.turn, fr, sq)
    ensures sq != b.KingPosition(b.turn.Other())
  {
    AttackersMembers(b, sq, b.turn, fr);
  }
}
