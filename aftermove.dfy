// What `makemove` promises about the position it leaves: the pieces where
// the rules of chess put them, the en-passant file, castling flags, turn and
// clocks, and the placement checks of `valid()` still holding.

module AfterMove {
  import opened Squares
  import opened Bitboards
  import opened Pieces
  import opened Boards
  import opened Pawns
  import opened Zobrist
  import opened Hashing
  import opened Predict
  import opened Making
  import opened Validity
  import opened Attacks
  import opened Effects
  import opened HashMatch

  /**
   * The mover leaves its origin and stands on the target (as the promoted
   * piece after a promotion), whatever stood there is gone, the en-passant
   * victim is removed, and the castling rook jumps.
   */
  lemma MakeMovesPieces(b: Board, m: Move)
    requires WellLaid(b) && Playable(b, m)
    ensures PieceOn(MakeBoard(b, m), m.from) == None
    ensures PieceOn(MakeBoard(b, m), m.to) == Arriving(m) && ColourOn(MakeBoard(b, m), m.to) == b.turn
    ensures m.kind == EnPassant ==> PieceOn(MakeBoard(b, m), Victim(b.turn, m.to) as Sq) == None
    ensures Castles(m.kind) ==>
              && PieceOn(MakeBoard(b, m), RookFrom(b.turn, m.kind)) == None
              && PieceOn(MakeBoard(b, m), RookTo(b.turn, m.kind)) == Rook
              && ColourOn(MakeBoard(b, m), RookTo(b.turn, m.kind)) == b.turn
  {
    PlayableApart(b, m);
    AfterMoved(b, m);
    PieceOnAfter(b, m, m.from);
    PieceOnAfter(b, m, m.to);
    if m.kind == EnPassant {
      PieceOnAfter(b, m, Victim(b.turn, m.to) as Sq);
    }
    if Castles(m.kind) {
      PieceOnAfter(b, m, RookFrom(b.turn, m.kind));
      PieceOnAfter(b, m, RookTo(b.turn, m.kind));
    }
  }

  /** The reference description on the squares the move changes. */
  lemma AfterMoved(b: Board, m: Move)
    requires MoveFits(m) && SquaresApart(b, m)
    ensures PieceAfter(b, m, m.from) == None
    ensures PieceAfter(b, m, m.to) == Arriving(m) && SideAfter(b, m, m.to) == b.turn
    ensures m.kind == EnPassant && 0 <= Victim(b.turn, m.to) < 64 ==> PieceAfter(b, m, Victim(b.turn, m.to) as Sq) == None
    ensures Castles(m.kind) ==>
              && PieceAfter(b, m, RookFrom(b.turn, m.kind)) == None
              && PieceAfter(b, m, RookTo(b.turn, m.kind)) == Rook
              && SideAfter(b, m, RookTo(b.turn, m.kind)) == b.turn
  {
  }

  /** Every square the move does not change keeps its piece and colour. */
  lemma MakeKeepsOthers(b: Board, m: Move, sq: Sq)
    requires WellLaid(b) && Playable(b, m) && sq !in Changed(b, m)
    ensures PieceOn(MakeBoard(b, m), sq) == PieceOn(b, sq)
    ensures PieceOn(b, sq) != None ==> ColourOn(MakeBoard(b, m), sq) == ColourOn(b, sq)
  {
    PieceOnAfter(b, m, sq);
    AfterUnchanged(b, m, sq);
  }

  lemma AfterUnchanged(b: Board, m: Move, sq: Sq)
    requires Makeable(b, m) && sq !in Changed(b, m)
    ensures PieceAfter(b, m, sq) == PieceOn(b, sq) && SideAfter(b, m, sq) == ColourOn(b, sq)
  {
  }

  /**
   * The fields `makemove` overwrites: the turn passes, the en-passant file is
   * set exactly by a double step (to the file it crossed), castling flags are
   * only ever cleared and only by a move touching their squares, the
   * half-move clock restarts on a pawn move or capture, and the full-move
   * number goes up after Black's move.
   */
  lemma MakeSetsFields(b: Board, m: Move)
    requires Makeable(b, m)
    ensures MakeBoard(b, m).turn == b.turn.Other()
    ensures MakeBoard(b, m).ep != NoEp <==> m.kind == Double
    ensures m.kind == Double ==> MakeBoard(b, m).ep == FileOf(m.to)
    ensures EpWellFormed(MakeBoard(b, m))
    ensures forall i :: 0 <= i < 4 && MakeBoard(b, m).castling[i] ==> b.castling[i]
    ensures forall i :: 0 <= i < 4 && b.castling[i] && !MakeBoard(b, m).castling[i] ==> Touches(i, m)
    ensures m.piece == Pawn || IsCapturing(m) ==> MakeBoard(b, m).halfmove == 0
    ensures m.piece != Pawn && !IsCapturing(m) ==> MakeBoard(b, m).halfmove == b.halfmove + 1
    ensures MakeBoard(b, m).fullmove == b.fullmove + 1 <==> b.turn == Black
  {
  }

  /** Side s's kings after the move: the king moved to the target if it was the mover, else where they were. */
  function KingsAfter(b: Board, m: Move, s: Side): Bitboard
  {
    if s == b.turn && m.piece == King then {m.to} else b.PiecesOf(s, King)
  }

  /** One square of `KingsAfter`, from the facts about the squares the move changes. */
  lemma KingSquare(b: Board, m: Move, s: Side, sq: Sq)
    requires MoveFits(m) && SquaresApart(b, m)
    requires sq in b.PiecesOf(s, King) <==> PieceOn(b, sq) == King && ColourOn(b, sq) == s
    requires PieceOn(b, m.from) == m.piece && ColourOn(b, m.from) == b.turn
    requires PieceOn(b, m.to) == TakenOnTarget(m)
    requires m.kind == EnPassant ==> 0 <= Victim(b.turn, m.to) < 64 && PieceOn(b, Victim(b.turn, m.to) as Sq) == Pawn
    requires Castles(m.kind) ==> PieceOn(b, RookFrom(b.turn, m.kind)) == Rook && PieceOn(b, RookTo(b.turn, m.kind)) == None
    requires m.piece == King ==> b.PiecesOf(b.turn, King) == {m.from}
    ensures (PieceAfter(b, m, sq) == King && SideAfter(b, m, sq) == s) <==> sq in KingsAfter(b, m, s)
  {
  }

  /** Making a move moves the mover's king with it and leaves every other king in place. */
  lemma MakeMovesKings(b: Board, m: Move, s: Side)
    requires Placement(b) && Playable(b, m)
    ensures MakeBoard(b, m).PiecesOf(s, King) == KingsAfter(b, m, s)
  {
    var a := MakeBoard(b, m);
    BeforeMove(b, m);
    PlayableApart(b, m);
    if m.piece == King {
      SingleKing(b.PiecesOf(b.turn, King), m.from);
    }
    forall sq: Sq ensures sq in a.PiecesOf(s, King) <==> sq in KingsAfter(b, m, s) {
      MakePlaces(b, m, sq);
      assert Shows(a, b, m, sq);
      KindBefore(b, sq);
      KingSquare(b, m, s, sq);
    }
  }

  /** A pawn after the move stands where one stood before, or is the mover on its (non-promotion) target. */
  lemma PawnSquare(b: Board, m: Move, sq: Sq)
    requires MoveFits(m) && SquaresApart(b, m)
    requires PieceAfter(b, m, sq) == Pawn
    ensures (sq == m.to && m.piece == Pawn && !IsPromotion(m.kind)) || PieceOn(b, sq) == Pawn
  {
  }

  /** No pawn reaches the first or last rank without promoting. */
  lemma MakeKeepsPawnsOffBackRanks(b: Board, m: Move)
    requires Placement(b) && Playable(b, m)
    ensures MakeBoard(b, m).Kind(Pawn) * (Rank1 + Rank8) == {}
  {
    var a := MakeBoard(b, m);
    PlayableApart(b, m);
    forall sq: Sq | sq in a.Kind(Pawn) ensures sq !in Rank1 + Rank8 {
      MakePlaces(b, m, sq);
      assert Shows(a, b, m, sq);
      PawnSquare(b, m, sq);
      KindBefore(b, sq);
    }
  }

  /** Making a playable move keeps the placement checks of `valid()`. */
  lemma MakeKeepsPlacement(b: Board, m: Move)
    requires Placement(b) && Playable(b, m)
    ensures Placement(MakeBoard(b, m))
  {
    MakeWellLaid(b, m);
    MakeMovesKings(b, m, White);
    MakeMovesKings(b, m, Black);
    MakeKeepsPawnsOffBackRanks(b, m);
  }

  /** The hash `makemove` installs is the recomputed hash of the new position. */
  lemma MakeKeepsHash(b: Board, m: Move)
    requires WellLaid(b) && Playable(b, m) && b.hash == HashOf(b)
    ensures MakeBoard(b, m).hash == HashOf(MakeBoard(b, m))
  {
    HashMatches(b, m);
  }

  /**
   * With the lines as they stand the hash goes stale: `makemove` passes the
   * turn but leaves the hash alone, so the side-to-move key is wrong in the
   * hash it leaves, whatever the move.
   */
  lemma AsWrittenHashStale(b: Board, m: Move)
    requires Makeable(b, m) && b.hash == HashOf(b)
    ensures MakeBoardAsWritten(b, m).hash != HashOf(MakeBoardAsWritten(b, m))
  {
    var a := MakeBoardAsWritten(b, m);
    HashOfHas(b, TurnKey);
    HashOfHas(a, TurnKey);
    assert (TurnKey in a.hash) != (TurnKey in HashOf(a));
  }
}
