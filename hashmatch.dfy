// `predict_hash` checked against `calculate_hash`: the hash `makemove`
// installs is the full hash of the position the move produces, key by key.
// Written as the source has it, a double pawn step XORs in the key of its
// target square where the position's hash holds the key of the en-passant
// file, and the two disagree after every double step.

module HashMatch {
  import opened Squares
  import opened Bitboards
  import opened Pieces
  import opened Boards
  import opened Pawns
  import opened Zobrist
  import opened Hashing
  import opened Predict
  import opened Making
  import opened Effects

  /** How often the castling key k is XOR-ed for the lost flags: once when its flag is held and touched. */
  function LostCount(c: Rights, m: Move, k: Key): nat
  {
    if k.CastlingKey? && 0 <= k.index < 4 && c[k.index] && Touches(k.index, m) then 1 else 0
  }

  lemma LostRightsOccurrences(c: Rights, m: Move, k: Key)
    ensures Occurrences(k, LostRights(c, m)) == LostCount(c, m, k)
  {
    var r0, r1, r2, r3 := LostRight(c, m, 0), LostRight(c, m, 1), LostRight(c, m, 2), LostRight(c, m, 3);
    OccurrencesAppend(k, r0 + r1 + r2, r3);
    OccurrencesAppend(k, r0 + r1, r2);
    OccurrencesAppend(k, r0, r1);
    LostRightOccurrences(c, m, k, 0);
    LostRightOccurrences(c, m, k, 1);
    LostRightOccurrences(c, m, k, 2);
    LostRightOccurrences(c, m, k, 3);
  }

  lemma LostRightOccurrences(c: Rights, m: Move, k: Key, i: int)
    requires 0 <= i < 4
    ensures Occurrences(k, LostRight(c, m, i)) == if k == CastlingKey(i) && c[i] && Touches(i, m) then 1 else 0
  {
  }

  /** The keys of a move, other than its piece keys, are one en-passant key, listed for a double step. */
  lemma MoveKeysOthers(b: Board, m: Move, e: int, k: Key)
    requires Hashable(b, m) && MoveFits(m)
    ensures k in MoveKeys(b, m, e) && !k.PieceKey? ==> k == EpKey(e) && m.kind == Double
    ensures m.kind == Double ==> EpKey(e) in MoveKeys(b, m, e)
    ensures k in MoveKeys(b, m, e) && k.PieceKey? ==> k.piece != None
  {
  }

  /** A move lists no key twice. */
  lemma MoveKeysDistinct(b: Board, m: Move, e: int)
    requires WellLaid(b) && Playable(b, m)
    ensures Distinct(MoveKeys(b, m, e))
  {
    if m.kind == EnPassant {
      assert Victim(b.turn, m.to) as Sq !in b.Occupancy(White) * b.Occupancy(Black);
    }
  }

  /** How often `predict_hash` XORs key k: the side key once, the old en-passant key once, the move's keys and the lost flags once each. */
  lemma PredictOccurrences(b: Board, m: Move, e: int, k: Key)
    requires Hashable(b, m) && Distinct(MoveKeys(b, m, e))
    ensures Occurrences(k, PredictKeys(b, m, e)) ==
              (if k == TurnKey then 1 else 0)
              + (if b.ep != NoEp && k == EpKey(b.ep) then 1 else 0)
              + (if k in MoveKeys(b, m, e) then 1 else 0)
              + LostCount(b.castling, m, k)
  {
    var ep := if b.ep != NoEp then [EpKey(b.ep)] else [];
    OccurrencesAppend(k, [TurnKey] + ep + MoveKeys(b, m, e), LostRights(b.castling, m));
    OccurrencesAppend(k, [TurnKey] + ep, MoveKeys(b, m, e));
    OccurrencesAppend(k, [TurnKey], ep);
    DistinctOccurrences(k, MoveKeys(b, m, e));
    LostRightsOccurrences(b.castling, m, k);
  }

  /** What stands on sq before the move, when the board is well laid and the move fits it. */
  lemma BeforeMove(b: Board, m: Move)
    requires WellLaid(b) && Playable(b, m)
    ensures PieceOn(b, m.from) == m.piece && ColourOn(b, m.from) == b.turn
    ensures PieceOn(b, m.to) == TakenOnTarget(m)
    ensures TakenOnTarget(m) != None ==> ColourOn(b, m.to) == b.turn.Other()
    ensures m.kind == EnPassant ==>
              PieceOn(b, Victim(b.turn, m.to) as Sq) == Pawn && ColourOn(b, Victim(b.turn, m.to) as Sq) == b.turn.Other()
    ensures Castles(m.kind) ==>
              && PieceOn(b, RookFrom(b.turn, m.kind)) == Rook && ColourOn(b, RookFrom(b.turn, m.kind)) == b.turn
              && PieceOn(b, RookTo(b.turn, m.kind)) == None
  {
    KindBefore(b, m.from);
    KindBefore(b, m.to);
    if m.kind == EnPassant {
      KindBefore(b, Victim(b.turn, m.to) as Sq);
    }
    if Castles(m.kind) {
      KindBefore(b, RookFrom(b.turn, m.kind));
      KindBefore(b, RookTo(b.turn, m.kind));
    }
  }

  /**
   * The move's piece keys as a set: the mover leaving its origin, the
   * arriving piece on the target, the captured piece, the en-passant victim,
   * and the castling rook's two squares.
   */
  function PieceKeysOf(b: Board, m: Move): set<Key>
  {
    var us := b.turn;
    var them := us.Other();
    {PieceKey(m.piece, us, m.from), PieceKey(Arriving(m), us, m.to)}
    + (if TakenOnTarget(m) != None then {PieceKey(TakenOnTarget(m), them, m.to)} else {})
    + (if m.kind == EnPassant && 0 <= Victim(us, m.to) < 64 then {PieceKey(Pawn, them, Victim(us, m.to) as Sq)} else {})
    + (if Castles(m.kind) then {PieceKey(Rook, us, RookFrom(us, m.kind)), PieceKey(Rook, us, RookTo(us, m.kind))} else {})
  }

  lemma MoveKeysAsSet(b: Board, m: Move, e: int, k: Key)
    requires Makeable(b, m) && k.PieceKey?
    ensures k in MoveKeys(b, m, e) <==> k in PieceKeysOf(b, m)
  {
  }

  /** The squares a move changes are distinct from one another. */
  predicate SquaresApart(b: Board, m: Move)
  {
    && m.from != m.to
    && (m.kind == EnPassant ==> Victim(b.turn, m.to) != m.from && Victim(b.turn, m.to) != m.to)
    && (Castles(m.kind) ==>
          && RookFrom(b.turn, m.kind) !in {m.from, m.to} && RookTo(b.turn, m.kind) !in {m.from, m.to}
          && RookFrom(b.turn, m.kind) != RookTo(b.turn, m.kind))
  }

  lemma PlayableApart(b: Board, m: Move)
    requires WellLaid(b) && Playable(b, m)
    ensures SquaresApart(b, m)
  {
    if m.kind == EnPassant {
      assert Victim(b.turn, m.to) as Sq !in b.Occupancy(White) * b.Occupancy(Black);
    }
  }

  /** The set form of `MovePieceKeys`, from the facts about the squares the move changes. */
  lemma PieceKeyToggles(b: Board, m: Move, p: Piece, s: Side, sq: Sq)
    requires MoveFits(m) && SquaresApart(b, m) && p != None
    requires PieceOn(b, m.from) == m.piece && ColourOn(b, m.from) == b.turn
    requires PieceOn(b, m.to) == TakenOnTarget(m)
    requires TakenOnTarget(m) != None ==> ColourOn(b, m.to) == b.turn.Other()
    requires m.kind == EnPassant ==>
               && 0 <= Victim(b.turn, m.to) < 64
               && PieceOn(b, Victim(b.turn, m.to) as Sq) == Pawn && ColourOn(b, Victim(b.turn, m.to) as Sq) == b.turn.Other()
    requires Castles(m.kind) ==>
               && PieceOn(b, RookFrom(b.turn, m.kind)) == Rook && ColourOn(b, RookFrom(b.turn, m.kind)) == b.turn
               && PieceOn(b, RookTo(b.turn, m.kind)) == None
    ensures (PieceKey(p, s, sq) in PieceKeysOf(b, m)) ==
            ((PieceOn(b, sq) == p && ColourOn(b, sq) == s) != (PieceAfter(b, m, sq) == p && SideAfter(b, m, sq) == s))
  {
  }

  /**
   * A piece key is among the move's keys exactly when the piece stands on
   * its square before the move and not after, or after and not before.
   */
  lemma MovePieceKeys(b: Board, m: Move, e: int, p: Piece, s: Side, sq: Sq)
    requires WellLaid(b) && Playable(b, m) && p != None
    ensures (PieceKey(p, s, sq) in MoveKeys(b, m, e)) ==
            ((PieceOn(b, sq) == p && ColourOn(b, sq) == s) != (PieceAfter(b, m, sq) == p && SideAfter(b, m, sq) == s))
  {
    BeforeMove(b, m);
    PlayableApart(b, m);
    MoveKeysAsSet(b, m, e, PieceKey(p, s, sq));
    PieceKeyToggles(b, m, p, s, sq);
  }

  /**
   * Key by key: `predict_hash` holds k exactly when the full hash of a board
   * a does, where a shows the turn passed, the en-passant file and castling
   * flags the move sets, and on k's square what the move puts there.
   */
  lemma KeyMatch(b: Board, m: Move, a: Board, k: Key)
    requires WellLaid(b) && Playable(b, m) && b.hash == HashOf(b)
    requires a.turn == b.turn.Other() && a.castling == RightsAfter(b.castling, m)
    requires a.ep == if m.kind == Double then FileOf(m.to) else NoEp
    requires k.PieceKey? ==> PieceOn(a, k.sq) == PieceAfter(b, m, k.sq)
    requires k.PieceKey? && PieceAfter(b, m, k.sq) != None ==> ColourOn(a, k.sq) == SideAfter(b, m, k.sq)
    ensures k in PredictHash(b, m) <==> k in HashOf(a)
  {
    var e := FileOf(m.to);
    MoveKeysDistinct(b, m, e);
    if k.PieceKey? && k.piece != None {
      MovePieceKeys(b, m, e, k.piece, k.side, k.sq);
      PieceKeyMatch(b, m, a, k);
    } else {
      OtherKeyMatch(b, m, a, k);
    }
  }

  /** A piece key: XOR-ed when the piece comes or goes. */
  lemma PieceKeyMatch(b: Board, m: Move, a: Board, k: Key)
    requires Hashable(b, m) && MoveFits(m) && Distinct(MoveKeys(b, m, FileOf(m.to))) && b.hash == HashOf(b)
    requires k.PieceKey? && k.piece != None
    requires PieceOn(a, k.sq) == PieceAfter(b, m, k.sq)
    requires PieceAfter(b, m, k.sq) != None ==> ColourOn(a, k.sq) == SideAfter(b, m, k.sq)
    requires (k in MoveKeys(b, m, FileOf(m.to))) ==
             ((PieceOn(b, k.sq) == k.piece && ColourOn(b, k.sq) == k.side) !=
              (PieceAfter(b, m, k.sq) == k.piece && SideAfter(b, m, k.sq) == k.side))
    ensures k in PredictHash(b, m) <==> k in HashOf(a)
  {
    var e := FileOf(m.to);
    XorAllHas(b.hash, PredictKeys(b, m, e), k);
    PredictOccurrences(b, m, e, k);
    HashOfHas(b, k);
    HashOfHas(a, k);
  }

  /** The side, en-passant and castling keys, and piece keys naming no piece. */
  lemma OtherKeyMatch(b: Board, m: Move, a: Board, k: Key)
    requires Hashable(b, m) && MoveFits(m) && Distinct(MoveKeys(b, m, FileOf(m.to))) && b.hash == HashOf(b)
    requires !k.PieceKey? || k.piece == None
    requires a.turn == b.turn.Other() && a.castling == RightsAfter(b.castling, m)
    requires a.ep == if m.kind == Double then FileOf(m.to) else NoEp
    ensures k in PredictHash(b, m) <==> k in HashOf(a)
  {
    var e := FileOf(m.to);
    XorAllHas(b.hash, PredictKeys(b, m, e), k);
    PredictOccurrences(b, m, e, k);
    HashOfHas(b, k);
    HashOfHas(a, k);
    MoveKeysOthers(b, m, e, k);
  }

  /**
   * The hash `makemove` installs is the full hash of the new position, when
   * the old position's hash was its own.
   */
  lemma HashMatches(b: Board, m: Move)
    requires WellLaid(b) && Playable(b, m) && b.hash == HashOf(b)
    ensures PredictHash(b, m) == HashOf(MakeBoard(b, m))
  {
    var a := MakeBoard(b, m);
    forall k ensures k in PredictHash(b, m) <==> k in HashOf(a) {
      if k.PieceKey? {
        PieceOnAfter(b, m, k.sq);
      }
      KeyMatch(b, m, a, k);
    }
  }

  /**
   * As written, `predict_hash` misses after every double pawn step: it XORs
   * in the key of the target square, which the full hash of the new
   * position (keyed by the en-passant file) never holds.
   */
  lemma PredictAsWrittenMisses(b: Board, m: Move)
    requires WellLaid(b) && Playable(b, m) && b.hash == HashOf(b) && EpWellFormed(b) && m.kind == Double
    ensures EpKey(m.to) in PredictHashAsWritten(b, m)
    ensures EpKey(m.to) !in HashOf(MakeBoard(b, m))
    ensures PredictHashAsWritten(b, m) != HashOf(MakeBoard(b, m))
  {
    assert m.to !in Rank1;
    MoveKeysDistinct(b, m, m.to);
    TargetKeyXored(b, m);
    TargetKeyAbsent(MakeBoard(b, m), m.to);
  }

  lemma TargetKeyXored(b: Board, m: Move)
    requires Hashable(b, m) && MoveFits(m) && m.kind == Double && Distinct(MoveKeys(b, m, m.to))
    requires b.hash == HashOf(b) && b.ep != m.to
    ensures EpKey(m.to) in PredictHashAsWritten(b, m)
  {
    var k := EpKey(m.to);
    XorAllHas(b.hash, PredictKeys(b, m, m.to), k);
    PredictOccurrences(b, m, m.to, k);
    MoveKeysOthers(b, m, m.to, k);
    HashOfHas(b, k);
  }

  lemma TargetKeyAbsent(a: Board, to: Sq)
    requires a.ep == FileOf(to) && to >= 8
    ensures EpKey(to) !in HashOf(a)
  {
    HashOfHas(a, EpKey(to));
  }
}
