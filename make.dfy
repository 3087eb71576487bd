// Making and unmaking a move (makemove.cpp, undomove.cpp) as functions on
// the position value. Both toggle the same squares of the same masks, so the
// change a move makes is stated once, per mask, as the set of squares it
// flips; `Position.MakeMove` and `Position.UndoMove` in position.dfy perform
// the flips one square at a time and are proved to match these functions.

module Making {
  import opened Squares
  import opened Bitboards
  import opened Pieces
  import opened Boards
  import opened Pawns
  import opened Zobrist
  import opened Predict

  /**
   * One history record: the move, and what the move overwrites and cannot
   * recompute (en-passant file, castling flags, half-move clock, hash).
   */
  datatype Entry = Entry(move: Move, ep: int, castling: Rights, halfmove: int, hash: Hash)

  predicate IsPromotion(kind: MoveType) { kind == Promo || kind == PromoCapture }

  /** The asserts `makemove` makes of the move alone, per kind. */
  predicate MoveFits(m: Move)
  {
    && m.to != m.from && m.piece != None && m.captured != King
    && m.promotion != Pawn && m.promotion != King
    && match m.kind
       case Normal => m.captured == None && m.promotion == None
       case Capture => m.captured != None && m.promotion == None
       case Double =>
         m.piece == Pawn && m.captured == None && m.promotion == None && FileOf(m.to) == FileOf(m.from)
       case EnPassant => m.piece == Pawn && m.captured == Pawn && m.promotion == None
       case KingSide => m.piece == King && m.captured == None && m.promotion == None
       case QueenSide => m.piece == King && m.captured == None && m.promotion == None
       case Promo => m.piece == Pawn && m.captured == None && m.promotion != None
       case PromoCapture => m.piece == Pawn && m.captured != None && m.promotion != None
  }

  /**
   * `makemove`'s preconditions: the move's own asserts, an en-passant capture
   * lands on the board's en-passant file, and its victim square exists.
   */
  predicate Makeable(b: Board, m: Move)
  {
    && MoveFits(m)
    && (m.kind == EnPassant ==> FileOf(m.to) == b.ep && 0 <= Victim(b.turn, m.to) < 64)
  }

  lemma MakeableHashable(b: Board, m: Move)
    requires Makeable(b, m)
    ensures Hashable(b, m)
  {
  }

  /** The rook's two squares when castling, none otherwise. */
  function RookSquares(us: Side, kind: MoveType): Bitboard
  {
    if kind == KingSide then {KingSideRookFrom(us), KingSideRookTo(us)}
    else if kind == QueenSide then {QueenSideRookFrom(us), QueenSideRookTo(us)}
    else {}
  }

  /** The square an enemy piece disappears from: the target, or the en-passant victim. */
  function TakenSquares(us: Side, m: Move): Bitboard
    requires m.kind == EnPassant ==> 0 <= Victim(us, m.to) < 64
  {
    if m.kind == Capture || m.kind == PromoCapture then {m.to}
    else if m.kind == EnPassant then {Victim(us, m.to) as Sq}
    else {}
  }

  /** The squares of side s's colour mask a move by `us` flips. */
  function ColourFlips(us: Side, m: Move, s: Side): Bitboard
    requires m.kind == EnPassant ==> 0 <= Victim(us, m.to) < 64
  {
    if s == us then Toggle({m.from, m.to}, RookSquares(us, m.kind))
    else TakenSquares(us, m)
  }

  /**
   * The squares of piece p's mask a move by `us` flips: the mover's origin
   * and target, the castling rook, a promotion swapping the pawn for the new
   * piece on the target, and the captured piece.
   */
  function PieceFlips(us: Side, m: Move, p: Piece): Bitboard
    requires m.kind == EnPassant ==> 0 <= Victim(us, m.to) < 64
  {
    var moved := if p == m.piece then {m.from, m.to} else {};
    var rook := if p == Rook then RookSquares(us, m.kind) else {};
    var promoted :=
      if IsPromotion(m.kind) then Toggle(if p == Pawn then {m.to} else {}, if p == m.promotion then {m.to} else {})
      else {};
    var taken :=
      if m.kind == EnPassant then (if p == Pawn then TakenSquares(us, m) else {})
      else if p == m.captured then TakenSquares(us, m) else {};
    Toggle(Toggle(Toggle(moved, rook), promoted), taken)
  }

  /** Castling flags after the move: a flag survives unless the move touches its squares. */
  function RightsAfter(c: Rights, m: Move): (r: Rights)
    ensures forall i :: 0 <= i < 4 ==> (r[i] <==> c[i] && !Touches(i, m))
  {
    [c[0] && !Touches(0, m), c[1] && !Touches(1, m), c[2] && !Touches(2, m), c[3] && !Touches(3, m)]
  }

  /** The half-move clock restarts on a pawn move or a capture and counts up otherwise. */
  function HalfmoveAfter(b: Board, m: Move): int
  {
    if m.piece == Pawn || IsCapturing(m) then 0 else b.halfmove + 1
  }

  /** The full-move number goes up after Black's move. */
  function FullmoveAfter(b: Board): int
  {
    b.fullmove + (if b.turn == Black then 1 else 0)
  }

  /** The colour masks with side s's mask flipped on `flips(s)`, for a move by `us`. */
  function FlipColours(c: Pair, us: Side, m: Move): (r: Pair)
    requires m.kind == EnPassant ==> 0 <= Victim(us, m.to) < 64
    ensures forall s: Side :: r[s.Index()] == Toggle(c[s.Index()], ColourFlips(us, m, s))
  {
    [Toggle(c[0], ColourFlips(us, m, White)), Toggle(c[1], ColourFlips(us, m, Black))]
  }

  /** The piece masks, each flipped on its `PieceFlips`, for a move by `us`. */
  function FlipPieces(ps: Six, us: Side, m: Move): (r: Six)
    requires m.kind == EnPassant ==> 0 <= Victim(us, m.to) < 64
    ensures forall j :: 0 <= j < 6 ==> r[j] == Toggle(ps[j], PieceFlips(us, m, PieceAt(j)))
  {
    seq(6, j requires 0 <= j < 6 => Toggle(ps[j], PieceFlips(us, m, PieceAt(j))))
  }

  /**
   * `makemove`: the pieces moved, the en-passant file set by a double step
   * and cleared otherwise, touched castling flags cleared, the clocks
   * advanced, the hash replaced by its prediction, and the turn passed.
   */
  function MakeBoard(b: Board, m: Move): Board
    requires Makeable(b, m)
  {
    Board(
      FlipColours(b.colours, b.turn, m),
      FlipPieces(b.pieces, b.turn, m),
      b.turn.Other(),
      if m.kind == Double then FileOf(m.to) else NoEp,
      RightsAfter(b.castling, m),
      HalfmoveAfter(b, m),
      FullmoveAfter(b),
      PredictHash(b, m))
  }

  /** The history record `makemove` pushes. */
  function EntryOf(b: Board, m: Move): (e: Entry)
    ensures e.move == m
  {
    Entry(m, b.ep, b.castling, b.halfmove, b.hash)
  }

  /** `undomove`'s precondition on the record: the move it replays, by the side that made it, is makeable. */
  predicate Undoable(b: Board, e: Entry)
  {
    MoveFits(e.move) && (e.move.kind == EnPassant ==> 0 <= Victim(b.turn.Other(), e.move.to) < 64)
  }

  /**
   * `undomove`: the turn passed back, the same squares flipped again, the
   * full-move number stepped back after Black's move, and everything else
   * restored from the record.
   */
  function UndoBoard(b: Board, e: Entry): Board
    requires Undoable(b, e)
  {
    var us := b.turn.Other();
    Board(
      FlipColours(b.colours, us, e.move),
      FlipPieces(b.pieces, us, e.move),
      us,
      e.ep,
      e.castling,
      e.halfmove,
      b.fullmove - (if us == Black then 1 else 0),
      e.hash)
  }

  lemma ToggleTwice(a: Bitboard, d: Bitboard)
    ensures Toggle(Toggle(a, d), d) == a
  {
  }

  /** Unmaking a move with the record making it pushed gives back the position exactly. */
  lemma UndoMakeRoundTrip(b: Board, m: Move)
    requires Makeable(b, m)
    ensures Undoable(MakeBoard(b, m), EntryOf(b, m))
    ensures UndoBoard(MakeBoard(b, m), EntryOf(b, m)) == b
  {
    var a := MakeBoard(b, m);
    var u := UndoBoard(a, EntryOf(b, m));
    forall s: Side ensures u.colours[s.Index()] == b.colours[s.Index()] {
      ToggleTwice(b.colours[s.Index()], ColourFlips(b.turn, m, s));
    }
    assert u.colours == b.colours by {
      assert u.colours[White.Index()] == b.colours[White.Index()];
      assert u.colours[Black.Index()] == b.colours[Black.Index()];
    }
    forall j | 0 <= j < 6 ensures u.pieces[j] == b.pieces[j] {
      ToggleTwice(b.pieces[j], PieceFlips(b.turn, m, PieceAt(j)));
    }
    assert u.pieces == b.pieces;
  }

  /**
   * `makemove` as its lines stand: the pieces, en-passant file, castling
   * flags and turn change as in `MakeBoard`, but neither clock nor the hash
   * is touched.
   */
  function MakeBoardAsWritten(b: Board, m: Move): Board
    requires Makeable(b, m)
  {
    MakeBoard(b, m).(halfmove := b.halfmove, fullmove := b.fullmove, hash := b.hash)
  }

  /**
   * With the lines as they stand, making and unmaking a move restores the
   * position exactly when White made it: after a Black move `undomove`
   * steps the full-move number back although `makemove` never stepped it
   * forward, leaving it one lower than before.
   */
  lemma AsWrittenUndoLosesFullmove(b: Board, m: Move)
    requires Makeable(b, m)
    ensures Undoable(MakeBoardAsWritten(b, m), EntryOf(b, m))
    ensures UndoBoard(MakeBoardAsWritten(b, m), EntryOf(b, m)) == b <==> b.turn == White
    ensures b.turn == Black ==> UndoBoard(MakeBoardAsWritten(b, m), EntryOf(b, m)).fullmove == b.fullmove - 1
  {
    UndoMakeRoundTrip(b, m);
    var e := EntryOf(b, m);
    var u := UndoBoard(MakeBoardAsWritten(b, m), e);
    assert u == UndoBoard(MakeBoard(b, m), e).(fullmove := u.fullmove);
  }
}
