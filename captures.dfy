// `Position::legal_captures` (legal_captures.cpp): every legal capture of
// the side to move, generated without making any move. In double check only
// the king captures. Otherwise the targets are the checker alone (single
// check) or every enemy piece, pinned pieces may only take their pinner (or
// capture en passant along the pin), and the free pieces, pawns included,
// capture as usual.

module Captures {
  import opened Squares
  import opened Bitboards
  import opened Pieces
  import opened Boards
  import opened Movegen
  import opened Attacks
  import opened Emit
  import opened Pawns
  import opened Pins
  import opened Validity

  /** What the generator reads without checking: both kings on the board, an en-passant field that is a file or unset. */
  predicate Ready(b: Board)
  {
    b.HasKing(b.turn) && b.HasKing(b.turn.Other()) && EpWellFormed(b)
  }

  /** The rank a pawn of side s promotes on. */
  function LastRank(s: Side): Bitboard
  {
    if s == White then Rank8 else Rank1
  }

  /** `allowed`: the one checker in single check, else every enemy piece. */
  function CaptureTargets(b: Board): (allowed: Bitboard)
    requires Ready(b)
    ensures allowed <= b.Occupancy(b.turn.Other())
  {
    var ch := Checkers(b);
    if |ch| == 1 then
      var c := Lowest(ch);
      assert c in ch;
      {c}
    else b.Occupancy(b.turn.Other())
  }

  // ----- pinned pieces -----

  /**
   * A pawn pinned along a diagonal: it takes the pinner on asq if a capture
   * step reaches it (four promotions on the last rank), or else captures en
   * passant onto a square between king and pinner. The source tests the
   * lower-file and the higher-file en-passant step in two branches that emit
   * the same move; they are one branch here.
   */
  function PinnedPawnCaptures(b: Board, ksq: Sq, sq: Sq, attackers: Bitboard, asq: Sq): seq<Move>
    requires EpWellFormed(b)
  {
    var s := b.turn;
    var ahead := Forward(s, {sq});
    if (East(ahead) + West(ahead)) * attackers != {} then
      if attackers * LastRank(s) != {} then Expand(b, PromoCapture, sq, asq, Pawn)
      else Expand(b, Capture, sq, asq, Pawn)
    else if b.ep != NoEp && EpTarget(s, b.ep) in Between(ksq, asq) * (West(ahead) + East(ahead)) then
      [Move(EnPassant, sq, EpTarget(s, b.ep), Pawn, Pawn, None)]
    else
      []
  }

  /**
   * The body of the pin loops for one friendly piece on sq that the king on
   * ksq sees along a diagonal (`diag`) or a line: when lifting it uncovers an
   * enemy slider that is a permitted target, the piece captures that slider,
   * if it moves the right way.
   */
  function PinCaptures(b: Board, ksq: Sq, sq: Sq, diag: bool, allowed: Bitboard): seq<Move>
    requires EpWellFormed(b)
  {
    var us := b.turn;
    var attackers := Discovered(b, ksq, sq, diag, us.Other());
    if attackers == {} || attackers * allowed == {} then []
    else
      var asq := Lowest(attackers);
      if diag then
        if sq in b.PiecesOf(us, Pawn) then PinnedPawnCaptures(b, ksq, sq, attackers, asq)
        else if sq in b.PiecesOf(us, Bishop) then Expand(b, Capture, sq, asq, Bishop)
        else if sq in b.PiecesOf(us, Queen) then Expand(b, Capture, sq, asq, Queen)
        else []
      else
        if sq in b.PiecesOf(us, Rook) then Expand(b, Capture, sq, asq, Rook)
        else if sq in b.PiecesOf(us, Queen) then Expand(b, Capture, sq, asq, Queen)
        else []
  }

  /** The pin loop over the candidate squares, lowest first. */
  function PinLoop(b: Board, ksq: Sq, cands: Bitboard, diag: bool, allowed: Bitboard): seq<Move>
    requires EpWellFormed(b)
    decreases |cands|
  {
    if cands == {} then []
    else
      var sq := Lowest(cands);
      PinCaptures(b, ksq, sq, diag, allowed) + PinLoop(b, ksq, cands - {sq}, diag, allowed)
  }

  /** The candidates the pin loop records as pinned (`bishop_pinned`, `rook_pinned`). */
  function PinnedAmong(b: Board, ksq: Sq, cands: Bitboard, diag: bool): Bitboard
  {
    set n | n in cands && Discovered(b, ksq, n, diag, b.turn.Other()) != {}
  }

  /** The friendly pieces the king on ksq sees along diagonals (`diag`) or along ranks and files: the pin loop's candidates. */
  function PinCandidates(b: Board, diag: bool): Bitboard
    requires b.HasKing(b.turn)
  {
    b.Occupancy(b.turn) * Lines(b.KingPosition(b.turn), b.Occupied(), diag)
  }

  /** `nonpinned_pieces`: the friendly pieces neither pin loop recorded. */
  function FreePieces(b: Board): Bitboard
    requires b.HasKing(b.turn)
  {
    var ksq := b.KingPosition(b.turn);
    Toggle(b.Occupancy(b.turn), PinnedAmong(b, ksq, PinCandidates(b, false), false) + PinnedAmong(b, ksq, PinCandidates(b, true), true))
  }

  // ----- free pieces -----

  /**
   * The captures of the free pawns: right and left, then the promoting right
   * and left, then en passant onto a square of `epAllowed`.
   */
  function PawnCaptures(b: Board, free: Bitboard, allowed: Bitboard, epAllowed: Bitboard): seq<Move>
    requires Ready(b)
  {
    var s := b.turn;
    var pawns := b.PiecesOf(s, Pawn) * free;
    Diagonals(b, s, pawns * Complement(PromotionRank(s)), allowed, Capture)
    + Diagonals(b, s, pawns * PromotionRank(s), allowed, PromoCapture)
    + EnPassants(b, s, pawns, epAllowed)
  }

  /** The captures of the free knights, bishops, rooks and queens, in that order. */
  function PieceCaptures(b: Board, free: Bitboard, allowed: Bitboard): seq<Move>
  {
    var us := b.turn;
    var occ := b.Occupied();
    EmittedFrom(b, b.PiecesOf(us, Knight) * free, Knight, occ, allowed, Capture)
    + EmittedFrom(b, b.PiecesOf(us, Bishop) * free, Bishop, occ, allowed, Capture)
    + EmittedFrom(b, b.PiecesOf(us, Rook) * free, Rook, occ, allowed, Capture)
    + EmittedFrom(b, b.PiecesOf(us, Queen) * free, Queen, occ, allowed, Capture)
  }

  /** The king's captures onto enemy pieces on squares it may enter. */
  function KingCaptures(b: Board): seq<Move>
    requires Ready(b)
  {
    var ksq := b.KingPosition(b.turn);
    Emitted(b, KingMoves(ksq, {}) * KingAllowedToMove(b) * b.Occupancy(b.turn.Other()), From(ksq), Capture, King)
  }

  /** Double check: only the king captures, onto enemy pieces on squares it may enter. */
  function DoubleCheckCaptures(b: Board): seq<Move>
    requires Ready(b)
  {
    var us := b.turn;
    EmittedFrom(b, b.PiecesOf(us, King), King, b.Occupied(), b.Occupancy(us.Other()) * KingAllowedToMove(b), Capture)
  }

  /** Out of check or in single check: the pin loops, then the free pawns, the free pieces and the king. */
  function UnforcedCaptures(b: Board, allowed: Bitboard, epAllowed: Bitboard): seq<Move>
    requires Ready(b)
  {
    var ksq := b.KingPosition(b.turn);
    var free := FreePieces(b);
    PinLoop(b, ksq, PinCandidates(b, true), true, allowed) + PinLoop(b, ksq, PinCandidates(b, false), false, allowed)
    + PawnCaptures(b, free, allowed, epAllowed) + PieceCaptures(b, free, allowed) + KingCaptures(b)
  }

  /** Everything `legal_captures` appends, as written: en passant is not limited to `allowed`. */
  function LegalCapturesAsWritten(b: Board): seq<Move>
    requires Ready(b)
  {
    if |Checkers(b)| > 1 then DoubleCheckCaptures(b) else UnforcedCaptures(b, CaptureTargets(b), AllSquares)
  }

  /**
   * The en-passant targets that deal with a single check: a square between
   * king and checker, or the target behind the checker when the checker is
   * the pawn that just made a double step. Out of check, every square.
   */
  function EpTargets(b: Board): Bitboard
    requires Ready(b)
  {
    var ch := Checkers(b);
    if |ch| == 1 && b.ep != NoEp then
      var c := Lowest(ch);
      var t := EpTarget(b.turn, b.ep);
      Between(b.KingPosition(b.turn), c) + (if c == t - Push(b.turn) then {t} else {})
    else AllSquares
  }

  /** `legal_captures` with en passant held to `EpTargets`: the generator the rest of the model uses. */
  function LegalCapturesSpec(b: Board): seq<Move>
    requires Ready(b)
  {
    if |Checkers(b)| > 1 then DoubleCheckCaptures(b) else UnforcedCaptures(b, CaptureTargets(b), EpTargets(b))
  }

  // ----- the methods -----

  /** One turn of a pin loop: the inline pin test, then the captures of the pinned piece. */
  method AppendPinCaptures(b: Board, ksq: Sq, sq: Sq, diag: bool, allowed: Bitboard, moves: seq<Move>, pinned: Bitboard)
    returns (out: seq<Move>, pinned': Bitboard)
    requires EpWellFormed(b)
    ensures out == moves + PinCaptures(b, ksq, sq, diag, allowed)
    ensures pinned' == pinned + (if Discovered(b, ksq, sq, diag, b.turn.Other()) != {} then {sq} else {})
  {
    var us := b.turn;
    var occ := b.Occupied();
    var rays := Lines(ksq, occ, diag);
    var newRays := Lines(ksq, Toggle(occ, {sq}), diag);
    var attackers := Toggle(newRays, rays) * Pinners(b, us.Other(), diag);
    pinned' := pinned;
    if attackers != {} {
      pinned' := pinned + {sq};
    }
    out := moves;
    if attackers != {} && attackers * allowed != {} {
      var asq := Lowest(attackers);
      if diag {
        if sq in b.PiecesOf(us, Pawn) {
          out := out + PinnedPawnCaptures(b, ksq, sq, attackers, asq);
        } else if sq in b.PiecesOf(us, Bishop) {
          out := out + Expand(b, Capture, sq, asq, Bishop);
        } else if sq in b.PiecesOf(us, Queen) {
          out := out + Expand(b, Capture, sq, asq, Queen);
        }
      } else {
        if sq in b.PiecesOf(us, Rook) {
          out := out + Expand(b, Capture, sq, asq, Rook);
        } else if sq in b.PiecesOf(us, Queen) {
          out := out + Expand(b, Capture, sq, asq, Queen);
        }
      }
    }
  }

  lemma PinLoopStep(b: Board, ksq: Sq, cands: Bitboard, diag: bool, allowed: Bitboard, done: seq<Move>)
    requires EpWellFormed(b) && cands != {}
    ensures done + PinLoop(b, ksq, cands, diag, allowed) ==
            (done + PinCaptures(b, ksq, Lowest(cands), diag, allowed)) + PinLoop(b, ksq, cands - {Lowest(cands)}, diag, allowed)
  {
    var sq := Lowest(cands);
    assert PinLoop(b, ksq, cands, diag, allowed) == PinCaptures(b, ksq, sq, diag, allowed) + PinLoop(b, ksq, cands - {sq}, diag, allowed);
    AppendTwo(done, PinCaptures(b, ksq, sq, diag, allowed), PinLoop(b, ksq, cands - {sq}, diag, allowed));
  }

  lemma PinnedAmongAdd(b: Board, ksq: Sq, done: Bitboard, diag: bool, sq: Sq)
    ensures PinnedAmong(b, ksq, done + {sq}, diag) ==
            PinnedAmong(b, ksq, done, diag) + (if Discovered(b, ksq, sq, diag, b.turn.Other()) != {} then {sq} else {})
  {
  }

  /** A pin loop: `for (sq : occupancy(us) & rays)`, collecting the pinned squares as it goes. */
  method PinScan(b: Board, ksq: Sq, moves: seq<Move>, cands: Bitboard, diag: bool, allowed: Bitboard)
    returns (out: seq<Move>, pinned: Bitboard)
    requires EpWellFormed(b)
    ensures out == moves + PinLoop(b, ksq, cands, diag, allowed)
    ensures pinned == PinnedAmong(b, ksq, cands, diag)
  {
    out := moves;
    pinned := {};
    var rest := cands;
    ghost var done: Bitboard := {};
    while rest != {}
      invariant done + rest == cands
      invariant out + PinLoop(b, ksq, rest, diag, allowed) == moves + PinLoop(b, ksq, cands, diag, allowed)
      invariant pinned == PinnedAmong(b, ksq, done, diag)
      decreases |rest|
    {
      var sq := Lowest(rest);
      PinLoopStep(b, ksq, rest, diag, allowed, out);
      PinnedAmongAdd(b, ksq, done, diag, sq);
      out, pinned := AppendPinCaptures(b, ksq, sq, diag, allowed, out, pinned);
      rest := rest - {sq};
      done := done + {sq};
    }
  }

  /** The free pawns' captures. */
  method AppendPawnCaptures(b: Board, moves: seq<Move>, free: Bitboard, allowed: Bitboard, epAllowed: Bitboard)
    returns (out: seq<Move>)
    requires Ready(b)
    ensures out == moves + PawnCaptures(b, free, allowed, epAllowed)
  {
    var s := b.turn;
    var pawns := b.PiecesOf(s, Pawn) * free;
    var promo := pawns * PromotionRank(s);
    var nonpromo := pawns * Complement(PromotionRank(s));
    var o1 := AppendDiagonals(b, s, moves, nonpromo, allowed, Capture);
    var o2 := AppendDiagonals(b, s, o1, promo, allowed, PromoCapture);
    out := AppendEnPassants(b, s, o2, pawns, epAllowed);
    AppendThree(moves, Diagonals(b, s, nonpromo, allowed, Capture), Diagonals(b, s, promo, allowed, PromoCapture),
      EnPassants(b, s, pawns, epAllowed));
  }

  lemma AppendThree(moves: seq<Move>, a: seq<Move>, b: seq<Move>, c: seq<Move>)
    ensures moves + (a + b + c) == ((moves + a) + b) + c
  {
  }

  /** The free pieces' loops. */
  method AppendPieceCaptures(b: Board, moves: seq<Move>, free: Bitboard, allowed: Bitboard) returns (out: seq<Move>)
    ensures out == moves + PieceCaptures(b, free, allowed)
  {
    var us := b.turn;
    var occ := b.Occupied();
    var o1 := EmitFrom(b, moves, b.PiecesOf(us, Knight) * free, Knight, occ, allowed, Capture);
    var o2 := EmitFrom(b, o1, b.PiecesOf(us, Bishop) * free, Bishop, occ, allowed, Capture);
    var o3 := EmitFrom(b, o2, b.PiecesOf(us, Rook) * free, Rook, occ, allowed, Capture);
    out := EmitFrom(b, o3, b.PiecesOf(us, Queen) * free, Queen, occ, allowed, Capture);
    AppendFour(moves, EmittedFrom(b, b.PiecesOf(us, Knight) * free, Knight, occ, allowed, Capture),
      EmittedFrom(b, b.PiecesOf(us, Bishop) * free, Bishop, occ, allowed, Capture),
      EmittedFrom(b, b.PiecesOf(us, Rook) * free, Rook, occ, allowed, Capture),
      EmittedFrom(b, b.PiecesOf(us, Queen) * free, Queen, occ, allowed, Capture));
  }

  /** The king's capture loop, with `king_allowed()` computed by its own loops. */
  method AppendKingCaptures(b: Board, moves: seq<Move>) returns (out: seq<Move>)
    requires Ready(b)
    ensures out == moves + KingCaptures(b)
  {
    var ksq := b.KingPosition(b.turn);
    var safe := KingAllowed(b, b.turn);
    out := EmitTargets(b, moves, KingMoves(ksq, {}) * safe * b.Occupancy(b.turn.Other()), From(ksq), Capture, King);
  }

  /** The main part, out of check or in single check. */
  method AppendUnforced(b: Board, moves: seq<Move>, allowed: Bitboard, epAllowed: Bitboard) returns (out: seq<Move>)
    requires Ready(b)
    ensures out == moves + UnforcedCaptures(b, allowed, epAllowed)
  {
    var us := b.turn;
    var ksq := b.KingPosition(us);
    var occ := b.Occupied();
    var diagonal := b.Occupancy(us) * BishopMoves(ksq, occ);
    var straight := b.Occupancy(us) * RookMoves(ksq, occ);
    var o1, bishopPinned := PinScan(b, ksq, moves, diagonal, true, allowed);
    var o2, rookPinned := PinScan(b, ksq, o1, straight, false, allowed);
    var free := Toggle(b.Occupancy(us), rookPinned + bishopPinned);
    var o3 := AppendPawnCaptures(b, o2, free, allowed, epAllowed);
    var o4 := AppendPieceCaptures(b, o3, free, allowed);
    out := AppendKingCaptures(b, o4);
    AppendFive(moves, PinLoop(b, ksq, diagonal, true, allowed), PinLoop(b, ksq, straight, false, allowed),
      PawnCaptures(b, free, allowed, epAllowed), PieceCaptures(b, free, allowed), KingCaptures(b));
  }

  lemma AppendFive(moves: seq<Move>, a: seq<Move>, b: seq<Move>, c: seq<Move>, d: seq<Move>, e: seq<Move>)
    ensures moves + (a + b + c + d + e) == ((((moves + a) + b) + c) + d) + e
  {
  }

  /** `legal_captures(moves)` as written. */
  method LegalCapturesAsWrittenScan(b: Board, moves: seq<Move>) returns (out: seq<Move>)
    requires Ready(b)
    ensures out == moves + LegalCapturesAsWritten(b)
  {
    var us := b.turn;
    var ch := Checkers(b);
    if |ch| > 1 {
      var safe := KingAllowed(b, us);
      out := EmitFrom(b, moves, b.PiecesOf(us, King), King, b.Occupied(), b.Occupancy(us.Other()) * safe, Capture);
      return;
    }
    var allowed := b.Occupancy(us.Other());
    if |ch| == 1 {
      allowed := {Lowest(ch)};
    }
    out := AppendUnforced(b, moves, allowed, AllSquares);
  }

  /** `legal_captures(moves)` with the en-passant captures held to the squares that answer a single check. */
  method LegalCaptures(b: Board, moves: seq<Move>) returns (out: seq<Move>)
    requires Ready(b)
    ensures out == moves + LegalCapturesSpec(b)
  {
    var us := b.turn;
    var ch := Checkers(b);
    if |ch| > 1 {
      var safe := KingAllowed(b, us);
      out := EmitFrom(b, moves, b.PiecesOf(us, King), King, b.Occupied(), b.Occupancy(us.Other()) * safe, Capture);
      return;
    }
    out := AppendUnforced(b, moves, CaptureTargets(b), EpTargets(b));
  }

  // ----- what the generated moves are -----

  /**
   * What every appended move is, as the source's closing asserts demand: a
   * capture by a piece of the side to move of an enemy piece that is not the
   * king; en passant lands on the board's en-passant target.
   */
  predicate TakesEnemy(b: Board, m: Move)
    requires EpWellFormed(b)
  {
    && IsCapturing(m) && m.captured != None && m.captured != King
    && m.piece != None && m.from in b.PiecesOf(b.turn, m.piece)
    && if m.kind == EnPassant then
         m.piece == Pawn && m.captured == Pawn && b.ep != NoEp && m.to == EpTarget(b.turn, b.ep)
       else
         m.to in b.Occupancy(b.turn.Other()) && m.captured == PieceOn(b, m.to)
  }

  lemma ConsistentReady(b: Board)
    requires Consistent(b)
    ensures Ready(b)
  {
    ConsistentKings(b);
  }

  /** An enemy piece that a friendly piece hits is never the enemy king. */
  lemma HitTakesPiece(b: Board, fr: Sq, to: Sq)
    requires Consistent(b) && Hits(b, b.turn, fr, to) && to in b.Occupancy(b.turn.Other())
    ensures PieceOn(b, to) != None && PieceOn(b, to) != King
  {
    ConsistentKings(b);
    HitNotKing(b, fr, to);
    EnemyNotKing(b, b.turn.Other(), to);
  }

  /** A knight, bishop, rook or queen of the side to move hits every square it reaches. */
  lemma ReachHits(b: Board, p: Piece, fr: Sq, to: Sq)
    requires p == Knight || p == Bishop || p == Rook || p == Queen
    requires fr in b.PiecesOf(b.turn, p) && to in Reach(p, fr, b.Occupied())
    ensures Hits(b, b.turn, fr, to)
  {
    KnightMovesMembers(fr, {}, to);
    SliderMovesMembers(fr, b.Occupied(), to);
  }

  /** The free pieces' captures: a knight, bishop, rook or queen in `free` takes what stands on a square it reaches in `allowed`. */
  lemma PieceCapturesLand(b: Board, free: Bitboard, allowed: Bitboard, m: Move)
    requires m in PieceCaptures(b, free, allowed)
    ensures m.piece == Knight || m.piece == Bishop || m.piece == Rook || m.piece == Queen
    ensures m.from in b.PiecesOf(b.turn, m.piece) * free && m.to in Reach(m.piece, m.from, b.Occupied()) * allowed
    ensures m == Move(Capture, m.from, m.to, m.piece, PieceOn(b, m.to), None)
  {
    var us := b.turn;
    var occ := b.Occupied();
    EmittedFromHas(b, b.PiecesOf(us, Knight) * free, Knight, occ, allowed, Capture, m);
    EmittedFromHas(b, b.PiecesOf(us, Bishop) * free, Bishop, occ, allowed, Capture, m);
    EmittedFromHas(b, b.PiecesOf(us, Rook) * free, Rook, occ, allowed, Capture, m);
    EmittedFromHas(b, b.PiecesOf(us, Queen) * free, Queen, occ, allowed, Capture, m);
  }

  lemma PieceCapturesTake(b: Board, free: Bitboard, allowed: Bitboard, m: Move)
    requires Consistent(b) && allowed <= b.Occupancy(b.turn.Other())
    requires m in PieceCaptures(b, free, allowed)
    ensures TakesEnemy(b, m) && Hits(b, b.turn, m.from, m.to)
  {
    PieceCapturesLand(b, free, allowed, m);
    ReachHits(b, m.piece, m.from, m.to);
    HitTakesPiece(b, m.from, m.to);
  }

  /** The free pawns' captures: diagonal steps onto `allowed`, or en passant onto `epAllowed` past the rank guard. */
  lemma PawnCapturesLand(b: Board, free: Bitboard, allowed: Bitboard, epAllowed: Bitboard, m: Move)
    requires Ready(b)
    requires m in PawnCaptures(b, free, allowed, epAllowed)
    ensures m.piece == Pawn && m.from in b.PiecesOf(b.turn, Pawn) * free && PawnHits(b.turn, m.from, m.to)
    ensures m.kind == EnPassant ==>
              && m == Move(EnPassant, m.from, m.to, Pawn, Pawn, None) && b.ep != NoEp && m.to == EpTarget(b.turn, b.ep)
              && m.to in epAllowed && !EpExposes(b, b.turn, m.to, m.from)
    ensures m.kind != EnPassant ==>
              && m.to in allowed && m.captured == PieceOn(b, m.to)
              && (m.kind == Capture || m.kind == PromoCapture)
              && (m.kind == PromoCapture <==> m.from in PromotionRank(b.turn))
  {
    var s := b.turn;
    var pawns := b.PiecesOf(s, Pawn) * free;
    DiagonalsHas(b, s, pawns * Complement(PromotionRank(s)), allowed, Capture, m);
    DiagonalsHas(b, s, pawns * PromotionRank(s), allowed, PromoCapture, m);
    EnPassantsHas(b, s, pawns, epAllowed, m);
  }

  lemma PawnCapturesTake(b: Board, free: Bitboard, allowed: Bitboard, epAllowed: Bitboard, m: Move)
    requires Consistent(b) && Ready(b) && allowed <= b.Occupancy(b.turn.Other())
    requires m in PawnCaptures(b, free, allowed, epAllowed)
    ensures TakesEnemy(b, m)
  {
    PawnCapturesLand(b, free, allowed, epAllowed, m);
    if m.kind != EnPassant {
      HitTakesPiece(b, m.from, m.to);
    }
  }

  /** The king's captures: onto an enemy piece next to it, on a square `king_allowed` keeps. */
  lemma KingCapturesTake(b: Board, m: Move)
    requires Consistent(b) && Ready(b)
    requires m in KingCaptures(b)
    ensures TakesEnemy(b, m) && m.piece == King && m.to in KingSafe(b, b.turn)
  {
    ConsistentKings(b);
    var ksq := b.KingPosition(b.turn);
    EmittedHas(b, KingMoves(ksq, {}) * KingAllowedToMove(b) * b.Occupancy(b.turn.Other()), From(ksq), Capture, King, m);
    KingMovesMembers(ksq, {}, m.to);
    HitTakesPiece(b, ksq, m.to);
  }

  /**
   * A pinned piece's capture: the slider on a pins the piece on m.from to the
   * king on ksq, and the piece takes a, or (a pawn) captures en passant onto
   * a square between king and a. A pawn moves only as it captures.
   */
  predicate AlongPin(b: Board, ksq: Sq, a: Sq, diag: bool, m: Move)
  {
    && PinsThrough(b, ksq, m.from, a, diag, b.turn.Other())
    && (m.piece == Pawn ==> PawnHits(b.turn, m.from, m.to))
    && if m.kind == EnPassant then m.to in Between(ksq, a) else m.to == a
  }

  /** The pinner a pinned piece may take is a bishop, rook or queen. */
  lemma PinnerPiece(b: Board, a: Sq, diag: bool)
    requires PiecesDisjoint(b) && a in Pinners(b, b.turn.Other(), diag)
    ensures a in b.Occupancy(b.turn.Other())
    ensures PieceOn(b, a) == Bishop || PieceOn(b, a) == Rook || PieceOn(b, a) == Queen
  {
    PieceOnExact(b, a, Bishop);
    PieceOnExact(b, a, Rook);
    PieceOnExact(b, a, Queen);
  }

  /** The pawn branch: it takes the pinner with a capture step, or captures en passant onto the pin line. */
  lemma PinnedPawnShape(b: Board, ksq: Sq, sq: Sq, a: Sq, m: Move)
    requires EpWellFormed(b)
    requires sq in b.PiecesOf(b.turn, Pawn) && a in Pinners(b, b.turn.Other(), true)
    requires m in PinnedPawnCaptures(b, ksq, sq, {a}, a)
    ensures m.from == sq && m.piece == Pawn && PawnHits(b.turn, sq, m.to)
    ensures PiecesDisjoint(b) ==> TakesEnemy(b, m)
    ensures if m.kind == EnPassant then m.to in Between(ksq, a) else m.to == a
  {
    if PiecesDisjoint(b) {
      PinnerPiece(b, a, true);
    }
    InRight(b.turn, {sq}, m.to);
    InLeft(b.turn, {sq}, m.to);
    PawnSteps(b.turn, sq, m.to);
  }

  /** The bishop, rook and queen branches: the piece takes its pinner. */
  lemma PinnedPieceShape(b: Board, sq: Sq, a: Sq, diag: bool, p: Piece, m: Move)
    requires EpWellFormed(b)
    requires p != None && sq in b.PiecesOf(b.turn, p) && a in Pinners(b, b.turn.Other(), diag)
    requires m in Expand(b, Capture, sq, a, p)
    ensures m.from == sq && m.piece == p && m.kind == Capture && m.to == a
    ensures PiecesDisjoint(b) ==> TakesEnemy(b, m)
  {
    if PiecesDisjoint(b) {
      PinnerPiece(b, a, diag);
    }
  }

  /** Every move of one pin-loop step is a pinned piece's capture along its pin, of a permitted pinner. */
  lemma PinCapturesShape(b: Board, ksq: Sq, sq: Sq, diag: bool, allowed: Bitboard, m: Move) returns (a: Sq)
    requires EpWellFormed(b) && sq in b.Occupancy(b.turn)
    requires m in PinCaptures(b, ksq, sq, diag, allowed)
    ensures m.from == sq && a in allowed && AlongPin(b, ksq, a, diag, m)
    ensures PiecesDisjoint(b) ==> TakesEnemy(b, m)
  {
    var us := b.turn;
    var attackers := Discovered(b, ksq, sq, diag, us.Other());
    DiscoveredSingle(b, ksq, sq, diag, us.Other());
    a := Lowest(attackers);
    DiscoveredMembers(b, ksq, sq, diag, us.Other(), a);
    assert attackers == {a} && a in allowed;
    if diag {
      if sq in b.PiecesOf(us, Pawn) {
        PinnedPawnShape(b, ksq, sq, a, m);
      } else if sq in b.PiecesOf(us, Bishop) {
        PinnedPieceShape(b, sq, a, diag, Bishop, m);
      } else {
        PinnedPieceShape(b, sq, a, diag, Queen, m);
      }
    } else {
      if sq in b.PiecesOf(us, Rook) {
        PinnedPieceShape(b, sq, a, diag, Rook, m);
      } else {
        PinnedPieceShape(b, sq, a, diag, Queen, m);
      }
    }
  }

  /** A move of the pin loop is one of the moves of one of its candidates. */
  lemma {:induction false} PinLoopHas(b: Board, ksq: Sq, cands: Bitboard, diag: bool, allowed: Bitboard, m: Move)
    requires EpWellFormed(b)
    ensures m in PinLoop(b, ksq, cands, diag, allowed) <==> exists sq :: sq in cands && m in PinCaptures(b, ksq, sq, diag, allowed)
    decreases |cands|
  {
    if cands != {} {
      var sq := Lowest(cands);
      PinLoopHas(b, ksq, cands - {sq}, diag, allowed, m);
    }
  }

  /** The pin loop over friendly pieces emits only captures of a permitted pinner along the pin. */
  lemma PinLoopTakes(b: Board, ksq: Sq, cands: Bitboard, diag: bool, allowed: Bitboard, m: Move) returns (a: Sq)
    requires EpWellFormed(b) && cands <= b.Occupancy(b.turn)
    requires m in PinLoop(b, ksq, cands, diag, allowed)
    ensures m.from in cands && a in allowed && AlongPin(b, ksq, a, diag, m)
    ensures PiecesDisjoint(b) ==> TakesEnemy(b, m)
  {
    PinLoopHas(b, ksq, cands, diag, allowed, m);
    var sq :| sq in cands && m in PinCaptures(b, ksq, sq, diag, allowed);
    a := PinCapturesShape(b, ksq, sq, diag, allowed, m);
  }

  /** Out of double check every move takes an enemy piece other than the king. */
  lemma UnforcedTakes(b: Board, allowed: Bitboard, epAllowed: Bitboard, m: Move)
    requires Consistent(b) && Ready(b) && allowed <= b.Occupancy(b.turn.Other())
    requires m in UnforcedCaptures(b, allowed, epAllowed)
    ensures TakesEnemy(b, m)
  {
    var ksq := b.KingPosition(b.turn);
    var free := FreePieces(b);
    var a: Sq;
    if m in PinLoop(b, ksq, PinCandidates(b, true), true, allowed) {
      a := PinLoopTakes(b, ksq, PinCandidates(b, true), true, allowed, m);
    } else if m in PinLoop(b, ksq, PinCandidates(b, false), false, allowed) {
      a := PinLoopTakes(b, ksq, PinCandidates(b, false), false, allowed, m);
    } else if m in PawnCaptures(b, free, allowed, epAllowed) {
      PawnCapturesTake(b, free, allowed, epAllowed, m);
    } else if m in PieceCaptures(b, free, allowed) {
      PieceCapturesTake(b, free, allowed, m);
    } else {
      KingCapturesTake(b, m);
    }
  }

  /** In double check the king alone captures: onto each enemy piece next to it on a square it may enter. */
  lemma DoubleCheckKingOnly(b: Board, m: Move)
    requires Ready(b) && |b.PiecesOf(b.turn, King)| == 1
    ensures m in DoubleCheckCaptures(b) <==>
              && m == Move(Capture, b.KingPosition(b.turn), m.to, King, PieceOn(b, m.to), None)
              && m.to in KingMoves(b.KingPosition(b.turn), {}) * KingSafe(b, b.turn) * b.Occupancy(b.turn.Other())
  {
    var us := b.turn;
    var k := b.KingPosition(us);
    SingleKing(b.PiecesOf(us, King), k);
    var within := b.Occupancy(us.Other()) * KingAllowedToMove(b);
    var targets := KingMoves(k, {}) * KingSafe(b, us) * b.Occupancy(us.Other());
    assert b.PiecesOf(us, King) == {k};
    assert DoubleCheckCaptures(b) == EmittedFrom(b, {k}, King, b.Occupied(), within, Capture);
    EmittedFromHas(b, {k}, King, b.Occupied(), within, Capture, m);
    ReachKing(k, b.Occupied());
    assert Reach(King, k, b.Occupied()) * within == targets;
    assert m in DoubleCheckCaptures(b) <==> m.from == k && Yields(b, targets, From(k), Capture, King, m);
    KingYields(b, targets, k, m);
  }

  /** A king capture from k is the one move with these fields. */
  lemma KingYields(b: Board, targets: Bitboard, k: Sq, m: Move)
    ensures m.from == k && Yields(b, targets, From(k), Capture, King, m) <==>
              m == Move(Capture, k, m.to, King, PieceOn(b, m.to), None) && m.to in targets
  {
  }

  lemma DoubleCheckTakes(b: Board, m: Move)
    requires Consistent(b) && Ready(b) && m in DoubleCheckCaptures(b)
    ensures TakesEnemy(b, m)
  {
    DoubleCheckKingOnly(b, m);
    ConsistentKings(b);
    KingMovesMembers(b.KingPosition(b.turn), {}, m.to);
    HitTakesPiece(b, b.KingPosition(b.turn), m.to);
  }

  /** Every move `legal_captures` appends takes an enemy piece other than the king, with or without the en-passant correction. */
  lemma LegalCapturesTake(b: Board)
    requires Consistent(b)
    ensures Ready(b)
    ensures forall m :: m in LegalCapturesSpec(b) ==> TakesEnemy(b, m)
    ensures forall m :: m in LegalCapturesAsWritten(b) ==> TakesEnemy(b, m)
  {
    ConsistentReady(b);
    var double := |Checkers(b)| > 1;
    forall m | m in LegalCapturesSpec(b) ensures TakesEnemy(b, m) {
      if double {
        DoubleCheckTakes(b, m);
      } else {
        UnforcedTakes(b, CaptureTargets(b), EpTargets(b), m);
      }
    }
    forall m | m in LegalCapturesAsWritten(b) ensures TakesEnemy(b, m) {
      if double {
        DoubleCheckTakes(b, m);
      } else {
        UnforcedTakes(b, CaptureTargets(b), AllSquares, m);
      }
    }
  }

  /**
   * The move deals with a single check by the piece on c: the king moves, or
   * the move takes c (en passant: c is the pawn behind the target), or it
   * lands between king and c.
   */
  predicate Answers(b: Board, c: Sq, m: Move)
    requires b.HasKing(b.turn)
  {
    || m.piece == King
    || (m.kind != EnPassant && m.to == c)
    || (m.kind == EnPassant && (m.to - Push(b.turn) == c || m.to in Between(b.KingPosition(b.turn), c)))
  }

  /** What a move answering a check by c can be, given the en-passant squares `epAllowed`. */
  predicate Lands(b: Board, c: Sq, epAllowed: Bitboard, m: Move)
    requires Ready(b)
  {
    || m.piece == King
    || (m.kind != EnPassant && m.to == c)
    || (m.kind == EnPassant && m.to in Between(b.KingPosition(b.turn), c))
    || (m.kind == EnPassant && b.ep != NoEp && m.to == EpTarget(b.turn, b.ep) && m.to in epAllowed)
  }

  lemma PinLoopLands(b: Board, c: Sq, epAllowed: Bitboard, diag: bool, m: Move)
    requires Ready(b) && m in PinLoop(b, b.KingPosition(b.turn), PinCandidates(b, diag), diag, {c})
    ensures Lands(b, c, epAllowed, m)
  {
    var a := PinLoopTakes(b, b.KingPosition(b.turn), PinCandidates(b, diag), diag, {c}, m);
  }

  lemma PawnLands(b: Board, c: Sq, epAllowed: Bitboard, free: Bitboard, m: Move)
    requires Ready(b) && m in PawnCaptures(b, free, {c}, epAllowed)
    ensures Lands(b, c, epAllowed, m)
  {
    PawnCapturesLand(b, free, {c}, epAllowed, m);
  }

  lemma PieceLands(b: Board, c: Sq, epAllowed: Bitboard, free: Bitboard, m: Move)
    requires Ready(b) && m in PieceCaptures(b, free, {c})
    ensures Lands(b, c, epAllowed, m)
  {
    PieceCapturesLand(b, free, {c}, m);
  }

  lemma KingLands(b: Board, c: Sq, epAllowed: Bitboard, m: Move)
    requires Ready(b) && m in KingCaptures(b)
    ensures Lands(b, c, epAllowed, m)
  {
    var ksq := b.KingPosition(b.turn);
    EmittedHas(b, KingMoves(ksq, {}) * KingAllowedToMove(b) * b.Occupancy(b.turn.Other()), From(ksq), Capture, King, m);
  }

  /** With the checker on c as the only target, every move but the king's and en passant lands on c. */
  lemma UnforcedAnswers(b: Board, c: Sq, epAllowed: Bitboard, m: Move)
    requires Ready(b) && m in UnforcedCaptures(b, {c}, epAllowed)
    ensures Lands(b, c, epAllowed, m)
  {
    var ksq := b.KingPosition(b.turn);
    var free := FreePieces(b);
    if m in PinLoop(b, ksq, PinCandidates(b, true), true, {c}) {
      PinLoopLands(b, c, epAllowed, true, m);
    } else if m in PinLoop(b, ksq, PinCandidates(b, false), false, {c}) {
      PinLoopLands(b, c, epAllowed, false, m);
    } else if m in PawnCaptures(b, free, {c}, epAllowed) {
      PawnLands(b, c, epAllowed, free, m);
    } else if m in PieceCaptures(b, free, {c}) {
      PieceLands(b, c, epAllowed, free, m);
    } else {
      KingLands(b, c, epAllowed, m);
    }
  }

  /** In single check every generated capture deals with the check. */
  lemma SingleCheckAnswers(b: Board, m: Move)
    requires Ready(b) && |Checkers(b)| == 1
    requires m in LegalCapturesSpec(b)
    ensures Answers(b, Lowest(Checkers(b)), m)
  {
    var c := Lowest(Checkers(b));
    assert CaptureTargets(b) == {c};
    UnforcedAnswers(b, c, EpTargets(b), m);
  }

  /**
   * As written, a free pawn's en-passant capture is emitted in single check
   * even when it neither removes the checker nor blocks it (for instance a
   * white king on b5 checked by a bishop on e8 after d7-d5 uncovered it:
   * exd6 is emitted and leaves the king in check); `EpTargets` drops it.
   */
  lemma EnPassantIgnoresCheck(b: Board, p: Sq)
    requires Ready(b) && |Checkers(b)| == 1 && b.ep != NoEp
    requires p in b.PiecesOf(b.turn, Pawn) * FreePieces(b)
    requires PawnHits(b.turn, p, EpTarget(b.turn, b.ep)) && !EpExposes(b, b.turn, EpTarget(b.turn, b.ep), p)
    requires !Answers(b, Lowest(Checkers(b)), Move(EnPassant, p, EpTarget(b.turn, b.ep), Pawn, Pawn, None))
    ensures Move(EnPassant, p, EpTarget(b.turn, b.ep), Pawn, Pawn, None) in LegalCapturesAsWritten(b)
    ensures Move(EnPassant, p, EpTarget(b.turn, b.ep), Pawn, Pawn, None) !in LegalCapturesSpec(b)
  {
    var m := Move(EnPassant, p, EpTarget(b.turn, b.ep), Pawn, Pawn, None);
    FreeEnPassant(b, p, CaptureTargets(b));
    if m in LegalCapturesSpec(b) {
      SingleCheckAnswers(b, m);
    }
  }

  /** Without a limit on the en-passant squares, every unguarded en-passant capture of a free pawn is emitted. */
  lemma FreeEnPassant(b: Board, p: Sq, allowed: Bitboard)
    requires Ready(b) && b.ep != NoEp
    requires p in b.PiecesOf(b.turn, Pawn) * FreePieces(b)
    requires PawnHits(b.turn, p, EpTarget(b.turn, b.ep)) && !EpExposes(b, b.turn, EpTarget(b.turn, b.ep), p)
    ensures Move(EnPassant, p, EpTarget(b.turn, b.ep), Pawn, Pawn, None) in UnforcedCaptures(b, allowed, AllSquares)
  {
    var m := Move(EnPassant, p, EpTarget(b.turn, b.ep), Pawn, Pawn, None);
    var free := FreePieces(b);
    EnPassantsHas(b, b.turn, b.PiecesOf(b.turn, Pawn) * free, AllSquares, m);
    assert m in PawnCaptures(b, free, allowed, AllSquares);
  }

  /** A piece pinned to the king is recorded by its pin loop, so it is not among the free pieces. */
  lemma PinnedNotFree(b: Board, n: Sq, a: Sq, diag: bool)
    requires Ready(b) && n in b.Occupancy(b.turn)
    requires PinsThrough(b, b.KingPosition(b.turn), n, a, diag, b.turn.Other())
    ensures n in PinnedAmong(b, b.KingPosition(b.turn), PinCandidates(b, diag), diag)
    ensures n !in FreePieces(b)
  {
    var ksq := b.KingPosition(b.turn);
    PinnedSeen(b, ksq, n, a, diag, b.turn.Other());
    DiscoveredMembers(b, ksq, n, diag, b.turn.Other(), a);
  }

  /** A free piece's or the king's capture in the unforced part comes from a free piece or the king. */
  lemma FreeFrom(b: Board, allowed: Bitboard, epAllowed: Bitboard, m: Move)
    requires Ready(b)
    requires m in PawnCaptures(b, FreePieces(b), allowed, epAllowed) + PieceCaptures(b, FreePieces(b), allowed) + KingCaptures(b)
    ensures m.piece == King || m.from in FreePieces(b)
  {
    var free := FreePieces(b);
    if m in PawnCaptures(b, free, allowed, epAllowed) {
      PawnCapturesLand(b, free, allowed, epAllowed, m);
    } else if m in PieceCaptures(b, free, allowed) {
      PieceCapturesLand(b, free, allowed, m);
    } else {
      var ksq := b.KingPosition(b.turn);
      EmittedHas(b, KingMoves(ksq, {}) * KingAllowedToMove(b) * b.Occupancy(b.turn.Other()), From(ksq), Capture, King, m);
    }
  }

  /**
   * A piece pinned to the king by the slider on a captures only along the
   * pin: it takes a, or lands between the king and a.
   */
  lemma PinnedStayOnLine(b: Board, m: Move, a: Sq, diag: bool)
    requires Ready(b) && m in LegalCapturesSpec(b) && m.piece != King
    requires m.from in b.Occupancy(b.turn)
    requires PinsThrough(b, b.KingPosition(b.turn), m.from, a, diag, b.turn.Other())
    ensures m.to == a || m.to in Between(b.KingPosition(b.turn), a)
  {
    var us := b.turn;
    var ksq := b.KingPosition(us);
    if |Checkers(b)| > 1 {
      EmittedFromHas(b, b.PiecesOf(us, King), King, b.Occupied(), b.Occupancy(us.Other()) * KingAllowedToMove(b), Capture, m);
      assert false;
    }
    var allowed := CaptureTargets(b);
    var epAllowed := EpTargets(b);
    assert m in UnforcedCaptures(b, allowed, epAllowed);
    PinnedNotFree(b, m.from, a, diag);
    var a': Sq;
    var diag': bool;
    if m in PinLoop(b, ksq, PinCandidates(b, true), true, allowed) {
      a' := PinLoopTakes(b, ksq, PinCandidates(b, true), true, allowed, m);
      diag' := true;
    } else if m in PinLoop(b, ksq, PinCandidates(b, false), false, allowed) {
      a' := PinLoopTakes(b, ksq, PinCandidates(b, false), false, allowed, m);
      diag' := false;
    } else {
      FreeFrom(b, allowed, epAllowed, m);
      assert false;
    }
    BetweenAxis(ksq, a, m.from);
    BetweenAxis(ksq, a', m.from);
    assert diag' == diag;
    PinnerUnique(b, ksq, m.from, diag, us.Other(), a, a');
  }
}
