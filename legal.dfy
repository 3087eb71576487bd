// `legal_moves` (legal_moves.cpp), `count_moves` (count_moves.cpp),
// `is_legal` (is_legal.cpp) and `check_evasions` (check_evasions.cpp): the
// full move list is the captures pass followed by the quiet pass, and the
// two passes split it by whether a move captures.

module Legal {
  import opened Squares
  import opened Bitboards
  import opened Pieces
  import opened Boards
  import opened Movegen
  import opened Attacks
  import opened Emit
  import opened Validity
  import opened Captures
  import opened Pawns
  import opened Noncaptures

  /** Everything `legal_moves` produces: the captures, then the quiet moves. */
  function LegalMovesSpec(b: Board): seq<Move>
    requires Ready(b)
  {
    LegalCapturesSpec(b) + LegalNoncapturesSpec(b)
  }

  /** The overload that appends both passes to the caller's vector. */
  method AppendLegalMoves(b: Board, moves: seq<Move>) returns (out: seq<Move>)
    requires Ready(b)
    ensures out == moves + LegalMovesSpec(b)
  {
    out := LegalCaptures(b, moves);
    out := LegalNoncaptures(b, out);
    AppendTwo(moves, LegalCapturesSpec(b), LegalNoncapturesSpec(b));
  }

  /** `legal_moves()`: both passes into a fresh vector. */
  method LegalMoves(b: Board) returns (moves: seq<Move>)
    requires Ready(b)
    ensures moves == LegalMovesSpec(b)
    ensures moves[..|LegalCapturesSpec(b)|] == LegalCapturesSpec(b)
  {
    moves := AppendLegalMoves(b, []);
  }

  /** `count_moves()`: the size of the generated list, captures plus quiet moves. */
  method CountMoves(b: Board) returns (n: nat)
    requires Ready(b)
    ensures n == |LegalMovesSpec(b)|
    ensures n == |LegalCapturesSpec(b)| + |LegalNoncapturesSpec(b)|
  {
    var moves := LegalMoves(b);
    n := |moves|;
  }

  /** `is_legal(m)`: whether m is one of the generated moves. */
  method IsLegal(b: Board, m: Move) returns (r: bool)
    requires Ready(b)
    ensures r <==> m in LegalCapturesSpec(b) || m in LegalNoncapturesSpec(b)
  {
    var moves := LegalMoves(b);
    r := ScanFor(moves, m);
  }

  /** The loop of `is_legal`: a linear scan that stops at the first equal move. */
  method ScanFor(moves: seq<Move>, m: Move) returns (r: bool)
    ensures r <==> m in moves
  {
    var i := 0;
    while i < |moves|
      invariant 0 <= i <= |moves|
      invariant m !in moves[..i]
    {
      if moves[i] == m {
        return true;
      }
      i := i + 1;
    }
    assert moves[..i] == moves;
    return false;
  }

  // ----- the capture / non-capture partition -----

  /** The number of capturing moves in a list. */
  function CountCapturing(ms: seq<Move>): (n: nat)
    ensures n <= |ms|
  {
    if ms == [] then 0 else (if IsCapturing(ms[0]) then 1 else 0) + CountCapturing(ms[1..])
  }

  lemma {:induction false} CountCapturingAppend(xs: seq<Move>, ys: seq<Move>)
    ensures CountCapturing(xs + ys) == CountCapturing(xs) + CountCapturing(ys)
  {
    if xs == [] {
      assert xs + ys == ys;
    } else {
      assert (xs + ys)[0] == xs[0] && (xs + ys)[1..] == xs[1..] + ys;
      CountCapturingAppend(xs[1..], ys);
    }
  }

  /** A list of capturing moves counts in full; a list without one counts zero. */
  lemma {:induction false} CountCapturingUniform(ms: seq<Move>, capturing: bool)
    requires forall m :: m in ms ==> IsCapturing(m) == capturing
    ensures CountCapturing(ms) == if capturing then |ms| else 0
  {
    if ms != [] {
      assert ms[0] in ms;
      assert forall m :: m in ms[1..] ==> m in ms;
      CountCapturingUniform(ms[1..], capturing);
    }
  }

  /** Every move of the captures pass captures; no move of the quiet pass does. */
  lemma PassesSplitByCapture(b: Board)
    requires Consistent(b)
    ensures Ready(b)
    ensures forall m :: m in LegalCapturesSpec(b) ==> IsCapturing(m)
    ensures forall m :: m in LegalNoncapturesSpec(b) ==> !IsCapturing(m)
  {
    LegalCapturesTake(b);
    LegalNoncapturesQuiet(b);
  }

  /**
   * The captures pass is exactly the capturing moves of `legal_moves`: a
   * move of the list captures iff it came from the first pass, so no move
   * is in both passes and the first pass's size is the number of capturing
   * moves in the list.
   */
  lemma CapturesAreCapturingMoves(b: Board, m: Move)
    requires Consistent(b)
    ensures Ready(b)
    ensures m in LegalMovesSpec(b) ==> (IsCapturing(m) <==> m in LegalCapturesSpec(b))
    ensures !(m in LegalCapturesSpec(b) && m in LegalNoncapturesSpec(b))
  {
    PassesSplitByCapture(b);
  }

  lemma CapturesCounted(b: Board)
    requires Consistent(b)
    ensures Ready(b)
    ensures CountCapturing(LegalMovesSpec(b)) == |LegalCapturesSpec(b)|
    ensures |LegalMovesSpec(b)| - CountCapturing(LegalMovesSpec(b)) == |LegalNoncapturesSpec(b)|
  {
    PassesSplitByCapture(b);
    CountCapturingAppend(LegalCapturesSpec(b), LegalNoncapturesSpec(b));
    CountCapturingUniform(LegalCapturesSpec(b), true);
    CountCapturingUniform(LegalNoncapturesSpec(b), false);
  }

  // ----- check_evasions -----

  /** The king's targets: its neighbours that `king_allowed` admits. */
  function EvasionMask(b: Board): Bitboard
    requires Ready(b)
  {
    KingMoves(b.KingPosition(b.turn), {}) * KingSafe(b, b.turn)
  }

  /** What `check_evasions` returns: king captures onto enemy pieces, then king steps onto empty squares. */
  function CheckEvasionsSpec(b: Board): seq<Move>
    requires Ready(b)
  {
    var ksq := b.KingPosition(b.turn);
    Emitted(b, EvasionMask(b) * b.Occupancy(b.turn.Other()), From(ksq), Capture, King)
    + Emitted(b, EvasionMask(b) * b.EmptySquares(), From(ksq), Normal, King)
  }

  method CheckEvasions(b: Board) returns (moves: seq<Move>)
    requires Ready(b)
    ensures moves == CheckEvasionsSpec(b)
  {
    var ksq := b.KingPosition(b.turn);
    var safe := KingAllowed(b, b.turn);
    var mask := KingMoves(ksq, {}) * safe;
    assert mask == EvasionMask(b);
    var caps := mask * b.Occupancy(b.turn.Other());
    var quiet := mask * b.EmptySquares();
    moves := EmitTargets(b, [], caps, From(ksq), Capture, King);
    assert moves == Emitted(b, caps, From(ksq), Capture, King);
    moves := EmitTargets(b, moves, quiet, From(ksq), Normal, King);
  }

  /** Each evasion is a king move from the king's square onto an allowed neighbour: a capture of the enemy piece there, or a step to an empty square. */
  lemma EvasionShape(b: Board, m: Move)
    requires Ready(b) && m in CheckEvasionsSpec(b)
    ensures m.piece == King && m.from == b.KingPosition(b.turn) && m.promotion == None
    ensures m.to in KingMoves(b.KingPosition(b.turn), {}) * KingSafe(b, b.turn)
    ensures m.kind == Capture ==> m.to in b.Occupancy(b.turn.Other()) && m.captured == PieceOn(b, m.to)
    ensures m.kind != Capture ==> m.kind == Normal && m.to in b.EmptySquares() && m.captured == None
  {
    var ksq := b.KingPosition(b.turn);
    if m in Emitted(b, EvasionMask(b) * b.Occupancy(b.turn.Other()), From(ksq), Capture, King) {
      EmittedHas(b, EvasionMask(b) * b.Occupancy(b.turn.Other()), From(ksq), Capture, King, m);
    } else {
      EmittedHas(b, EvasionMask(b) * b.EmptySquares(), From(ksq), Normal, King, m);
    }
  }

  /** No capturing move follows a non-capturing one. */
  predicate CapturesFirst(ms: seq<Move>)
  {
    forall i, j :: 0 <= i < j < |ms| && IsCapturing(ms[j]) ==> IsCapturing(ms[i])
  }

  /** The captures come first: once a quiet move appears, no capture follows. */
  lemma EvasionCapturesFirst(b: Board)
    requires Ready(b)
    ensures CapturesFirst(CheckEvasionsSpec(b))
  {
    var ksq := b.KingPosition(b.turn);
    var caps := EvasionMask(b) * b.Occupancy(b.turn.Other());
    var quiet := EvasionMask(b) * b.EmptySquares();
    EmittedMembers(b, caps, From(ksq), Capture, King);
    EmittedMembers(b, quiet, From(ksq), Normal, King);
    CapturesThenQuiet(Emitted(b, caps, From(ksq), Capture, King), Emitted(b, quiet, From(ksq), Normal, King));
  }

  lemma CapturesThenQuiet(caps: seq<Move>, quiet: seq<Move>)
    requires forall m :: m in caps ==> IsCapturing(m)
    requires forall m :: m in quiet ==> !IsCapturing(m)
    ensures CapturesFirst(caps + quiet)
  {
    var all := caps + quiet;
    forall i, j | 0 <= i < j < |all| && IsCapturing(all[j]) ensures IsCapturing(all[i]) {
      assert all[i] in caps;
    }
  }

  /** A subset has no more members than its superset. */
  lemma {:induction false} SubsetCard(a: Bitboard, c: Bitboard)
    requires a <= c
    ensures |a| <= |c|
    decreases |a|
  {
    if a != {} {
      var x := Lowest(a);
      SubsetCard(a - {x}, c - {x});
    }
  }

  /** A king has at most eight neighbours. */
  lemma KingMaskAtMostEight(sq: Sq)
    ensures |KingMask(sq)| <= 8
  {
    KingJumps(sq);
    var j1, j2, j3, j4 := Jump(sq, 0, 1), Jump(sq, 0, -1), Jump(sq, 1, 0), Jump(sq, -1, 0);
    var j5, j6, j7, j8 := Jump(sq, 1, 1), Jump(sq, -1, 1), Jump(sq, 1, -1), Jump(sq, -1, -1);
    assert |j1| <= 1 && |j2| <= 1 && |j3| <= 1 && |j4| <= 1;
    assert |j5| <= 1 && |j6| <= 1 && |j7| <= 1 && |j8| <= 1;
    assert |j1 + j2| <= 2;
    assert |j1 + j2 + j3| <= 3;
    assert |j1 + j2 + j3 + j4| <= 4;
    assert |j1 + j2 + j3 + j4 + j5| <= 5;
    assert |j1 + j2 + j3 + j4 + j5 + j6| <= 6;
    assert |j1 + j2 + j3 + j4 + j5 + j6 + j7| <= 7;
  }

  /** `assert(moves.size() <= 8)`: one move per allowed neighbour of the king. */
  lemma EvasionsAtMostEight(b: Board)
    requires Ready(b)
    ensures |CheckEvasionsSpec(b)| <= 8
  {
    var ksq := b.KingPosition(b.turn);
    var mask := EvasionMask(b);
    var caps := mask * b.Occupancy(b.turn.Other());
    var quiet := mask * b.EmptySquares();
    EmittedLength(b, caps, From(ksq), Capture, King);
    EmittedLength(b, quiet, From(ksq), Normal, King);
    assert caps * quiet == {} by {
      forall t | t in caps ensures t !in quiet {
        assert t in b.Occupied();
      }
    }
    NeighbourParts(ksq, caps, quiet);
  }

  /** Two disjoint sets of the king's neighbours have at most eight members together. */
  lemma NeighbourParts(ksq: Sq, caps: Bitboard, quiet: Bitboard)
    requires caps <= KingMask(ksq) && quiet <= KingMask(ksq) && caps * quiet == {}
    ensures |caps| + |quiet| <= 8
  {
    assert |caps + quiet| == |caps| + |quiet|;
    SubsetCard(caps + quiet, KingMask(ksq));
    KingMaskAtMostEight(ksq);
  }

  /**
   * In double check `check_evasions` and `legal_moves` hold the same moves:
   * both are the king's captures and steps onto the neighbours it may enter.
   */
  lemma EvasionsInDoubleCheck(b: Board, m: Move)
    requires Ready(b) && |b.PiecesOf(b.turn, King)| == 1 && |Checkers(b)| > 1
    ensures m in CheckEvasionsSpec(b) <==> m in LegalMovesSpec(b)
  {
    EvasionCapturesAgree(b, m);
    EvasionStepsAgree(b, m);
    assert LegalMovesSpec(b) == DoubleCheckCaptures(b) + DoubleCheckQuiet(b);
  }

  lemma EvasionCapturesAgree(b: Board, m: Move)
    requires Ready(b) && |b.PiecesOf(b.turn, King)| == 1
    ensures (m in Emitted(b, EvasionMask(b) * b.Occupancy(b.turn.Other()), From(b.KingPosition(b.turn)), Capture, King))
              == (m in DoubleCheckCaptures(b))
  {
    EmittedHas(b, EvasionMask(b) * b.Occupancy(b.turn.Other()), From(b.KingPosition(b.turn)), Capture, King, m);
    DoubleCheckKingOnly(b, m);
  }

  lemma EvasionStepsAgree(b: Board, m: Move)
    requires Ready(b) && |b.PiecesOf(b.turn, King)| == 1
    ensures (m in Emitted(b, EvasionMask(b) * b.EmptySquares(), From(b.KingPosition(b.turn)), Normal, King))
              == (m in DoubleCheckQuiet(b))
  {
    EmittedHas(b, EvasionMask(b) * b.EmptySquares(), From(b.KingPosition(b.turn)), Normal, King, m);
    DoubleCheckQuietKingOnly(b, m);
  }
}
