// The `Position` object (position.hpp, makemove.cpp, undomove.cpp): the
// fields of a position and the history stack, changed in place. Each method
// is proved to leave the state the value-level functions of make.dfy
// describe, so what is proved about those functions holds of the object.

module Positions {
  import opened Squares
  import opened Bitboards
  import opened Pieces
  import opened Boards
  import opened Pawns
  import opened Zobrist
  import opened Predict
  import opened Making
  import opened Captures
  import opened Noncaptures
  import opened Legal
  import opened Hashing
  import opened Fen

  /** The record `makenull` pushes: `meh{}`, value-initialised. */
  const NullEntry: Entry := Entry(Move(Normal, 0, 0, None, None, None), 0, [false, false, false, false], 0, {})

  class Position {
    var colours: Pair
    var pieces: Six
    var turn: Side
    var ep: int
    var castling: Rights
    var halfmove: int
    var fullmove: int
    var hash: Hash
    var history: seq<Entry>

    /** The position as a value. */
    function State(): Board
      reads this
    {
      Board(colours, pieces, turn, ep, castling, halfmove, fullmove, hash)
    }

    /**
     * `Position()`: empty masks, White to move, both clocks zero, no history.
     * The en-passant field starts as 0 (`ep_{}`); the castling flags and the
     * hash are left uninitialised by the source and are not specified here.
     */
    constructor ()
      ensures colours == [{}, {}] && pieces == [{}, {}, {}, {}, {}, {}]
      ensures turn == White && ep == 0 && halfmove == 0 && fullmove == 0
      ensures history == []
    {
      colours := [{}, {}];
      pieces := [{}, {}, {}, {}, {}, {}];
      turn := White;
      ep := 0;
      castling := [false, false, false, false];
      halfmove := 0;
      fullmove := 0;
      hash := {};
      history := [];
    }

    /** `clear()`: every field reset, the history emptied. */
    method Clear()
      modifies this
      ensures State() == ClearBoard && history == []
    {
      colours := [{}, {}];
      pieces := [{}, {}, {}, {}, {}, {}];
      halfmove := 0;
      fullmove := 0;
      ep := NoEp;
      hash := {};
      castling := [false, false, false, false];
      turn := White;
      history := [];
    }

    /** `set(sq, s, p)`: the square joins side s's mask and piece p's mask; nothing else changes. */
    method Set(sq: Sq, s: Side, p: Piece)
      requires p != None
      modifies this
      ensures State() == SetBoard(old(State()), sq, s, p) && history == old(history)
    {
      colours := colours[s.Index() := colours[s.Index()] + {sq}];
      pieces := pieces[p.Index() := pieces[p.Index()] + {sq}];
    }

    /** `makenull()`: a blank record pushed and the turn passed; the placement and everything else stay. */
    method MakeNull()
      modifies this
      ensures State() == old(State()).(turn := old(turn).Other())
      ensures history == old(history) + [NullEntry]
    {
      history := history + [NullEntry];
      turn := turn.Other();
    }

    /** `colours_[s] ^= sq`. */
    method FlipColour(s: Side, sq: Sq)
      modifies this`colours
      ensures colours == old(colours)[s.Index() := Toggle(old(colours)[s.Index()], {sq})]
    {
      colours := colours[s.Index() := Toggle(colours[s.Index()], {sq})];
    }

    /** `pieces_[p] ^= sq`. */
    method FlipPiece(p: Piece, sq: Sq)
      requires p != None
      modifies this`pieces
      ensures pieces == old(pieces)[p.Index() := Toggle(old(pieces)[p.Index()], {sq})]
    {
      pieces := pieces[p.Index() := Toggle(pieces[p.Index()], {sq})];
    }

    /**
     * `makemove(m)`: the pieces moved, the record of what the move
     * overwrites pushed, the castling flags the move touches cleared, the
     * clocks advanced, the predicted hash installed and the turn passed.
     */
    method MakeMove(m: Move)
      requires Makeable(State(), m)
      modifies this
      ensures State() == MakeBoard(old(State()), m)
      ensures history == old(history) + [EntryOf(old(State()), m)]
    {
      var us := turn;
      MakeableHashable(State(), m);
      var predicted := PredictHash(State(), m);
      var epOld := ep;
      MovePieces(us, m);
      FinishMove(m, epOld, predicted);
    }

    /**
     * The rest of `makemove` after the pieces have moved: the record pushed
     * (with the en-passant file from before the move), the touched castling
     * flags cleared, the clocks advanced, the hash replaced and the turn
     * passed.
     */
    method FinishMove(m: Move, epOld: int, predicted: Hash)
      modifies this`history, this`castling, this`halfmove, this`fullmove, this`hash, this`turn
      ensures history == old(history) + [Entry(m, epOld, old(castling), old(halfmove), old(hash))]
      ensures castling == RightsAfter(old(castling), m)
      ensures halfmove == if m.piece == Pawn || IsCapturing(m) then 0 else old(halfmove) + 1
      ensures fullmove == old(fullmove) + if old(turn) == Black then 1 else 0
      ensures hash == predicted && turn == old(turn).Other()
    {
      history := history + [Entry(m, epOld, castling, halfmove, hash)];
      ClearTouchedRights(m);
      halfmove := if m.piece == Pawn || IsCapturing(m) then 0 else halfmove + 1;
      fullmove := fullmove + if turn == Black then 1 else 0;
      hash := predicted;
      turn := turn.Other();
    }

    /** The four `castling_[i] &= …` statements: each flag cleared when the move touches its king or rook square. */
    method ClearTouchedRights(m: Move)
      modifies this`castling
      ensures castling == RightsAfter(old(castling), m)
    {
      castling := castling[0 := castling[0] && !Touches(0, m)];
      castling := castling[1 := castling[1] && !Touches(1, m)];
      castling := castling[2 := castling[2] && !Touches(2, m)];
      castling := castling[3 := castling[3] && !Touches(3, m)];
      RightsInTurn(old(castling), m);
    }

    /**
     * `undomove()`: the turn passed back, the fields the last record saved
     * restored, the full-move number stepped back after Black's move, the
     * move's squares flipped again and the record popped.
     */
    method UndoMove()
      requires history != [] && Undoable(State(), history[|history| - 1])
      modifies this
      ensures State() == UndoBoard(old(State()), old(history)[|old(history)| - 1])
      ensures history == old(history)[..|old(history)| - 1]
    {
      var e := history[|history| - 1];
      RestoreFields(e);
      UnmovePieces(turn, e.move);
      history := history[..|history| - 1];
    }

    /** The fields `undomove` sets before touching the pieces: turn, en passant, clocks, flags, hash. */
    method RestoreFields(e: Entry)
      modifies this`turn, this`ep, this`halfmove, this`fullmove, this`castling, this`hash
      ensures turn == old(turn).Other() && ep == e.ep && halfmove == e.halfmove
      ensures fullmove == old(fullmove) - if turn == Black then 1 else 0
      ensures castling == e.castling && hash == e.hash
    {
      turn := turn.Other();
      ep := e.ep;
      halfmove := e.halfmove;
      fullmove := fullmove - if turn == Black then 1 else 0;
      castling := e.castling;
      hash := e.hash;
    }

    /**
     * The placement half of `undomove`: the mover lifted from the target and
     * put back on its origin, then the kind-specific pieces put back. Every
     * flip is one `makemove` made, so the masks are flipped on the same
     * squares.
     */
    method UnmovePieces(us: Side, m: Move)
      requires MoveFits(m) && (m.kind == EnPassant ==> 0 <= Victim(us, m.to) < 64)
      modifies this`colours, this`pieces
      ensures colours == FlipColours(old(colours), us, m)
      ensures pieces == FlipPieces(old(pieces), us, m)
    {
      FlipColour(us, m.to);
      FlipPiece(m.piece, m.to);
      FlipColour(us, m.from);
      FlipPiece(m.piece, m.from);
      FlipSwap(old(colours)[us.Index()], m.to, m.from);
      FlipSwap(old(pieces)[m.piece.Index()], m.to, m.from);
      UnplaceByKind(us, m);
      LiftThenKind(old(colours), old(pieces), us, m);
    }

    /** The `switch` of `undomove`: the captured piece, en-passant victim, rook or pawn put back. */
    method UnplaceByKind(us: Side, m: Move)
      requires MoveFits(m) && (m.kind == EnPassant ==> 0 <= Victim(us, m.to) < 64)
      modifies this`colours, this`pieces
      ensures colours == KindColours(old(colours), us, m)
      ensures pieces == KindPieces(old(pieces), us, m)
    {
      match m.kind {
        case Normal =>
          QuietKind(colours, pieces, us, m);
        case Double =>
          QuietKind(colours, pieces, us, m);
        case Capture =>
          CaptureKind(colours, pieces, us, m);
          FlipColour(us.Other(), m.to);
          FlipPiece(m.captured, m.to);
        case EnPassant =>
          EnPassantKind(colours, pieces, us, m);
          Remove(us.Other(), Pawn, Victim(us, m.to) as Sq);
        case KingSide =>
          CastleKind(colours, pieces, us, m);
          MoveRook(us, KingSideRookFrom(us), KingSideRookTo(us));
        case QueenSide =>
          CastleKind(colours, pieces, us, m);
          MoveRook(us, QueenSideRookFrom(us), QueenSideRookTo(us));
        case Promo =>
          PromoKind(colours, pieces, us, m);
          Promote(m.promotion, m.to);
        case PromoCapture =>
          PromoCaptureKind(colours, pieces, us, m);
          Promote(m.promotion, m.to);
          Remove(us.Other(), m.captured, m.to);
      }
    }

    /**
     * `perft(depth)`: the number of move sequences of that length, counted
     * by making each generated move, counting below it and unmaking it; one
     * level above the leaves the length of the move list is used instead.
     * The count is the one `PerftSpec` gives under any generator that
     * agrees with `legal_moves` (such as `Generate`), and the position and
     * history are left as they were.
     */
    method Perft(ghost gen: Board --> seq<Move>, depth: nat) returns (nodes: nat)
      requires Generates(gen) && PerftSafe(gen, State(), depth)
      modifies this
      ensures nodes == PerftSpec(gen, old(State()), depth)
      ensures State() == old(State()) && history == old(history)
      decreases depth, 3
    {
      if depth == 0 {
        return 1;
      }
      var b := State();
      if depth == 1 {
        nodes := CountGenerated(gen, b);
        return;
      }
      PerftInner(gen, b, depth);
      var moves := Generated(gen, b);
      nodes := PerftEach(gen, moves, depth - 1);
    }

    /** The loop of `perft`: the counts below each move of the list, added up. */
    method PerftEach(ghost gen: Board --> seq<Move>, moves: seq<Move>, depth: nat) returns (nodes: nat)
      requires Generates(gen) && ChildrenSafe(gen, State(), moves, depth)
      modifies this
      ensures nodes == SumPerft(gen, old(State()), moves, depth)
      ensures State() == old(State()) && history == old(history)
      decreases depth + 1, 1
    {
      ghost var b := State();
      nodes := 0;
      var i := 0;
      while i < |moves|
        invariant 0 <= i <= |moves|
        invariant State() == b && history == old(history)
        invariant ChildrenSafe(gen, b, moves[i..], depth)
        invariant nodes + SumPerft(gen, b, moves[i..], depth) == SumPerft(gen, b, moves, depth)
      {
        SumPerftStep(gen, b, moves[i..], depth);
        assert moves[i..][0] == moves[i] && moves[i..][1..] == moves[i + 1..];
        var n := PerftChild(gen, moves[i], depth);
        nodes := nodes + n;
        i := i + 1;
      }
    }

    /** One pass of the loop: make the move, count below it, unmake it. */
    method PerftChild(ghost gen: Board --> seq<Move>, m: Move, depth: nat) returns (n: nat)
      requires Generates(gen) && ChildSafe(gen, State(), m, depth)
      modifies this
      ensures n == PerftSpec(gen, MakeBoard(old(State()), m), depth)
      ensures State() == old(State()) && history == old(history)
      decreases depth + 1, 0
    {
      ghost var b := State();
      UndoMakeRoundTrip(b, m);
      MakeMove(m);
      n := Perft(gen, depth);
      UndoMove();
    }

    /**
     * The placement half of `makemove`: the mover lifted from its origin and
     * put on its target, the en-passant file cleared, then what the kind of
     * move adds.
     */
    method MovePieces(us: Side, m: Move)
      requires MoveFits(m) && (m.kind == EnPassant ==> 0 <= Victim(us, m.to) < 64)
      modifies this`colours, this`pieces, this`ep
      ensures colours == FlipColours(old(colours), us, m)
      ensures pieces == FlipPieces(old(pieces), us, m)
      ensures ep == if m.kind == Double then FileOf(m.to) else NoEp
    {
      FlipColour(us, m.from);
      FlipPiece(m.piece, m.from);
      FlipColour(us, m.to);
      FlipPiece(m.piece, m.to);
      ep := NoEp;
      PlaceByKind(us, m);
      LiftThenKind(old(colours), old(pieces), us, m);
    }

    /** The `switch` of `makemove` on the kind of move: what each kind moves beyond the mover. */
    method PlaceByKind(us: Side, m: Move)
      requires MoveFits(m) && (m.kind == EnPassant ==> 0 <= Victim(us, m.to) < 64)
      modifies this`colours, this`pieces, this`ep
      ensures colours == KindColours(old(colours), us, m)
      ensures pieces == KindPieces(old(pieces), us, m)
      ensures ep == if m.kind == Double then FileOf(m.to) else old(ep)
    {
      match m.kind {
        case Normal =>
          QuietKind(colours, pieces, us, m);
        case Capture =>
          CaptureKind(colours, pieces, us, m);
          Remove(us.Other(), m.captured, m.to);
        case Double =>
          QuietKind(colours, pieces, us, m);
          ep := FileOf(m.to);
        case EnPassant =>
          EnPassantKind(colours, pieces, us, m);
          Remove(us.Other(), Pawn, Victim(us, m.to) as Sq);
        case KingSide =>
          CastleKind(colours, pieces, us, m);
          MoveRook(us, KingSideRookFrom(us), KingSideRookTo(us));
        case QueenSide =>
          CastleKind(colours, pieces, us, m);
          MoveRook(us, QueenSideRookFrom(us), QueenSideRookTo(us));
        case Promo =>
          PromoKind(colours, pieces, us, m);
          Promote(m.promotion, m.to);
        case PromoCapture =>
          PromoCaptureKind(colours, pieces, us, m);
          Promote(m.promotion, m.to);
          Remove(us.Other(), m.captured, m.to);
      }
    }

    /** `pieces_[p] ^= sq; colours_[s] ^= sq`: a captured piece taken off. */
    method Remove(s: Side, p: Piece, sq: Sq)
      requires p != None
      modifies this`colours, this`pieces
      ensures colours == old(colours)[s.Index() := Toggle(old(colours)[s.Index()], {sq})]
      ensures pieces == old(pieces)[p.Index() := Toggle(old(pieces)[p.Index()], {sq})]
    {
      FlipPiece(p, sq);
      FlipColour(s, sq);
    }

    /** The castling rook lifted from `from` and put on `to`. */
    method MoveRook(us: Side, from: Sq, to: Sq)
      modifies this`colours, this`pieces
      ensures colours == old(colours)[us.Index() := Toggle(Toggle(old(colours)[us.Index()], {from}), {to})]
      ensures pieces == old(pieces)[Rook.Index() := Toggle(Toggle(old(pieces)[Rook.Index()], {from}), {to})]
    {
      FlipColour(us, from);
      FlipPiece(Rook, from);
      FlipColour(us, to);
      FlipPiece(Rook, to);
    }

    /** `pieces_[Pawn] ^= sq; pieces_[promo] ^= sq`: the pawn on sq becomes the promoted piece. */
    method Promote(p: Piece, sq: Sq)
      requires p != None
      modifies this`pieces
      ensures pieces == Promoted(old(pieces), p, sq)
    {
      FlipPiece(Pawn, sq);
      FlipPiece(p, sq);
    }

    /**
     * `get_fen()`: the squares from a8 rank by rank, the side to move, the
     * castling letters, the en-passant square and the two clocks.
     */
    method GetFen() returns (fen: string)
      requires EpWellFormed(State())
      ensures fen == FenText(State())
    {
      ghost var b := State();
      fen := WritePlacement();
      ghost var placement := fen;
      fen := fen + (if turn == White then " w" else " b");
      assert fen == placement + (" " + SideText(b.turn));
      var part := CastlingPart();
      fen := fen + (" " + part);
      ghost var upToCastling := fen;
      if ep == NoEp {
        fen := fen + " -";
      } else {
        var base := if turn == White then 40 else 16;
        fen := fen + (" " + Square(base + ep).ToString());
      }
      assert fen == upToCastling + (" " + EpText(b));
      fen := fen + (" " + IntText(halfmove));
      fen := fen + (" " + IntText(fullmove));
      AppendFields(placement, SideText(b.turn), CastlingText(b.castling), EpText(b), IntText(b.halfmove), IntText(b.fullmove));
    }

    /** The castling part of `get_fen()`: the held flags as K, Q, k, q in that order, or "-". */
    method CastlingPart() returns (part: string)
      ensures part == CastlingText(castling)
    {
      part := "";
      if castling[0] {
        part := part + "K";
      }
      if castling[1] {
        part := part + "Q";
      }
      if castling[2] {
        part := part + "k";
      }
      if castling[3] {
        part := part + "q";
      }
      if part == "" {
        part := "-";
      }
    }

    /**
     * The first part of `get_fen()`: index i walks each rank from the
     * a-file, drops 16 at the h-file to reach the next rank down, and stops
     * below a1; runs of empty squares are written as their count.
     */
    method WritePlacement() returns (fen: string)
      ensures fen == PlacementText(State())
    {
      ghost var b := State();
      fen := "";
      var empty: nat := 0;
      var i := 56;
      ghost var n := 0;
      while i >= 0
        invariant 0 <= n <= 64 && (n < 64 ==> i == SqAt(n)) && (n == 64 ==> i == -8)
        invariant WalkFrom(b, n, (fen, empty)) == WalkFrom(b, 0, ("", 0))
        invariant State() == b
        decreases 64 - n
      {
        SqAtNext(n);
        ghost var before := (fen, empty);
        var p := PieceOn(State(), i);
        if p != None {
          assert (if i in colours[0] then White else Black) == ColourOn(b, SqAt(n));
          fen := fen + Flush(empty) + [Letter(p, if i in colours[0] then White else Black)];
          empty := 0;
        } else {
          empty := empty + 1;
        }
        ghost var mid := (fen, empty);
        assert mid == if p != None then (before.0 + Flush(before.1) + [Letter(p, ColourOn(b, SqAt(n)))], 0) else (before.0, before.1 + 1);
        if i % 8 == 7 {
          fen := fen + Flush(empty);
          empty := 0;
          if i > 7 {
            fen := fen + "/";
          } else {
            assert fen + "" == fen;
          }
          i := i - 16;
        }
        i := i + 1;
        assert (fen, empty) == CloseRank(n, mid.0, mid.1);
        n := n + 1;
      }
      WalkPlacement(b);
    }

    /**
     * `set_fen(fen)`: "startpos" is replaced by the starting position's
     * text; otherwise the position is cleared and the six fields are read
     * one after another, each from where the last stopped, and the hash is
     * computed afresh.
     */
    method SetFen(fen: string)
      modifies this
      ensures State() == ParseFen(fen) && history == []
      decreases if fen == "startpos" then 1 else 0
    {
      if fen == "startpos" {
        SetFen(StartFen);
        return;
      }
      ReadFen(fen);
    }

    /** The body of `set_fen` for a text other than "startpos". */
    method ReadFen(fen: string)
      modifies this
      ensures State() == FenBoard(fen) && history == []
    {
      Clear();
      var ss := Stream(fen, false);
      var word := "";
      var r := ReadWord(ss, word);
      word, ss := r.0, r.1;
      ghost var r1 := r;
      PlacePieces(word);
      r := ReadWord(ss, word);
      word, ss := r.0, r.1;
      ghost var r2 := r;
      if word == "w" {
        turn := White;
      } else {
        turn := Black;
      }
      r := ReadWord(ss, word);
      word, ss := r.0, r.1;
      ghost var r3 := r;
      SetCastling(word);
      r := ReadWord(ss, word);
      word, ss := r.0, r.1;
      ghost var r4 := r;
      if word != "-" {
        ep := EpFile(word);
      }
      var n := ReadInt(ss, halfmove);
      halfmove, ss := n.0, n.1;
      ghost var n5 := n;
      n := ReadInt(ss, fullmove);
      fullmove, ss := n.0, n.1;
      FenBoardOf(fen, r1, r2, r3, r4, n5, n, State());
      hash := HashOf(State());
    }

    /**
     * The placement loop of `set_fen`: from index 56 (a8), a letter sets its
     * piece and steps one square, a digit skips that many squares, a '/'
     * drops 16 to the start of the rank below, anything else is ignored.
     */
    method PlacePieces(word: string)
      modifies this
      ensures State() == Run(word, Cursor(56, old(State()))).board && history == old(history)
      ensures turn == old(turn) && ep == old(ep) && castling == old(castling) && hash == old(hash)
      ensures halfmove == old(halfmove) && fullmove == old(fullmove)
    {
      var i := 56;
      var k := 0;
      while k < |word|
        invariant 0 <= k <= |word|
        invariant Run(word[k..], Cursor(i, State())) == Run(word, Cursor(56, old(State())))
        invariant history == old(history)
        invariant turn == old(turn) && ep == old(ep) && castling == old(castling) && hash == old(hash)
        invariant halfmove == old(halfmove) && fullmove == old(fullmove)
      {
        var c := word[k];
        assert word[k..] == [c] + word[k + 1..];
        RunCons(c, word[k + 1..], Cursor(i, State()));
        ghost var next := Step(Cursor(i, State()), c);
        var p := LetterPiece(c);
        if p != None {
          // A square off the board is undefined behaviour in the source: nothing is placed.
          if 0 <= i < 64 {
            Set(i, LetterSide(c), p);
          }
          i := i + 1;
        } else if '1' <= c <= '8' {
          i := i + (c as int - '1' as int + 1);
        } else if c == '/' {
          i := i - 16;
        }
        assert Cursor(i, State()) == next;
        k := k + 1;
      }
      assert word[k..] == [];
    }

    /** The castling loop of `set_fen`: K, Q, k and q set flags 0 to 3; other characters are ignored. */
    method SetCastling(word: string)
      modifies this
      ensures castling == CastleRun(word, old(castling))
      ensures State() == old(State()).(castling := castling) && history == old(history)
    {
      var k := 0;
      while k < |word|
        invariant 0 <= k <= |word|
        invariant CastleRun(word[k..], castling) == CastleRun(word, old(castling))
        invariant State() == old(State()).(castling := castling) && history == old(history)
      {
        var c := word[k];
        assert word[k..] == [c] + word[k + 1..];
        if c == 'K' {
          castling := castling[0 := true];
        } else if c == 'Q' {
          castling := castling[1 := true];
        } else if c == 'k' {
          castling := castling[2 := true];
        } else if c == 'q' {
          castling := castling[3 := true];
        }
        k := k + 1;
      }
      assert word[k..] == [];
    }
  }

  /** The pawn mask and piece p's mask flipped on sq, in that order. */
  function Promoted(ps: Six, p: Piece, sq: Sq): Six
    requires p != None
  {
    var q := ps[Pawn.Index() := Toggle(ps[Pawn.Index()], {sq})];
    q[p.Index() := Toggle(q[p.Index()], {sq})]
  }

  /** The colour masks flipped on what the kind-specific part of a move flips: the rook, or the taken piece. */
  function KindColours(c: Pair, us: Side, m: Move): Pair
    requires m.kind == EnPassant ==> 0 <= Victim(us, m.to) < 64
  {
    [Toggle(c[0], KindColourFlips(us, m, White)), Toggle(c[1], KindColourFlips(us, m, Black))]
  }

  function KindColourFlips(us: Side, m: Move, s: Side): Bitboard
    requires m.kind == EnPassant ==> 0 <= Victim(us, m.to) < 64
  {
    if s == us then RookSquares(us, m.kind) else TakenSquares(us, m)
  }

  /** The piece masks flipped on what the kind-specific part of a move flips: rook, promotion and capture. */
  function KindPieces(ps: Six, us: Side, m: Move): (r: Six)
    requires m.kind == EnPassant ==> 0 <= Victim(us, m.to) < 64
    ensures forall j :: 0 <= j < 6 ==> r[j] == Toggle(ps[j], KindFlips(us, m, PieceAt(j)))
  {
    seq(6, j requires 0 <= j < 6 => Toggle(ps[j], KindFlips(us, m, PieceAt(j))))
  }

  function KindFlips(us: Side, m: Move, p: Piece): Bitboard
    requires m.kind == EnPassant ==> 0 <= Victim(us, m.to) < 64
  {
    var rook := if p == Rook then RookSquares(us, m.kind) else {};
    var promoted :=
      if IsPromotion(m.kind) then Toggle(if p == Pawn then {m.to} else {}, if p == m.promotion then {m.to} else {})
      else {};
    var taken :=
      if m.kind == EnPassant then (if p == Pawn then TakenSquares(us, m) else {})
      else if p == m.captured then TakenSquares(us, m) else {};
    Toggle(Toggle(rook, promoted), taken)
  }

  /** The kind-specific flips of each piece mask, kind by kind. */
  lemma KindFlipsOf(us: Side, m: Move, p: Piece)
    requires MoveFits(m) && (m.kind == EnPassant ==> 0 <= Victim(us, m.to) < 64)
    ensures m.kind == Normal || m.kind == Double ==> KindFlips(us, m, p) == {}
    ensures m.kind == Capture ==> KindFlips(us, m, p) == if p == m.captured then {m.to} else {}
    ensures m.kind == EnPassant ==> KindFlips(us, m, p) == if p == Pawn then {Victim(us, m.to) as Sq} else {}
    ensures m.kind == KingSide || m.kind == QueenSide ==> KindFlips(us, m, p) == if p == Rook then RookSquares(us, m.kind) else {}
    ensures m.kind == Promo ==> KindFlips(us, m, p) == if p == Pawn || p == m.promotion then {m.to} else {}
    ensures m.kind == PromoCapture ==>
              KindFlips(us, m, p) == Toggle(if p == Pawn || p == m.promotion then {m.to} else {}, if p == m.captured then {m.to} else {})
  {
  }

  lemma SamePair(a: Pair, b: Pair)
    requires a[0] == b[0] && a[1] == b[1]
    ensures a == b
  {
  }

  lemma SameSix(a: Six, b: Six)
    requires forall j :: 0 <= j < 6 ==> a[j] == b[j]
    ensures a == b
  {
  }

  lemma ToggleNone(x: Bitboard)
    ensures Toggle(x, {}) == x
  {
  }

  lemma QuietKind(c: Pair, ps: Six, us: Side, m: Move)
    requires MoveFits(m) && (m.kind == Normal || m.kind == Double)
    ensures KindColours(c, us, m) == c && KindPieces(ps, us, m) == ps
  {
    ToggleNone(c[0]);
    ToggleNone(c[1]);
    SamePair(KindColours(c, us, m), c);
    forall j | 0 <= j < 6 ensures KindPieces(ps, us, m)[j] == ps[j] {
      KindFlipsOf(us, m, PieceAt(j));
      ToggleNone(ps[j]);
    }
    SameSix(KindPieces(ps, us, m), ps);
  }

  lemma CaptureKind(c: Pair, ps: Six, us: Side, m: Move)
    requires MoveFits(m) && m.kind == Capture
    ensures KindColours(c, us, m) == c[us.Other().Index() := Toggle(c[us.Other().Index()], {m.to})]
    ensures KindPieces(ps, us, m) == ps[m.captured.Index() := Toggle(ps[m.captured.Index()], {m.to})]
  {
    ToggleNone(c[us.Index()]);
    SamePair(KindColours(c, us, m), c[us.Other().Index() := Toggle(c[us.Other().Index()], {m.to})]);
    var e := ps[m.captured.Index() := Toggle(ps[m.captured.Index()], {m.to})];
    forall j | 0 <= j < 6 ensures KindPieces(ps, us, m)[j] == e[j] {
      KindFlipsOf(us, m, PieceAt(j));
      ToggleNone(ps[j]);
    }
    SameSix(KindPieces(ps, us, m), e);
  }

  lemma EnPassantKind(c: Pair, ps: Six, us: Side, m: Move)
    requires MoveFits(m) && m.kind == EnPassant && 0 <= Victim(us, m.to) < 64
    ensures KindColours(c, us, m) == c[us.Other().Index() := Toggle(c[us.Other().Index()], {Victim(us, m.to) as Sq})]
    ensures KindPieces(ps, us, m) == ps[Pawn.Index() := Toggle(ps[Pawn.Index()], {Victim(us, m.to) as Sq})]
  {
    var v := Victim(us, m.to) as Sq;
    ToggleNone(c[us.Index()]);
    SamePair(KindColours(c, us, m), c[us.Other().Index() := Toggle(c[us.Other().Index()], {v})]);
    var e := ps[Pawn.Index() := Toggle(ps[Pawn.Index()], {v})];
    forall j | 0 <= j < 6 ensures KindPieces(ps, us, m)[j] == e[j] {
      KindFlipsOf(us, m, PieceAt(j));
      ToggleNone(ps[j]);
    }
    SameSix(KindPieces(ps, us, m), e);
  }

  lemma CastleKind(c: Pair, ps: Six, us: Side, m: Move)
    requires MoveFits(m) && (m.kind == KingSide || m.kind == QueenSide)
    ensures var from := if m.kind == KingSide then KingSideRookFrom(us) else QueenSideRookFrom(us);
            var to := if m.kind == KingSide then KingSideRookTo(us) else QueenSideRookTo(us);
            && KindColours(c, us, m) == c[us.Index() := Toggle(Toggle(c[us.Index()], {from}), {to})]
            && KindPieces(ps, us, m) == ps[Rook.Index() := Toggle(Toggle(ps[Rook.Index()], {from}), {to})]
  {
    var from := if m.kind == KingSide then KingSideRookFrom(us) else QueenSideRookFrom(us);
    var to := if m.kind == KingSide then KingSideRookTo(us) else QueenSideRookTo(us);
    assert RookSquares(us, m.kind) == {from, to};
    FlipTwo(c[us.Index()], from, to);
    FlipTwo(ps[Rook.Index()], from, to);
    ToggleNone(c[us.Other().Index()]);
    SamePair(KindColours(c, us, m), c[us.Index() := Toggle(Toggle(c[us.Index()], {from}), {to})]);
    var e := ps[Rook.Index() := Toggle(Toggle(ps[Rook.Index()], {from}), {to})];
    forall j | 0 <= j < 6 ensures KindPieces(ps, us, m)[j] == e[j] {
      KindFlipsOf(us, m, PieceAt(j));
      ToggleNone(ps[j]);
    }
    SameSix(KindPieces(ps, us, m), e);
  }

  lemma PromoKind(c: Pair, ps: Six, us: Side, m: Move)
    requires MoveFits(m) && m.kind == Promo
    ensures KindColours(c, us, m) == c && KindPieces(ps, us, m) == Promoted(ps, m.promotion, m.to)
  {
    ToggleNone(c[0]);
    ToggleNone(c[1]);
    SamePair(KindColours(c, us, m), c);
    var e := Promoted(ps, m.promotion, m.to);
    forall j | 0 <= j < 6 ensures KindPieces(ps, us, m)[j] == e[j] {
      KindFlipsOf(us, m, PieceAt(j));
      ToggleNone(ps[j]);
    }
    SameSix(KindPieces(ps, us, m), e);
  }

  lemma PromoCaptureKind(c: Pair, ps: Six, us: Side, m: Move)
    requires MoveFits(m) && m.kind == PromoCapture
    ensures KindColours(c, us, m) == c[us.Other().Index() := Toggle(c[us.Other().Index()], {m.to})]
    ensures var q := Promoted(ps, m.promotion, m.to);
            KindPieces(ps, us, m) == q[m.captured.Index() := Toggle(q[m.captured.Index()], {m.to})]
  {
    ToggleNone(c[us.Index()]);
    SamePair(KindColours(c, us, m), c[us.Other().Index() := Toggle(c[us.Other().Index()], {m.to})]);
    var q := Promoted(ps, m.promotion, m.to);
    var e := q[m.captured.Index() := Toggle(q[m.captured.Index()], {m.to})];
    forall j | 0 <= j < 6 ensures KindPieces(ps, us, m)[j] == e[j] {
      PromoCapturePiece(ps[j], us, m, PieceAt(j));
    }
    SameSix(KindPieces(ps, us, m), e);
  }

  lemma PromoCapturePiece(x: Bitboard, us: Side, m: Move, p: Piece)
    requires MoveFits(m) && m.kind == PromoCapture
    ensures var y := if p == Pawn || p == m.promotion then Toggle(x, {m.to}) else x;
            Toggle(x, KindFlips(us, m, p)) == if p == m.captured then Toggle(y, {m.to}) else y
  {
    KindFlipsOf(us, m, p);
    ToggleNone(x);
    ToggleAssoc(x, if p == Pawn || p == m.promotion then {m.to} else {}, if p == m.captured then {m.to} else {});
  }

  /** Lifting and putting the mover, then the kind-specific flips, is the whole move's flips. */
  lemma LiftThenKind(c: Pair, ps: Six, us: Side, m: Move)
    requires MoveFits(m) && (m.kind == EnPassant ==> 0 <= Victim(us, m.to) < 64)
    ensures var c1 := c[us.Index() := Toggle(Toggle(c[us.Index()], {m.from}), {m.to})];
            KindColours(c1, us, m) == FlipColours(c, us, m)
    ensures var p1 := ps[m.piece.Index() := Toggle(Toggle(ps[m.piece.Index()], {m.from}), {m.to})];
            KindPieces(p1, us, m) == FlipPieces(ps, us, m)
  {
    LiftThenKindColours(c, us, m);
    LiftThenKindPieces(ps, us, m);
  }

  lemma LiftThenKindColours(c: Pair, us: Side, m: Move)
    requires MoveFits(m) && (m.kind == EnPassant ==> 0 <= Victim(us, m.to) < 64)
    ensures var c1 := c[us.Index() := Toggle(Toggle(c[us.Index()], {m.from}), {m.to})];
            KindColours(c1, us, m) == FlipColours(c, us, m)
  {
    var c1 := c[us.Index() := Toggle(Toggle(c[us.Index()], {m.from}), {m.to})];
    FlipTwo(c[us.Index()], m.from, m.to);
    ToggleAssoc(c[us.Index()], {m.from, m.to}, RookSquares(us, m.kind));
    SamePair(KindColours(c1, us, m), FlipColours(c, us, m));
  }

  lemma LiftThenKindPieces(ps: Six, us: Side, m: Move)
    requires MoveFits(m) && (m.kind == EnPassant ==> 0 <= Victim(us, m.to) < 64)
    ensures var p1 := ps[m.piece.Index() := Toggle(Toggle(ps[m.piece.Index()], {m.from}), {m.to})];
            KindPieces(p1, us, m) == FlipPieces(ps, us, m)
  {
    var p1 := ps[m.piece.Index() := Toggle(Toggle(ps[m.piece.Index()], {m.from}), {m.to})];
    forall j | 0 <= j < 6 ensures KindPieces(p1, us, m)[j] == FlipPieces(ps, us, m)[j] {
      LiftThenKindPiece(ps[j], us, m, PieceAt(j));
    }
    SameSix(KindPieces(p1, us, m), FlipPieces(ps, us, m));
  }

  lemma LiftThenKindPiece(x: Bitboard, us: Side, m: Move, p: Piece)
    requires m.from != m.to && (m.kind == EnPassant ==> 0 <= Victim(us, m.to) < 64)
    ensures var lifted := if p == m.piece then Toggle(Toggle(x, {m.from}), {m.to}) else x;
            Toggle(lifted, KindFlips(us, m, p)) == Toggle(x, PieceFlips(us, m, p))
  {
    var moved := if p == m.piece then {m.from, m.to} else {};
    FlipTwo(x, m.from, m.to);
    ToggleNone(x);
    var rook := if p == Rook then RookSquares(us, m.kind) else {};
    var promoted :=
      if IsPromotion(m.kind) then Toggle(if p == Pawn then {m.to} else {}, if p == m.promotion then {m.to} else {})
      else {};
    var taken :=
      if m.kind == EnPassant then (if p == Pawn then TakenSquares(us, m) else {})
      else if p == m.captured then TakenSquares(us, m) else {};
    ToggleAssoc(x, moved, KindFlips(us, m, p));
    ToggleAssoc(moved, rook, promoted);
    ToggleAssoc(moved, Toggle(rook, promoted), taken);
  }

  /** Flipping a mask on two different squares in turn flips it on both. */
  lemma FlipTwo(x: Bitboard, a: Sq, b: Sq)
    requires a != b
    ensures Toggle(Toggle(x, {a}), {b}) == Toggle(x, {a, b})
  {
  }

  lemma ToggleAssoc(x: Bitboard, a: Bitboard, b: Bitboard)
    ensures Toggle(Toggle(x, a), b) == Toggle(x, Toggle(a, b))
  {
  }

  /** The four `castling_[i] &= …` statements of `makemove`, in order, give `RightsAfter`. */
  lemma RightsInTurn(c: Rights, m: Move)
    ensures var c0 := c[0 := c[0] && !Touches(0, m)];
            var c1 := c0[1 := c0[1] && !Touches(1, m)];
            var c2 := c1[2 := c1[2] && !Touches(2, m)];
            c2[3 := c2[3] && !Touches(3, m)] == RightsAfter(c, m)
  {
  }

  /** Two single-square flips commute. */
  lemma FlipSwap(x: Bitboard, a: Sq, b: Sq)
    ensures Toggle(Toggle(x, {a}), {b}) == Toggle(Toggle(x, {b}), {a})
  {
  }

  /** The generator `perft` walks: `legal_moves()`, defined for positions with both kings. */
  ghost const Generate: Board --> seq<Move> := b requires Ready(b) => LegalMovesSpec(b)

  /** gen agrees with `legal_moves()` on every position with both kings and a well-formed en-passant file. */
  ghost predicate Generates(gen: Board --> seq<Move>)
  {
    forall b {:trigger LegalMovesSpec(b)} :: Ready(b) ==> gen.requires(b) && gen(b) == LegalMovesSpec(b)
  }

  /**
   * What `perft` needs of a position to run to the given depth under the
   * generator gen: both kings on the board and the en-passant file well
   * formed (what `legal_moves` needs), gen defined here, and, where it recurses, every
   * generated move makeable with the position after it fit to go one level
   * deeper.
   */
  ghost predicate PerftSafe(gen: Board --> seq<Move>, b: Board, depth: nat)
    decreases depth, 0
  {
    Ready(b) && gen.requires(b) && (depth >= 2 ==> ChildrenSafe(gen, b, gen(b), depth - 1))
  }

  /** Every move of ms fit for `ChildSafe`. */
  ghost predicate ChildrenSafe(gen: Board --> seq<Move>, b: Board, ms: seq<Move>, depth: nat)
    decreases depth, 2
  {
    forall i {:trigger ChildSafe(gen, b, ms[i], depth)} :: 0 <= i < |ms| ==> ChildSafe(gen, b, ms[i], depth)
  }

  /** The move m makeable, and the position after it fit for `perft` to the given depth. */
  ghost predicate ChildSafe(gen: Board --> seq<Move>, b: Board, m: Move, depth: nat)
    decreases depth, 1
  {
    Makeable(b, m) && PerftSafe(gen, MakeBoard(b, m), depth)
  }

  /**
   * The perft count under gen: 1 at depth 0, the number of generated moves
   * at depth 1, and deeper the sum over the generated moves of the count
   * one level down.
   */
  ghost function PerftSpec(gen: Board --> seq<Move>, b: Board, depth: nat): nat
    requires PerftSafe(gen, b, depth)
    decreases depth, 0
  {
    if depth == 0 then 1
    else if depth == 1 then |gen(b)|
    else SumPerft(gen, b, gen(b), depth - 1)
  }

  /** The counts at `depth` below each move of ms, added up. */
  ghost function SumPerft(gen: Board --> seq<Move>, b: Board, ms: seq<Move>, depth: nat): nat
    requires ChildrenSafe(gen, b, ms, depth)
    decreases depth, 1, |ms|
  {
    if ms == [] then 0
    else
      assert ChildSafe(gen, b, ms[0], depth);
      PerftSpec(gen, MakeBoard(b, ms[0]), depth) + SumPerft(gen, b, ms[1..], depth)
  }

  /** `Generate` is such a generator. */
  lemma GenerateGenerates()
    ensures Generates(Generate)
  {
  }

  /** The first move of a non-empty run: makeable, fit one level down, and its count split off the sum. */
  lemma SumPerftStep(gen: Board --> seq<Move>, b: Board, ms: seq<Move>, depth: nat)
    requires ChildrenSafe(gen, b, ms, depth) && ms != []
    ensures ChildSafe(gen, b, ms[0], depth) && ChildrenSafe(gen, b, ms[1..], depth)
    ensures SumPerft(gen, b, ms, depth) == PerftSpec(gen, MakeBoard(b, ms[0]), depth) + SumPerft(gen, b, ms[1..], depth)
  {
    assert ChildSafe(gen, b, ms[0], depth);
  }

  /** `legal_moves()`, as the generator's list. */
  method Generated(ghost gen: Board --> seq<Move>, b: Board) returns (moves: seq<Move>)
    requires Generates(gen) && Ready(b)
    ensures gen.requires(b) && moves == gen(b)
  {
    moves := LegalMoves(b);
  }

  /** `count_moves()`: the length of the generator's list. */
  method CountGenerated(ghost gen: Board --> seq<Move>, b: Board) returns (n: nat)
    requires Generates(gen) && Ready(b)
    ensures gen.requires(b) && n == |gen(b)|
  {
    n := CountMoves(b);
  }

  /** Above the leaves the count is the sum over the generated moves, each of them safe to make and count below. */
  lemma PerftInner(gen: Board --> seq<Move>, b: Board, depth: nat)
    requires depth >= 2 && PerftSafe(gen, b, depth)
    ensures ChildrenSafe(gen, b, gen(b), depth - 1)
    ensures PerftSpec(gen, b, depth) == SumPerft(gen, b, gen(b), depth - 1)
  {
  }

  /** Counting one level down from each move with nothing below it gives one per move. */
  lemma {:induction false} SumPerftLeaves(gen: Board --> seq<Move>, b: Board, ms: seq<Move>)
    requires ChildrenSafe(gen, b, ms, 0)
    ensures SumPerft(gen, b, ms, 0) == |ms|
    decreases |ms|
  {
    if ms != [] {
      SumPerftStep(gen, b, ms, 0);
      SumPerftLeaves(gen, b, ms[1..]);
    }
  }

  /**
   * The shortcut one level above the leaves is the general rule: where
   * every generated move can be made, the length of the move list is the
   * sum over the moves of the depth-0 count.
   */
  lemma PerftShortcut(gen: Board --> seq<Move>, b: Board)
    requires PerftSafe(gen, b, 1) && ChildrenSafe(gen, b, gen(b), 0)
    ensures PerftSpec(gen, b, 1) == SumPerft(gen, b, gen(b), 0)
  {
    SumPerftLeaves(gen, b, gen(b));
  }
}
