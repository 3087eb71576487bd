// Forsyth-Edwards notation: the text `get_fen` writes for a position and the
// position `set_fen` reads back from a text (get_fen.cpp, set_fen.cpp). The
// `std::stringstream` reads are modelled on the unread rest of the text.

module Fen {
  import opened Squares
  import opened Bitboards
  import opened Pieces
  import opened Boards
  import opened Zobrist
  import opened Hashing
  import opened Pawns
  import opened Validity
  import opened Effects

  // ---------------------------------------------------------------- letters

  /** The letter of a piece: `PNBRQK` for White, `pnbrqk` for Black. */
  function Letter(p: Piece, s: Side): char
    requires p != None
  {
    (if s == White then "PNBRQK" else "pnbrqk")[p.Index()]
  }

  /** The piece a letter of the placement field stands for; `None` for any other character. */
  function LetterPiece(c: char): Piece
  {
    if c == 'P' || c == 'p' then Pawn
    else if c == 'N' || c == 'n' then Knight
    else if c == 'B' || c == 'b' then Bishop
    else if c == 'R' || c == 'r' then Rook
    else if c == 'Q' || c == 'q' then Queen
    else if c == 'K' || c == 'k' then King
    else None
  }

  /** Upper-case letters are White's pieces, lower-case Black's. */
  function LetterSide(c: char): Side
  {
    if 'A' <= c <= 'Z' then White else Black
  }

  /** Reading back the letter `get_fen` writes gives the piece and side it was written for. */
  lemma LetterRoundTrip(p: Piece, s: Side)
    requires p != None
    ensures LetterPiece(Letter(p, s)) == p && LetterSide(Letter(p, s)) == s
    ensures !IsSpace(Letter(p, s))
  {
  }

  /** Every letter `set_fen` places a piece for is the letter `get_fen` writes for that piece. */
  lemma LetterOnly(c: char)
    requires LetterPiece(c) != None
    ensures Letter(LetterPiece(c), LetterSide(c)) == c
  {
  }

  // ---------------------------------------------------------------- numbers

  predicate IsDigit(c: char) { '0' <= c <= '9' }

  /** All characters of s are decimal digits. */
  predicate AllDigits(s: string)
  {
    forall i :: 0 <= i < |s| ==> IsDigit(s[i])
  }

  function DigitChar(d: int): (c: char)
    requires 0 <= d < 10
    ensures IsDigit(c) && c as int - '0' as int == d
  {
    ('0' as int + d) as char
  }

  /** `std::to_string` of a non-negative number: its decimal digits, without leading zeros. */
  function NatText(n: nat): (s: string)
    ensures |s| >= 1 && AllDigits(s)
    ensures n < 10 ==> s == [DigitChar(n)]
  {
    if n < 10 then [DigitChar(n)] else NatText(n / 10) + [DigitChar(n % 10)]
  }

  /** `std::to_string` of an `int`: a minus sign before a negative number. */
  function IntText(n: int): string
  {
    if n < 0 then "-" + NatText(-n) else NatText(n)
  }

  /** The number a run of decimal digits denotes. */
  function DigitsValue(s: string): nat
    requires AllDigits(s)
  {
    if s == [] then 0 else DigitsValue(s[..|s| - 1]) * 10 + (s[|s| - 1] as int - '0' as int)
  }

  /** Reading the digits `to_string` writes gives the number back. */
  lemma {:induction false} DigitsRoundTrip(n: nat)
    ensures DigitsValue(NatText(n)) == n
  {
    if n >= 10 {
      var s := NatText(n);
      assert s[..|s| - 1] == NatText(n / 10);
      DigitsRoundTrip(n / 10);
    }
  }

  // ---------------------------------------------------------------- the string stream

  /** The characters `>>` skips before a word or a number. */
  predicate IsSpace(c: char)
  {
    c == ' ' || c == '\t' || c == '\n' || c == '\r' || c as int == 11 || c as int == 12
  }

  /** No character of s is white space. */
  predicate NoSpace(s: string)
  {
    s == [] || (!IsSpace(s[0]) && NoSpace(s[1..]))
  }

  /** A `std::stringstream`: the text not yet read, and whether a read has failed. */
  datatype Stream = Stream(rest: string, failed: bool)

  function SkipSpaces(s: string): (r: string)
    ensures |r| <= |s|
    ensures r != [] ==> !IsSpace(r[0])
  {
    if s != [] && IsSpace(s[0]) then SkipSpaces(s[1..]) else s
  }

  /** The length of the run of non-space characters s starts with. */
  function WordLength(s: string): (n: nat)
    ensures n <= |s|
  {
    if s != [] && !IsSpace(s[0]) then 1 + WordLength(s[1..]) else 0
  }

  /** The length of the run of digits s starts with. */
  function DigitsLength(s: string): (n: nat)
    ensures n <= |s| && AllDigits(s[..n])
  {
    if s != [] && IsDigit(s[0]) then
      var n := 1 + DigitsLength(s[1..]);
      assert s[..n] == [s[0]] + s[1..][..n - 1];
      n
    else 0
  }

  /**
   * `ss >> word`: white space skipped, then the characters up to the next
   * white space. At the end of the text the read fails and the word keeps
   * its old value, and so does every read after a failure.
   */
  function ReadWord(st: Stream, word: string): (string, Stream)
  {
    if st.failed then (word, st)
    else
      var s := SkipSpaces(st.rest);
      if s == [] then (word, Stream(s, true))
      else
        var n := WordLength(s);
        (s[..n], Stream(s[n..], false))
  }

  /**
   * `ss >> n` into an `int`: white space skipped, an optional sign, then
   * decimal digits. At the end of the text the value is kept; with no digit
   * after the sign it becomes 0; either way the read fails.
   */
  function ReadInt(st: Stream, value: int): (int, Stream)
  {
    if st.failed then (value, st)
    else
      var s := SkipSpaces(st.rest);
      if s == [] then (value, Stream(s, true))
      else
        var t := if s[0] == '-' || s[0] == '+' then s[1..] else s;
        var n := DigitsLength(t);
        var magnitude: int := DigitsValue(t[..n]);
        if n == 0 then (0, Stream(t, true))
        else (if s[0] == '-' then -magnitude else magnitude, Stream(t[n..], false))
  }

  /** A word without white space, preceded by at most one space and followed by white space or the end, is read whole. */
  lemma ReadsWord(lead: string, w: string, tail: string, prev: string)
    requires lead == "" || lead == " "
    requires w != [] && NoSpace(w) && (tail == [] || IsSpace(tail[0]))
    ensures ReadWord(Stream(lead + (w + tail), false), prev) == (w, Stream(tail, false))
  {
    var s := w + tail;
    assert (lead + s)[|lead|..] == s;
    assert SkipSpaces(lead + s) == s;
    WordLengthOf(w, tail);
    assert s[..|w|] == w && s[|w|..] == tail;
  }

  lemma {:induction false} WordLengthOf(w: string, tail: string)
    requires NoSpace(w) && (tail == [] || IsSpace(tail[0]))
    ensures WordLength(w + tail) == |w|
    decreases |w|
  {
    if w == [] {
      assert w + tail == tail;
    } else {
      assert (w + tail)[1..] == w[1..] + tail;
      WordLengthOf(w[1..], tail);
    }
  }

  lemma {:induction false} DigitsLengthOf(d: string, tail: string)
    requires AllDigits(d) && (tail == [] || IsSpace(tail[0]))
    ensures DigitsLength(d + tail) == |d|
    decreases |d|
  {
    if d == [] {
      assert d + tail == tail;
    } else {
      assert (d + tail)[1..] == d[1..] + tail;
      DigitsLengthOf(d[1..], tail);
    }
  }

  /** A number `to_string` wrote, after one space and followed by white space or the end, is read back. */
  lemma ReadsInt(n: int, tail: string, prev: int)
    requires tail == [] || IsSpace(tail[0])
    ensures ReadInt(Stream(" " + (IntText(n) + tail), false), prev) == (n, Stream(tail, false))
  {
    var m: nat := if n < 0 then -n else n;
    var d := NatText(m);
    var t := d + tail;
    IntTextSigned(n, tail);
    DigitsLengthOf(d, tail);
    DigitsRoundTrip(m);
    assert t[..|d|] == d && t[|d|..] == tail;
    ReadIntDigits(IntText(n) + tail, t, |d|, prev);
  }

  /** The text of an int starts with '-' exactly when it is negative, and the digits follow the sign. */
  lemma IntTextSigned(n: int, tail: string)
    ensures var s := IntText(n) + tail;
            && s != [] && !IsSpace(s[0]) && (s[0] == '-' <==> n < 0)
            && (if s[0] == '-' || s[0] == '+' then s[1..] else s) == NatText(if n < 0 then -n else n) + tail
  {
    var d := NatText(if n < 0 then -n else n);
    var s := IntText(n) + tail;
    if n < 0 {
      assert s == ['-'] + (d + tail);
    } else {
      assert s == d + tail && s[0] == d[0] && IsDigit(d[0]);
    }
  }

  /** `ReadInt` on a text whose optional sign is followed by n digits. */
  lemma ReadIntDigits(s: string, t: string, n: nat, prev: int)
    requires s != [] && !IsSpace(s[0])
    requires t == (if s[0] == '-' || s[0] == '+' then s[1..] else s)
    requires 0 < n && DigitsLength(t) == n
    ensures var v: int := DigitsValue(t[..n]);
            ReadInt(Stream(" " + s, false), prev) == (if s[0] == '-' then -v else v, Stream(t[n..], false))
  {
    assert (" " + s)[1..] == s;
    assert SkipSpaces(" " + s) == s;
  }

  // ---------------------------------------------------------------- the placement field

  /** The square index after one character: a letter advances it by one, a digit by its value, '/' goes down a rank. */
  function NextCursor(i: int, c: char): int
  {
    if LetterPiece(c) != None then i + 1
    else if '1' <= c <= '8' then i + (c as int - '1' as int + 1)
    else if c == '/' then i - 16
    else i
  }

  /** The loop state of `set_fen`'s placement loop: the index `i` and the board built so far. */
  datatype Cursor = Cursor(i: int, board: Board)

  /**
   * One character of the placement field: a letter places its piece on
   * square i. For an index off the board the source shifts a bitboard by 64
   * or more, which C++ leaves undefined; the model places nothing there.
   */
  function Step(st: Cursor, c: char): Cursor
  {
    Cursor(NextCursor(st.i, c),
           if LetterPiece(c) != None && 0 <= st.i < 64 then SetBoard(st.board, st.i, LetterSide(c), LetterPiece(c))
           else st.board)
  }

  /** The placement loop over a whole word. */
  function Run(w: string, st: Cursor): Cursor
  {
    if w == [] then st else Run(w[1..], Step(st, w[0]))
  }

  /** Every letter of the word lands on a square of the board. */
  predicate Placeable(w: string, st: Cursor)
  {
    w == [] || ((LetterPiece(w[0]) != None ==> 0 <= st.i < 64) && Placeable(w[1..], Step(st, w[0])))
  }

  /** Reading one word after another is reading the two joined. */
  lemma {:induction false} RunAppend(x: string, y: string, st: Cursor)
    ensures Run(x + y, st) == Run(y, Run(x, st))
    ensures Placeable(x, st) && Placeable(y, Run(x, st)) ==> Placeable(x + y, st)
    decreases |x|
  {
    if x == [] {
      assert x + y == y;
    } else {
      assert (x + y)[0] == x[0] && (x + y)[1..] == x[1..] + y;
      RunAppend(x[1..], y, Step(st, x[0]));
    }
  }

  // ---------------------------------------------------------------- castling, en passant

  /** One character of the castling field: K, Q, k, q set flags 0 to 3. */
  function CastleStep(r: Rights, c: char): Rights
  {
    if c == 'K' then r[0 := true]
    else if c == 'Q' then r[1 := true]
    else if c == 'k' then r[2 := true]
    else if c == 'q' then r[3 := true]
    else r
  }

  function CastleRun(w: string, r: Rights): Rights
  {
    if w == [] then r else CastleRun(w[1..], CastleStep(r, w[0]))
  }

  lemma {:induction false} CastleRunAppend(x: string, y: string, r: Rights)
    ensures CastleRun(x + y, r) == CastleRun(y, CastleRun(x, r))
    decreases |x|
  {
    if x == [] {
      assert x + y == y;
    } else {
      assert (x + y)[0] == x[0] && (x + y)[1..] == x[1..] + y;
      CastleRunAppend(x[1..], y, CastleStep(r, x[0]));
    }
  }

  /**
   * The en-passant file read from a word: the file of `Square(word)`, which
   * reads the first two characters (a missing one reads as the terminating
   * '\0'), so of the index `(rank - '1') * 8 + (file - 'a')` truncated to a
   * byte.
   */
  function EpFile(w: string): (f: int)
    ensures 0 <= f < 8
  {
    FromString(w + ['\0', '\0']).File()
  }

  /** `ep_ = Square(word)` as written: the square's index, not its file. */
  function EpFieldAsWritten(w: string): int
  {
    FromString(w + ['\0', '\0']).data
  }

  // ---------------------------------------------------------------- get_fen

  /** `std::to_string(empty)` when squares are pending, nothing otherwise. */
  function Flush(e: nat): string
  {
    if e > 0 then NatText(e) else ""
  }

  /**
   * The text for rank r from file f to the h-file, with e empty squares
   * counted and not yet written: a piece writes the pending count and its
   * letter, an empty square adds one to the count, and the rank ends with
   * the pending count.
   */
  function RankText(b: Board, r: int, f: int, e: nat): string
    requires 0 <= r < 8 && 0 <= f <= 8
    decreases 8 - f
  {
    if f == 8 then Flush(e)
    else
      var sq := 8 * r + f;
      if PieceOn(b, sq) == None then RankText(b, r, f + 1, e + 1)
      else Flush(e) + [Letter(PieceOn(b, sq), ColourOn(b, sq))] + RankText(b, r, f + 1, 0)
  }

  /** The placement text from file f of rank r on: the rest of the rank, then the ranks below, after a '/'. */
  function RestText(b: Board, r: int, f: int, e: nat): string
    requires 0 <= r < 8 && 0 <= f <= 8
    decreases r, 1
  {
    RankText(b, r, f, e) + Below(b, r)
  }

  function Below(b: Board, r: int): string
    requires 0 <= r < 8
    decreases r, 0
  {
    if r == 0 then "" else "/" + RestText(b, r - 1, 0, 0)
  }

  /** The placement field: rank 8 first, each rank from the a-file. */
  function PlacementText(b: Board): string
  {
    RestText(b, 7, 0, 0)
  }

  function SideText(s: Side): string
  {
    if s == White then "w" else "b"
  }

  /** The held flags as `KQkq`, in that order, or `-` when none is held. */
  function CastlingText(c: Rights): string
  {
    var part := (if c[0] then "K" else "") + (if c[1] then "Q" else "") + (if c[2] then "k" else "") + (if c[3] then "q" else "");
    if part == "" then "-" else part
  }

  /** `-`, or the square behind the pawn that just stepped twice: on rank 6 when White is to move, rank 3 otherwise. */
  function EpText(b: Board): string
    requires EpWellFormed(b)
  {
    if b.ep == NoEp then "-" else Square((if b.turn == White then 40 else 16) + b.ep).ToString()
  }

  /** `get_fen()`: the six fields, separated by single spaces. */
  function FenText(b: Board): string
    requires EpWellFormed(b)
  {
    PlacementText(b) + " " + SideText(b.turn) + " " + CastlingText(b.castling) + " " + EpText(b)
      + " " + IntText(b.halfmove) + " " + IntText(b.fullmove)
  }

  // ---------------------------------------------------------------- set_fen

  /** The six fields as `set_fen` reads them, each read starting where the last stopped. */
  datatype Fields = Fields(placement: string, side: string, castling: string, ep: string, halfmove: int, fullmove: int)

  function ReadFields(fen: string): Fields
  {
    var (w1, s1) := ReadWord(Stream(fen, false), "");
    var (w2, s2) := ReadWord(s1, w1);
    var (w3, s3) := ReadWord(s2, w2);
    var (w4, s4) := ReadWord(s3, w3);
    var (h, s5) := ReadInt(s4, 0);
    var (f, _) := ReadInt(s5, 0);
    Fields(w1, w2, w3, w4, h, f)
  }

  /** Every piece letter of the placement field lands on the board. */
  predicate FenPlaceable(fen: string)
  {
    Placeable(ReadFields(fen).placement, Cursor(56, ClearBoard))
  }

  /**
   * The position `set_fen(fen)` leaves for a text other than "startpos": the
   * placement field from a8 on, White to move exactly for "w", the castling
   * letters, the en-passant file unless the field is "-", the two clocks
   * and the recomputed hash.
   */
  function FenBoard(fen: string): Board
  {
    var fs := ReadFields(fen);
    var placed := Run(fs.placement, Cursor(56, ClearBoard)).board;
    var b := placed.(turn := if fs.side == "w" then White else Black,
                     castling := CastleRun(fs.castling, ClearBoard.castling),
                     ep := if fs.ep != "-" then EpFile(fs.ep) else NoEp,
                     halfmove := fs.halfmove,
                     fullmove := fs.fullmove);
    b.(hash := HashOf(b))
  }

  /** The starting position's text, which "startpos" stands for. */
  const StartFen: string := "rnbqkbnr/pppppppp/8/8/8/8/PPPPPPPP/RNBQKBNR w KQkq - 0 1"


  // ---------------------------------------------------------------- reading back what get_fen writes

  /** The n-th square in the order the placement field lists them: rank 8 first, each rank from the a-file. */
  function SqAt(n: nat): (sq: Sq)
    requires n < 64
    ensures sq / 8 == 7 - n / 8 && sq % 8 == n % 8
  {
    8 * (7 - n / 8) + n % 8
  }

  /** The position of a square in that order. */
  function Order(sq: Sq): (n: nat)
    ensures n < 64 && SqAt(n) == sq
  {
    8 * (7 - sq / 8) + sq % 8
  }

  /** The empty board with b's pieces put on the first n squares of that order, one square at a time. */
  function Placed(b: Board, n: nat): Board
    requires n <= 64
  {
    if n == 0 then ClearBoard
    else
      var sq := SqAt(n - 1);
      if PieceOn(b, sq) == None then Placed(b, n - 1)
      else SetBoard(Placed(b, n - 1), sq, ColourOn(b, sq), PieceOn(b, sq))
  }

  /** The board with every square before file f of rank r placed. */
  function Upto(b: Board, r: int, f: int): Board
    requires 0 <= r < 8 && 0 <= f <= 8
  {
    Placed(b, 56 - 8 * r + f)
  }

  /** The end of a rank is the start of the rank below. */
  lemma UptoNextRank(b: Board, r: int)
    requires 0 < r < 8
    ensures Upto(b, r, 8) == Upto(b, r - 1, 0)
  {
    PlacedSame(b, 56 - 8 * r + 8, 56 - 8 * (r - 1) + 0);
  }

  lemma PlacedSame(b: Board, n: nat, m: nat)
    requires n == m <= 64
    ensures Placed(b, n) == Placed(b, m)
  {
  }

  /** Square (r, f) is the next one in the order. */
  lemma SqAtCell(r: int, f: int)
    requires 0 <= r < 8 && 0 <= f < 8
    ensures SqAt(56 - 8 * r + f) == 8 * r + f
  {
    var n := 56 - 8 * r + f;
    assert n / 8 == 7 - r && n % 8 == f;
  }

  /** Placing the piece of square (r, f) extends the board by that square. */
  lemma UptoPlace(b: Board, r: int, f: int)
    requires 0 <= r < 8 && 0 <= f < 8 && PieceOn(b, 8 * r + f) != None
    ensures SetBoard(Upto(b, r, f), 8 * r + f, ColourOn(b, 8 * r + f), PieceOn(b, 8 * r + f)) == Upto(b, r, f + 1)
  {
    SqAtCell(r, f);
  }

  /** Passing an empty square leaves the board as it is. */
  lemma UptoSkip(b: Board, r: int, f: int)
    requires 0 <= r < 8 && 0 <= f < 8 && PieceOn(b, 8 * r + f) == None
    ensures Upto(b, r, f) == Upto(b, r, f + 1)
  {
    SqAtCell(r, f);
  }

  /** The squares of the first n that hold a piece, by colour and by kind. */
  lemma {:induction false} PlacedMasks(b: Board, n: nat, x: Sq)
    requires n <= 64
    ensures x in Placed(b, n).colours[0] <==> Order(x) < n && PieceOn(b, x) != None && ColourOn(b, x) == White
    ensures x in Placed(b, n).colours[1] <==> Order(x) < n && PieceOn(b, x) != None && ColourOn(b, x) == Black
    ensures forall k :: 0 <= k < 6 ==> (x in Placed(b, n).pieces[k] <==> Order(x) < n && PieceOn(b, x) == PieceAt(k))
  {
    if n > 0 {
      PlacedMasks(b, n - 1, x);
      assert SqAt(n - 1) == x <==> Order(x) == n - 1;
    }
  }

  /** On a well-laid board a square is in a colour mask exactly when it holds a piece of that colour. */
  lemma ColourMask(b: Board, x: Sq, s: Side)
    requires WellLaid(b)
    ensures x in b.colours[s.Index()] <==> PieceOn(b, x) != None && ColourOn(b, x) == s
  {
    PieceOnFacts(b, x);
    assert b.Occupancy(White) == b.colours[0] && b.Occupancy(Black) == b.colours[1];
    assert x in b.Occupied() <==> x in b.colours[0] || x in b.colours[1];
    assert x in b.Occupied() <==> x in PieceUnion(b);
    assert x in PieceUnion(b) <==> PieceOn(b, x) != None by {
      if x in PieceUnion(b) {
        assert x in b.pieces[0] || x in b.pieces[1] || x in b.pieces[2] || x in b.pieces[3] || x in b.pieces[4] || x in b.pieces[5];
      }
    }
    assert x !in b.Occupancy(White) * b.Occupancy(Black);
  }

  /** Two boards with the same eight masks have the same mask sequences. */
  lemma MasksEqual(u: Board, v: Board)
    requires forall k :: 0 <= k < 2 ==> u.colours[k] == v.colours[k]
    requires forall k :: 0 <= k < 6 ==> u.pieces[k] == v.pieces[k]
    ensures u.colours == v.colours && u.pieces == v.pieces
  {
  }

  /** After the last square every piece of a well-laid board is placed. */
  lemma PlacedAll(b: Board)
    requires WellLaid(b)
    ensures Placed(b, 64).colours == b.colours && Placed(b, 64).pieces == b.pieces
  {
    var u := Placed(b, 64);
    forall k | 0 <= k < 6 ensures u.pieces[k] == b.pieces[k] {
      forall x: Sq ensures x in u.pieces[k] <==> x in b.pieces[k] {
        PlacedMasks(b, 64, x);
        PieceOnExact(b, x, PieceAt(k));
      }
    }
    forall k | 0 <= k < 2 ensures u.colours[k] == b.colours[k] {
      forall x: Sq ensures x in u.colours[k] <==> x in b.colours[k] {
        PlacedMasks(b, 64, x);
        ColourMask(b, x, if k == 0 then White else Black);
      }
    }
    MasksEqual(u, b);
  }

  /** Within a rank the pending count is at most 8, so `to_string` writes one digit. */
  lemma FlushDigit(e: nat)
    requires e <= 8
    ensures Flush(e) == if e > 0 then [DigitChar(e)] else []
  {
  }

  /** Reading a count of empty squares moves the index on by the count. */
  lemma RunFlush(e: nat, st: Cursor)
    requires e <= 8
    ensures Run(Flush(e), st) == Cursor(st.i + e, st.board) && Placeable(Flush(e), st)
    ensures NoSpace(Flush(e))
  {
    FlushDigit(e);
    if e > 0 {
      var c := DigitChar(e);
      assert LetterPiece(c) == None && !IsSpace(c);
      assert [c][0] == c && [c][1..] == [];
      assert Step(st, c) == Cursor(st.i + e, st.board);
    }
  }

  /** An empty square adds one to the pending count. */
  lemma RankTextEmpty(b: Board, r: int, f: int, e: nat)
    requires 0 <= r < 8 && 0 <= f < 8 && PieceOn(b, 8 * r + f) == None
    ensures RankText(b, r, f, e) == RankText(b, r, f + 1, e + 1)
  {
  }

  /** A piece writes the pending count and its letter. */
  lemma RankTextPiece(b: Board, r: int, f: int, e: nat)
    requires 0 <= r < 8 && 0 <= f < 8 && PieceOn(b, 8 * r + f) != None
    ensures RankText(b, r, f, e) == Flush(e) + [Letter(PieceOn(b, 8 * r + f), ColourOn(b, 8 * r + f))] + RankText(b, r, f + 1, 0)
  {
  }

  lemma RestTextPiece(b: Board, r: int, f: int, e: nat)
    requires 0 <= r < 8 && 0 <= f < 8 && PieceOn(b, 8 * r + f) != None
    ensures RestText(b, r, f, e) == Flush(e) + ([Letter(PieceOn(b, 8 * r + f), ColourOn(b, 8 * r + f))] + RestText(b, r, f + 1, 0))
  {
    RankTextPiece(b, r, f, e);
    var x := Flush(e);
    var y := [Letter(PieceOn(b, 8 * r + f), ColourOn(b, 8 * r + f))];
    var z := RankText(b, r, f + 1, 0);
    var w := Below(b, r);
    assert RestText(b, r, f + 1, 0) == z + w;
    Regroup(x, y, z, w);
  }

  lemma RestTextEmpty(b: Board, r: int, f: int, e: nat)
    requires 0 <= r < 8 && 0 <= f < 8 && PieceOn(b, 8 * r + f) == None
    ensures RestText(b, r, f, e) == RestText(b, r, f + 1, e + 1)
  {
    RankTextEmpty(b, r, f, e);
  }

  /** A rank ends with its pending count, then a '/' and the rank below, except after the first rank. */
  lemma RestTextEnd(b: Board, r: int, e: nat)
    requires 0 <= r < 8
    ensures r == 0 ==> RestText(b, r, 8, e) == Flush(e) + []
    ensures r > 0 ==> RestText(b, r, 8, e) == Flush(e) + (['/'] + RestText(b, r - 1, 0, 0))
  {
  }

  /**
   * Reading the placement text from file f of rank r on, with e empty
   * squares pending, from the index of the first pending square and the
   * board holding every earlier square, places every remaining piece and
   * ends on the whole board.
   */
  lemma {:induction false} RestParse(b: Board, r: int, f: int, e: nat)
    requires 0 <= r < 8 && 0 <= e <= f <= 8
    ensures Parses(b, r, f, e)
    decreases r, 8 - f
  {
    if f == 8 {
      if r > 0 {
        RestParse(b, r - 1, 0, 0);
      }
      ParseRankEnd(b, r, e);
    } else {
      RestParse(b, r, f + 1, e + 1);
      RestParse(b, r, f + 1, 0);
      ParseSquare(b, r, f, e);
    }
  }

  /** One square of a rank: an empty one or a piece, whichever it holds. */
  lemma ParseSquare(b: Board, r: int, f: int, e: nat)
    requires 0 <= r < 8 && 0 <= e <= f < 8
    requires Parses(b, r, f + 1, e + 1) && Parses(b, r, f + 1, 0)
    ensures Parses(b, r, f, e)
  {
    if PieceOn(b, 8 * r + f) == None {
      ParseEmpty(b, r, f, e);
    } else {
      ParsePiece(b, r, f, e);
    }
  }

  /** What `RestParse` states for one starting point. */
  predicate Parses(b: Board, r: int, f: int, e: nat)
    requires 0 <= r < 8 && 0 <= e <= f <= 8
  {
    && Placeable(RestText(b, r, f, e), Cursor(8 * r + f - e, Upto(b, r, f)))
    && Run(RestText(b, r, f, e), Cursor(8 * r + f - e, Upto(b, r, f))) == Cursor(8, Upto(b, 0, 8))
  }

  lemma ParseRankEnd(b: Board, r: int, e: nat)
    requires 0 <= r < 8 && e <= 8
    requires r > 0 ==> Parses(b, r - 1, 0, 0)
    ensures Parses(b, r, 8, e)
  {
    RestTextEnd(b, r, e);
    if r > 0 {
      ParseSlash(b, r);
      ParseFlushThen(b, r, e, ['/'] + RestText(b, r - 1, 0, 0));
    } else {
      ParseFlushThen(b, r, e, []);
    }
  }

  /** From the end of a rank, '/' and the rank below read to the end. */
  lemma ParseSlash(b: Board, r: int)
    requires 0 < r < 8 && Parses(b, r - 1, 0, 0)
    ensures var mid := Cursor(8 * r + 8, Upto(b, r, 8));
            Placeable(['/'] + RestText(b, r - 1, 0, 0), mid)
            && Run(['/'] + RestText(b, r - 1, 0, 0), mid) == Cursor(8, Upto(b, 0, 8))
  {
    UptoNextRank(b, r);
    SlashStep(Upto(b, r, 8), 8 * r + 8, RestText(b, r - 1, 0, 0));
  }

  /** '/' moves the index back two ranks' worth and places nothing. */
  lemma SlashStep(u: Board, i: int, rest: string)
    ensures Run(['/'] + rest, Cursor(i, u)) == Run(rest, Cursor(i - 16, u))
    ensures Placeable(['/'] + rest, Cursor(i, u)) <==> Placeable(rest, Cursor(i - 16, u))
  {
    assert LetterPiece('/') == None;
    assert Step(Cursor(i, u), '/') == Cursor(i - 16, u);
    RunCons('/', rest, Cursor(i, u));
  }

  /** The pending count, then a text that reads from the end of the rank to the end. */
  lemma ParseFlushThen(b: Board, r: int, e: nat, w: string)
    requires 0 <= r < 8 && e <= 8
    requires RestText(b, r, 8, e) == Flush(e) + w
    requires Placeable(w, Cursor(8 * r + 8, Upto(b, r, 8)))
    requires Run(w, Cursor(8 * r + 8, Upto(b, r, 8))) == Cursor(8, Upto(b, 0, 8))
    ensures Parses(b, r, 8, e)
  {
    var st := Cursor(8 * r + 8 - e, Upto(b, r, 8));
    RunFlush(e, st);
    RunAppend(Flush(e), w, st);
  }

  /** Reading one character, then the rest. */
  lemma RunCons(c: char, w: string, st: Cursor)
    ensures Run([c] + w, st) == Run(w, Step(st, c))
    ensures Placeable([c] + w, st) <==> (LetterPiece(c) != None ==> 0 <= st.i < 64) && Placeable(w, Step(st, c))
  {
    assert ([c] + w)[0] == c && ([c] + w)[1..] == w;
  }

  lemma ParseEmpty(b: Board, r: int, f: int, e: nat)
    requires 0 <= r < 8 && 0 <= e <= f < 8 && PieceOn(b, 8 * r + f) == None
    requires Parses(b, r, f + 1, e + 1)
    ensures Parses(b, r, f, e)
  {
    RestTextEmpty(b, r, f, e);
    UptoSkip(b, r, f);
  }

  lemma ParsePiece(b: Board, r: int, f: int, e: nat)
    requires 0 <= r < 8 && 0 <= e <= f < 8 && PieceOn(b, 8 * r + f) != None
    requires Parses(b, r, f + 1, 0)
    ensures Parses(b, r, f, e)
  {
    var w := [Letter(PieceOn(b, 8 * r + f), ColourOn(b, 8 * r + f))] + RestText(b, r, f + 1, 0);
    RestTextPiece(b, r, f, e);
    ParseLetter(b, r, f);
    FlushThen(e, w, Cursor(8 * r + f - e, Upto(b, r, f)), Cursor(8, Upto(b, 0, 8)));
  }

  /** The letter of a piece places it and moves on to the next file, then the rest reads to the end. */
  lemma ParseLetter(b: Board, r: int, f: int)
    requires 0 <= r < 8 && 0 <= f < 8 && PieceOn(b, 8 * r + f) != None
    requires Parses(b, r, f + 1, 0)
    ensures var w := [Letter(PieceOn(b, 8 * r + f), ColourOn(b, 8 * r + f))] + RestText(b, r, f + 1, 0);
            Placeable(w, Cursor(8 * r + f, Upto(b, r, f)))
            && Run(w, Cursor(8 * r + f, Upto(b, r, f))) == Cursor(8, Upto(b, 0, 8))
  {
    var sq: Sq := 8 * r + f;
    var c := Letter(PieceOn(b, sq), ColourOn(b, sq));
    LetterRoundTrip(PieceOn(b, sq), ColourOn(b, sq));
    UptoPlace(b, r, f);
    assert Step(Cursor(sq, Upto(b, r, f)), c) == Cursor(sq + 1, Upto(b, r, f + 1));
    RunCons(c, RestText(b, r, f + 1, 0), Cursor(sq, Upto(b, r, f)));
  }

  /** A pending count, then a text that reads from the square after the count to the end. */
  lemma FlushThen(e: nat, w: string, st: Cursor, end: Cursor)
    requires e <= 8
    requires Placeable(w, Cursor(st.i + e, st.board)) && Run(w, Cursor(st.i + e, st.board)) == end
    ensures Placeable(Flush(e) + w, st) && Run(Flush(e) + w, st) == end
  {
    RunFlush(e, st);
    RunAppend(Flush(e), w, st);
  }

  lemma {:induction false} NoSpaceAppend(x: string, y: string)
    requires NoSpace(x) && NoSpace(y)
    ensures NoSpace(x + y)
    decreases |x|
  {
    if x == [] {
      assert x + y == y;
    } else {
      assert (x + y)[0] == x[0] && (x + y)[1..] == x[1..] + y;
      NoSpaceAppend(x[1..], y);
    }
  }

  /** The placement text is letters, digits and slashes: no white space ends it early. */
  lemma {:induction false} RestNoSpace(b: Board, r: int, f: int, e: nat)
    requires 0 <= r < 8 && 0 <= e <= f <= 8
    ensures NoSpace(RestText(b, r, f, e))
    decreases r, 8 - f
  {
    if f == 8 {
      if r > 0 {
        RestNoSpace(b, r - 1, 0, 0);
      }
      NoSpaceRankEnd(b, r, e);
    } else if PieceOn(b, 8 * r + f) == None {
      RestNoSpace(b, r, f + 1, e + 1);
      RestTextEmpty(b, r, f, e);
    } else {
      RestNoSpace(b, r, f + 1, 0);
      NoSpacePiece(b, r, f, e);
    }
  }

  lemma NoSpaceRankEnd(b: Board, r: int, e: nat)
    requires 0 <= r < 8 && e <= 8
    requires r > 0 ==> NoSpace(RestText(b, r - 1, 0, 0))
    ensures NoSpace(RestText(b, r, 8, e))
  {
    RestTextEnd(b, r, e);
    RunFlush(e, Cursor(0, ClearBoard));
    if r > 0 {
      NoSpaceAppend(['/'], RestText(b, r - 1, 0, 0));
      NoSpaceAppend(Flush(e), ['/'] + RestText(b, r - 1, 0, 0));
    } else {
      NoSpaceAppend(Flush(e), []);
    }
  }

  lemma NoSpacePiece(b: Board, r: int, f: int, e: nat)
    requires 0 <= r < 8 && 0 <= e <= f < 8 && PieceOn(b, 8 * r + f) != None
    requires NoSpace(RestText(b, r, f + 1, 0))
    ensures NoSpace(RestText(b, r, f, e))
  {
    var sq: Sq := 8 * r + f;
    var c := Letter(PieceOn(b, sq), ColourOn(b, sq));
    LetterRoundTrip(PieceOn(b, sq), ColourOn(b, sq));
    RestTextPiece(b, r, f, e);
    RunFlush(e, Cursor(0, ClearBoard));
    NoSpaceAppend([c], RestText(b, r, f + 1, 0));
    NoSpaceAppend(Flush(e), [c] + RestText(b, r, f + 1, 0));
  }

  // ---------------------------------------------------------------- the other fields

  /** `set_fen` reads back the castling flags `get_fen` writes. */
  lemma CastlingRoundTrip(c: Rights)
    ensures CastlingText(c) != [] && NoSpace(CastlingText(c))
    ensures CastleRun(CastlingText(c), ClearBoard.castling) == c
  {
    var k0 := if c[0] then "K" else "";
    var k1 := if c[1] then "Q" else "";
    var k2 := if c[2] then "k" else "";
    var k3 := if c[3] then "q" else "";
    if k0 + k1 + k2 + k3 == "" {
      assert !c[0] && !c[1] && !c[2] && !c[3];
      assert c == ClearBoard.castling;
    } else {
      CastlingLetters(c, k0, k1, k2, k3);
    }
  }

  /** One optional castling letter read over the rights so far. */
  lemma CastleFlag(on: bool, ch: char, i: int, k: string, r: Rights)
    requires 0 <= i < 4 && ch == "KQkq"[i] && k == (if on then [ch] else "")
    ensures NoSpace(k)
    ensures CastleRun(k, r) == (if on then r[i := true] else r)
  {
    if on {
      assert k[1..] == [];
    }
  }

  /** Setting each flag of c, in turn, on four cleared flags gives c. */
  lemma SetFourFlags(c: Rights, r0: Rights, r1: Rights, r2: Rights, r3: Rights)
    requires r0 == (if c[0] then [true, false, false, false] else [false, false, false, false])
    requires r1 == (if c[1] then r0[1 := true] else r0)
    requires r2 == (if c[2] then r1[2 := true] else r1)
    requires r3 == (if c[3] then r2[3 := true] else r2)
    ensures r3 == c
  {
    assert r3[0] == c[0] && r3[1] == c[1] && r3[2] == c[2] && r3[3] == c[3];
  }

  lemma CastlingLetters(c: Rights, k0: string, k1: string, k2: string, k3: string)
    requires k0 == (if c[0] then "K" else "") && k1 == (if c[1] then "Q" else "")
    requires k2 == (if c[2] then "k" else "") && k3 == (if c[3] then "q" else "")
    ensures NoSpace(k0 + k1 + k2 + k3)
    ensures CastleRun(k0 + k1 + k2 + k3, ClearBoard.castling) == c
  {
    var none := ClearBoard.castling;
    CastleRunAppend(k0 + k1 + k2, k3, none);
    CastleRunAppend(k0 + k1, k2, none);
    CastleRunAppend(k0, k1, none);
    var r0 := CastleRun(k0, none);
    var r1 := CastleRun(k1, r0);
    var r2 := CastleRun(k2, r1);
    var r3 := CastleRun(k3, r2);
    CastleFlag(c[0], 'K', 0, k0, none);
    CastleFlag(c[1], 'Q', 1, k1, r0);
    CastleFlag(c[2], 'k', 2, k2, r1);
    CastleFlag(c[3], 'q', 3, k3, r2);
    SetFourFlags(c, r0, r1, r2, r3);
    NoSpaceAppend(k0, k1);
    NoSpaceAppend(k0 + k1, k2);
    NoSpaceAppend(k0 + k1 + k2, k3);
  }

  /** `set_fen` reads back the en-passant file from the square `get_fen` writes. */
  lemma EpRoundTrip(b: Board)
    requires EpWellFormed(b)
    ensures EpText(b) != [] && NoSpace(EpText(b))
    ensures EpText(b) == "-" <==> b.ep == NoEp
    ensures b.ep != NoEp ==> EpFile(EpText(b)) == b.ep
  {
    if b.ep != NoEp {
      var sq := Square((if b.turn == White then 40 else 16) + b.ep);
      var w := sq.ToString();
      assert |w| == 2 && w[1..][1..] == [];
      assert (w + ['\0', '\0'])[0] == w[0] && (w + ['\0', '\0'])[1] == w[1];
      assert FromString(w + ['\0', '\0']).data == sq.data;
    }
  }

  /**
   * The assignment `ep_ = Square(word)` needs a conversion of the square
   * to `int`, which the class only offers explicitly; read with that
   * conversion, `set_fen` stores the index of the en-passant square where
   * every other member reads a file: for every
   * square `get_fen` writes the stored value is beyond 7, which `valid()`
   * rejects, while the file is the one that was written.
   */
  lemma AsWrittenEpStoresSquare(b: Board)
    requires EpWellFormed(b) && b.ep != NoEp
    ensures EpFieldAsWritten(EpText(b)) == (if b.turn == White then 40 else 16) + b.ep
    ensures EpFieldAsWritten(EpText(b)) > 7 && EpFile(EpText(b)) == b.ep
  {
    var sq := Square((if b.turn == White then 40 else 16) + b.ep);
    var w := sq.ToString();
    assert (w + ['\0', '\0'])[0] == w[0] && (w + ['\0', '\0'])[1] == w[1];
    EpRoundTrip(b);
  }

  /** The six fields joined by single spaces, grouped from the right. */
  lemma JoinFields(a0: string, a1: string, a2: string, a3: string, a4: string, a5: string)
    ensures a0 + " " + a1 + " " + a2 + " " + a3 + " " + a4 + " " + a5
         == a0 + (" " + (a1 + (" " + (a2 + (" " + (a3 + (" " + (a4 + (" " + a5)))))))))
  {
  }

  /** Each field `get_fen` writes is read back by the `>>` that `set_fen` uses for it. */
  lemma ReadFenFields(b: Board)
    requires EpWellFormed(b)
    ensures ReadFields(FenText(b))
         == Fields(PlacementText(b), SideText(b.turn), CastlingText(b.castling), EpText(b), b.halfmove, b.fullmove)
  {
    RestNoSpace(b, 7, 0, 0);
    assert PlacementText(b) != [] by {
      assert PlacementText(b) == RankText(b, 7, 0, 0) + Below(b, 7);
    }
    CastlingRoundTrip(b.castling);
    EpRoundTrip(b);
    ReadJoined(PlacementText(b), SideText(b.turn), CastlingText(b.castling), EpText(b), b.halfmove, b.fullmove);
  }

  /** Four words and two numbers joined by single spaces are read back one by one. */
  lemma ReadJoined(p: string, s: string, c: string, e: string, h: int, f: int)
    requires p != [] && s != [] && c != [] && e != []
    requires NoSpace(p) && NoSpace(s) && NoSpace(c) && NoSpace(e)
    ensures ReadFields(p + " " + s + " " + c + " " + e + " " + IntText(h) + " " + IntText(f)) == Fields(p, s, c, e, h, f)
  {
    var r5 := " " + IntText(f);
    var r4 := " " + (IntText(h) + r5);
    var r3 := " " + (e + r4);
    var r2 := " " + (c + r3);
    var r1 := " " + (s + r2);
    JoinFields(p, s, c, e, IntText(h), IntText(f));
    assert p + " " + s + " " + c + " " + e + " " + IntText(h) + " " + IntText(f) == "" + (p + r1);
    ReadsWord("", p, r1, "");
    ReadsWord(" ", s, r2, p);
    ReadsWord(" ", c, r3, s);
    ReadsWord(" ", e, r4, c);
    ReadsInt(h, r5, 0);
    assert r5 == " " + (IntText(f) + []);
    ReadsInt(f, [], 0);
  }

  /** `piece_on` reads only the piece masks. */
  lemma {:induction false} FirstPieceSame(x: Board, y: Board, sq: Sq, i: nat)
    requires x.pieces == y.pieces && i <= 6
    ensures FirstPieceFrom(x, sq, i) == FirstPieceFrom(y, sq, i)
    decreases 6 - i
  {
    if i < 6 {
      FirstPieceSame(x, y, sq, i + 1);
    }
  }

  /** The hash of a position does not depend on the hash field. */
  lemma HashIgnoresHash(x: Board, h: Hash)
    ensures HashOf(x.(hash := h)) == HashOf(x)
  {
    var y := x.(hash := h);
    forall sq: Sq ensures PieceOn(y, sq) == PieceOn(x, sq) {
      FirstPieceSame(y, x, sq, 0);
    }
    assert PlacementKeys(y) == PlacementKeys(x);
    assert CastlingKeys(y) == CastlingKeys(x);
  }

  /**
   * `set_fen(get_fen())` gives the position back: every piece on its
   * square, side to move, castling flags, en-passant file and both clocks,
   * and the hash, for any position whose masks are consistent and whose
   * hash is the recomputed one.
   */
  lemma FenRoundTrip(b: Board)
    requires WellLaid(b) && EpWellFormed(b) && b.hash == HashOf(b)
    ensures FenPlaceable(FenText(b)) && FenText(b) != "startpos"
    ensures FenBoard(FenText(b)) == b
  {
    var fen := FenText(b);
    ReadFenFields(b);
    RestParse(b, 7, 0, 0);
    assert Upto(b, 7, 0) == ClearBoard;
    PlacedAll(b);
    CastlingRoundTrip(b.castling);
    EpRoundTrip(b);
    var placed := Placed(b, 64);
    FenBoardFields(fen, ReadFields(fen), placed);
    var b1 := placed.(turn := b.turn, castling := b.castling, ep := b.ep, halfmove := b.halfmove, fullmove := b.fullmove);
    assert b1 == b.(hash := placed.hash);
    HashIgnoresHash(b, placed.hash);
    assert |fen| > |"startpos"|;
  }

  /** The six reads of `ReadFields`, taken one at a time. */
  lemma ReadFieldsChain(fen: string, r1: (string, Stream), r2: (string, Stream), r3: (string, Stream),
                        r4: (string, Stream), n5: (int, Stream), n6: (int, Stream))
    requires r1 == ReadWord(Stream(fen, false), "") && r2 == ReadWord(r1.1, r1.0)
    requires r3 == ReadWord(r2.1, r2.0) && r4 == ReadWord(r3.1, r3.0)
    requires n5 == ReadInt(r4.1, 0) && n6 == ReadInt(n5.1, 0)
    ensures ReadFields(fen) == Fields(r1.0, r2.0, r3.0, r4.0, n5.0, n6.0)
  {
  }

  /** `FenBoard` in terms of the fields read and the board the placement field builds. */
  lemma FenBoardFields(fen: string, fs: Fields, placed: Board)
    requires ReadFields(fen) == fs
    requires Run(fs.placement, Cursor(56, ClearBoard)).board == placed
    ensures var b := placed.(turn := if fs.side == "w" then White else Black,
                             castling := CastleRun(fs.castling, ClearBoard.castling),
                             ep := if fs.ep != "-" then EpFile(fs.ep) else NoEp,
                             halfmove := fs.halfmove,
                             fullmove := fs.fullmove);
            FenBoard(fen) == b.(hash := HashOf(b))
  {
  }

  /**
   * The fields read one at a time and stored into a board s, with the
   * placement field placed on the cleared board: s with its hash
   * recomputed is what `set_fen` yields.
   */
  lemma FenBoardOf(fen: string, r1: (string, Stream), r2: (string, Stream), r3: (string, Stream),
                   r4: (string, Stream), n5: (int, Stream), n6: (int, Stream), s: Board)
    requires r1 == ReadWord(Stream(fen, false), "") && r2 == ReadWord(r1.1, r1.0)
    requires r3 == ReadWord(r2.1, r2.0) && r4 == ReadWord(r3.1, r3.0)
    requires n5 == ReadInt(r4.1, 0) && n6 == ReadInt(n5.1, 0)
    requires var placed := Run(r1.0, Cursor(56, ClearBoard)).board;
             s.colours == placed.colours && s.pieces == placed.pieces
    requires s.turn == (if r2.0 == "w" then White else Black)
    requires s.castling == CastleRun(r3.0, ClearBoard.castling)
    requires s.ep == (if r4.0 != "-" then EpFile(r4.0) else NoEp)
    requires s.halfmove == n5.0 && s.fullmove == n6.0
    ensures FenBoard(fen) == s.(hash := HashOf(s))
  {
    var placed := Run(r1.0, Cursor(56, ClearBoard)).board;
    var fs := Fields(r1.0, r2.0, r3.0, r4.0, n5.0, n6.0);
    ReadFieldsChain(fen, r1, r2, r3, r4, n5, n6);
    FenBoardFields(fen, fs, placed);
    var b := placed.(turn := s.turn, castling := s.castling, ep := s.ep, halfmove := s.halfmove, fullmove := s.fullmove);
    assert s == b.(hash := s.hash);
    HashIgnoresHash(b, s.hash);
  }

  // ---------------------------------------------------------------- the steps of get_fen's loop

  /** At a piece the loop writes the pending count and the letter, and what is left is the text from the next file. */
  lemma EmitPiece(b: Board, r: int, f: int, e: nat, fen: string, full: string)
    requires 0 <= r < 8 && 0 <= e <= f < 8 && PieceOn(b, 8 * r + f) != None
    requires fen + RestText(b, r, f, e) == full
    ensures (fen + Flush(e) + [Letter(PieceOn(b, 8 * r + f), ColourOn(b, 8 * r + f))]) + RestText(b, r, f + 1, 0) == full
  {
    RestTextPiece(b, r, f, e);
    Regroup(fen, Flush(e), [Letter(PieceOn(b, 8 * r + f), ColourOn(b, 8 * r + f))], RestText(b, r, f + 1, 0));
  }

  lemma Regroup(a: string, x: string, y: string, z: string)
    ensures a + (x + (y + z)) == (a + x + y) + z
  {
  }

  /** At the end of a rank the loop writes the pending count and, above the first rank, a '/'. */
  lemma EmitRankEnd(b: Board, r: int, e: nat, fen: string, full: string)
    requires 0 <= r < 8 && e <= 8
    requires fen + RestText(b, r, 8, e) == full
    ensures r > 0 ==> (fen + Flush(e) + "/") + RestText(b, r - 1, 0, 0) == full
    ensures r == 0 ==> fen + Flush(e) == full
  {
    RestTextEnd(b, r, e);
    if r > 0 {
      Regroup(fen, Flush(e), "/", RestText(b, r - 1, 0, 0));
    } else {
      assert Flush(e) + [] == Flush(e);
    }
  }

  /** The five appends after the placement spell the rest of the text. */
  lemma AppendFields(p: string, s: string, c: string, e: string, h: string, f: string)
    ensures p + " " + s + " " + c + " " + e + " " + h + " " + f
         == p + (" " + s) + (" " + c) + (" " + e) + (" " + h) + (" " + f)
  {
  }

  // ---------------------------------------------------------------- get_fen's loop, square by square

  /**
   * `get_fen`'s placement loop from its n-th square on (a8 to h8, then a7
   * to h7, down to h1), having written acc.0 with acc.1 empty squares
   * counted and not yet written: the text and the count it ends with.
   */
  function WalkFrom(b: Board, n: nat, acc: (string, nat)): (string, nat)
    requires n <= 64
    decreases 64 - n
  {
    if n == 64 then acc else WalkFrom(b, n + 1, WalkStep(b, acc, n))
  }

  /** One square of the loop: a piece writes the pending count and its letter, an empty square is counted, and the h-file closes the rank. */
  function WalkStep(b: Board, acc: (string, nat), n: nat): (string, nat)
    requires n < 64
  {
    var sq := SqAt(n);
    var p := PieceOn(b, sq);
    if p != None then CloseRank(n, acc.0 + Flush(acc.1) + [Letter(p, ColourOn(b, sq))], 0)
    else CloseRank(n, acc.0, acc.1 + 1)
  }

  /** At the h-file the pending count is written and, above the first rank, a '/'; elsewhere nothing. */
  function CloseRank(n: nat, t: string, e: nat): (string, nat)
  {
    if n % 8 == 7 then (t + Flush(e) + (if n < 56 then "/" else ""), 0) else (t, e)
  }

  /** Text t with e empty squares pending, after the first n squares, followed by the rest of the placement text, makes up `full`. */
  predicate Written(b: Board, n: nat, t: string, e: nat, full: string)
    requires n <= 64
  {
    if n == 64 then t == full
    else e <= n % 8 && t + RestText(b, 7 - n / 8, n % 8, e) == full
  }

  /** From any point where the text written, followed by the rest of the placement text, makes up `full`, the loop ends with `full`. */
  lemma WalkFromWritten(b: Board, n: nat, acc: (string, nat), full: string)
    requires n <= 64 && Written(b, n, acc.0, acc.1, full)
    ensures WalkFrom(b, n, acc).0 == full
  {
    var k, a := n, acc;
    while k < 64
      invariant n <= k <= 64 && Written(b, k, a.0, a.1, full)
      invariant WalkFrom(b, k, a) == WalkFrom(b, n, acc)
      decreases 64 - k
    {
      StepWritten(b, k, a, full);
      WalkFromUnfold(b, k, a);
      a, k := WalkStep(b, a, k), k + 1;
    }
  }

  lemma WalkFromUnfold(b: Board, n: nat, acc: (string, nat))
    requires n < 64
    ensures WalkFrom(b, n, acc) == WalkFrom(b, n + 1, WalkStep(b, acc, n))
  {
  }

  /** The square-by-square loop writes exactly the placement text. */
  lemma WalkPlacement(b: Board)
    ensures WalkFrom(b, 0, ("", 0)).0 == PlacementText(b)
  {
    WalkFromWritten(b, 0, ("", 0), PlacementText(b));
  }

  /** One square of the loop keeps the text written followed by the rest of the placement text. */
  lemma StepWritten(b: Board, n: nat, acc: (string, nat), full: string)
    requires n < 64 && Written(b, n, acc.0, acc.1, full)
    ensures Written(b, n + 1, WalkStep(b, acc, n).0, WalkStep(b, acc, n).1, full)
  {
    var r, f := 7 - n / 8, n % 8;
    var (t, e) := acc;
    assert SqAt(n) == 8 * r + f;
    if PieceOn(b, 8 * r + f) != None {
      EmitPiece(b, r, f, e, t, full);
      CloseWritten(b, n, t + Flush(e) + [Letter(PieceOn(b, 8 * r + f), ColourOn(b, 8 * r + f))], 0, full);
    } else {
      RestTextEmpty(b, r, f, e);
      CloseWritten(b, n, t, e + 1, full);
    }
  }

  lemma CloseWritten(b: Board, n: nat, t: string, e: nat, full: string)
    requires n < 64 && e <= n % 8 + 1
    requires t + RestText(b, 7 - n / 8, n % 8 + 1, e) == full
    ensures Written(b, n + 1, CloseRank(n, t, e).0, CloseRank(n, t, e).1, full)
  {
    var r := 7 - n / 8;
    if n % 8 == 7 {
      EmitRankEnd(b, r, e, t, full);
      if n < 56 {
        assert 7 - (n + 1) / 8 == r - 1 && (n + 1) % 8 == 0;
      } else {
        assert t + Flush(e) + "" == t + Flush(e);
      }
    } else {
      assert 7 - (n + 1) / 8 == r && (n + 1) % 8 == n % 8 + 1;
    }
  }

  /** The loop's index: the square of the n-th step, and -8 once the walk is done. */
  lemma SqAtNext(n: nat)
    requires n < 64
    ensures n % 8 != 7 ==> SqAt(n + 1) == SqAt(n) + 1
    ensures n % 8 == 7 && n < 63 ==> SqAt(n + 1) == SqAt(n) - 15
    ensures n == 63 ==> SqAt(n) - 15 == -8
    ensures SqAt(n) > 7 <==> n < 56
  {
  }

  /** The position `set_fen` reads carries the recomputed hash. */
  lemma FenBoardHashed(fen: string)
    ensures FenBoard(fen).hash == HashOf(FenBoard(fen))
  {
    var fs := ReadFields(fen);
    var placed := Run(fs.placement, Cursor(56, ClearBoard)).board;
    var b := placed.(turn := if fs.side == "w" then White else Black,
                     castling := CastleRun(fs.castling, ClearBoard.castling),
                     ep := if fs.ep != "-" then EpFile(fs.ep) else NoEp,
                     halfmove := fs.halfmove,
                     fullmove := fs.fullmove);
    HashIgnoresHash(b, HashOf(b));
  }

  /**
   * `set_fen(fen)`: "startpos" stands for the starting position's text;
   * any other text is read field by field.
   */
  function ParseFen(fen: string): Board
  {
    FenBoard(if fen == "startpos" then StartFen else fen)
  }

  lemma ParseFenHashed(fen: string)
    ensures ParseFen(fen).hash == HashOf(ParseFen(fen))
  {
    FenBoardHashed(if fen == "startpos" then StartFen else fen);
  }
}
