// The `Square` value type: one byte naming a board square 0..63 (a1 = 0,
// h1 = 7, a8 = 56, h8 = 63) or the off-board sentinel 0xFF.

module Squares {
  /** An unsigned 8-bit value, as stored in `data_`. */
  type Byte = x: int | 0 <= x < 256

  /** A board index. */
  type Sq = x: int | 0 <= x < 64

  /** The value type; `data` is the stored byte. */
  datatype Square = Square(data: Byte)
  {
    /** The conversion to bool: every byte but the sentinel is a square. */
    predicate IsSet() { data != 0xFF }

    /** `Square(n)` is only ever built from n < 64. */
    predicate OnBoard() { data < 64 }

    function Rank(): (r: int)
      ensures 0 <= r < 32
      ensures OnBoard() ==> r < 8
    {
      data / 8
    }

    function File(): (f: int)
      ensures 0 <= f < 8
    {
      data % 8
    }

    /** Colour of the square: light when rank + file is odd. */
    predicate Light() { (Rank() + File()) % 2 == 1 }

    predicate Dark() { !Light() }

    /** Mirror across the board's horizontal midline: `data ^ 56`. */
    function Flip(): (sq: Square)
      requires OnBoard()
      ensures sq.OnBoard()
      ensures sq.File() == File() && sq.Rank() == 7 - Rank()
    {
      FlipData(data)
    }

    /** One rank up; `Square(int)` asserts the new index is below 64. */
    function North(): (sq: Square)
      requires data + 8 < 64
      ensures sq.OnBoard() && sq.File() == File() && sq.Rank() == Rank() + 1
    {
      Square(data + 8)
    }

    /** One rank down; below rank 1 the byte wraps to 248..255. */
    function South(): (sq: Square)
      requires OnBoard()
      ensures Rank() > 0 ==> sq.OnBoard() && sq.File() == File() && sq.Rank() == Rank() - 1
      ensures Rank() == 0 ==> !sq.OnBoard()
    {
      if data >= 8 then Square(data - 8) else Square(data + 248)
    }

    /** One file right, by index: h-file squares step onto the next rank. */
    function East(): (sq: Square)
      requires data + 1 < 64
      ensures File() < 7 ==> sq.Rank() == Rank() && sq.File() == File() + 1
      ensures File() == 7 ==> sq.Rank() == Rank() + 1 && sq.File() == 0
    {
      Square(data + 1)
    }

    /** One file left, by index: a-file squares step onto the previous rank. */
    function West(): (sq: Square)
      requires OnBoard()
      ensures File() > 0 ==> sq.Rank() == Rank() && sq.File() == File() - 1
      ensures File() == 0 && Rank() > 0 ==> sq.Rank() == Rank() - 1 && sq.File() == 7
      ensures data == 0 ==> !sq.IsSet()
    {
      if data == 0 then Square(255) else Square(data - 1)
    }

    /** The string form: file letter, then rank digit. */
    function ToString(): (s: string)
      requires OnBoard()
      ensures |s| == 2 && 'a' <= s[0] <= 'h' && '1' <= s[1] <= '8'
      ensures (s[0] as int - 'a' as int) == File() && (s[1] as int - '1' as int) == Rank()
    {
      [('a' as int + File()) as char, ('1' as int + Rank()) as char]
    }
  }

  function FlipData(d: Byte): (sq: Square)
    requires d < 64
    ensures sq.data < 64 && sq.data % 8 == d % 8 && sq.data / 8 == 7 - d / 8
  {
    FlipBits(d);
    Square(((d as bv8) ^ 56) as int)
  }

  lemma FlipBits(d: Byte)
    requires d < 64
    ensures ((d as bv8) ^ 56) as int == 8 * (7 - d / 8) + d % 8
  {
    var x := d as bv8;
    FlipByte(x);
    FlipByteValue(d, x);
  }

  /** On a byte below 64, XOR with 56 mirrors the rank bits and keeps the file bits. */
  lemma FlipByte(x: bv8)
    requires x < 64
    ensures x ^ 56 == (7 - x / 8) * 8 + x % 8
  {
  }

  lemma FlipByteValue(d: Byte, x: bv8)
    requires d < 64 && x == d as bv8
    ensures ((7 - x / 8) * 8 + x % 8) as int == 8 * (7 - d / 8) + d % 8
  {
  }

  /** The default-constructed value: the sentinel, which converts to false. */
  const NoSquare: Square := Square(0xFF)

  /** `Square(int n)`: the caller guarantees n < 64. */
  function FromIndex(n: int): (sq: Square)
    requires 0 <= n < 64
    ensures sq.IsSet() && sq.OnBoard() && sq.Rank() * 8 + sq.File() == n
  {
    Square(n)
  }

  /**
   * `Square(f, r)` as written: the byte is 8r + f truncated to 8 bits, and
   * the constructor asserts that the byte is non-zero.
   */
  predicate FromFileRankAccepts(f: int, r: int)
  {
    (8 * r + f) % 256 != 0
  }

  function FromFileRankAsWritten(f: int, r: int): (sq: Square)
    requires FromFileRankAccepts(f, r)
    ensures sq.data != 0
    ensures 0 <= f < 8 && 0 <= r < 8 ==> sq.File() == f && sq.Rank() == r
  {
    Square((8 * r + f) % 256)
  }

  /** Square a1 (file 0, rank 0) is rejected by the constructor's assertion. */
  lemma FromFileRankRejectsA1()
    ensures !FromFileRankAccepts(0, 0)
    ensures forall f, r :: 0 <= f < 8 && 0 <= r < 8 && FromFileRankAccepts(f, r) ==> (f, r) != (0, 0)
  {
  }

  /** `Square(f, r)` with the assertion it evidently intends: an on-board file and rank. */
  function FromFileRank(f: int, r: int): (sq: Square)
    requires 0 <= f < 8 && 0 <= r < 8
    ensures sq.OnBoard() && sq.File() == f && sq.Rank() == r
  {
    Square(8 * r + f)
  }

  /** `Square(const std::string&)`: reads the first two characters only. */
  function FromString(s: string): (sq: Square)
    requires |s| >= 2
    ensures 'a' <= s[0] <= 'h' && '1' <= s[1] <= '8' ==>
              sq.OnBoard() && sq.File() == s[0] as int - 'a' as int && sq.Rank() == s[1] as int - '1' as int
  {
    Square(((s[1] as int - '1' as int) * 8 + (s[0] as int - 'a' as int)) % 256)
  }

  lemma StringRoundTrip(sq: Square)
    requires sq.OnBoard()
    ensures FromString(sq.ToString()) == sq
  {
  }

  lemma ParseRoundTrip(s: string)
    requires |s| == 2 && 'a' <= s[0] <= 'h' && '1' <= s[1] <= '8'
    ensures FromString(s).ToString() == s
  {
  }

  lemma FlipInvolution(sq: Square)
    requires sq.OnBoard()
    ensures sq.Flip().Flip() == sq
  {
  }

  lemma FromIndexOnBoard(n: int)
    requires 0 <= n < 64
    ensures FromIndex(n).IsSet() && FromIndex(n).File() == n % 8 && FromIndex(n).Rank() == n / 8
  {
  }

  lemma SentinelIsFalse()
    ensures !NoSquare.IsSet() && !NoSquare.OnBoard()
  {
  }

  const A1: Square := Square(0)
  const H1: Square := Square(7)
  const A8: Square := Square(56)
  const H8: Square := Square(63)

  /** The colour and flip facts the header asserts at compile time. */
  lemma CornerFacts()
    ensures A1.Dark() && !A1.Light() && !H1.Dark() && H1.Light()
    ensures A1.Flip() == A8 && A8.Flip() == A1 && H1.Flip() == H8 && H8.Flip() == H1
  {
  }

  /** Light squares are exactly those whose rank and file differ in parity. */
  lemma LightParity(sq: Square)
    requires sq.OnBoard()
    ensures sq.Light() <==> (sq.Rank() % 2 != sq.File() % 2)
    ensures sq.Dark() <==> !sq.Light()
  {
  }
}
