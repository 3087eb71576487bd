// The 64-bit mask behind a bitboard. Each machine operation of
// bitboard.hpp is related to the set operation the rest of the model uses:
// `Members(op(m)) == setop(Members(m))`.

module Bits {
  import opened Squares
  import opened Bitboards

  /** Bit k of m is set (the source's `(mask_ >> k) & 1`). */
  predicate Has(m: bv64, k: bv7)
    requires k < 64
  {
    (m >> k) & 1 == 1
  }

  predicate Bit(m: bv64, s: Sq) { Has(m, s as bv7) }

  /** The squares whose bit is set. */
  function Members(m: bv64): Bitboard { set s: Sq | Bit(m, s) }

  /** `Bitboard(sq)`: the single bit `1 << sq`. */
  function Single(s: Sq): bv64 { 1 << (s as bv7) }

  // ----- per-bit facts (bit-vector reasoning on one symbolic position) -----

  lemma AndBit(a: bv64, b: bv64, k: bv7)
    requires k < 64
    ensures Has(a & b, k) <==> Has(a, k) && Has(b, k)
  {
  }

  lemma OrBit(a: bv64, b: bv64, k: bv7)
    requires k < 64
    ensures Has(a | b, k) <==> Has(a, k) || Has(b, k)
  {
  }

  lemma XorBit(a: bv64, b: bv64, k: bv7)
    requires k < 64
    ensures Has(a ^ b, k) <==> Has(a, k) != Has(b, k)
  {
  }

  lemma NotBit(a: bv64, k: bv7)
    requires k < 64
    ensures Has(!a, k) <==> !Has(a, k)
  {
  }

  lemma SingleBit(j: bv7, k: bv7)
    requires j < 64 && k < 64
    ensures Has(1 << j, k) <==> j == k
  {
  }

  lemma ShlBit(a: bv64, k: bv7)
    requires k < 64
    ensures Has(a << 8, k) <==> k >= 8 && Has(a, k - 8)
  {
  }

  lemma ShrBit(a: bv64, k: bv7)
    requires k < 64
    ensures Has(a >> 8, k) <==> k < 56 && Has(a, k + 8)
  {
  }

  lemma EastBit(a: bv64, k: bv7)
    requires k < 64
    ensures Has(EastBits(a), k) <==> k % 8 != 0 && Has(a, k - 1)
  {
  }

  lemma WestBit(a: bv64, k: bv7)
    requires k < 64
    ensures Has(WestBits(a), k) <==> k % 8 != 7 && Has(a, k + 1)
  {
  }

  // ----- moving between a board index and a bit position -----

  lemma ToInt(k: bv7)
    requires k < 64
    ensures (k as int) as bv7 == k && k as int < 64
  {
  }

  lemma FromInt(s: Sq)
    ensures (s as bv7) as int == s && s as bv7 < 64
  {
  }

  lemma AddNoWrap(k: bv7, d: bv7)
    requires k < 64 && d <= 8
    ensures (k + d) as int == k as int + d as int
  {
  }

  lemma Up(s: Sq, t: Sq, d: bv7)
    requires d <= 8 && t == s + d as int
    ensures t as bv7 == s as bv7 + d
  {
    FromInt(s);
    AddNoWrap(s as bv7, d);
    ToInt(s as bv7 + d);
  }

  lemma Down(s: Sq, t: Sq, d: bv7)
    requires d <= 8 && t == s - d as int
    ensures t as bv7 == s as bv7 - d
  {
    Up(t, s, d);
  }

  lemma Coords(s: Sq)
    ensures ((s as bv7) % 8) as int == s % 8 && ((s as bv7) / 8) as int == s / 8
  {
    FromInt(s);
  }

  lemma FileEdges(s: Sq)
    ensures ((s as bv7) % 8 == 0) <==> s % 8 == 0
    ensures ((s as bv7) % 8 == 7) <==> s % 8 == 7
  {
  }

  lemma Injective(s: Sq, t: Sq)
    ensures (s as bv7 == t as bv7) <==> s == t
  {
    FromInt(s);
    FromInt(t);
  }

  // ----- set operations -----

  lemma And(a: bv64, b: bv64)
    ensures Members(a & b) == Members(a) * Members(b)
  {
    forall s: Sq ensures Bit(a & b, s) <==> Bit(a, s) && Bit(b, s) {
      AndBit(a, b, s as bv7);
    }
  }

  lemma Or(a: bv64, b: bv64)
    ensures Members(a | b) == Members(a) + Members(b)
  {
    forall s: Sq ensures Bit(a | b, s) <==> Bit(a, s) || Bit(b, s) {
      OrBit(a, b, s as bv7);
    }
  }

  lemma Xor(a: bv64, b: bv64)
    ensures Members(a ^ b) == (Members(a) - Members(b)) + (Members(b) - Members(a))
  {
    forall s: Sq ensures s in Members(a ^ b) <==> s in (Members(a) - Members(b)) + (Members(b) - Members(a)) {
      XorBit(a, b, s as bv7);
    }
  }

  lemma Not(a: bv64)
    ensures Members(!a) == Complement(Members(a))
  {
    forall s: Sq ensures Bit(!a, s) <==> !Bit(a, s) {
      NotBit(a, s as bv7);
    }
  }

  lemma SingleMembers(s: Sq)
    ensures Members(Single(s)) == {s}
  {
    forall t: Sq ensures Bit(Single(s), t) <==> s == t {
      FromInt(s);
      FromInt(t);
      SingleBit(s as bv7, t as bv7);
      Injective(s, t);
    }
  }

  /** `get(sq)` is membership and `set(sq)` adds exactly sq. */
  lemma GetSet(m: bv64, s: Sq)
    ensures Bit(m, s) <==> s in Members(m)
    ensures Members(m | Single(s)) == Members(m) + {s}
  {
    Or(m, Single(s));
    SingleMembers(s);
  }

  // ----- shifts -----

  lemma ShiftNorth(a: bv64)
    ensures Members(a << 8) == North(Members(a))
  {
    forall s: Sq ensures Bit(a << 8, s) <==> s in North(Members(a)) {
      FromInt(s);
      ShlBit(a, s as bv7);
      InNorth(Members(a), s);
      if s >= 8 {
        Down(s, s - 8, 8);
      }
    }
  }

  lemma ShiftSouth(a: bv64)
    ensures Members(a >> 8) == South(Members(a))
  {
    forall s: Sq ensures Bit(a >> 8, s) <==> s in South(Members(a)) {
      FromInt(s);
      ShrBit(a, s as bv7);
      InSouth(Members(a), s);
      if s < 56 {
        Up(s, s + 8, 8);
      }
    }
  }

  function EastBits(a: bv64): bv64 { (a << 1) & !0x0101010101010101 }
  function WestBits(a: bv64): bv64 { (a >> 1) & !0x8080808080808080 }

  lemma EastOnFileA(a: bv64, s: Sq)
    requires s % 8 == 0
    ensures !Bit(EastBits(a), s)
  {
    EastBit(a, s as bv7);
    FileEdges(s);
  }

  lemma EastOffFileA(a: bv64, s: Sq)
    requires s % 8 != 0
    ensures Bit(EastBits(a), s) <==> Bit(a, s - 1)
  {
    var k := s as bv7;
    FileEdges(s);
    EastBit(a, k);
    Down(s, s - 1, 1);
    assert (s - 1) as bv7 == k - 1;
  }

  lemma WestOnFileH(a: bv64, s: Sq)
    requires s % 8 == 7
    ensures !Bit(WestBits(a), s)
  {
    WestBit(a, s as bv7);
    FileEdges(s);
  }

  lemma WestOffFileH(a: bv64, s: Sq)
    requires s % 8 != 7
    ensures Bit(WestBits(a), s) <==> Bit(a, s + 1)
  {
    var k := s as bv7;
    FileEdges(s);
    WestBit(a, k);
    Up(s, s + 1, 1);
    assert (s + 1) as bv7 == k + 1;
  }

  lemma ShiftEast(a: bv64)
    ensures Members(EastBits(a)) == East(Members(a))
  {
    forall s: Sq ensures Bit(EastBits(a), s) <==> s in East(Members(a)) {
      InEast(Members(a), s);
      if s % 8 == 0 {
        EastOnFileA(a, s);
      } else {
        EastOffFileA(a, s);
      }
    }
  }

  lemma ShiftWest(a: bv64)
    ensures Members(WestBits(a)) == West(Members(a))
  {
    forall s: Sq ensures Bit(WestBits(a), s) <==> s in West(Members(a)) {
      InWest(Members(a), s);
      if s % 8 == 7 {
        WestOnFileH(a, s);
      } else {
        WestOffFileH(a, s);
      }
    }
  }

  // ----- named constants -----

  lemma FileAConstant()
    ensures Members(0x0101010101010101) == FileA
  {
    forall s: Sq ensures Bit(0x0101010101010101, s) <==> s % 8 == 0 {
      FromInt(s);
      Coords(s);
      FileABit(s as bv7);
    }
  }

  lemma FileHConstant()
    ensures Members(0x8080808080808080) == FileH
  {
    forall s: Sq ensures Bit(0x8080808080808080, s) <==> s % 8 == 7 {
      FromInt(s);
      Coords(s);
      FileHBit(s as bv7);
    }
  }

  lemma LightSquare(s: Sq)
    ensures Bit(0x55aa55aa55aa55aa, s) <==> (s / 8 + s % 8) % 2 == 1
  {
    FromInt(s);
    Coords(s);
    LightBit(s as bv7);
  }

  lemma LightConstant()
    ensures Members(0x55aa55aa55aa55aa) == LightSquares
  {
    forall s: Sq ensures s in Members(0x55aa55aa55aa55aa) <==> s in LightSquares {
      LightSquare(s);
    }
  }

  /** The dark-square constant is the complement of the light one. */
  lemma DarkConstant()
    ensures Members(0xaa55aa55aa55aa55) == DarkSquares
  {
    assert 0xaa55aa55aa55aa55 == !(0x55aa55aa55aa55aa as bv64);
    Not(0x55aa55aa55aa55aa);
    LightConstant();
    assert Complement(LightSquares) == DarkSquares;
  }

  lemma EmptyAllConstant()
    ensures Members(0) == Empty
    ensures Members(0xFFFF_FFFF_FFFF_FFFF) == AllSquares
  {
  }

  lemma FileABit(k: bv7)
    requires k < 64
    ensures Has(0x0101010101010101, k) <==> k % 8 == 0
  {
  }

  lemma FileHBit(k: bv7)
    requires k < 64
    ensures Has(0x8080808080808080, k) <==> k % 8 == 7
  {
  }

  lemma LightBit(k: bv7)
    requires k < 64
    ensures Has(0x55aa55aa55aa55aa, k) <==> (k / 8 + k % 8) % 2 == 1
  {
  }

  // ----- permute (the Carry-Rippler step of movegen.cpp) -----

  /** `permute(set, subset)`: the next subset of `set` after `subset`. */
  function Permute(set_: bv64, subset: bv64): (r: bv64)
    ensures Members(r) <= Members(set_)
  {
    And(subset - set_, set_);
    (subset - set_) & set_
  }

  /** The enumeration starts from 0 and returns to 0 after the full mask. */
  lemma PermuteWraps(m: bv64)
    ensures Permute(m, m) == 0
    ensures m != 0 ==> Permute(m, 0) != 0
  {
    if m != 0 {
      assert (0 - m) & m == m & -m;
    }
  }
}
