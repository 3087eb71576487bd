// Zobrist hashing. The key tables are not part of this model (zobrist.hpp
// holds an all-zero placeholder): a key is named by what it stands for, one
// per (piece, side, square), one for the side to move, one per en-passant
// index and one per castling flag. A hash is identified with the set of keys
// XOR-ed into it: XOR-ing a key that is already in cancels it, XOR-ing one
// that is not adds it. Two hashes equal as sets are equal as 64-bit numbers
// under every key table, since XOR is associative, commutative and
// self-inverse.

module Zobrist {
  import opened Squares
  import opened Pieces

  /** `piece_key(piece, side, sq)`, `turn_key()`, `ep_key(i)` and `castling_key(i)`. */
  datatype Key = PieceKey(piece: Piece, side: Side, sq: Sq) | TurnKey | EpKey(index: int) | CastlingKey(index: int)

  /** A hash value: the keys XOR-ed into it. */
  type Hash = set<Key>

  /** `hash ^= key`. */
  function Xor(h: Hash, k: Key): (r: Hash)
    ensures k in r <==> k !in h
    ensures forall j :: j != k ==> (j in r <==> j in h)
  {
    if k in h then h - {k} else h + {k}
  }

  /** A run of `hash ^= key` statements, in order. */
  function XorAll(h: Hash, ks: seq<Key>): Hash
    decreases |ks|
  {
    if ks == [] then h else XorAll(Xor(h, ks[0]), ks[1..])
  }

  /** How often k occurs in ks. */
  function Occurrences(k: Key, ks: seq<Key>): nat
  {
    if ks == [] then 0 else (if ks[0] == k then 1 else 0) + Occurrences(k, ks[1..])
  }

  lemma {:induction false} OccurrencesAppend(k: Key, xs: seq<Key>, ys: seq<Key>)
    ensures Occurrences(k, xs + ys) == Occurrences(k, xs) + Occurrences(k, ys)
  {
    if xs == [] {
      assert xs + ys == ys;
    } else {
      assert (xs + ys)[1..] == xs[1..] + ys;
      OccurrencesAppend(k, xs[1..], ys);
    }
  }

  /** No key is listed twice. */
  predicate Distinct(ks: seq<Key>)
  {
    forall i, j :: 0 <= i < j < |ks| ==> ks[i] != ks[j]
  }

  /** In a run without repeats a key occurs once when listed and never otherwise. */
  lemma {:induction false} DistinctOccurrences(k: Key, ks: seq<Key>)
    requires Distinct(ks)
    ensures Occurrences(k, ks) == if k in ks then 1 else 0
    decreases |ks|
  {
    if ks != [] {
      assert Distinct(ks[1..]) by {
        forall i, j | 0 <= i < j < |ks| - 1 ensures ks[1..][i] != ks[1..][j] {
          assert ks[1..][i] == ks[i + 1] && ks[1..][j] == ks[j + 1];
        }
      }
      DistinctOccurrences(k, ks[1..]);
      assert k in ks <==> ks[0] == k || k in ks[1..];
    }
  }

  /**
   * After a run of XORs a key is in the hash exactly when it was in before
   * and was XOR-ed an even number of times, or was not and was XOR-ed an odd
   * number of times.
   */
  lemma {:induction false} XorAllHas(h: Hash, ks: seq<Key>, k: Key)
    ensures (k in XorAll(h, ks)) == ((k in h) != (Occurrences(k, ks) % 2 == 1))
    decreases |ks|
  {
    if ks != [] {
      XorAllHas(Xor(h, ks[0]), ks[1..], k);
    }
  }

  /** XOR-ing the same run twice gives back the hash. */
  lemma XorAllTwice(h: Hash, ks: seq<Key>)
    ensures XorAll(XorAll(h, ks), ks) == h
  {
    forall k ensures k in XorAll(XorAll(h, ks), ks) <==> k in h {
      XorAllHas(h, ks, k);
      XorAllHas(XorAll(h, ks), ks, k);
    }
  }
}

// The hash of a whole position, as `calculate_hash()` defines it (its source
// is not part of this model).
module Hashing {
  import opened Squares
  import opened Bitboards
  import opened Pieces
  import opened Boards
  import opened Zobrist

  /** The side whose colour mask holds sq (Black when neither does). */
  function ColourOn(b: Board, sq: Sq): Side
  {
    if sq in b.Occupancy(White) then White else Black
  }

  /** The key of each occupied square: its piece, its side, the square. */
  function PlacementKeys(b: Board): Hash
  {
    set sq: Sq | PieceOn(b, sq) != None :: PieceKey(PieceOn(b, sq), ColourOn(b, sq), sq)
  }

  /** The keys of the held castling flags. */
  function CastlingKeys(b: Board): Hash
  {
    set i | 0 <= i < 4 && b.castling[i] :: CastlingKey(i)
  }

  /**
   * `calculate_hash()`: placement, the side key when Black is to move, the
   * en-passant key when set, and the held castling flags.
   */
  function HashOf(b: Board): Hash
  {
    PlacementKeys(b)
    + (if b.turn == Black then {TurnKey} else {})
    + (if b.ep != NoEp then {EpKey(b.ep)} else {})
    + CastlingKeys(b)
  }

  /** Which keys the full hash holds, key by key. */
  lemma HashOfHas(b: Board, k: Key)
    ensures k.PieceKey? ==> (k in HashOf(b) <==> PieceOn(b, k.sq) == k.piece != None && ColourOn(b, k.sq) == k.side)
    ensures k.TurnKey? ==> (k in HashOf(b) <==> b.turn == Black)
    ensures k.EpKey? ==> (k in HashOf(b) <==> b.ep != NoEp && k.index == b.ep)
    ensures k.CastlingKey? ==> (k in HashOf(b) <==> 0 <= k.index < 4 && b.castling[k.index])
  {
    if k.PieceKey? && PieceOn(b, k.sq) == k.piece != None && ColourOn(b, k.sq) == k.side {
      assert k == PieceKey(PieceOn(b, k.sq), ColourOn(b, k.sq), k.sq);
    }
  }
}
