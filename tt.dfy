// The direct-mapped cache of examples/tt.hpp: a fixed array of entries, one
// slot per index, the slot of a hash being the hash modulo the number of
// slots. Entries carry the 64-bit hash they were stored under; the rest of
// an entry is the caller's payload.

module TranspositionTable {

  /** `std::uint64_t`. */
  type Hash64 = x: int | 0 <= x < 0x1_0000_0000_0000_0000

  /** An entry `T`: the hash it was stored under and the caller's data. */
  datatype Entry<D> = Entry(hash: Hash64, data: D)

  /** `unsigned int` arithmetic wraps modulo 2^32. */
  const UintRange: int := 0x1_0000_0000

  /**
   * The constructor's entry count as written: `mb * 1024 * 1024` in
   * `unsigned int`, so wrapped modulo 2^32, divided by the entry size; the
   * guard `mb < 0` can never fire on an unsigned value.
   */
  function CapacityAsWritten(mb: nat, size: nat): nat
    requires mb < UintRange && 0 < size
  {
    ((mb * 1024 * 1024) % UintRange) / size
  }

  /** Zero megabytes, and 4096 megabytes (whose byte count wraps to zero), both give a table without a slot. */
  lemma CapacityAsWrittenEmpty(size: nat)
    requires 0 < size
    ensures CapacityAsWritten(0, size) == 0
    ensures CapacityAsWritten(4096, size) == 0
  {
  }

  /**
   * The count the guard evidently intends: at least one megabyte, counted
   * without wrapping. Every entry size up to a megabyte gives at least one
   * slot, so `hash % max_entries_` is always defined.
   */
  function Capacity(mb: nat, size: nat): nat
    requires 0 < size
  {
    ((if mb < 1 then 1 else mb) * 1024 * 1024) / size
  }

  lemma CapacityPositive(mb: nat, size: nat)
    requires 0 < size <= 1024 * 1024
    ensures Capacity(mb, size) >= 1
  {
    var m := if mb < 1 then 1 else mb;
    assert m * 1024 * 1024 >= 1024 * 1024;
    DivAtLeastOne(size, m * 1024 * 1024);
  }

  lemma DivAtLeastOne(size: nat, n: nat)
    requires 0 < size <= n
    ensures n / size >= 1
  {
  }

  /** The number of entries whose stored hash is non-zero. */
  function CountStored<D>(s: seq<Entry<D>>): (n: nat)
    ensures n <= |s|
  {
    if s == [] then 0 else (if s[0].hash != 0 then 1 else 0) + CountStored(s[1..])
  }

  /** Overwriting one entry changes the count by what leaves and what arrives. */
  lemma {:induction false} CountStoredUpdate<D>(s: seq<Entry<D>>, i: nat, t: Entry<D>)
    requires i < |s|
    ensures CountStored(s[i := t]) + (if s[i].hash != 0 then 1 else 0)
         == CountStored(s) + (if t.hash != 0 then 1 else 0)
    decreases |s|
  {
    if i == 0 {
      assert s[i := t][1..] == s[1..];
    } else {
      assert s[i := t][1..] == s[1..][i - 1 := t];
      CountStoredUpdate(s[1..], i - 1, t);
    }
  }

  /** A run of zeroed entries stores nothing. */
  lemma {:induction false} CountStoredZero<D>(s: seq<Entry<D>>)
    requires forall i :: 0 <= i < |s| ==> s[i].hash == 0
    ensures CountStored(s) == 0
    decreases |s|
  {
    if s != [] {
      CountStoredZero(s[1..]);
    }
  }

  class TT<D> {
    var entries: array<Entry<D>>
    var filled: nat
    const zero: Entry<D>

    /** The table always has a slot, and the zero entry (what `memset` writes) has hash 0. */
    ghost predicate Valid()
      reads this
    {
      entries.Length > 0 && zero.hash == 0
    }

    /**
     * `TT(mb)`: `Capacity(mb, size)` slots for entries of `size` bytes,
     * all zeroed, and nothing filled.
     */
    constructor (mb: nat, size: nat, zeroData: D)
      requires 0 < size <= 1024 * 1024
      ensures Valid() && fresh(entries)
      ensures entries.Length == Capacity(mb, size) && filled == 0
      ensures forall i :: 0 <= i < entries.Length ==> entries[i] == Entry(0, zeroData)
    {
      CapacityPositive(mb, size);
      zero := Entry(0, zeroData);
      entries := new Entry<D>[Capacity(mb, size)](_ => Entry(0, zeroData));
      filled := 0;
    }

    /** `index(hash)`: the hash modulo the number of slots. */
    function Index(hash: Hash64): (idx: nat)
      requires Valid()
      reads this
      ensures idx < entries.Length
      ensures idx == hash % entries.Length
      ensures hash < entries.Length ==> idx == hash
    {
      hash % entries.Length
    }

    /** `size()`: the number of slots. */
    function Size(): (n: nat)
      requires Valid()
      reads this
      ensures n > 0 && n == entries.Length
    {
      entries.Length
    }

    /** `filled_` is the number of slots holding a non-zero hash. */
    ghost predicate Counted()
      requires Valid()
      reads this, entries
    {
      filled == CountStored(entries[..])
    }

    /** `poll(hash)`: the entry in the hash's slot, whatever hash it was stored under. */
    method Poll(hash: Hash64) returns (t: Entry<D>)
      requires Valid()
      ensures t == entries[Index(hash)]
    {
      var idx := hash % entries.Length;
      t := entries[idx];
    }

    /**
     * `add(hash, t)`: the hash's slot overwritten with t, every other slot
     * unchanged, and `filled_` counting one more when the overwritten entry
     * had hash 0. So `filled_` stays the number of stored entries as long
     * as no entry is stored under hash 0; one that is, into an empty slot,
     * is counted although the slot still reads as empty.
     */
    method Add(hash: Hash64, t: Entry<D>)
      requires Valid()
      modifies this, entries
      ensures Valid() && entries == old(entries)
      ensures entries[..] == old(entries[..])[Index(hash) := t]
      ensures filled == old(filled) + (if old(entries[Index(hash)]).hash == 0 then 1 else 0)
      ensures old(Counted()) && t.hash != 0 ==> Counted()
      ensures old(Counted()) && t.hash == 0 && old(entries[Index(hash)]).hash == 0 ==> filled == CountStored(entries[..]) + 1
    {
      var idx := hash % entries.Length;
      CountStoredUpdate(entries[..], idx, t);
      filled := filled + (if entries[idx].hash == 0 then 1 else 0);
      entries[idx] := t;
    }

    /** `clear()`: every slot zeroed and `filled_` reset. */
    method Clear()
      requires Valid()
      modifies this, entries
      ensures Valid() && entries == old(entries)
      ensures filled == 0 && Counted()
      ensures forall i :: 0 <= i < entries.Length ==> entries[i] == zero
    {
      filled := 0;
      forall i | 0 <= i < entries.Length {
        entries[i] := zero;
      }
      CountStoredZero(entries[..]);
    }
  }
}
