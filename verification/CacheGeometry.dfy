/**
 The shape of one cache bank and the address arithmetic of
 timing/memsys/cache_spec.go.
 */
module CacheGeometry {
  import opened Arithmetic
  import opened CacheTypes

  /** The evaluated parameters one bank sees; `bank` is its own index. */
  datatype Spec = Spec(bank: nat, banks: nat, ways: nat, sets: nat, wordBytes: nat,
                       corePorts: nat, latency: nat, registers: nat, writeback: bool,
                       responseSize: nat, memorySize: nat)
  {
    /** The constraints every frozen specification passes. */
    predicate Valid() {
      && bank < banks
      && 0 < ways && 0 < sets
      && (wordBytes == 4 || wordBytes == 8)
      && corePorts == banks
      && latency == 2
      && 0 < registers
    }
  }

  function BankOf(c: Spec, a: nat): nat
    requires c.Valid()
  {
    (a / SECTOR_BYTES) % c.banks
  }

  function SetOf(c: Spec, a: nat): (r: nat)
    requires c.Valid()
    ensures r < c.sets
  {
    (a / SECTOR_BYTES) / c.banks % c.sets
  }

  function TagOf(c: Spec, a: nat): nat
    requires c.Valid()
  {
    assert c.banks * c.sets > 0;
    (a / SECTOR_BYTES) / (c.banks * c.sets)
  }

  /** Byte offset of the word inside its line, as the array computes it. */
  function WordOffset(c: Spec, a: nat): (r: nat)
    requires c.Valid()
    ensures r + c.wordBytes <= SECTOR_BYTES
  {
    (a % SECTOR_BYTES) / c.wordBytes * c.wordBytes
  }

  /** The 32-bit address of the line a set and tag name. */
  function LineAddress(c: Spec, set_: nat, tag: nat): nat
    requires c.Valid()
  {
    (((tag * c.sets + set_) * c.banks + c.bank) * SECTOR_BYTES) % ADDRESS_SPACE
  }

  /** A line address this bank serves. */
  predicate Owned(c: Spec, line: nat)
    requires c.Valid()
  {
    line < ADDRESS_SPACE && line % SECTOR_BYTES == 0 && BankOf(c, line) == c.bank
  }

  /** Encoding inverts decoding: the set and tag of an owned address name its own line. */
  lemma AddressRoundTrip(c: Spec, a: nat)
    requires c.Valid() && a < ADDRESS_SPACE && BankOf(c, a) == c.bank
    ensures LineAddress(c, SetOf(c, a), TagOf(c, a)) == LineOf(a)
  {
    var x := a / SECTOR_BYTES;
    DivDiv(x, c.banks, c.sets);
    assert LineOf(a) == x * SECTOR_BYTES;
  }

  /** All bytes of one line decode alike. */
  lemma SameLine(c: Spec, a: nat)
    requires c.Valid()
    ensures BankOf(c, LineOf(a)) == BankOf(c, a)
    ensures SetOf(c, LineOf(a)) == SetOf(c, a)
    ensures TagOf(c, LineOf(a)) == TagOf(c, a)
    ensures LineOf(LineOf(a)) == LineOf(a) <= a
  {
    assert LineOf(a) / SECTOR_BYTES == a / SECTOR_BYTES;
  }

  /** Two owned lines of one set differ in their tag. */
  lemma TagSeparates(c: Spec, k: nat, l: nat)
    requires c.Valid() && Owned(c, k) && Owned(c, l)
    requires SetOf(c, k) == SetOf(c, l) && TagOf(c, k) == TagOf(c, l)
    ensures k == l
  {
    AddressRoundTrip(c, k);
    AddressRoundTrip(c, l);
  }

  /** An aligned word starts at its own byte offset, so a hit and a forwarded fill copy the same bytes. */
  lemma AlignedOffset(c: Spec, a: nat)
    requires c.Valid() && a % c.wordBytes == 0
    ensures WordOffset(c, a) == a % SECTOR_BYTES
  {
    var r := a % SECTOR_BYTES;
    if c.wordBytes == 4 {
      assert r % 4 == 0;
    } else {
      assert r % 8 == 0;
    }
  }
}
