/**
 * The address-space interface every memory component implements: byte reads
 * and writes at a 16-bit location, and a little-endian 16-bit read defined
 * once in terms of the byte read.
 */
module AddressSpaces {
  import opened Bits

  /** The 16-bit word whose low byte is `low` and whose high byte is `high`. */
  function Word(low: byte, high: byte): (w: u16)
    ensures w % 256 == low && w / 256 == high
  {
    DivisionUnique(high * 256 + low, 256, high, low);
    high * 256 + low
  }

  /** Every word is the word of its two bytes. */
  lemma WordOfBytes(w: u16)
    ensures Word(w % 256, w / 256) == w
  {
  }

  /**
   * read_16: the byte at `loc` is the low byte and the byte at `loc + 1` the
   * high byte. `loc + 1` overflows at 0xFFFF, so the last location is excluded.
   */
  function Read16(read: u16 -> byte, loc: u16): (w: u16)
    requires loc < 0xFFFF
    ensures w % 256 == read(loc) && w / 256 == read(loc + 1)
  {
    Word(read(loc), read(loc + 1))
  }

  /** read_16 depends only on the byte read at the two locations it reads. */
  lemma Read16OnlyReads(r1: u16 -> byte, r2: u16 -> byte, loc: u16)
    requires loc < 0xFFFF
    requires r1(loc) == r2(loc) && r1(loc + 1) == r2(loc + 1)
    ensures Read16(r1, loc) == Read16(r2, loc)
  {
  }
}
