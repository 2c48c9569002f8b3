/** A block of RAM covering the locations start..end inclusive. */
module Generic {
  import opened Bits
  import opened Wrappers

  class GenericAddressable {
    var memory: seq<byte>
    const start: u16
    const end: u16

    predicate Valid()
      reads this
    {
      start <= end && |memory| == end - start + 1
    }

    /** Only reachable through New, which has checked the range. */
    constructor (start: u16, end: u16)
      requires start <= end
      ensures Valid() && this.start == start && this.end == end
      ensures memory == seq(end - start + 1, _ => 0)
    {
      this.start, this.end := start, end;
      memory := seq(end - start + 1, _ => 0);
    }

    /** check_range: the locations this block answers for. */
    predicate InRange(location: u16)
      reads this
    {
      start <= location <= end
    }

    /** An out-of-range location panics, so it is excluded. */
    /** read: the byte stored for the location, which is the last one Write put there. */
    function Read(location: u16): (r: byte)
      reads this
      requires Valid() && InRange(location)
      ensures r == memory[location - start]
    {
      memory[location - start]
    }

    method Write(location: u16, b: byte)
      requires Valid() && InRange(location)
      modifies this
      ensures Valid() && memory == old(memory)[location - start := b]
      ensures Read(location) == b
      ensures forall l :: InRange(l) && l != location ==> Read(l) == old(Read(l))
    {
      memory := memory[location - start := b];
    }
  }

  /** new: an error when end < start, otherwise end - start + 1 zero bytes. */
  method New(start: u16, end: u16) returns (r: Result<GenericAddressable>)
    ensures r.Err? <==> end < start
    ensures r.Ok? ==> fresh(r.value) && r.value.Valid()
    ensures r.Ok? ==> r.value.start == start && r.value.end == end
    ensures r.Ok? ==> r.value.memory == seq(end - start + 1, _ => 0)
  {
    if end < start {
      return Err("End address is greater than start address");
    }
    var m := new GenericAddressable(start, end);
    return Ok(m);
  }
}
