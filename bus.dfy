/** The flat memory bus: one byte array with single-byte read and write.
    The array has 0xFFFF cells, so the valid addresses are 0 to 0xFFFE and
    address 0xFFFF is out of range (indexing it is a run-time fault). */
module MemoryBus {

  import opened Registers

  /** Number of cells in the memory array. */
  const Size: int := 0xFFFF

  class Bus {
    const memory: array<u8>

    ghost predicate Valid()
      reads this
    {
      memory.Length == Size
    }

    /** A bus whose memory is all zero. */
    constructor ()
      ensures Valid() && fresh(memory)
      ensures forall i :: 0 <= i < memory.Length ==> memory[i] == 0
    {
      memory := new u8[Size](_ => 0);
    }

    /** The byte stored at `addr`; the address must be inside the array. */
    function Read(addr: u16): (v: u8)
      reads this, memory
      requires Valid()
      requires addr < Size
      ensures v == memory[addr]
    {
      memory[addr]
    }

    /** Stores `data` at `addr`; no other cell changes. */
    method Write(addr: u16, data: u8)
      requires Valid()
      requires addr < Size
      modifies memory
      ensures Read(addr) == data
      ensures forall i :: 0 <= i < Size && i != addr ==> memory[i] == old(memory[i])
      ensures memory[..] == old(memory[..])[addr := data]
    {
      memory[addr] := data;
    }
  }
}
