/** The CPU core: the register file it owns, the bus it reads and writes,
    and fetch / decode / step. `Fetch`, `Fetch16`, `Decode` and `Step` are
    proved to change the state exactly as `Semantics.Fetch`, `Fetch16`,
    `Execute` and `Step` say; `SetFlag` is specified by `Flags.Raise` and
    `Write` by a one-cell update of the memory.

    The source links CPU and bus through raw pointers set after
    construction; here the CPU is given its bus when it is built and keeps
    a plain reference to it. */
module Processor {

  import opened Registers
  import opened Bits
  import opened Flags
  import MemoryBus
  import opened Semantics

  class Cpu {
    const reg: Register
    const bus: MemoryBus.Bus

    ghost predicate Valid()
      reads this, bus
    {
      bus.Valid()
    }

    /** The registers and the memory, as a value. */
    ghost function State(): (m: Machine)
      reads this, reg, bus, bus.memory
    {
      Machine(reg.Snapshot(), bus.memory[..])
    }

    /** A CPU at power-on, connected to `bus`. */
    constructor (bus: MemoryBus.Bus)
      requires bus.Valid()
      ensures Valid() && this.bus == bus && fresh(reg)
      ensures State() == PowerOn(bus.memory[..])
    {
      reg := new Register();
      this.bus := bus;
    }

    /** The byte at `addr`, read through the bus. */
    function Read(addr: u16): (v: u8)
      reads this, bus, bus.memory
      requires Valid() && addr < MemoryBus.Size
      ensures v == bus.memory[addr]
    {
      bus.Read(addr)
    }

    /** Stores `data` at `addr` through the bus. */
    method Write(addr: u16, data: u8)
      requires Valid() && addr < MemoryBus.Size
      modifies bus.memory
      ensures bus.memory[..] == old(bus.memory[..])[addr := data]
    {
      bus.Write(addr, data);
    }

    /** The flag's bit of F: bit 7 for Z, 6 for N, 5 for H, 4 for C. */
    function GetFlag(flag: Flag): (bit: nat)
      reads this, reg
      ensures bit == 0 || bit == 1
      ensures bit == Bit(reg.f, Position(flag))
    {
      match flag
      case Z => Bit(reg.f, 7)
      case N => Bit(reg.f, 6)
      case H => Bit(reg.f, 5)
      case C => Bit(reg.f, 4)
    }

    /** Ors the flag's bit into F when `conditional` holds; otherwise does nothing. */
    method SetFlag(flag: Flag, conditional: bool)
      modifies reg
      ensures reg.f == Raise(old(reg.f), flag, conditional)
      ensures conditional ==> GetFlag(flag) == 1
      ensures forall j :: j != Position(flag) ==> Bit(reg.f, j) == Bit(old(reg.f), j)
      ensures reg.Snapshot() == old(reg.Snapshot()).(f := reg.f)
    {
      if conditional {
        reg.f := match flag
          case Z => SetBit(reg.f, 7)
          case N => SetBit(reg.f, 6)
          case H => SetBit(reg.f, 5)
          case C => SetBit(reg.f, 4);
      }
    }

    /** Reads the byte at `addr` and advances `pc` by one. */
    method Fetch(addr: u16) returns (data: u8)
      requires Valid() && CanFetch(State(), addr)
      modifies reg
      ensures data == bus.memory[addr]
      ensures reg.pc == old(reg.pc) + 1
      ensures reg.Snapshot() == old(reg.Snapshot()).(pc := reg.pc)
      ensures (data, State()) == Semantics.Fetch(old(State()), addr)
    {
      data := Read(addr);
      reg.pc := reg.pc + 1;
    }

    /** Reads the little-endian word at `addr` and advances `pc` by two. */
    method Fetch16(addr: u16) returns (data: u16)
      requires Valid() && CanFetch16(State(), addr)
      modifies reg
      ensures data == WordAt(bus.memory[..], addr)
      ensures reg.pc == old(reg.pc) + 2
      ensures (data, State()) == Semantics.Fetch16(old(State()), addr)
    {
      var lo := Fetch(addr);
      var hi := Fetch(addr + 1);
      data := Join(hi, lo);
    }

    /** Executes one opcode whose byte has already been fetched. */
    method Decode(instruction: u8) returns (status: Status)
      requires Valid() && CanExecute(State(), instruction)
      modifies reg, bus.memory
      ensures (State(), status) == Execute(old(State()), instruction)
    {
      ghost var before := State();
      if instruction == LD_SP_D16 {
        var data := Fetch16(reg.pc);
        reg.sp := data;
        status := Executed;
        assert State() == Execute(before, instruction).0;
      } else if instruction == XOR_A {
        XorSelf(reg.a);
        var result: u8 := Xor(reg.a, reg.a);
        reg.a := result;
        SetFlag(Z, result == 0);
        status := Executed;
        assert State() == Execute(before, instruction).0;
      } else if instruction == LD_HL_D16 {
        var data := Fetch16(reg.pc);
        reg.SetHL(data);
        status := Executed;
        assert State() == Execute(before, instruction).0;
      } else if instruction == LD_HLD_A {
        var addr := reg.GetHL();
        var data := reg.a;
        Write(addr, data);
        reg.SetHL(addr - 1);
        status := Executed;
        assert State() == Execute(before, instruction).0;
      } else {
        status := UnknownOpcode(instruction);
      }
    }

    /** Fetches the opcode at `pc` and executes it. */
    method Step() returns (status: Status)
      requires Valid() && CanStep(State())
      modifies reg, bus.memory
      ensures (State(), status) == Semantics.Step(old(State()))
    {
      var instruction := Fetch(reg.pc);
      status := Decode(instruction);
    }
  }
}
