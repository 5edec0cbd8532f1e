/** The reference semantics of the interpreter, on values: a machine is a
    snapshot of the register file and of the memory array, and fetching,
    executing one opcode and stepping are functions from one machine to the
    next. The `Cpu` class is proved to change its state exactly as these
    functions say.

    Two kinds of run-time failure in the source are kept apart:
    - an opcode outside the decode table is reported as the status
      `UnknownOpcode(op)`, with the machine as the opcode fetch left it;
    - an index past the memory array (address 0xFFFF) and the overflow
      checks of `pc += 1`, `addr + 1` and `addr - 1` are ruled out by the
      `Can...` preconditions. */
module Semantics {

  import opened Registers
  import opened Bits
  import opened Flags
  import MemoryBus

  datatype Machine = Machine(regs: Regs, mem: seq<u8>)

  /** What `step` reports. */
  datatype Status = Executed | UnknownOpcode(opcode: u8)

  /** The four opcodes of the decode table. */
  const LD_SP_D16: u8 := 0x31
  const XOR_A: u8 := 0xAF
  const LD_HL_D16: u8 := 0x21
  const LD_HLD_A: u8 := 0x32

  predicate WellSized(m: Machine)
  {
    |m.mem| == MemoryBus.Size
  }

  /** The machine at power-on: every register zero, memory as loaded. */
  function PowerOn(image: seq<u8>): (m: Machine)
    requires |image| == MemoryBus.Size
    ensures WellSized(m)
  {
    Machine(PowerOnRegs, image)
  }

  /** The 16-bit value stored little-endian at `addr`: low byte first. */
  function WordAt(mem: seq<u8>, addr: nat): (w: int)
    requires addr + 1 < |mem|
  {
    mem[addr] as int + 256 * mem[addr + 1] as int
  }

  /** `fetch(addr)` neither indexes past the array nor overflows `pc += 1`. */
  predicate CanFetch(m: Machine, addr: u16)
  {
    WellSized(m) && addr < MemoryBus.Size && m.regs.pc < 0xFFFF
  }

  /** `fetch(addr)`: the byte at `addr`, and the machine with `pc` one further. */
  function Fetch(m: Machine, addr: u16): (r: (u8, Machine))
    requires CanFetch(m, addr)
  {
    (m.mem[addr], m.(regs := m.regs.(pc := m.regs.pc + 1)))
  }

  /** `fetch16(addr)` runs two fetches, at `addr` and at `addr + 1`. */
  predicate CanFetch16(m: Machine, addr: u16)
  {
    WellSized(m) && addr + 1 < MemoryBus.Size && m.regs.pc + 1 < 0xFFFF
  }

  /** `fetch16(addr)`: the little-endian word at `addr`; `pc` advances by 2. */
  function Fetch16(m: Machine, addr: u16): (r: (u16, Machine))
    requires CanFetch16(m, addr)
    ensures r.0 == WordAt(m.mem, addr)
    ensures r.1.mem == m.mem
    ensures r.1.regs.pc == m.regs.pc + 2
    ensures r.1.regs == m.regs.(pc := r.1.regs.pc)
  {
    var (lo, m1) := Fetch(m, addr);
    var (hi, m2) := Fetch(m1, addr + 1);
    (Join(hi, lo), m2)
  }

  /** No handler of `decode(op)` faults: the loads need two more bytes
      after `pc`; `LD (HL-),A` writes inside the array and `HL - 1` must not
      go below zero. */
  predicate CanExecute(m: Machine, op: u8)
  {
    WellSized(m) &&
    (op == LD_SP_D16 || op == LD_HL_D16 ==> CanFetch16(m, m.regs.pc)) &&
    (op == LD_HLD_A ==> 0 < m.regs.HL() < MemoryBus.Size)
  }

  /** `decode(op)`: the effect of one opcode on a machine whose opcode byte
      has already been fetched. */
  function Execute(m: Machine, op: u8): (r: (Machine, Status))
    requires CanExecute(m, op)
    ensures r.1 == Executed <==> op in {LD_SP_D16, XOR_A, LD_HL_D16, LD_HLD_A}
    ensures r.1 != Executed ==> r == (m, UnknownOpcode(op))
    // LD SP,d16: SP gets the little-endian word after the opcode.
    ensures op == LD_SP_D16 ==>
      && r.0.mem == m.mem
      && r.0.regs.sp == WordAt(m.mem, m.regs.pc)
      && r.0.regs.pc == m.regs.pc + 2
      && r.0.regs == m.regs.(sp := r.0.regs.sp, pc := r.0.regs.pc)
    // LD HL,d16: HL gets the little-endian word after the opcode.
    ensures op == LD_HL_D16 ==>
      && r.0.mem == m.mem
      && r.0.regs.HL() == WordAt(m.mem, m.regs.pc)
      && r.0.regs.pc == m.regs.pc + 2
      && r.0.regs == m.regs.(h := r.0.regs.h, l := r.0.regs.l, pc := r.0.regs.pc)
    // XOR A: A becomes zero and Z is set, whatever A was; N, H, C and the
    // low nibble of F keep their old bits.
    ensures op == XOR_A ==>
      && r.0.mem == m.mem
      && r.0.regs.a == 0
      && Get(r.0.regs.f, Z) == 1
      && (forall j :: j != Position(Z) ==> Bit(r.0.regs.f, j) == Bit(m.regs.f, j))
      && r.0.regs == m.regs.(a := 0, f := r.0.regs.f)
    // LD (HL-),A: A is stored at the old HL, and HL goes down by one.
    ensures op == LD_HLD_A ==>
      && r.0.mem == m.mem[m.regs.HL() := m.regs.a]
      && r.0.regs.HL() == m.regs.HL() - 1
      && r.0.regs == m.regs.(h := r.0.regs.h, l := r.0.regs.l)
  {
    if op == LD_SP_D16 then
      var (data, m1) := Fetch16(m, m.regs.pc);
      (m1.(regs := m1.regs.(sp := data)), Executed)
    else if op == XOR_A then
      XorSelf(m.regs.a);
      var result: u8 := Xor(m.regs.a, m.regs.a);
      var f := Raise(m.regs.f, Z, result == 0);
      (m.(regs := m.regs.(a := result, f := f)), Executed)
    else if op == LD_HL_D16 then
      var (data, m1) := Fetch16(m, m.regs.pc);
      JoinSplit(data);
      (m1.(regs := m1.regs.(h := High(data), l := Low(data))), Executed)
    else if op == LD_HLD_A then
      var addr := m.regs.HL();
      var m1 := m.(mem := m.mem[addr := m.regs.a]);
      var hl := addr - 1;
      JoinSplit(hl);
      (m1.(regs := m1.regs.(h := High(hl), l := Low(hl))), Executed)
    else
      (m, UnknownOpcode(op))
  }

  /** `step` does not fault: the opcode fetch and then its handler. */
  predicate CanStep(m: Machine)
  {
    CanFetch(m, m.regs.pc) && CanExecute(Fetch(m, m.regs.pc).1, m.mem[m.regs.pc])
  }

  /** Bytes taken by an instruction, opcode included. */
  function Length(op: u8): (n: nat)
  {
    if op == LD_SP_D16 || op == LD_HL_D16 then 3 else 1
  }

  /** `step`: fetch the opcode at `pc` and execute it. */
  function Step(m: Machine): (r: (Machine, Status))
    requires CanStep(m)
    ensures WellSized(r.0)
    ensures r.1 == Executed || r.1 == UnknownOpcode(m.mem[m.regs.pc])
    ensures r.0.regs.pc == m.regs.pc + Length(m.mem[m.regs.pc])
    ensures r.0.regs.f == m.regs.f || r.0.regs.f == Raise(m.regs.f, Z, true)
    ensures r.1 != Executed ==> r.0 == m.(regs := m.regs.(pc := m.regs.pc + 1))
  {
    var (op, m1) := Fetch(m, m.regs.pc);
    Execute(m1, op)
  }
}
