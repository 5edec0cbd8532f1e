/** Runs of the interpreter: the driving loop calls `step` again and again
    until the program stops. A run stops at the first opcode outside the
    decode table, and before a step that would fault (index past the memory
    array or integer overflow). */
module Runs {

  import opened Registers
  import opened Bits
  import opened Flags
  import MemoryBus
  import opened Semantics

  /** The machine after at most `n` steps from `m`. */
  function Run(m: Machine, n: nat): (r: Machine)
    requires WellSized(m)
    ensures WellSized(r)
    decreases n
  {
    if n == 0 || !CanStep(m) then m
    else
      var (next, status) := Step(m);
      if status == Executed then Run(next, n - 1) else next
  }

  /** No opcode of this core ever clears a flag or sets any flag other than
      Z: along any run, F either keeps its value or gains the Z bit. */
  lemma {:induction false} RunOnlyRaisesZ(m: Machine, n: nat)
    requires WellSized(m)
    ensures Run(m, n).regs.f == m.regs.f || Run(m, n).regs.f == Raise(m.regs.f, Z, true)
    decreases n
  {
    if n > 0 && CanStep(m) {
      var (next, status) := Step(m);
      if status == Executed {
        RunOnlyRaisesZ(next, n - 1);
        RaiseIdempotent(m.regs.f, Z);
      }
    }
  }

  /** Flag-register invariant: from power-on, whatever the memory image,
      bits 3 to 0 of F stay zero in every state a run reaches, and so do N,
      H and C; Z is the only flag that can be set. */
  lemma PowerOnFlags(image: seq<u8>, n: nat)
    requires |image| == MemoryBus.Size
    ensures LowNibbleClear(Run(PowerOn(image), n).regs.f)
    ensures Get(Run(PowerOn(image), n).regs.f, N) == 0
    ensures Get(Run(PowerOn(image), n).regs.f, H) == 0
    ensures Get(Run(PowerOn(image), n).regs.f, C) == 0
  {
    RunOnlyRaisesZ(PowerOn(image), n);
  }

  /** The first nine bytes of the Game Boy boot ROM: LD SP,$FFFE; XOR A;
      LD HL,$9FFF; LD (HL-),A; and the 0xCB prefix of BIT 7,H. */
  const BootPrefix: seq<u8> := [0x31, 0xFE, 0xFF, 0xAF, 0x21, 0xFF, 0x9F, 0x32, 0xCB]

  predicate BootImage(image: seq<u8>)
  {
    |image| == MemoryBus.Size && image[..9] == BootPrefix
  }

  /** Register contents after each of the first four boot instructions. */
  const AfterLdSp: Regs := PowerOnRegs.(sp := 0xFFFE, pc := 3)
  const AfterXorA: Regs := AfterLdSp.(f := 0x80, pc := 4)
  const AfterLdHl: Regs := AfterXorA.(h := 0x9F, l := 0xFF, pc := 7)
  const AfterLdHlDec: Regs := AfterLdHl.(l := 0xFE, pc := 8)

  lemma BootStep1(image: seq<u8>)
    requires BootImage(image)
    ensures CanStep(PowerOn(image))
    ensures Step(PowerOn(image)) == (Machine(AfterLdSp, image), Executed)
  {
    assert image[0] == 0x31 && image[1] == 0xFE && image[2] == 0xFF;
  }

  lemma BootStep2(image: seq<u8>)
    requires BootImage(image)
    ensures CanStep(Machine(AfterLdSp, image))
    ensures Step(Machine(AfterLdSp, image)) == (Machine(AfterXorA, image), Executed)
  {
    assert image[3] == 0xAF;
    assert Raise(0, Z, true) == 0x80;
  }

  lemma BootStep3(image: seq<u8>)
    requires BootImage(image)
    ensures CanStep(Machine(AfterXorA, image))
    ensures Step(Machine(AfterXorA, image)) == (Machine(AfterLdHl, image), Executed)
  {
    assert image[4] == 0x21 && image[5] == 0xFF && image[6] == 0x9F;
  }

  lemma BootStep4(image: seq<u8>)
    requires BootImage(image)
    ensures CanStep(Machine(AfterLdHl, image))
    ensures Step(Machine(AfterLdHl, image)) == (Machine(AfterLdHlDec, image[0x9FFF := 0]), Executed)
  {
    assert image[7] == 0x32;
    assert AfterLdHl.HL() == 0x9FFF;
  }

  lemma BootStep5(image: seq<u8>)
    requires BootImage(image)
    ensures CanStep(Machine(AfterLdHlDec, image[0x9FFF := 0]))
    ensures Step(Machine(AfterLdHlDec, image[0x9FFF := 0]))
         == (Machine(AfterLdHlDec.(pc := 9), image[0x9FFF := 0]), UnknownOpcode(0xCB))
  {
    assert image[8] == 0xCB;
  }

  /** From power-on with the boot ROM at address 0, four steps set SP to
      0xFFFE, clear A and set Z, point HL at 0x9FFF, store A there and step
      HL down to 0x9FFE; the fifth opcode, 0xCB, is not in the decode table,
      so the run stops there with `pc` just past it, however many steps the
      driver allows. */
  lemma BootRomStart(image: seq<u8>, n: nat)
    requires BootImage(image)
    ensures Run(PowerOn(image), 4)
         == Machine(PowerOnRegs.(sp := 0xFFFE, f := 0x80, h := 0x9F, l := 0xFE, pc := 8), image[0x9FFF := 0])
    ensures n >= 5 ==>
      Run(PowerOn(image), n)
      == Machine(PowerOnRegs.(sp := 0xFFFE, f := 0x80, h := 0x9F, l := 0xFE, pc := 9), image[0x9FFF := 0])
  {
    BootStep1(image);
    BootStep2(image);
    BootStep3(image);
    BootStep4(image);
    BootStep5(image);
    var m0, m1, m2 := PowerOn(image), Machine(AfterLdSp, image), Machine(AfterXorA, image);
    var m3, m4 := Machine(AfterLdHl, image), Machine(AfterLdHlDec, image[0x9FFF := 0]);
    assert Run(m0, 4) == m4 by {
      assert Run(m3, 1) == Run(m4, 0);
      assert Run(m2, 2) == Run(m3, 1);
      assert Run(m1, 3) == Run(m2, 2);
    }
    if n >= 5 {
      assert Run(m0, n) == Run(m4, n - 4) by {
        assert Run(m3, n - 3) == Run(m4, n - 4);
        assert Run(m2, n - 2) == Run(m3, n - 3);
        assert Run(m1, n - 1) == Run(m2, n - 2);
      }
    }
  }
}
