/** The condition flags Z, N, H and C, kept in bits 7, 6, 5 and 4 of
    register F; bits 3 to 0 (the low nibble) hold no flag. */
module Flags {

  import opened Registers
  import opened Bits

  datatype Flag = Z | N | H | C

  /** The bit of F that holds each flag. */
  function Position(flag: Flag): (k: nat)
    ensures 4 <= k < 8
  {
    match flag
    case Z => 7
    case N => 6
    case H => 5
    case C => 4
  }

  /** The flag bit of F, as 0 or 1. */
  function Get(f: u8, flag: Flag): (bit: nat)
  {
    Bit(f, Position(flag))
  }

  /** The low nibble of F, bits 3 to 0, is zero. */
  predicate LowNibbleClear(f: u8)
  {
    forall j :: 0 <= j < 4 ==> Bit(f, j) == 0
  }

  /** The effect of `set_flag` on F: when `conditional` holds, the flag's
      bit is or-ed in; otherwise F is left as it is, so a flag is never
      cleared. The other seven bits never change. */
  function Raise(f: u8, flag: Flag, conditional: bool): (r: u8)
    ensures !conditional ==> r == f
    ensures conditional ==> Get(r, flag) == 1
    ensures forall j :: j != Position(flag) ==> Bit(r, j) == Bit(f, j)
    ensures LowNibbleClear(f) ==> LowNibbleClear(r)
  {
    if conditional then SetBit(f, Position(flag)) else f
  }

  /** Raising a flag that is already raised changes nothing. */
  lemma RaiseIdempotent(f: u8, flag: Flag)
    ensures Raise(Raise(f, flag, true), flag, true) == Raise(f, flag, true)
  {
  }
}
