/** The register file of the Sharp LR35902 (Game Boy) CPU: eight byte
    registers A, B, C, D, E, F, H, L, the 16-bit program counter and stack
    pointer. The 16-bit pairs BC, DE and HL have no storage of their own:
    they are composed from, and split into, two byte registers on every access.

    Bytes and words are integers in range. The source's bit operations on
    them are written arithmetically: `(hi as u16) << 8 | lo as u16` is
    `hi * 256 + lo` (the two bytes do not overlap), `(w >> 8) & 0xFF` is
    `w / 256` and `w & 0xFF` is `w % 256`. */
module Registers {

  type u8 = x: int | 0 <= x < 0x100
  type u16 = x: int | 0 <= x < 0x1_0000

  /** The word whose high byte is `hi` and whose low byte is `lo`. */
  function Join(hi: u8, lo: u8): (w: u16)
  {
    hi * 256 + lo
  }

  /** The high byte of a word. */
  function High(w: u16): (hi: u8)
  {
    w / 256
  }

  /** The low byte of a word. */
  function Low(w: u16): (lo: u8)
  {
    w % 256
  }

  /** Splitting a word and joining the halves gives the word back. */
  lemma JoinSplit(w: u16)
    ensures Join(High(w), Low(w)) == w
  {
  }

  /** Joining two bytes and splitting the word gives the bytes back. */
  lemma SplitJoin(hi: u8, lo: u8)
    ensures High(Join(hi, lo)) == hi && Low(Join(hi, lo)) == lo
  {
  }

  /** A snapshot of the whole register file, as a value. */
  datatype Regs = Regs(a: u8, b: u8, c: u8, d: u8, e: u8, f: u8, h: u8, l: u8, pc: u16, sp: u16)
  {
    function BC(): (w: u16) { Join(b, c) }
    function DE(): (w: u16) { Join(d, e) }
    function HL(): (w: u16) { Join(h, l) }
  }

  /** Every register is zero at power-on (the derived `Default`). */
  const PowerOnRegs: Regs := Regs(0, 0, 0, 0, 0, 0, 0, 0, 0, 0)

  /** The register file, updated in place by the CPU. */
  class Register {
    var a: u8
    var b: u8
    var c: u8
    var d: u8
    var e: u8
    var f: u8
    var h: u8
    var l: u8
    var pc: u16
    var sp: u16

    /** The current contents of every register. */
    ghost function Snapshot(): (r: Regs)
      reads this
    {
      Regs(a, b, c, d, e, f, h, l, pc, sp)
    }

    constructor ()
      ensures Snapshot() == PowerOnRegs
    {
      a, b, c, d, e, f, h, l := 0, 0, 0, 0, 0, 0, 0, 0;
      pc, sp := 0, 0;
    }

    /** BC, whose high byte is B and whose low byte is C. */
    function GetBC(): (v: u16)
      reads this
      ensures High(v) == b && Low(v) == c
      ensures v == Snapshot().BC()
    {
      Join(b, c)
    }

    /** Sets B to the high byte and C to the low byte of `data`. */
    method SetBC(data: u16)
      modifies this
      ensures GetBC() == data
      ensures b == data / 256 && c == data % 256
      ensures Snapshot() == old(Snapshot()).(b := b, c := c)
    {
      var hi := data / 256;
      var lo := data % 256;
      b := hi;
      c := lo;
    }

    /** DE, whose high byte is D and whose low byte is E. */
    function GetDE(): (v: u16)
      reads this
      ensures High(v) == d && Low(v) == e
      ensures v == Snapshot().DE()
    {
      Join(d, e)
    }

    /** Sets D to the high byte and E to the low byte of `data`. */
    method SetDE(data: u16)
      modifies this
      ensures GetDE() == data
      ensures d == data / 256 && e == data % 256
      ensures Snapshot() == old(Snapshot()).(d := d, e := e)
    {
      var hi := data / 256;
      var lo := data % 256;
      d := hi;
      e := lo;
    }

    /** HL, whose high byte is H and whose low byte is L. */
    function GetHL(): (v: u16)
      reads this
      ensures High(v) == h && Low(v) == l
      ensures v == Snapshot().HL()
    {
      Join(h, l)
    }

    /** Sets H to the high byte and L to the low byte of `data`. */
    method SetHL(data: u16)
      modifies this
      ensures GetHL() == data
      ensures h == data / 256 && l == data % 256
      ensures Snapshot() == old(Snapshot()).(h := h, l := l)
    {
      var hi := data / 256;
      var lo := data % 256;
      h := hi;
      l := lo;
    }
  }
}
