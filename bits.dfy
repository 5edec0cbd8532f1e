/** Bits of a byte. The source's bit operations on bytes are written with
    arithmetic: `(x >> k) & 1` is `Bit(x, k)`, defined by shifting right one
    place at a time; or-ing in `1 << k` is `SetBit(x, k)`, which adds `2^k`
    when that bit is clear and changes nothing when it is already set;
    `x ^ y` is `Xor(x, y)`, defined bit by bit. */
module Bits {

  import opened Registers

  /** `1 << k`. */
  function Pow2(k: nat): (p: nat)
    ensures p >= 1
  {
    if k == 0 then 1 else 2 * Pow2(k - 1)
  }

  /** `(x >> k) & 1`: bit `k` of `x`. */
  function Bit(x: nat, k: nat): (bit: nat)
    ensures bit == 0 || bit == 1
  {
    if k == 0 then x % 2 else Bit(x / 2, k - 1)
  }

  /** Bit `k` of `2^k` is set... */
  lemma {:induction false} AddPowerSetsBit(x: nat, k: nat)
    requires Bit(x, k) == 0
    ensures Bit(x + Pow2(k), k) == 1
  {
    if k > 0 {
      assert (x + Pow2(k)) / 2 == x / 2 + Pow2(k - 1);
      AddPowerSetsBit(x / 2, k - 1);
    }
  }

  /** ...and adding it to a number whose bit `k` is clear changes no other
      bit (there is no carry). */
  lemma {:induction false} AddPowerKeepsOtherBits(x: nat, k: nat, j: nat)
    requires Bit(x, k) == 0 && j != k
    ensures Bit(x + Pow2(k), j) == Bit(x, j)
  {
    if j == 0 {
      assert Pow2(k) == 2 * Pow2(k - 1);
    } else if k == 0 {
      assert (x + 1) / 2 == x / 2;
    } else {
      assert (x + Pow2(k)) / 2 == x / 2 + Pow2(k - 1);
      AddPowerKeepsOtherBits(x / 2, k - 1, j - 1);
    }
  }

  /** Adding `2^k` to a number below `2^n` whose bit `k < n` is clear stays below `2^n`. */
  lemma {:induction false} AddPowerInRange(x: nat, k: nat, n: nat)
    requires x < Pow2(n) && k < n && Bit(x, k) == 0
    ensures x + Pow2(k) < Pow2(n)
  {
    if k > 0 {
      AddPowerInRange(x / 2, k - 1, n - 1);
    }
  }

  /** `x | (1 << k)` for a bit `k` of a byte. */
  function SetBit(x: u8, k: nat): (r: u8)
    requires k < 8
    ensures Bit(r, k) == 1
    ensures forall j :: j != k ==> Bit(r, j) == Bit(x, j)
  {
    if Bit(x, k) == 1 then x
    else
      AddPowerInRange(x, k, 8);
      AddPowerSetsBit(x, k);
      forall j | j != k
        ensures Bit(x + Pow2(k), j) == Bit(x, j)
      {
        AddPowerKeepsOtherBits(x, k, j);
      }
      x + Pow2(k)
  }

  /** `x ^ y`: bit by bit, the sum of the two bits modulo 2. */
  function Xor(x: nat, y: nat): (r: nat)
  {
    if x == 0 && y == 0 then 0 else (x + y) % 2 + 2 * Xor(x / 2, y / 2)
  }

  /** The lowest bit of `x ^ y` is the sum of the two lowest bits modulo 2,
      and the other bits are those of `(x / 2) ^ (y / 2)`. */
  lemma XorStep(x: nat, y: nat)
    ensures Xor(x, y) == (x + y) % 2 + 2 * Xor(x / 2, y / 2)
  {
  }

  /** Each bit of `x ^ y` is set when exactly one of the two bits is. */
  lemma {:induction false} XorBit(x: nat, y: nat, k: nat)
    ensures Bit(Xor(x, y), k) == (Bit(x, k) + Bit(y, k)) % 2
  {
    XorStep(x, y);
    if k == 0 {
      assert Xor(x, y) % 2 == (x % 2 + y % 2) % 2;
    } else {
      assert Xor(x, y) / 2 == Xor(x / 2, y / 2);
      XorBit(x / 2, y / 2, k - 1);
    }
  }

  /** A byte xor-ed with itself is zero. */
  lemma {:induction false} XorSelf(x: nat)
    ensures Xor(x, x) == 0
  {
    if x != 0 {
      XorSelf(x / 2);
    }
  }
}
