/**
 * The fixed-width C integer types the firmware stores its state in, the
 * conversions C performs when a wider value is stored into one of them, and
 * the single-bit test `x & (1 << k)`.
 */
module CInts {

  type byte = x: int | 0 <= x < 0x100
  type u16 = x: int | 0 <= x < 0x1_0000
  type u32 = x: int | 0 <= x < 0x1_0000_0000
  type i8 = x: int | -0x80 <= x < 0x80
  type i16 = x: int | -0x8000 <= x < 0x8000

  /** Storing an int into a uint8_t: reduction modulo 2^8. */
  function ToU8(x: int): (r: byte)
    ensures 0 <= x < 0x100 ==> r == x
    ensures (x - r) % 0x100 == 0
  {
    if 0 <= x < 0x100 then x else x % 0x100
  }

  /** Storing an int into a uint16_t: reduction modulo 2^16. */
  function ToU16(x: int): (r: u16)
    ensures 0 <= x < 0x1_0000 ==> r == x
    ensures (x - r) % 0x1_0000 == 0
  {
    if 0 <= x < 0x1_0000 then x else x % 0x1_0000
  }

  /** Storing an int into a uint32_t: reduction modulo 2^32. */
  function ToU32(x: int): (r: u32)
    ensures 0 <= x < 0x1_0000_0000 ==> r == x
    ensures (x - r) % 0x1_0000_0000 == 0
  {
    if 0 <= x < 0x1_0000_0000 then x else x % 0x1_0000_0000
  }

  /** Storing an int into an int8_t, with the two's-complement wrap-around of the compilers the firmware is built with. */
  function ToI8(x: int): (r: i8)
    ensures -0x80 <= x < 0x80 ==> r == x
    ensures (x - r) % 0x100 == 0
  {
    if -0x80 <= x < 0x80 then x else (x + 0x80) % 0x100 - 0x80
  }

  /** Storing an int into an int16_t, two's complement. */
  function ToI16(x: int): (r: i16)
    ensures -0x8000 <= x < 0x8000 ==> r == x
    ensures (x - r) % 0x1_0000 == 0
  {
    if -0x8000 <= x < 0x8000 then x else (x + 0x8000) % 0x1_0000 - 0x8000
  }

  /** Whether bit k of x is set: the C test `x & (1 << k)` for a non-negative x. */
  function Bit(x: nat, k: nat): bool
  {
    if k == 0 then x % 2 == 1 else Bit(x / 2, k - 1)
  }

  function Pow2(n: nat): (r: nat)
    ensures r >= 1
  {
    if n == 0 then 1 else 2 * Pow2(n - 1)
  }

  /** No bit at or above position n is set in a number below 2^n. */
  lemma {:induction false} BitAboveWidth(x: nat, n: nat, k: nat)
    requires x < Pow2(n) && n <= k
    ensures !Bit(x, k)
    decreases k
  {
    if n == 0 {
      assert x == 0;
      if k > 0 {
        BitAboveWidth(x / 2, 0, k - 1);
      }
    } else {
      BitAboveWidth(x / 2, n - 1, k - 1);
    }
  }

  /** Adding a multiple of 2^n to a number leaves its bits below n as they are. */
  lemma {:induction false} BitsBelowWidth(q: nat, r: nat, n: nat, k: nat)
    requires r < Pow2(n) && k < n
    ensures Bit(Pow2(n) * q + r, k) == Bit(r, k)
    decreases k
  {
    var h := Pow2(n - 1) * q;
    assert Pow2(n) * q == 2 * h;
    if k > 0 {
      assert (2 * h + r) / 2 == h + r / 2;
      BitsBelowWidth(q, r / 2, n - 1, k - 1);
    }
  }

  /** `x & 0x0F`, written x % 16, keeps bits 0 to 3 of x and clears the others. */
  lemma LowNibbleBits(x: nat, k: nat)
    ensures k < 4 ==> (Bit(x % 16, k) <==> Bit(x, k))
    ensures 4 <= k ==> !Bit(x % 16, k)
  {
    assert Pow2(4) == 16;
    if 4 <= k {
      BitAboveWidth(x % 16, 4, k);
    } else {
      BitsBelowWidth(x / 16, x % 16, 4, k);
    }
  }
}

/**
 * The motor driver's `motorsSetFrequency(id, f)` is outside the model; every
 * call to it is recorded as one MotorCall, in call order.
 */
module Motors {

  /** NBR_OF_MOTORS on the quadcopter. */
  const NBR_OF_MOTORS: nat := 4

  datatype MotorCall = MotorCall(motor: nat, freq: nat)
}
