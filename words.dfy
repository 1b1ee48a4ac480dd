/** Fixed-width integers of the LPC1769 target (ARM Cortex-M3: 8-bit char,
    32-bit int), written as subsets of int, and the wrap-around that the
    firmware's unsigned and narrowing arithmetic performs. */
module Words {
  const TWO_8: int := 0x100
  const TWO_32: int := 0x1_0000_0000

  type u8 = n: int | 0 <= n < 0x100
  type u32 = n: int | 0 <= n < 0x1_0000_0000
  type i8 = n: int | -0x80 <= n < 0x80
  type i32 = n: int | -0x8000_0000 <= n < 0x8000_0000

  datatype Option<T> = None | Some(value: T)

  /** `a - b` in uint32_t: the one 32-bit value that, added to `b` with
      wrap-around, gives back `a`. */
  function Sub32(a: u32, b: u32): (d: u32)
    ensures (b + d) % TWO_32 == a
    ensures a >= b ==> d == a - b
  {
    (a - b) % TWO_32
  }

  /** The value 32-bit subtraction yields is the only candidate. */
  lemma Sub32Unique(a: u32, b: u32, e: u32)
    requires (b + e) % TWO_32 == a
    ensures e == Sub32(a, b)
  {
    if b + e >= TWO_32 {
      assert b + e - TWO_32 == a;
    } else {
      assert b + e == a;
    }
  }

  /** Storing an int into an int8_t: modulo-256 wrap into [-128, 127]
      (two's complement, which is what the target's compiler does). */
  function ToI8(v: int): (r: i8)
    ensures (v - r) % TWO_8 == 0
    ensures -0x80 <= v < 0x80 ==> r == v
  {
    (v + 0x80) % TWO_8 - 0x80
  }
}
