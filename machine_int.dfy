/** Unsigned machine integers of the AVR target and their wrap-around arithmetic.

    `uint8_t` and `uint16_t` values are modelled as bounded `int`s; every
    operation that can leave the range reduces modulo 2^8 or 2^16 explicitly,
    as unsigned C arithmetic does. Dafny's `%` is Euclidean, so the remainder
    of a negative difference is already the unsigned wrap-around result. */
module MachineInt {

  const U8_MODULUS: int := 0x100
  const U16_MODULUS: int := 0x1_0000

  type u8 = x: int | 0 <= x < 0x100
  type u16 = x: int | 0 <= x < 0x1_0000

  /** Conversion of any integer to `uint16_t` (reduction modulo 2^16). */
  function Wrap16(x: int): (r: u16)
    ensures 0 <= x < U16_MODULUS ==> r == x
    ensures U16_MODULUS <= x < 2 * U16_MODULUS ==> r == x - U16_MODULUS
  {
    x % U16_MODULUS
  }

  /** `uint8_t` post-increment: 255 wraps to 0. */
  function Inc8(a: u8): (r: u8)
    ensures a < 0xFF ==> r == a + 1
    ensures a == 0xFF ==> r == 0
  {
    (a + 1) % U8_MODULUS
  }

  /** `uint16_t` subtraction `a - b`: the unique 16-bit value that, added to `b`, gives `a` again. */
  function Sub16(a: u16, b: u16): (r: u16)
    ensures Wrap16(b + r) == a
    ensures b <= a ==> r == a - b
    ensures a < b ==> r == a - b + U16_MODULUS
  {
    (a - b) % U16_MODULUS
  }

  /** `uint16_t` multiplication: the product reduced modulo 2^16. */
  function Mul16(a: u16, b: u16): (r: u16)
    ensures a * b < U16_MODULUS ==> r == a * b
  {
    var product: nat := a * b;
    Wrap16(product)
  }

  /** Unsigned subtraction recovers the true distance between two readings of a
      free-running 16-bit counter, as long as fewer than 2^16 counts separate them:
      the counter may wrap (at most once) in between, so `stop` may be below `start`. */
  lemma Sub16RecoversElapsed(startCount: nat, stopCount: nat)
    requires startCount <= stopCount < startCount + U16_MODULUS
    ensures Sub16(Wrap16(stopCount), Wrap16(startCount)) == stopCount - startCount
  {
  }

  /** Multiplying by 4 in 16 bits keeps only the low 14 bits of the factor. */
  lemma Mul16ByFour(t: u16)
    ensures Mul16(t, 4) == 4 * (t % 0x4000)
    ensures Mul16(t, 4) % 4 == 0
  {
  }
}
