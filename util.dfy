/** Small value types shared by the modules of the model. */
module Util {

  /** A value that may be absent; the firmware's NaN and null results map to None. */
  datatype Option<T> = None | Some(value: T)

  /** A floating-point value: a number, or the IEEE not-a-number the firmware uses for a failed reading. */
  datatype Measure = Value(v: real) | NaN

  function Min(a: int, b: int): (m: int)
    ensures m <= a && m <= b && (m == a || m == b)
  {
    if a <= b then a else b
  }

  /** An octet on the wire. */
  type byte = x: int | 0 <= x < 0x100

  /** An unsigned 16-bit value (a Modbus register, a register address or count). */
  type U16 = x: int | 0 <= x < 0x1_0000

  const U32Modulus := 0x1_0000_0000

  /** An unsigned 32-bit value (a counter, a millisecond clock reading). */
  type U32 = x: int | 0 <= x < U32Modulus

  /** `x + 1` in 32-bit unsigned arithmetic. */
  function Inc32(x: U32): (y: U32)
    ensures y == (x + 1) % U32Modulus
  {
    if x == U32Modulus - 1 then 0 else x + 1
  }

  /** `a - b` in 32-bit unsigned arithmetic: the time elapsed from clock reading `b` to `a`. */
  function Sub32(a: U32, b: U32): (d: U32)
    ensures (b + d) % U32Modulus == a
  {
    if a >= b then a - b else a - b + U32Modulus
  }

  /** `a + b` in 32-bit unsigned arithmetic. */
  function Add32(a: U32, b: U32): (s: U32)
    ensures s == (a + b) % U32Modulus
  {
    if a + b < U32Modulus then a + b else a + b - U32Modulus
  }

  /** `a * b` in 32-bit unsigned arithmetic. */
  function Mul32(a: U32, b: U32): U32 {
    (a * b) % U32Modulus
  }

  /** A signed `int` converted to a 32-bit unsigned value, as C converts it: modulo 2^32. */
  function ToU32(x: int): (u: U32)
    ensures (u - x) % U32Modulus == 0
  {
    x % U32Modulus
  }
}
