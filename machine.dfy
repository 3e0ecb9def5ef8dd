/** The C++ integer widths the core computes with. */
module Machine {

  /** A C++ `int`. */
  type int32 = x: int | -0x8000_0000 <= x < 0x8000_0000

  /** A C++ `unsigned int`. */
  type uint32 = x: int | 0 <= x < 0x1_0000_0000

  /** A C++ `int64_t`. */
  type int64 = x: int | -0x8000_0000_0000_0000 <= x < 0x8000_0000_0000_0000

  const TwoTo32: int := 0x1_0000_0000

  /** `static_cast<unsigned int>(x)`: the two's complement bit pattern of x
      read as an unsigned number. Dafny's `%` never returns a negative value. */
  function Unsigned(x: int32): (r: uint32)
    ensures x >= 0 ==> r == x
    ensures x < 0 ==> r == x + TwoTo32
  {
    x % TwoTo32
  }

  /** `a + b` (and `*`) on `unsigned int` wraps modulo 2^32. */
  function WrapU32(x: int): uint32 {
    x % TwoTo32
  }

  /** `abs` on an int. */
  function Abs(x: int): nat {
    if x < 0 then -x else x
  }
}
