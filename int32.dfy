/**
 * C#'s 32-bit `int` under the default unchecked context: arithmetic that
 * leaves the range wraps around modulo 2^32.
 */
module Int32 {

  const TwoTo31 := 0x8000_0000
  const TwoTo32 := 0x1_0000_0000

  /** int.MaxValue, the largest value of a C# `int`. */
  const IntMax := TwoTo31 - 1

  predicate IsInt(x: int)
  {
    -TwoTo31 <= x < TwoTo31
  }

  /** Reinterprets an integer as a C# `int` after unchecked arithmetic (two's complement wrap-around). */
  function Wrap32(x: int): (r: int)
    ensures IsInt(r)
    ensures (x - r) % TwoTo32 == 0
  {
    (x + TwoTo31) % TwoTo32 - TwoTo31
  }

  /** `x++` on an `int`: one more, except that int.MaxValue steps to int.MinValue. */
  lemma WrapIncrement(x: int)
    requires IsInt(x)
    ensures Wrap32(x + 1) == if x == IntMax then -TwoTo31 else x + 1
  {
    if x == IntMax {
      assert x + 1 + TwoTo31 == TwoTo32;
    } else {
      assert 0 < x + 1 + TwoTo31 < TwoTo32;
    }
  }
}
