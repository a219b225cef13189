/**
 The 64-bit integer arithmetic of Go as the chaincode uses it: the range of
 `int` on a 64-bit platform, the range of `uint64` that strconv parses into,
 and the two's-complement wrap-around of `+=` and `-=` on `int`.
 */
module GoInt {

  const TwoTo63: int := 0x8000_0000_0000_0000
  const TwoTo64: int := 0x1_0000_0000_0000_0000

  const MinInt64: int := -TwoTo63
  const MaxInt64: int := TwoTo63 - 1
  const MaxUint64: int := TwoTo64 - 1

  /** True iff `x` is a value of Go's 64-bit `int`. */
  predicate InInt64(x: int) {
    MinInt64 <= x <= MaxInt64
  }

  /** True iff `x` lies in [-2^64, 2^64), as every exact sum
      or difference of two 64-bit values does. */
  predicate InSumRange(x: int) {
    -TwoTo64 <= x < TwoTo64
  }

  /** The `int` a Go addition or subtraction of two 64-bit values stores when
      its exact result is `x`: the 64-bit value congruent to `x` modulo 2^64. */
  function Wrap64(x: int): (r: int)
    requires InSumRange(x)
    ensures InInt64(r)
    ensures (r - x) % TwoTo64 == 0
    ensures InInt64(x) ==> r == x
  {
    if x > MaxInt64 then x - TwoTo64
    else if x < MinInt64 then x + TwoTo64
    else x
  }

  /** Two 64-bit values that are congruent modulo 2^64 are equal, so the
      contract of Wrap64 pins its result down uniquely. */
  lemma WrapUnique(x: int, r: int)
    requires InSumRange(x) && InInt64(r)
    requires (r - x) % TwoTo64 == 0
    ensures r == Wrap64(x)
  {
  }
}
