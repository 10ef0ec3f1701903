/** 64-bit signed arithmetic as Go performs it: results wrap modulo 2^64. */
module Int64 {
  const MIN: int := -0x8000_0000_0000_0000
  const MAX: int := 0x7FFF_FFFF_FFFF_FFFF
  const MODULUS: int := 0x1_0000_0000_0000_0000

  type int64 = x: int | MIN <= x <= MAX

  datatype Option<+T> = None | Some(value: T)

  predicate Fits(x: int) {
    MIN <= x <= MAX
  }

  /** Two's-complement truncation of a mathematical integer. */
  function Wrap(x: int): int64 {
    if Fits(x) then x else (x - MIN) % MODULUS + MIN
  }

  /** The overflow test shared by the ledger and the money package: the sum wraps first, and the
      wrap is recognised afterwards by comparing the wrapped sum with the left operand. It rejects
      exactly the sums that leave the 64-bit range. */
  function AddChecked(a: int64, b: int64): (r: Option<int64>)
    ensures r.Some? <==> Fits(a + b)
    ensures r.Some? ==> r.value == a + b
  {
    var sum := Wrap(a + b);
    WrapOnce(a + b);
    if (b > 0 && sum < a) || (b < 0 && sum > a) then None else Some(sum)
  }

  lemma WrapOnce(x: int)
    requires 2 * MIN <= x <= 2 * MAX
    ensures Wrap(x) == if x < MIN then x + MODULUS else if x > MAX then x - MODULUS else x
  {
  }

  /** Wrapping keeps the value modulo 2^64 and lands in the signed range; what fits is left alone. */
  lemma WrapExact(x: int)
    ensures Fits(x) <==> -9223372036854775808 <= x <= 9223372036854775807
    ensures -9223372036854775808 <= Wrap(x) <= 9223372036854775807
    ensures exists k :: Wrap(x) == x + k * 18446744073709551616
    ensures Fits(x) ==> Wrap(x) == x
  {
    var k := -((x - MIN) / MODULUS);
    if Fits(x) {
      assert Wrap(x) == x + 0 * 18446744073709551616;
    } else {
      assert Wrap(x) == x + k * 18446744073709551616;
    }
  }
}
