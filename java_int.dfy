/**
 * Java's 32-bit `int`, kept as its two's-complement bit pattern (`bv32`).
 * `+`, `*`, `<<` and `^` on `bv32` wrap around exactly as Java's do on `int`;
 * Java's arithmetic `>>` is written out as `SignedShiftRight`, and `ToInt`
 * gives the signed value that Java's `<` and the `Integer` ordering compare.
 */
module JavaInt {

  const MinValue: bv32 := 0x8000_0000   // Integer.MIN_VALUE as a bit pattern
  const MinInt: int := -0x8000_0000    // Integer.MIN_VALUE
  const MaxInt: int := 0x7FFF_FFFF     // Integer.MAX_VALUE

  /** The signed value of a bit pattern. */
  function ToInt(b: bv32): int {
    if b < MinValue then b as int else b as int - 0x1_0000_0000
  }

  /** Every pattern has a value in the `int` range. */
  lemma ToIntRange(b: bv32)
    ensures MinInt <= ToInt(b) <= MaxInt
  {
  }

  /** A pattern is negative exactly when its sign bit is set. */
  lemma ToIntSign(b: bv32)
    ensures ToInt(b) < 0 <==> b & MinValue != 0
  {
  }

  /** `Integer.MIN_VALUE` is the only pattern whose value is `MinInt`. */
  lemma ToIntMin(b: bv32)
    ensures ToInt(b) == MinInt <==> b == MinValue
  {
  }

  /** Reduces an integer into the `int` range modulo 2^32, as Java's `int` arithmetic does. */
  function Wrap(x: int): (r: int)
    ensures MinInt <= r <= MaxInt
    ensures MinInt <= x <= MaxInt ==> r == x
    ensures (r - x) % 0x1_0000_0000 == 0
  {
    (x - MinInt) % 0x1_0000_0000 + MinInt
  }

  /** `Math.abs(int)`: the negation of a negative value, in `int`, so `Integer.MIN_VALUE` stays itself. */
  function Abs(x: int): (r: int)
    requires MinInt <= x <= MaxInt
    ensures x != MinInt ==> r == (if x < 0 then -x else x) && 0 <= r
    ensures x == MinInt ==> r == MinInt
  {
    if x < 0 then Wrap(-x) else x
  }

  /** Java's `>> 1`: every bit moves one place down and the sign bit keeps its value. */
  function ShiftRightOnce(b: bv32): bv32 {
    (b >> 1) | (b & MinValue)
  }

  /** Java's `b >> n` on an `int`: `n` one-place arithmetic shifts. */
  function SignedShiftRight(b: bv32, n: nat): bv32 {
    if n == 0 then b else ShiftRightOnce(SignedShiftRight(b, n - 1))
  }

  /** An arithmetic shift never changes the sign bit. */
  lemma {:induction false} SignedShiftRightKeepsSign(b: bv32, n: nat)
    ensures SignedShiftRight(b, n) & MinValue == b & MinValue
  {
    if n > 0 {
      SignedShiftRightKeepsSign(b, n - 1);
    }
  }

  /** `x ^ (x >> n)` never has its sign bit set, whatever the sign of `x`. */
  lemma XorShiftClearsSign(b: bv32, n: nat)
    ensures (b ^ SignedShiftRight(b, n)) & MinValue == 0
  {
    SignedShiftRightKeepsSign(b, n);
  }

  // One more place of shifting, in the closed form below: the logical shift of
  // b by k places, with the k vacated top bits all copies of b's sign bit.
  // The steps are stated for each k in turn because a single lemma with the
  // shift amount as a parameter makes the solver reason about shifts by a
  // variable amount, which is beyond the resource limit; with k a literal,
  // each step is a quick bit-vector identity.
  lemma ShiftStep1(b: bv32)
    ensures ShiftRightOnce((b >> 1) | (-(b >> 31) << 31)) == (b >> 2) | (-(b >> 31) << 30)
  {
  }
  lemma ShiftStep2(b: bv32)
    ensures ShiftRightOnce((b >> 2) | (-(b >> 31) << 30)) == (b >> 3) | (-(b >> 31) << 29)
  {
  }
  lemma ShiftStep3(b: bv32)
    ensures ShiftRightOnce((b >> 3) | (-(b >> 31) << 29)) == (b >> 4) | (-(b >> 31) << 28)
  {
  }
  lemma ShiftStep4(b: bv32)
    ensures ShiftRightOnce((b >> 4) | (-(b >> 31) << 28)) == (b >> 5) | (-(b >> 31) << 27)
  {
  }
  lemma ShiftStep5(b: bv32)
    ensures ShiftRightOnce((b >> 5) | (-(b >> 31) << 27)) == (b >> 6) | (-(b >> 31) << 26)
  {
  }
  lemma ShiftStep6(b: bv32)
    ensures ShiftRightOnce((b >> 6) | (-(b >> 31) << 26)) == (b >> 7) | (-(b >> 31) << 25)
  {
  }
  lemma ShiftStep7(b: bv32)
    ensures ShiftRightOnce((b >> 7) | (-(b >> 31) << 25)) == (b >> 8) | (-(b >> 31) << 24)
  {
  }
  lemma ShiftStep8(b: bv32)
    ensures ShiftRightOnce((b >> 8) | (-(b >> 31) << 24)) == (b >> 9) | (-(b >> 31) << 23)
  {
  }
  lemma ShiftStep9(b: bv32)
    ensures ShiftRightOnce((b >> 9) | (-(b >> 31) << 23)) == (b >> 10) | (-(b >> 31) << 22)
  {
  }
  lemma ShiftStep10(b: bv32)
    ensures ShiftRightOnce((b >> 10) | (-(b >> 31) << 22)) == (b >> 11) | (-(b >> 31) << 21)
  {
  }
  lemma ShiftStep11(b: bv32)
    ensures ShiftRightOnce((b >> 11) | (-(b >> 31) << 21)) == (b >> 12) | (-(b >> 31) << 20)
  {
  }
  lemma ShiftStep12(b: bv32)
    ensures ShiftRightOnce((b >> 12) | (-(b >> 31) << 20)) == (b >> 13) | (-(b >> 31) << 19)
  {
  }
  lemma ShiftStep13(b: bv32)
    ensures ShiftRightOnce((b >> 13) | (-(b >> 31) << 19)) == (b >> 14) | (-(b >> 31) << 18)
  {
  }
  lemma ShiftStep14(b: bv32)
    ensures ShiftRightOnce((b >> 14) | (-(b >> 31) << 18)) == (b >> 15) | (-(b >> 31) << 17)
  {
  }
  lemma ShiftStep15(b: bv32)
    ensures ShiftRightOnce((b >> 15) | (-(b >> 31) << 17)) == (b >> 16) | (-(b >> 31) << 16)
  {
  }
  lemma ShiftStep16(b: bv32)
    ensures ShiftRightOnce((b >> 16) | (-(b >> 31) << 16)) == (b >> 17) | (-(b >> 31) << 15)
  {
  }

  /** Java's `b >> 7` is the logical shift with the seven vacated bits filled from the sign bit. */
  lemma SignedShiftRight7(b: bv32)
    ensures SignedShiftRight(b, 7) == (b >> 7) | (-(b >> 31) << 25)
  {
    assert SignedShiftRight(b, 1) == (b >> 1) | (-(b >> 31) << 31);
    ShiftStep1(b);
    assert SignedShiftRight(b, 2) == ShiftRightOnce(SignedShiftRight(b, 1));
    ShiftStep2(b);
    assert SignedShiftRight(b, 3) == ShiftRightOnce(SignedShiftRight(b, 2));
    ShiftStep3(b);
    assert SignedShiftRight(b, 4) == ShiftRightOnce(SignedShiftRight(b, 3));
    ShiftStep4(b);
    assert SignedShiftRight(b, 5) == ShiftRightOnce(SignedShiftRight(b, 4));
    ShiftStep5(b);
    assert SignedShiftRight(b, 6) == ShiftRightOnce(SignedShiftRight(b, 5));
    ShiftStep6(b);
    assert SignedShiftRight(b, 7) == ShiftRightOnce(SignedShiftRight(b, 6));
  }

  /** Java's `b >> 17` is the logical shift with the seventeen vacated bits filled from the sign bit. */
  lemma SignedShiftRight17(b: bv32)
    ensures SignedShiftRight(b, 17) == (b >> 17) | (-(b >> 31) << 15)
  {
    assert SignedShiftRight(b, 1) == (b >> 1) | (-(b >> 31) << 31);
    ShiftStep1(b);
    assert SignedShiftRight(b, 2) == ShiftRightOnce(SignedShiftRight(b, 1));
    ShiftStep2(b);
    assert SignedShiftRight(b, 3) == ShiftRightOnce(SignedShiftRight(b, 2));
    ShiftStep3(b);
    assert SignedShiftRight(b, 4) == ShiftRightOnce(SignedShiftRight(b, 3));
    ShiftStep4(b);
    assert SignedShiftRight(b, 5) == ShiftRightOnce(SignedShiftRight(b, 4));
    ShiftStep5(b);
    assert SignedShiftRight(b, 6) == ShiftRightOnce(SignedShiftRight(b, 5));
    ShiftStep6(b);
    assert SignedShiftRight(b, 7) == ShiftRightOnce(SignedShiftRight(b, 6));
    ShiftStep7(b);
    assert SignedShiftRight(b, 8) == ShiftRightOnce(SignedShiftRight(b, 7));
    ShiftStep8(b);
    assert SignedShiftRight(b, 9) == ShiftRightOnce(SignedShiftRight(b, 8));
    ShiftStep9(b);
    assert SignedShiftRight(b, 10) == ShiftRightOnce(SignedShiftRight(b, 9));
    ShiftStep10(b);
    assert SignedShiftRight(b, 11) == ShiftRightOnce(SignedShiftRight(b, 10));
    ShiftStep11(b);
    assert SignedShiftRight(b, 12) == ShiftRightOnce(SignedShiftRight(b, 11));
    ShiftStep12(b);
    assert SignedShiftRight(b, 13) == ShiftRightOnce(SignedShiftRight(b, 12));
    ShiftStep13(b);
    assert SignedShiftRight(b, 14) == ShiftRightOnce(SignedShiftRight(b, 13));
    ShiftStep14(b);
    assert SignedShiftRight(b, 15) == ShiftRightOnce(SignedShiftRight(b, 14));
    ShiftStep15(b);
    assert SignedShiftRight(b, 16) == ShiftRightOnce(SignedShiftRight(b, 15));
    ShiftStep16(b);
    assert SignedShiftRight(b, 17) == ShiftRightOnce(SignedShiftRight(b, 16));
  }
}
