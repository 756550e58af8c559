/**
 * `getHash`: the 32-bit FNV-1a accumulation (offset basis 2166136261, prime
 * 16777619, XOR then multiply, as in section 2 of the IETF draft
 * draft-eastlake-fnv) over the string's UTF-16 code units, followed by a fixed
 * shift/XOR/add finisher and `Math.abs` on a negative result.
 */
module FnvHash {
  import opened JavaInt
  import opened JavaString

  /** The 32-bit FNV prime. */
  const Prime: bv32 := 16777619
  /** The 32-bit FNV offset basis 2166136261, which Java narrows to a negative `int`. */
  const OffsetBasis: bv32 := 0x811C_9DC5

  /** Java's widening of a `char` to an `int`: the same unsigned value, with zero high bits. */
  function Widen(c: JChar): bv32 {
    c as bv32
  }

  /** One pass of the loop: XOR the unit into the accumulator, then multiply by the prime, modulo 2^32. */
  function Step(h: bv32, c: JChar): bv32 {
    (h ^ Widen(c)) * Prime
  }

  /** The accumulator after the loop has visited every unit of `s`, in order, starting from `h`. */
  function Accumulate(h: bv32, s: JString): bv32
    decreases |s|
  {
    if s == [] then h else Accumulate(Step(h, s[0]), s[1..])
  }

  /** Accumulating over `s + t` is accumulating over `s`, then carrying on over `t`. */
  lemma {:induction false} AccumulateConcat(h: bv32, s: JString, t: JString)
    ensures Accumulate(h, s + t) == Accumulate(Accumulate(h, s), t)
    decreases |s|
  {
    if s == [] {
      assert s + t == t;
    } else {
      assert (s + t)[1..] == s[1..] + t;
      AccumulateConcat(Step(h, s[0]), s[1..], t);
    }
  }

  /** Appending one unit costs one more step on the accumulator so far. */
  lemma AccumulateSnoc(h: bv32, s: JString, c: JChar)
    ensures Accumulate(h, s + [c]) == Step(Accumulate(h, s), c)
  {
    AccumulateConcat(h, s, [c]);
  }

  /** `hash += hash << n`, modulo 2^32. */
  function AddShiftedLeft(h: bv32, n: bv32): bv32
    requires n < 32
  {
    h + (h << n)
  }

  /** `hash ^= hash >> n`, with Java's arithmetic shift; the result never has its sign bit set. */
  function XorShiftedRight(h: bv32, n: nat): (r: bv32)
    ensures r & MinValue == 0
  {
    XorShiftClearsSign(h, n);
    h ^ SignedShiftRight(h, n)
  }

  /** The five updates after the loop, in order, each wrapping modulo 2^32. */
  function Finish(h0: bv32): bv32 {
    var h1 := AddShiftedLeft(h0, 13);
    var h2 := XorShiftedRight(h1, 7);
    var h3 := AddShiftedLeft(h2, 3);
    var h4 := XorShiftedRight(h3, 17);
    AddShiftedLeft(h4, 5)
  }

  /** A value with a clear sign bit, times 33 modulo 2^32, is never `Integer.MIN_VALUE`. */
  lemma TimesThirtyThreeNotMin(y: bv32)
    requires y & MinValue == 0
    ensures AddShiftedLeft(y, 5) != MinValue
  {
  }

  /** The finisher never produces `Integer.MIN_VALUE`, whatever the accumulator. */
  lemma FinishIsNotMinValue(h: bv32)
    ensures Finish(h) != MinValue
  {
    var h3 := AddShiftedLeft(XorShiftedRight(AddShiftedLeft(h, 13), 7), 3);
    TimesThirtyThreeNotMin(XorShiftedRight(h3, 17));
  }

  /** The value of `str` after the loop and the finisher, before the sign is dealt with. */
  function Mixed(str: JString): bv32 {
    Finish(Accumulate(OffsetBasis, str))
  }

  /** `getHash(str)`. */
  function Hash(str: JString): int {
    ToIntRange(Mixed(str));
    var x := ToInt(Mixed(str));
    if x < 0 then Abs(x) else x
  }

  /**
   * A negative mixed value is replaced by its negation and a non-negative one
   * is kept; the one value `Math.abs` would leave negative never arises, so
   * every hash lies in 0 ..= Integer.MAX_VALUE.
   */
  lemma HashIsNonNegative(str: JString)
    ensures var x := ToInt(Mixed(str)); Hash(str) == (if x < 0 then -x else x)
    ensures 0 <= Hash(str) <= MaxInt
  {
    FinishIsNotMinValue(Accumulate(OffsetBasis, str));
    ToIntMin(Mixed(str));
    ToIntRange(Mixed(str));
  }

  /** `getHash` as the source writes it: a loop over the units, then five in-place updates. */
  method GetHash(str: JString) returns (hash: int)
    ensures hash == Hash(str)
    ensures 0 <= hash <= MaxInt
  {
    var h := OffsetBasis;
    for i := 0 to |str|
      invariant Accumulate(h, str[i..]) == Accumulate(OffsetBasis, str)
    {
      assert str[i..][1..] == str[i + 1..];
      h := Step(h, str[i]);
    }
    assert str[|str|..] == [];
    ghost var accumulated := h;
    h := AddShiftedLeft(h, 13);
    h := XorShiftedRight(h, 7);
    h := AddShiftedLeft(h, 3);
    h := XorShiftedRight(h, 17);
    h := AddShiftedLeft(h, 5);
    MixedIs(str, accumulated, h);
    ToIntRange(h);
    hash := ToInt(h);
    if hash < 0 {
      hash := Abs(hash);
    }
  }

  /** The accumulator of `str`, taken through `Finish`, is the mixed value whose sign `getHash` then drops. */
  lemma MixedIs(str: JString, accumulated: bv32, h: bv32)
    requires accumulated == Accumulate(OffsetBasis, str)
    requires h == Finish(accumulated)
    ensures h == Mixed(str)
    ensures var x := ToInt(h); Hash(str) == (if x < 0 then -x else x) && 0 <= Hash(str) <= MaxInt
  {
    HashIsNonNegative(str);
  }
}
