/**
 * Java strings as sequences of UTF-16 code units (Java `char`s), and the few
 * `String` operations the ring uses: `contains`, `indexOf`, `substring` and
 * the decimal text that `+` appends for an `int`.
 */
module JavaString {

  /** A Java `char`: one UTF-16 code unit, an unsigned 16-bit value. */
  type JChar = u: int | 0 <= u < 0x1_0000

  /** A Java `String`: its code units in order. */
  type JString = seq<JChar>

  const Ampersand: JChar := 0x26   // '&'
  const Zero: JChar := 0x30        // '0'

  /** Every character of `s` lies in the Basic Multilingual Plane, so it is a single UTF-16 unit. */
  predicate InBmp(s: string) {
    forall i :: 0 <= i < |s| ==> s[i] as int < 0x1_0000
  }

  /** The Java string whose text is `s`: one code unit per character. */
  function Text(s: string): (r: JString)
    requires InBmp(s)
    ensures |r| == |s|
    ensures forall i :: 0 <= i < |s| ==> r[i] == s[i] as int
    ensures Ampersand in r <==> '&' in s
  {
    var r := seq(|s|, i requires 0 <= i < |s| => s[i] as int);
    assert forall i :: 0 <= i < |s| ==> (r[i] == Ampersand <==> s[i] == '&');
    r
  }

  /** `s.indexOf(u)`: the position of the first `u` in `s`, or -1 when there is none. */
  function IndexOf(s: JString, u: JChar): (r: int)
    ensures -1 <= r < |s|
    ensures r == -1 <==> u !in s
    ensures 0 <= r ==> s[r] == u && u !in s[..r]
  {
    if s == [] then -1
    else if s[0] == u then 0
    else
      var k := IndexOf(s[1..], u);
      assert s[1..][..if k < 0 then 0 else k] == s[1..1 + if k < 0 then 0 else k];
      if k == -1 then -1 else k + 1
  }

  /** The decimal digit unit for `d`. */
  function Digit(d: nat): (r: JChar)
    requires d < 10
  {
    Zero + d
  }

  /** The value of a decimal digit unit. */
  function DigitValue(u: JChar): (d: nat)
    requires IsDigit(u)
    ensures d < 10
  {
    u - Zero
  }

  predicate IsDigit(u: JChar) {
    Zero <= u <= 0x39
  }

  /** `Integer.toString(n)` for a non-negative `n`: its decimal digits, most significant first, without leading zeros. */
  function Decimal(n: nat): (r: JString)
    ensures 1 <= |r|
    ensures forall k :: 0 <= k < |r| ==> IsDigit(r[k])
    ensures |r| > 1 ==> r[0] != Zero
  {
    if n < 10 then [Digit(n)] else Decimal(n / 10) + [Digit(n % 10)]
  }

  /** The number written by a string of decimal digits (`Integer.parseInt` without a sign). */
  function DecimalValue(s: JString): nat
    requires forall k :: 0 <= k < |s| ==> IsDigit(s[k])
  {
    if s == [] then 0 else DecimalValue(s[..|s| - 1]) * 10 + DigitValue(s[|s| - 1])
  }

  /** Reading back the text of `Decimal(n)` gives `n`. */
  lemma {:induction false} DecimalRoundTrip(n: nat)
    ensures DecimalValue(Decimal(n)) == n
  {
    var r := Decimal(n);
    if n < 10 {
      assert r[..0] == [];
    } else {
      DecimalRoundTrip(n / 10);
      assert r[..|r| - 1] == Decimal(n / 10);
    }
  }

  /** Distinct numbers have distinct decimal texts. */
  lemma DecimalInjective(m: nat, n: nat)
    requires Decimal(m) == Decimal(n)
    ensures m == n
  {
    DecimalRoundTrip(m);
    DecimalRoundTrip(n);
  }

  /** A decimal text never contains `&`. */
  lemma DecimalHasNoAmpersand(n: nat)
    ensures Ampersand !in Decimal(n)
  {
  }
}
