/** Java `int` arithmetic and the decimal text Java produces for an `int`. */
module JavaInt {
  const MinInt: int := -0x8000_0000
  const MaxInt: int := 0x7fff_ffff
  /** Number of distinct 32-bit values. */
  const Modulus: int := 0x1_0000_0000

  predicate IsInt(x: int) {
    MinInt <= x <= MaxInt
  }

  /** Two's-complement reduction of an exact result to the Java `int` it wraps to. */
  function Wrap(y: int): (r: int)
    ensures IsInt(r)
    ensures (r - y) % Modulus == 0
    ensures IsInt(y) ==> r == y
  {
    (y - MinInt) % Modulus + MinInt
  }

  /** Java's `++` on an `int`: one more, except that the largest `int` becomes the smallest. */
  lemma Increment(x: int)
    requires IsInt(x)
    ensures Wrap(x + 1) == if x == MaxInt then MinInt else x + 1
  {
  }

  predicate IsDigit(c: char) {
    '0' <= c <= '9'
  }

  predicate NoSpace(s: string) {
    forall i :: 0 <= i < |s| ==> s[i] != ' '
  }

  function DigitChar(d: int): (c: char)
    requires 0 <= d < 10
    ensures IsDigit(c)
  {
    (d + '0' as int) as char
  }

  /** Decimal digits of a non-negative number, most significant first, without leading zeros. */
  function NatToString(n: nat): (s: string)
    ensures |s| >= 1
    ensures forall i :: 0 <= i < |s| ==> IsDigit(s[i])
    ensures (s[0] == '0') <==> (n == 0)
    decreases n
  {
    if n < 10 then [DigitChar(n)] else NatToString(n / 10) + [DigitChar(n % 10)]
  }

  /** The text Java's string concatenation produces for an `int` (Integer.toString). */
  function ToString(x: int): (s: string)
    ensures |s| >= 1
    ensures (s[0] == '-') <==> (x < 0)
    ensures NoSpace(s)
  {
    if x < 0 then "-" + NatToString(-x) else NatToString(x)
  }

  /** Value of a string of decimal digits, most significant first. */
  function ParseNat(s: string): int
  {
    if s == [] then 0 else ParseNat(s[..|s| - 1]) * 10 + (s[|s| - 1] as int - '0' as int)
  }

  /** Value of an optionally signed decimal string. */
  function Parse(s: string): int
  {
    if |s| > 0 && s[0] == '-' then -ParseNat(s[1..]) else ParseNat(s)
  }

  lemma {:induction false} NatToStringRoundTrip(n: nat)
    ensures ParseNat(NatToString(n)) == n
    decreases n
  {
    if n >= 10 {
      var s := NatToString(n);
      assert s[..|s| - 1] == NatToString(n / 10);
      NatToStringRoundTrip(n / 10);
    }
  }

  lemma ToStringRoundTrip(x: int)
    ensures Parse(ToString(x)) == x
  {
    if x < 0 {
      assert ToString(x)[1..] == NatToString(-x);
      NatToStringRoundTrip(-x);
    } else {
      NatToStringRoundTrip(x);
    }
  }

  /** Distinct numbers are printed as distinct strings. */
  lemma ToStringInjective(x: int, y: int)
    requires ToString(x) == ToString(y)
    ensures x == y
  {
    ToStringRoundTrip(x);
    ToStringRoundTrip(y);
  }
}
