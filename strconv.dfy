/**
  The two conversions of Go's `strconv` package that the memory driver applies to
  stored values: `Atoi` (decimal text to a 64-bit `int`) and `Itoa` (back), on byte
  strings. Go's `int` is taken to be 64 bits wide.
*/
module Strconv {
  import opened Wrappers

  newtype byte = x: int | 0 <= x < 256

  const MinInt64: int := -0x8000_0000_0000_0000
  const MaxInt64: int := 0x7fff_ffff_ffff_ffff

  const Plus: byte := 43   // '+'
  const Minus: byte := 45  // '-'
  const Zero: byte := 48   // '0'

  predicate IsDigit(b: byte) { Zero <= b <= Zero + 9 }

  predicate AllDigits(s: seq<byte>) { forall i :: 0 <= i < |s| ==> IsDigit(s[i]) }

  /** The number a string of decimal digits denotes, most significant digit first. */
  function DigitsValue(s: seq<byte>): nat
    requires AllDigits(s)
  {
    if s == [] then 0 else DigitsValue(s[..|s| - 1]) * 10 + (s[|s| - 1] - Zero) as int
  }

  /** The digit string after an optional sign (the whole string when there is no sign). */
  function Unsigned(s: seq<byte>): seq<byte>
    requires |s| > 0
  {
    if s[0] == Plus || s[0] == Minus then s[1..] else s
  }

  /** The value of a signed digit string, before any range check. */
  function SignedValue(s: seq<byte>): int
    requires |s| > 0 && AllDigits(Unsigned(s))
  {
    var magnitude: int := DigitsValue(Unsigned(s));
    if s[0] == Minus then -magnitude else magnitude
  }

  /**
    `strconv.Atoi`: an optional `+` or `-`, then one or more ASCII digits, and nothing
    else; the value must fit in a signed 64-bit integer. No spaces, no underscores,
    no base prefixes.
  */
  function Atoi(s: seq<byte>): (r: Option<int>)
    ensures r.Some? <==>
      |s| > 0 && |Unsigned(s)| > 0 && AllDigits(Unsigned(s)) &&
      MinInt64 <= SignedValue(s) <= MaxInt64
    ensures r.Some? ==> MinInt64 <= r.value <= MaxInt64
    ensures r.Some? ==> (r.value < 0 ==> s[0] == Minus)
  {
    if |s| == 0 then None
    else
      var digits := Unsigned(s);
      if |digits| == 0 || !AllDigits(digits) then None
      else
        var v := SignedValue(s);
        if MinInt64 <= v <= MaxInt64 then Some(v) else None
  }

  /** The shortest decimal spelling of `n`: no sign, no leading zero. */
  function DecimalDigits(n: nat): (s: seq<byte>)
    ensures |s| > 0 && AllDigits(s)
    ensures s[0] != Zero || n == 0
  {
    if n < 10 then [(Zero as int + n) as byte]
    else DecimalDigits(n / 10) + [(Zero as int + n % 10) as byte]
  }

  /** `strconv.Itoa`: a leading `-` for negative numbers, then the decimal digits. */
  function Itoa(n: int): (s: seq<byte>)
    ensures |s| > 0
    ensures s[0] == Minus <==> n < 0
  {
    if n < 0 then [Minus] + DecimalDigits(-n) else DecimalDigits(n)
  }

  /** Go's `int` arithmetic: the result of `n` wrapped into the signed 64-bit range. */
  function Wrap64(n: int): (r: int)
    ensures MinInt64 <= r <= MaxInt64
    ensures (r - n) % 0x1_0000_0000_0000_0000 == 0
    ensures MinInt64 <= n <= MaxInt64 ==> r == n
  {
    (n - MinInt64) % 0x1_0000_0000_0000_0000 + MinInt64
  }

  lemma {:induction false} DecimalDigitsValue(n: nat)
    ensures DigitsValue(DecimalDigits(n)) == n
  {
    if n >= 10 {
      var s := DecimalDigits(n);
      DecimalDigitsValue(n / 10);
      assert s[..|s| - 1] == DecimalDigits(n / 10);
    }
  }

  /** `Atoi` reads back exactly what `Itoa` wrote, for every 64-bit value. */
  lemma AtoiItoa(n: int)
    requires MinInt64 <= n <= MaxInt64
    ensures Atoi(Itoa(n)) == Some(n)
  {
    var s := Itoa(n);
    if n < 0 {
      assert Unsigned(s) == DecimalDigits(-n);
      DecimalDigitsValue(-n);
    } else {
      assert Unsigned(s) == DecimalDigits(n);
      DecimalDigitsValue(n);
    }
  }

  /**
    A byte string that begins with something other than a sign or a digit is never
    an integer; in particular a gzip stream, whose first byte is 0x1f (the ID1 field,
    section 2.3.1 of RFC 1952), is not.
  */
  lemma NonDecimalStart(s: seq<byte>)
    requires |s| > 0 && !IsDigit(s[0]) && s[0] != Plus && s[0] != Minus
    ensures Atoi(s) == None
  {
    assert Unsigned(s)[0] == s[0];
  }
}
