/** Java `int` arithmetic and `Integer.toString`, as far as the worker thread
    names need them: a 32-bit counter that wraps around, and its decimal
    text. */
module JavaInt {

  const MIN_VALUE: int := -0x8000_0000
  const MAX_VALUE: int := 0x7FFF_FFFF

  /** Java's `int`. */
  type int32 = x: int | -0x8000_0000 <= x <= 0x7FFF_FFFF

  /** The `int` holding the low 32 bits of `k`, read as two's complement. */
  function ToInt32(k: int): (x: int32)
    ensures MIN_VALUE <= k <= MAX_VALUE ==> x == k
    ensures (x - k) % 0x1_0000_0000 == 0
  {
    var m := k % 0x1_0000_0000;
    if m <= MAX_VALUE then m else m - 0x1_0000_0000
  }

  /** Adding one to an `int`: `MAX_VALUE` wraps to `MIN_VALUE`. */
  function Increment(x: int32): (y: int32)
    ensures y == ToInt32(x + 1)
  {
    if x == MAX_VALUE then MIN_VALUE else x + 1
  }

  /** A counter started at 0 and incremented `k` times holds `ToInt32(k)`. */
  lemma IncrementCounts(k: nat)
    ensures Increment(ToInt32(k)) == ToInt32(k + 1)
  {
  }

  /** Two different counts below 2^32 leave different `int` values. */
  lemma ToInt32InjectiveBelow(k1: nat, k2: nat)
    requires k1 < 0x1_0000_0000 && k2 < 0x1_0000_0000
    requires ToInt32(k1) == ToInt32(k2)
    ensures k1 == k2
  {
  }

  // ---------------------------------------------------------------------
  // Decimal text

  predicate IsDigit(c: char)
  {
    '0' <= c <= '9'
  }

  predicate AllDigits(s: string)
  {
    forall i :: 0 <= i < |s| ==> IsDigit(s[i])
  }

  function DigitChar(d: nat): (c: char)
    requires d < 10
    ensures IsDigit(c) && c as int - '0' as int == d
  {
    ('0' as int + d) as char
  }

  /** The decimal digits of `n`, most significant first, with no leading
      zero. */
  function Digits(n: nat): (s: string)
    ensures |s| >= 1 && AllDigits(s)
    ensures s[0] == '0' <==> n == 0
  {
    if n < 10 then [DigitChar(n)] else Digits(n / 10) + [DigitChar(n % 10)]
  }

  /** The value of a string of decimal digits. */
  function ParseDigits(s: string): (n: nat)
    requires AllDigits(s)
  {
    if s == [] then 0
    else ParseDigits(s[..|s| - 1]) * 10 + (s[|s| - 1] as int - '0' as int)
  }

  /** Reading back the digits of `n` gives `n`. */
  lemma {:induction false} ParseDigitsOfDigits(n: nat)
    ensures ParseDigits(Digits(n)) == n
  {
    if n >= 10 {
      var s := Digits(n);
      assert s[..|s| - 1] == Digits(n / 10);
      ParseDigitsOfDigits(n / 10);
    }
  }

  /** `Integer.toString(x)`: a minus sign for negative values, then the
      digits of the magnitude. */
  function ToString(x: int): (s: string)
    ensures |s| >= 1
    ensures x < 0 <==> s[0] == '-'
  {
    if x < 0 then "-" + Digits(-x) else Digits(x)
  }

  /** Different magnitudes have different digits. */
  lemma DigitsInjective(a: nat, b: nat)
    requires Digits(a) == Digits(b)
    ensures a == b
  {
    ParseDigitsOfDigits(a);
    ParseDigitsOfDigits(b);
  }

  /** Different numbers have different decimal texts. */
  lemma ToStringInjective(x: int, y: int)
    requires ToString(x) == ToString(y)
    ensures x == y
  {
    if x < 0 {
      assert Digits(-x) == ToString(x)[1..];
      assert Digits(-y) == ToString(y)[1..];
      DigitsInjective(-x, -y);
    } else {
      DigitsInjective(x, y);
    }
  }
}
