/**
 * Python's `str(int)`, which the service uses to turn every integer result into the text it caches,
 * logs and returns: an optional minus sign and the decimal digits, without leading zeros, and a
 * `ValueError` for an integer of more than 4300 digits.
 */
module Decimal {
  import opened Values

  function DigitChar(d: nat): (c: char)
    requires d < 10
    ensures '0' <= c <= '9'
  {
    "0123456789"[d]
  }

  function DigitValue(c: char): (d: nat)
    requires '0' <= c <= '9'
    ensures d < 10
  {
    (c - '0') as nat
  }

  lemma DigitRoundTrip(d: nat)
    requires d < 10
    ensures DigitValue(DigitChar(d)) == d
  {
  }

  predicate AllDigits(s: string)
  {
    forall i :: 0 <= i < |s| ==> '0' <= s[i] <= '9'
  }

  /** The decimal digits of a natural number, most significant first. */
  function Digits(n: nat): (s: string)
    ensures |s| >= 1 && AllDigits(s)
    ensures n >= 10 ==> s[0] != '0'
  {
    if n < 10 then [DigitChar(n)] else Digits(n / 10) + [DigitChar(n % 10)]
  }

  /** The number a string of decimal digits denotes. */
  function DigitsValue(s: string): nat
    requires AllDigits(s)
  {
    if s == [] then 0 else DigitsValue(s[..|s| - 1]) * 10 + DigitValue(s[|s| - 1])
  }

  /** What `int(s)` accepts here: an optional minus sign, then at least one digit. */
  predicate IsIntegerText(s: string)
  {
    (|s| >= 1 && AllDigits(s)) || (|s| >= 2 && s[0] == '-' && AllDigits(s[1..]))
  }

  /** `int(s)` on integer text. */
  function ParseInteger(s: string): int
    requires IsIntegerText(s)
  {
    if s[0] == '-' then -(DigitsValue(s[1..]) as int) else DigitsValue(s)
  }

  /** `str(i)`: a minus sign for a negative number, then the digits of its magnitude. */
  function DecimalString(i: int): (s: string)
    ensures IsIntegerText(s)
  {
    if i < 0 then "-" + Digits(-i) else Digits(i)
  }

  /** 10^k. */
  function Pow10(k: nat): (r: nat)
    ensures r >= 1
  {
    if k == 0 then 1 else 10 * Pow10(k - 1)
  }

  lemma {:induction false} Pow10Monotone(j: nat, k: nat)
    requires j <= k
    ensures Pow10(j) <= Pow10(k)
  {
    if j < k {
      Pow10Monotone(j, k - 1);
    }
  }

  /** A natural number has more than `k` digits exactly when it is at least 10^k. */
  lemma {:induction false} DigitCount(n: nat, k: nat)
    requires k >= 1
    ensures |Digits(n)| > k <==> n >= Pow10(k)
  {
    if n < 10 {
      Pow10Monotone(1, k);
    } else if k > 1 {
      DigitCount(n / 10, k - 1);
    }
  }

  lemma {:induction false} DigitsRoundTrip(n: nat)
    ensures DigitsValue(Digits(n)) == n
  {
    if n < 10 {
      DigitRoundTrip(n);
    } else {
      var s := Digits(n);
      DigitsRoundTrip(n / 10);
      DigitRoundTrip(n % 10);
      assert s[..|s| - 1] == Digits(n / 10);
    }
  }

  /** Reading back the text of an integer gives the integer: the rendering loses nothing. */
  lemma DecimalRoundTrip(i: int)
    ensures ParseInteger(DecimalString(i)) == i
  {
    if i < 0 {
      DigitsRoundTrip(-i);
      assert DecimalString(i)[1..] == Digits(-i);
    } else {
      DigitsRoundTrip(i);
    }
  }

  /** Distinct integers have distinct texts. */
  lemma DecimalInjective(i: int, j: int)
    ensures DecimalString(i) == DecimalString(j) ==> i == j
  {
    DecimalRoundTrip(i);
    DecimalRoundTrip(j);
  }

  /** CPython's default bound on the digits `str` writes for an `int` (`sys.get_int_max_str_digits()`). */
  const MaxStrDigits := 4300

  /** `str(i)`: the decimal text, or the `ValueError` raised when the magnitude has more than 4300 digits. */
  function StrInt(i: int): (r: Result<string>)
    ensures r.Ok? ==> IsIntegerText(r.value) && ParseInteger(r.value) == i
    ensures r.Err? ==> r.error == TooManyDigits
  {
    var magnitude := if i < 0 then -i else i;
    if |Digits(magnitude)| > MaxStrDigits then Err(TooManyDigits)
    else
      DecimalRoundTrip(i);
      Ok(DecimalString(i))
  }

  /** `str` succeeds exactly on the integers strictly between -10^4300 and 10^4300. */
  lemma StrIntBound(i: int)
    ensures StrInt(i).Ok? <==> -(Pow10(MaxStrDigits) as int) < i < Pow10(MaxStrDigits)
  {
    DigitCount(if i < 0 then -i else i, MaxStrDigits);
  }
}
