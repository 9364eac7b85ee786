/** `MathService._fast_power`: binary exponentiation over exact rationals. */
module Powers {
  import opened Values

  /** The reference definition: `b` multiplied by itself `e` times. */
  function Pow(b: real, e: nat): real
  {
    if e == 0 then 1.0 else b * Pow(b, e - 1)
  }

  lemma {:induction false} PowAdd(b: real, i: nat, j: nat)
    ensures Pow(b, i + j) == Pow(b, i) * Pow(b, j)
  {
    if i > 0 {
      PowAdd(b, i - 1, j);
      calc {
        Pow(b, i + j);
        b * Pow(b, (i - 1) + j);
        b * (Pow(b, i - 1) * Pow(b, j));
        (b * Pow(b, i - 1)) * Pow(b, j);
      }
    }
  }

  /** Squaring the base doubles the exponent: the step that square-and-multiply relies on. */
  lemma {:induction false} PowSquare(b: real, k: nat)
    ensures Pow(b * b, k) == Pow(b, 2 * k)
  {
    if k > 0 {
      PowSquare(b, k - 1);
      PowAdd(b, 2, 2 * (k - 1));
      assert Pow(b, 1) == b;
    }
  }

  /** A power is zero exactly when the base is zero and the exponent positive. */
  lemma {:induction false} PowZero(b: real, k: nat)
    ensures Pow(b, k) == 0.0 <==> b == 0.0 && k > 0
  {
    if k > 0 {
      PowZero(b, k - 1);
    }
  }

  /** The value of `b` raised to an integer exponent, for a non-zero base. */
  function IntPow(b: real, e: int): (r: real)
    requires b != 0.0
    ensures r != 0.0
  {
    PowZero(b, if e >= 0 then e else -e);
    if e >= 0 then Pow(b, e) else 1.0 / Pow(b, -e)
  }

  /** For a non-zero base, the powers with opposite exponents are reciprocal. */
  lemma ReciprocalExponents(b: real, e: int)
    requires b != 0.0
    ensures IntPow(b, e) * IntPow(b, -e) == 1.0
  {
  }

  /**
   * `_fast_power(base, exp)`: 1 for a zero exponent whatever the base (a Python `int`), the
   * reciprocal of the positive power for a negative exponent (a zero base then divides by zero),
   * and otherwise square-and-multiply over the bits of the exponent (a `float`).
   */
  method FastPower(base: real, exp: int) returns (r: Result<Number>)
    ensures exp == 0 ==> r == Ok(Int(1))
    ensures exp > 0 ==> r == Ok(Float(Pow(base, exp)))
    ensures exp < 0 && base == 0.0 ==> r == Err(DivisionByZero)
    ensures exp < 0 && base != 0.0 ==> r == Ok(Float(IntPow(base, exp)))
    decreases if exp < 0 then 1 else 0
  {
    if exp == 0 {
      return Ok(Int(1));
    }
    if exp < 0 {
      var positive := FastPower(base, -exp);
      var d := positive.value.x;
      PowZero(base, -exp);
      if d == 0.0 {
        return Err(DivisionByZero);
      }
      return Ok(Float(1.0 / d));
    }
    var result := 1.0;
    var basePower := base;
    var e: nat := exp;
    while e > 0
      invariant result * Pow(basePower, e) == Pow(base, exp)
      decreases e
    {
      if e % 2 == 1 {
        PowSquare(basePower, e / 2);
        assert Pow(basePower, e) == basePower * Pow(basePower, 2 * (e / 2));
        result := result * basePower;
      } else {
        PowSquare(basePower, e / 2);
      }
      basePower := basePower * basePower;
      e := e / 2;
    }
    return Ok(Float(result));
  }
}
