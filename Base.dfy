/**
 * Arithmetic shared by the width model, the field layout and the limit
 * derivation: powers of two (what `1<<n` denotes in preprocessor arithmetic),
 * C's truncating division (what `/` denotes in an `#if` or a macro), and an
 * optional value for the macros a build may or may not predefine.
 */
module Base {

  /** A configuration macro that the build either defines (`Some`) or leaves undefined (`None`). */
  datatype Option<T> = None | Some(value: T) {
    /** The value of `#ifndef X / #define X default / #endif`. */
    function GetOr(default: T): (r: T)
      ensures Some? ==> r == value
      ensures None? ==> r == default
    {
      if Some? then value else default
    }
  }

  /** 2^n, the value of `1<<n` for a shift that does not overflow. */
  function Pow2(n: nat): (r: nat)
    ensures r >= 1
  {
    if n == 0 then 1 else 2 * Pow2(n - 1)
  }

  /** Doubling the exponent step by step keeps the power growing. */
  lemma {:induction false} Pow2Monotone(a: nat, b: nat)
    requires a <= b
    ensures Pow2(a) <= Pow2(b)
  {
    if a < b {
      Pow2Monotone(a, b - 1);
    }
  }

  /** A strictly larger exponent gives at least twice the power. */
  lemma {:induction false} Pow2StrictlyMonotone(a: nat, b: nat)
    requires a < b
    ensures 2 * Pow2(a) <= Pow2(b)
  {
    Pow2Monotone(a + 1, b);
  }

  /** 2^(a+b) == 2^a * 2^b. */
  lemma {:induction false} Pow2Add(a: nat, b: nat)
    ensures Pow2(a + b) == Pow2(a) * Pow2(b)
  {
    if b > 0 {
      Pow2Add(a, b - 1);
      assert Pow2(a + b) == 2 * Pow2(a + (b - 1));
    }
  }

  /** The powers of two that the worked configurations need. */
  lemma Pow2Values()
    ensures Pow2(5) == 32 && Pow2(8) == 256 && Pow2(10) == 1024
    ensures Pow2(14) == 16384 && Pow2(15) == 32768 && Pow2(16) == 65536
    ensures Pow2(18) == 262144 && Pow2(25) == 33554432 && Pow2(26) == 67108864
    ensures Pow2(30) == 1073741824 && Pow2(31) == 2147483648
  {
    assert Pow2(5) == 32;
    assert Pow2(10) == 1024 by { Pow2Add(5, 5); }
    assert Pow2(8) == 256 by { Pow2Add(5, 3); }
    assert Pow2(15) == 32768 by { Pow2Add(10, 5); }
    assert Pow2(14) == 16384 by { Pow2Add(10, 4); }
    assert Pow2(16) == 65536 by { Pow2Add(8, 8); }
    assert Pow2(18) == 262144 by { Pow2Add(16, 2); }
    assert Pow2(25) == 33554432 by { Pow2Add(15, 10); }
    assert Pow2(26) == 67108864 by { Pow2Add(16, 10); }
    assert Pow2(30) == 1073741824 by { Pow2Add(15, 15); }
    assert Pow2(31) == 2147483648 by { Pow2Add(16, 15); }
  }

  /**
   * Integer division as C99 performs it: the quotient is truncated toward
   * zero, so the remainder takes the sign of the dividend.  (ANSI C89 leaves
   * the rounding of a negative quotient to the implementation.)  Dafny's own
   * `/` is Euclidean and differs for a negative dividend.
   */
  function TruncDiv(a: int, b: int): (q: int)
    requires b > 0
    ensures a >= 0 ==> 0 <= q && q * b <= a < q * b + b
    ensures a < 0 ==> q <= 0 && a <= q * b < a + b
  {
    if a >= 0 then a / b else -((-a) / b)
  }
}
