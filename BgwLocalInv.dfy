/**
 * Local inversion in the BGW suite: a party inverts a value it holds in
 * the clear modulo the suite's prime, as `java.math.BigInteger.modInverse`
 * does. The modulus is a parameter instead of the suite singleton, and the
 * inverse is computed by the extended Euclidean algorithm.
 */
module BgwInteger {
  import opened Wrappers
  import opened Framework

  /** y is the inverse of x modulo m, taken in the range [0, m). */
  ghost predicate IsInverse(x: int, m: int, y: int)
    requires m > 0
  {
    0 <= y < m && (x * y) % m == 1 % m
  }

  /** d divides n. */
  ghost predicate Divides(d: int, n: int)
  {
    exists k :: n == k * d
  }

  /** The sign of k decides on which side of the interval (-m, m) the multiple k * m lies. */
  lemma MulBounds(k: int, m: int)
    requires m > 0
    ensures k >= 1 ==> k * m >= m
    ensures k <= -1 ==> k * m <= -m
  {
  }

  /** The remainder of n modulo m is fixed by any decomposition n = q * m + r with r in [0, m). */
  lemma ModUnique(n: int, m: int, q: int, r: int)
    requires m > 0 && 0 <= r < m && n == q * m + r
    ensures n % m == r
  {
    var q', r' := n / m, n % m;
    var d := q - q';
    assert d * m == r' - r by {
      assert n == q' * m + r';
      assert d * m == q * m - q' * m;
    }
    MulBounds(d, m);
  }

  /** A multiple of m added to n leaves its remainder modulo m unchanged. */
  lemma ModAddMultiple(n: int, k: int, m: int)
    requires m > 0
    ensures (n + k * m) % m == n % m
  {
    ModUnique(n + k * m, m, n / m + k, n % m);
  }

  /** A common divisor of m and n % m divides n. */
  lemma DividesFromRemainder(d: int, n: int, m: int)
    requires m > 0 && Divides(d, m) && Divides(d, n % m)
    ensures Divides(d, n)
  {
    var km :| m == km * d;
    var kr :| n % m == kr * d;
    assert n == (n / m) * m + n % m;
    assert n == ((n / m) * km + kr) * d;
  }

  /** A combination of b and a % b is a combination of a and b. */
  lemma BezoutStep(a: int, b: int, s: int, t: int)
    requires b > 0
    ensures t * a + (s - (a / b) * t) * b == s * b + t * (a % b)
  {
    assert a == (a / b) * b + a % b;
    assert t * a == t * ((a / b) * b) + t * (a % b);
  }

  /**
   * The extended Euclidean algorithm on a, b >= 0: the greatest common
   * divisor g, as a common divisor that is a combination s * a + t * b.
   */
  function ExtGcd(a: nat, b: nat): (r: (nat, int, int))
    ensures Divides(r.0, a) && Divides(r.0, b)
    ensures r.1 * a + r.2 * b == r.0
    ensures a > 0 || b > 0 ==> r.0 > 0
    decreases b
  {
    if b == 0 then
      assert a == 1 * a && 0 == 0 * a;
      (a, 1, 0)
    else
      var (g, s, t) := ExtGcd(b, a % b);
      DividesFromRemainder(g, a, b);
      BezoutStep(a, b, s, t);
      (g, t, s - (a / b) * t)
  }

  /**
   * `BigInteger.modInverse`: fails on a modulus that is not positive and on
   * a value that shares a factor with the modulus; otherwise the inverse in
   * [0, m), which is 0 for m = 1.
   */
  function ModInverse(x: int, m: int): (r: Result<int, ProtocolError>)
    ensures m <= 0 ==> r == Failure(ArithmeticException("BigInteger: modulus not positive"))
    ensures r.Success? ==> m > 0 && IsInverse(x, m, r.value)
    ensures r.Failure? && m > 0 ==> forall y :: !IsInverse(x, m, y)
  {
    if m <= 0 then Failure(ArithmeticException("BigInteger: modulus not positive"))
    else
      var (g, s, t) := ExtGcd(x % m, m);
      if g != 1 then
        NotInvertible(x, m, g);
        Failure(ArithmeticException("BigInteger not invertible."))
      else
        InverseFromBezout(x, m, s, t);
        Success(s % m)
  }

  /** A Bezout combination s * (x mod m) + t * m = 1 makes s mod m the inverse of x. */
  lemma InverseFromBezout(x: int, m: int, s: int, t: int)
    requires m > 0 && s * (x % m) + t * m == 1
    ensures IsInverse(x, m, s % m)
  {
    var rx, qx := x % m, x / m;
    var rs, qs := s % m, s / m;
    assert x == qx * m + rx;
    assert s == qs * m + rs;
    assert rx * rs == 1 - (t + rx * qs) * m by {
      assert rx * s == rx * qs * m + rx * rs;
    }
    assert x * rs == 1 + (qx * rs - t - rx * qs) * m by {
      assert x * rs == qx * rs * m + rx * rs;
    }
    ModAddMultiple(1, qx * rs - t - rx * qs, m);
  }

  /** A common divisor of a and b divides every combination u * a + v * b. */
  lemma DividesCombination(d: int, a: int, b: int, u: int, v: int)
    requires Divides(d, a) && Divides(d, b)
    ensures Divides(d, u * a + v * b)
  {
    var ka :| a == ka * d;
    var kb :| b == kb * d;
    assert u * a == (u * ka) * d;
    assert v * b == (v * kb) * d;
    assert u * a + v * b == (u * ka + v * kb) * d;
  }

  /** The only positive divisor of 1 is 1. */
  lemma DividesOne(g: int)
    requires g > 0 && Divides(g, 1)
    ensures g == 1
  {
    var k :| 1 == k * g;
    MulBounds(k, g);
  }

  /** x * y = 1 modulo m > 1 expressed as an equation with quotient (x * y) / m. */
  lemma InverseEquation(x: int, m: int, y: int)
    requires m > 1 && IsInverse(x, m, y)
    ensures x * y - ((x * y) / m) * m == 1
  {
    var p := x * y;
    assert p == (p / m) * m + p % m;
  }

  /** A value with an inverse modulo m shares no factor other than 1 with m. */
  lemma InverseImpliesCoprime(x: int, m: int, y: int, g: int)
    requires m > 0 && g > 0 && IsInverse(x, m, y) && Divides(g, x) && Divides(g, m)
    ensures g == 1
  {
    if m == 1 {
      DividesOne(g);
    } else {
      InverseEquation(x, m, y);
      DividesCombination(g, x, m, y, -((x * y) / m));
      assert y * x + -((x * y) / m) * m == 1;
      DividesOne(g);
    }
  }

  /** A common divisor g > 1 of x mod m and m rules out every inverse of x. */
  lemma NotInvertible(x: int, m: int, g: nat)
    requires m > 0 && g != 1 && g > 0 && Divides(g, x % m) && Divides(g, m)
    ensures forall y :: !IsInverse(x, m, y)
  {
    DividesFromRemainder(g, x, m);
    forall y
      ensures !IsInverse(x, m, y)
    {
      if IsInverse(x, m, y) {
        InverseImpliesCoprime(x, m, y, g);
      }
    }
  }

  /** Inverses modulo m are unique in [0, m). */
  lemma InverseUnique(x: int, m: int, y: int, z: int)
    requires m > 0 && IsInverse(x, m, y) && IsInverse(x, m, z)
    ensures y == z
  {
    if m > 1 {
      // y = y * (x * z) = z * (x * y) = z modulo m.
      var a, b := (x * y) / m, (x * z) / m;
      InverseEquation(x, m, y);
      InverseEquation(x, m, z);
      assert y * (x * z - 1) - z * (x * y - 1) == z - y;
      assert y * (x * z - 1) == (y * b) * m;
      assert z * (x * y - 1) == (z * a) * m;
      assert z == (y * b - z * a) * m + y;
      ModUnique(z, m, y * b - z * a, y);
      ModUnique(z, m, 0, z);
    }
  }

  /** Every invertible x gets its inverse. */
  lemma ModInverseComplete(x: int, m: int, y: int)
    requires m > 0 && IsInverse(x, m, y)
    ensures ModInverse(x, m) == Success(y)
  {
    var r := ModInverse(x, m);
    InverseUnique(x, m, r.value, y);
  }

  /** An integer wire value of the BGW suite, unset until a protocol writes it. */
  class BgwOInt {
    var value: Option<int>

    constructor (value: Option<int>)
      ensures this.value == value
    {
      this.value := value;
    }
  }

  class BgwLocalInvProtocol {
    const x: BgwOInt
    const res: BgwOInt

    constructor (x: BgwOInt, res: BgwOInt)
      ensures this.x == x && this.res == res
    {
      this.x := x;
      this.res := res;
    }

    /** The declared inputs: `x` alone. */
    function InputValues(): (values: seq<BgwOInt>)
      ensures |values| == 1 && values[0] == x
    {
      [x]
    }

    /** The declared outputs: `res` alone. */
    function OutputValues(): (values: seq<BgwOInt>)
      ensures |values| == 1 && values[0] == res
    {
      [res]
    }

    /**
     * `evaluate`: done in one call whatever the round, with no network. It
     * writes the inverse of x into `res`; when the inverse does not exist the
     * exception leaves `res` as it was.
     */
    method Evaluate(round: int, modulus: int) returns (r: Result<EvaluationStatus, ProtocolError>)
      requires x.value.Some?
      modifies res
      ensures ModInverse(old(x.value.value), modulus).Success? ==>
        r == Success(IsDone) && res.value == Some(ModInverse(old(x.value.value), modulus).value)
      ensures ModInverse(old(x.value.value), modulus).Failure? ==>
        r == Failure(ModInverse(old(x.value.value), modulus).error) && res.value == old(res.value)
      ensures x != res ==> x.value == old(x.value)
    {
      var inv := ModInverse(x.value.value, modulus);
      if inv.Failure? {
        return Failure(inv.error);
      }
      res.value := Some(inv.value);
      r := Success(IsDone);
    }
  }
}
