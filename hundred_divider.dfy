/** The Java divider sample (HundredDivider.apply): 100 / x on Java's
    32-bit int. Java's `/` truncates toward zero and wraps the one
    overflowing case; dividing by zero throws ArithmeticException. */
module HundredDivider {
  import opened Framework

  const IntMin: int := -0x8000_0000

  newtype Int32 = x: int | -0x8000_0000 <= x < 0x8000_0000

  function Abs(x: int): nat {
    if x < 0 then -x else x
  }

  lemma MulMono(q: nat, d: nat, e: nat)
    requires e <= d
    ensures q * e <= q * d
  {
  }

  /** A non-zero multiple of x is at least as large as x. */
  lemma ProductMagnitude(k: int, x: int)
    requires k != 0 && x != 0
    ensures Abs(k * x) >= Abs(x)
  {
    var a: int, b: int := Abs(k), Abs(x);
    MulMono(Abs(x), Abs(k), 1);
    assert a * b == b * a;
    if k < 0 && x < 0 { assert k * x == (-a) * (-b) == a * b; }
    else if k < 0 { assert k * x == (-a) * b == -(a * b); }
    else if x < 0 { assert k * x == a * (-b) == -(a * b); }
    else { assert k * x == a * b; }
  }

  /** At most one quotient leaves a remainder in 0 .. |x| - 1. */
  lemma QuotientUnique(n: int, x: int, q1: int, q2: int)
    requires x != 0
    requires 0 <= n - q1 * x < Abs(x) && 0 <= n - q2 * x < Abs(x)
    ensures q1 == q2
  {
    if q1 != q2 {
      assert (n - q2 * x) - (n - q1 * x) == (q1 - q2) * x;
      ProductMagnitude(q1 - q2, x);
    }
  }

  /** The quotient of naturals: the largest q with q * d <= n. */
  function Quotient(n: nat, d: nat): (q: nat)
    requires d > 0
    ensures q * d <= n < q * d + d
    ensures q <= n
    ensures d == 1 ==> q == n
    ensures d >= 2 ==> 2 * q <= n
  {
    var q := n / d;
    MulMono(q, d, 1);
    MulMono(q, d, if d >= 2 then 2 else 1);
    q
  }

  /** Division truncating toward zero, on unbounded integers: the
      magnitude is the quotient of the magnitudes, the sign is negative
      only when the operands' signs differ. */
  function TruncDiv(a: int, b: int): (q: int)
    requires b != 0
    ensures Abs(q) == Quotient(Abs(a), Abs(b))
    ensures (a < 0) == (b < 0) ==> q >= 0
    ensures (a < 0) != (b < 0) ==> q <= 0
  {
    var m: int := Quotient(Abs(a), Abs(b));
    if (a < 0) == (b < 0) then m else -m
  }

  /** The remainder left by truncating division is smaller than the
      divisor and carries the sign of the dividend. */
  lemma TruncDivRemainder(a: int, b: int)
    requires b != 0
    ensures var r := a - TruncDiv(a, b) * b;
      Abs(r) < Abs(b) && (r == 0 || (r < 0 <==> a < 0))
  {
    var m := Quotient(Abs(a), Abs(b));
    var q := TruncDiv(a, b);
    if a < 0 && b < 0 {
      assert q * b == -(m * Abs(b));
    } else if a < 0 {
      assert q * b == -(m * Abs(b));
    } else if b < 0 {
      assert q * b == m * Abs(b);
    } else {
      assert q * b == m * Abs(b);
    }
  }

  /** Java's int `/`: truncation, except that MIN_VALUE / -1 wraps back to
      MIN_VALUE. */
  function JavaDiv(a: Int32, b: Int32): (q: Int32)
    requires b != 0
    ensures a as int == IntMin && b == -1 ==> q as int == IntMin
    ensures !(a as int == IntMin && b == -1) ==> q as int == TruncDiv(a as int, b as int)
  {
    if a as int == IntMin && b == -1 then a
    else TruncDiv(a as int, b as int) as Int32
  }

  /** apply: 100 / x, or the ArithmeticException thrown for x == 0. */
  function Apply(x: Int32): (r: Result<Int32, string>)
    ensures r.Err? <==> x == 0
    ensures r.Ok? ==> -100 <= r.value <= 100
    // truncation: x * r stays on the side of zero that 100 is on
    ensures r.Ok? ==> 0 <= (r.value as int) * (x as int) <= 100 && 100 - (r.value as int) * (x as int) < Abs(x as int)
  {
    if x == 0 then Err("/ by zero")
    else
      TruncDivRemainder(100, x as int);
      Ok(JavaDiv(100, x))
  }

  /** The values the request / reply suite relies on, and a negative
      divisor, where truncation gives -33 and flooring would give -34. */
  lemma ApplyExamples()
    ensures Apply(2) == Ok(50)
    ensures Apply(4) == Ok(25)
    ensures Apply(-3) == Ok(-33)
    ensures Apply(0).Err?
  {
  }

  /** With the dividend fixed at 100 (positive), Java's truncating
      division agrees with Euclidean division. */
  lemma ApplyIsEuclidean(x: Int32)
    requires x != 0
    ensures Apply(x) == Ok((100 / (x as int)) as Int32)
  {
    var r := Apply(x).value as int;
    QuotientUnique(100, x as int, r, 100 / (x as int));
  }
}
