/**
 * The rate budget: `main` splits the target rate with Python's floor
 * division, and each producer paces itself with an interval of `1 / tps`
 * seconds.
 */
module Rate {
  import opened Wrappers
  import opened Errors

  /** Python's `a // b`, which rounds toward negative infinity and raises on a zero divisor. */
  function FloorDiv(a: int, b: int): (r: Result<int, Error>)
    ensures r.Failure? <==> b == 0
    ensures r.Failure? ==> r.error == ZeroDivision
    ensures r.Success? && b > 0 ==> b * r.value <= a < b * r.value + b
    ensures r.Success? && b < 0 ==> b * r.value >= a > b * r.value + b
  {
    if b == 0 then Failure(ZeroDivision)
    else if b > 0 then Success(a / b)
    else Success((-a) / (-b))
  }

  /** For a positive divisor the bounds single out the quotient. */
  lemma FloorDivUnique(a: int, b: int, q: int)
    requires b > 0 && b * q <= a < b * q + b
    ensures FloorDiv(a, b) == Success(q)
  {
    var p := FloorDiv(a, b).value;
    if p < q {
      assert b * q - b * p == b * (q - p);
      MulAtLeast(b, q - p);
    } else if p > q {
      assert b * p - b * q == b * (p - q);
      MulAtLeast(b, p - q);
    }
  }

  lemma MulAtLeast(b: int, k: int)
    requires b > 0 && k >= 1
    ensures b * k >= b
  {
  }

  /** The share of each of n producers: never more than the target, and
      short of it by less than one record per second per producer. */
  lemma PartitionBounds(total: int, n: int)
    requires n > 0
    ensures FloorDiv(total, n).Success?
    ensures n * FloorDiv(total, n).value <= total
    ensures total - n * FloorDiv(total, n).value < n
  {
  }

  /** The share is zero exactly when the target is non-negative and below the
      number of producers. */
  lemma ZeroShareIff(total: int, n: int)
    requires n > 0
    ensures FloorDiv(total, n) == Success(0) <==> 0 <= total < n
  {
    if 0 <= total < n {
      FloorDivUnique(total, n, 0);
    }
  }

  /** `main`'s configuration: 4000 records per second over 40 threads is 100 each. */
  lemma MainShare()
    ensures FloorDiv(4000, 40) == Success(100)
  {
    FloorDivUnique(4000, 40, 100);
  }

  /** `interval = 1 / tps`: the pause, in seconds, between two inserts. */
  function Interval(tps: int): (r: Result<real, Error>)
    ensures r.Failure? <==> tps == 0
    ensures r.Failure? ==> r.error == ZeroDivision
    ensures r.Success? ==> r.value * (tps as real) == 1.0
    ensures r.Success? ==> (r.value > 0.0 <==> tps > 0)
    ensures r.Success? ==> (r.value < 0.0 <==> tps < 0)
  {
    if tps == 0 then Failure(ZeroDivision) else Success(1.0 / (tps as real))
  }
}
