/** The integer policy of the patch engine: the source's clamping macros
    (LIMIT, MIN, MAX, FLOOR_MINUS) and C's signed division, which truncates
    toward zero where Dafny's `/` is Euclidean. */
module IntegerPolicy {

  /** An unsigned 8-bit value (the source's `byte`). */
  type byte = x: int | 0 <= x < 256

  function Abs(x: int): (r: int)
    ensures r >= 0 && (r == x || r == -x)
  {
    if x < 0 then -x else x
  }

  /** MIN(a, b) of the source: `a < b ? a : b`. */
  function Min(a: int, b: int): (r: int)
    ensures r <= a && r <= b && (r == a || r == b)
  {
    if a < b then a else b
  }

  /** MAX(a, b) of the source: `a > b ? a : b`. */
  function Max(a: int, b: int): (r: int)
    ensures r >= a && r >= b && (r == a || r == b)
  {
    if a > b then a else b
  }

  /** LIMIT(val, lo, hi) of the source, that is MIN(MAX(val, lo), hi):
      `val` clamped into `[lo, hi]`. */
  function Limit(val: int, lo: int, hi: int): (r: int)
    ensures lo <= hi ==> lo <= r <= hi
    ensures lo <= val <= hi ==> r == val
    ensures val < lo <= hi ==> r == lo
    ensures lo <= hi < val ==> r == hi
  {
    Min(Max(val, lo), hi)
  }

  /** Clamping never reverses the order of two values. */
  lemma LimitMonotone(a: int, b: int, lo: int, hi: int)
    requires a <= b
    ensures Limit(a, lo, hi) <= Limit(b, lo, hi)
  {
  }

  /** FLOOR_MINUS(a, b) of the source: `a - b`, except never lower than 0. */
  function FloorMinus(a: nat, b: nat): (r: nat)
    ensures r <= a
    ensures b <= a ==> r + b == a
    ensures a < b ==> r == 0
  {
    if a < b then 0 else a - b
  }

  /** C's signed division `a / b`: the quotient truncated toward zero.
      The remainder `a - q * b` is smaller than `b` in magnitude and has
      the sign of `a`. */
  function TruncDiv(a: int, b: int): (q: int)
    requires b != 0
    ensures 0 <= a ==> 0 <= a - q * b < Abs(b)
    ensures a < 0 ==> -Abs(b) < a - q * b <= 0
  {
    var n, d := Abs(a), Abs(b);
    DivModFacts(n, d);
    var k := n / d;
    if (a >= 0) == (b > 0) then
      assert k * b == (if a >= 0 then k * d else -(k * d)) by { ProductSigns(k, d); }
      k
    else
      assert (-k) * b == (if a >= 0 then k * d else -(k * d)) by { ProductSigns(k, d); }
      -k
  }

  /** Sign rules for products, stated once for the proofs above. */
  lemma ProductSigns(x: int, y: int)
    ensures (-x) * y == -(x * y) && x * (-y) == -(x * y) && (-x) * (-y) == x * y
  {
  }

  /** Euclidean division facts for a non-negative numerator. */
  lemma DivModFacts(n: nat, d: nat)
    requires d > 0
    ensures n == (n / d) * d + n % d && 0 <= n % d < d && n / d >= 0
  {
  }

  /** The two postconditions of TruncDiv determine the quotient: any `q`
      with a remainder of the right size and sign is `TruncDiv(a, b)`. */
  lemma {:induction false} TruncDivUnique(a: int, b: int, q: int)
    requires b != 0
    requires 0 <= a ==> 0 <= a - q * b < Abs(b)
    requires a < 0 ==> -Abs(b) < a - q * b <= 0
    ensures q == TruncDiv(a, b)
  {
    var t := TruncDiv(a, b);
    // both remainders lie in a half-open window of width |b|, so they differ by less than |b|
    var diff := (t - q) * b;
    assert diff == (a - q * b) - (a - t * b);
    assert -Abs(b) < diff < Abs(b);
    if t != q {
      MultipleBound(t - q, b);
    }
  }

  /** A non-zero multiple of `b` is at least `|b|` in magnitude. */
  lemma MultipleBound(k: int, b: int)
    requires k != 0 && b != 0
    ensures Abs(k * b) >= Abs(b)
  {
    if k > 0 && b > 0 {
      assert k * b == (k - 1) * b + b;
      NonNegativeProduct(k - 1, b);
    } else if k > 0 {
      assert k * b == (k - 1) * b + b;
      NonNegativeProduct(k - 1, -b);
      assert (k - 1) * b == -((k - 1) * (-b));
    } else if b > 0 {
      assert k * b == (k + 1) * b - b;
      NonNegativeProduct(-(k + 1), b);
      assert (k + 1) * b == -((-(k + 1)) * b);
    } else {
      assert k * b == (-k) * (-b);
      assert (-k) * (-b) == (-k - 1) * (-b) + (-b);
      NonNegativeProduct(-k - 1, -b);
    }
  }

  lemma NonNegativeProduct(x: nat, y: nat)
    ensures x * y >= 0
  {
  }

  /** Truncating division is symmetric about zero: `(-a) / b == -(a / b)`. */
  lemma {:induction false} TruncDivNegate(a: int, b: int)
    requires b != 0
    ensures TruncDiv(-a, b) == -TruncDiv(a, b)
  {
    // |-a| == |a| and, unless a == 0, the signs' agreement flips
    assert Abs(-a) == Abs(a);
    if a == 0 {
      assert Abs(a) / Abs(b) == 0;
    }
  }

  /** For non-negative operands C's and Dafny's divisions agree. */
  lemma TruncDivOfNonNegative(a: nat, b: int)
    requires b > 0
    ensures TruncDiv(a, b) == a / b
  {
  }

  /** Negating the divisor negates the quotient. */
  lemma {:induction false} TruncDivNegateDivisor(a: int, b: int)
    requires b != 0
    ensures TruncDiv(a, -b) == -TruncDiv(a, b)
  {
    // |-b| == |b| and the signs' agreement always flips
    assert Abs(-b) == Abs(b);
  }

  /** For a positive divisor, a larger numerator never gives a smaller
      truncated quotient. */
  lemma {:induction false} TruncDivMonotone(a1: int, a2: int, b: int)
    requires b > 0 && a1 <= a2
    ensures TruncDiv(a1, b) <= TruncDiv(a2, b)
  {
    QuotientOrder(a1, a2, b, TruncDiv(a1, b), TruncDiv(a2, b));
  }

  /** Two quotients whose remainders obey the truncation windows are
      ordered like their numerators. */
  lemma QuotientOrder(a1: int, a2: int, b: int, q1: int, q2: int)
    requires b > 0 && a1 <= a2
    requires 0 <= a1 ==> 0 <= a1 - q1 * b < b
    requires a1 < 0 ==> -b < a1 - q1 * b <= 0
    requires 0 <= a2 ==> 0 <= a2 - q2 * b < b
    requires a2 < 0 ==> -b < a2 - q2 * b <= 0
    ensures q1 <= q2
  {
    if q1 > q2 {
      var m := (q1 - q2) * b;
      assert m == q1 * b - q2 * b;
      MultipleBound(q1 - q2, b);
      NonNegativeProduct(q1 - q2, b);
      assert false;
    }
  }
}
