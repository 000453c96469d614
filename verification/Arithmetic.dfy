/** Facts about multiplication and division of reals, each small enough for the solver to prove
    from its own parameters alone. The rest of the model calls them by name. */
module Arithmetic {

  /** x to the n. */
  function Power(x: real, n: nat): real {
    if n == 0 then 1.0 else x * Power(x, n - 1)
  }

  lemma ProductOrder(a: real, b: real, c: real)
    requires a <= b && c >= 0.0
    ensures a * c <= b * c
  {
  }

  lemma ProductSame(a: real, b: real, c: real)
    requires a == b
    ensures a * c == b * c
  {
  }

  lemma ProductStrict(a: real, b: real, c: real)
    requires a < b && c > 0.0
    ensures a * c < b * c
  {
    assert (b - a) * c > 0.0;
    assert (b - a) * c == b * c - a * c;
  }

  lemma ProductPositive(a: real, b: real)
    requires a > 0.0 && b > 0.0
    ensures a * b > 0.0
  {
  }

  lemma QuotientTimes(x: real, n: real)
    requires n != 0.0
    ensures x / n * n == x
  {
  }

  /** Dividing by a positive number moves it across an inequality, in both directions. */
  lemma QuotientOrder(x: real, n: real, b: real)
    requires n > 0.0
    ensures x / n <= b <==> x <= b * n
    ensures x / n >= b <==> x >= b * n
    ensures x / n < b <==> x < b * n
  {
    var q := x / n;
    assert q * n == x;
    if q < b { ProductPositive(b - q, n); assert (b - q) * n == b * n - x; }
    if q > b { ProductPositive(q - b, n); assert (q - b) * n == x - b * n; }
  }

  lemma Distribute(a: real, b: real, c: real)
    ensures (a - b) * c == a * c - b * c
  {
  }

  lemma Associate(a: real, b: real, c: real)
    ensures a * b * c == a * (b * c)
  {
  }

  lemma MixtureAbove(x: real, y: real, t: real, a: real)
    requires 0.0 <= t <= 1.0 && a <= x && a <= y
    ensures a <= (x - y) * t + y
  {
    assert 0.0 <= (x - a) * t;
    assert 0.0 <= (y - a) * (1.0 - t);
    assert (x - a) * t + (y - a) * (1.0 - t) == (x - y) * t + y - a;
  }

  /** A weighted mean of two values lies between any bounds on both. */
  lemma Mixture(x: real, y: real, t: real, a: real, b: real)
    requires 0.0 <= t <= 1.0 && a <= x <= b && a <= y <= b
    ensures a <= (x - y) * t + y <= b
  {
    MixtureAbove(x, y, t, a);
    MixtureAbove(-x, -y, t, -b);
    assert (-x + y) * t == -((x - y) * t);
  }

  /** Dividing a whole number of units back leaves less than one unit over. */
  lemma UnitQuotient(x: real, n: real, units: real)
    requires n > 0.0 && units <= x * n < units + 1.0
    ensures units / n <= x < units / n + 1.0 / n
  {
    QuotientOrder(units, n, x);
    QuotientOrder(units + 1.0, n, x);
    assert (units + 1.0) / n == units / n + 1.0 / n;
  }

  /** A quotient is determined by the equation it solves. */
  lemma QuotientUnique(x: real, n: real, q: real)
    requires n != 0.0 && q * n == x
    ensures x / n == q
  {
  }

  lemma CancelFactor(x: real, y: real, t: real)
    requires t != 0.0 && x * t == y * t
    ensures x == y
  {
    QuotientUnique(x * t, t, x);
    QuotientUnique(y * t, t, y);
  }
}
