/**
 * Decimal amounts. BigDecimal values are modelled as exact reals; the
 * roundings the system performs, setScale(2, HALF_UP) and
 * divide(…, 4, HALF_UP), are Round2 and Round4.
 */
module Money {

  function Abs(x: real): (r: real)
    ensures r >= 0.0
    ensures r == x || r == -x
  {
    if x < 0.0 then -x else x
  }

  function Min(a: real, b: real): (r: real)
    ensures r <= a && r <= b
    ensures r == a || r == b
  {
    if a <= b then a else b
  }

  predicate IsWhole(y: real) {
    y.Floor as real == y
  }

  lemma FloorBounds(y: real)
    ensures y.Floor as real <= y < y.Floor as real + 1.0
  {
  }

  /** The integer nearest to y, halves away from zero (RoundingMode.HALF_UP at scale 0). */
  function HalfUp(y: real): (k: int)
    ensures Abs(k as real - y) <= 0.5
    ensures IsWhole(y) ==> k as real == y
  {
    FloorBounds(y + 0.5);
    FloorBounds(-y + 0.5);
    var k := if y >= 0.0 then (y + 0.5).Floor else -((-y + 0.5).Floor);
    assert IsWhole(y) ==> k as real - y.Floor as real == (k - y.Floor) as real;
    k
  }

  lemma HalfUpSymmetric(y: real)
    ensures HalfUp(-y) == -HalfUp(y)
  {
    if y == 0.0 {
      assert (0.5).Floor == 0;
    }
  }

  lemma HalfUpMonotone(y: real, z: real)
    requires y <= z
    ensures HalfUp(y) <= HalfUp(z)
  {
  }

  /** x has at most two decimal places (a whole number of cents). */
  predicate IsCents(x: real) {
    IsWhole(x * 100.0)
  }

  /** setScale(2, RoundingMode.HALF_UP). */
  function Round2(x: real): (r: real)
    ensures IsCents(r)
    ensures Abs(r - x) <= 0.005
    ensures IsCents(x) ==> r == x
  {
    var k := HalfUp(x * 100.0);
    assert (k as real / 100.0) * 100.0 == k as real;
    assert (k as real).Floor == k;
    k as real / 100.0
  }

  /** Division rounded to four decimal places, HALF_UP. */
  function Round4(x: real): (r: real)
    ensures IsWhole(r * 10000.0)
    ensures Abs(r - x) <= 0.00005
  {
    var k := HalfUp(x * 10000.0);
    assert (k as real / 10000.0) * 10000.0 == k as real;
    assert (k as real).Floor == k;
    k as real / 10000.0
  }

  lemma Round2Symmetric(x: real)
    ensures Round2(-x) == -Round2(x)
  {
    HalfUpSymmetric(x * 100.0);
    assert (-x) * 100.0 == -(x * 100.0);
  }

  lemma Round2Monotone(x: real, y: real)
    requires x <= y
    ensures Round2(x) <= Round2(y)
  {
    HalfUpMonotone(x * 100.0, y * 100.0);
  }

  /** Rounding a non-negative amount to cents never makes it negative. */
  lemma Round2NonNegative(x: real)
    requires x >= 0.0
    ensures Round2(x) >= 0.0
  {
    Round2Monotone(0.0, x);
    assert IsCents(0.0) by {
      assert (0.0 * 100.0).Floor == 0;
    }
  }

  /** Rounding to cents stays below a bound that is itself in cents. */
  lemma Round2Below(x: real, a: real)
    requires x <= a && IsCents(a)
    ensures Round2(x) <= a
  {
    Round2Monotone(x, a);
  }

  lemma ProductNonNegative(a: real, b: real)
    requires a >= 0.0 && b >= 0.0
    ensures a * b >= 0.0
  {
  }

  lemma ProductAtMost(a: real, b: real)
    requires a >= 0.0 && 0.0 <= b <= 1.0
    ensures a * b <= a
  {
    ProductNonNegative(a, 1.0 - b);
    assert a * (1.0 - b) == a - a * b;
  }

  /** A share of at most 100% of an amount in cents, rounded to cents, lies between zero and the amount. */
  lemma Round2Share(a: real, rate: real)
    requires a >= 0.0 && IsCents(a) && 0.0 <= rate <= 1.0
    ensures 0.0 <= Round2(a * rate) <= a
  {
    var p := a * rate;
    assert 0.0 <= p by { ProductNonNegative(a, rate); }
    assert p <= a by { ProductAtMost(a, rate); }
    assert 0.0 <= Round2(p) by { Round2NonNegative(p); }
    assert Round2(p) <= a by { Round2Below(p, a); }
  }

  /** amount × rate at scale 2, HALF_UP: a percentage share of an amount, in cents. */
  function Share(amount: real, rate: real): (r: real)
    ensures IsCents(r)
    ensures Abs(r - amount * rate) <= 0.005
  {
    Round2(amount * rate)
  }

  /** Two successive shares, the second taken from what the first leaves: both lie in range. */
  lemma ShareTwice(a: real, rate1: real, rate2: real)
    requires a >= 0.0 && IsCents(a) && 0.0 <= rate1 <= 1.0 && rate2 >= 0.0
    ensures 0.0 <= Share(a, rate1) <= a
    ensures Share(a - Share(a, rate1), rate2) >= 0.0
  {
    var first := Share(a, rate1);
    assert 0.0 <= first <= a by { Round2Share(a, rate1); }
    var rest := a - first;
    var q := rest * rate2;
    assert 0.0 <= q by { ProductNonNegative(rest, rate2); }
    assert Share(rest, rate2) >= 0.0 by { Round2NonNegative(q); }
  }

  /** amount × rate with every digit kept, as BigDecimal.multiply does. */
  function Portion(amount: real, rate: real): (r: real)
    ensures rate == 0.0 ==> r == 0.0
    ensures rate == 1.0 ==> r == amount
  {
    amount * rate
  }

  /** Two portions whose rates make up the whole add up to the amount. */
  lemma PortionsMakeWhole(amount: real, rate1: real, rate2: real)
    requires rate1 + rate2 == 1.0
    ensures Portion(amount, rate1) + Portion(amount, rate2) == amount
  {
    assert amount * rate1 + amount * rate2 == amount * (rate1 + rate2);
  }

  lemma CentsClosed(x: real, y: real)
    requires IsCents(x) && IsCents(y)
    ensures IsCents(x + y) && IsCents(x - y) && IsCents(-x)
  {
    var a, b := (x * 100.0).Floor, (y * 100.0).Floor;
    assert (x + y) * 100.0 == (a + b) as real;
    assert (x - y) * 100.0 == (a - b) as real;
    assert (-x) * 100.0 == (-a) as real;
    assert ((a + b) as real).Floor == a + b;
    assert ((a - b) as real).Floor == a - b;
    assert ((-a) as real).Floor == -a;
  }

  /** n copies of a added up. */
  function Times(n: nat, a: real): real {
    if n == 0 then 0.0 else Times(n - 1, a) + a
  }

  lemma {:induction false} TimesIsProduct(n: nat, a: real)
    ensures Times(n, a) == n as real * a
  {
    if n > 0 {
      TimesIsProduct(n - 1, a);
      assert n as real * a == (n - 1) as real * a + a;
    }
  }
}
