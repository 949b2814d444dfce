/** Real-number helpers that reproduce the JavaScript `Math` functions the simulator uses. */
module Arith {

  /** `Math.max` on two finite numbers. */
  function Max(a: real, b: real): (r: real)
    ensures r >= a && r >= b
    ensures r == a || r == b
  {
    if a >= b then a else b
  }

  /** `Math.min` on two finite numbers. */
  function Min(a: real, b: real): (r: real)
    ensures r <= a && r <= b
    ensures r == a || r == b
  {
    if a <= b then a else b
  }

  /** `Math.ceil`: the least integer not below `x`. */
  function Ceil(x: real): (n: int)
    ensures n as real >= x && (n - 1) as real < x
  {
    -((-x).Floor)
  }

  /** Truncation toward zero, as JavaScript's `%` uses for its quotient. */
  function Trunc(x: real): (n: int)
    ensures 0.0 <= x ==> n == x.Floor
    ensures x < 0.0 ==> n == Ceil(x)
  {
    if x >= 0.0 then x.Floor else -((-x).Floor)
  }

  /** JavaScript's `a % b`: the remainder keeps the sign of `a`. */
  function JsMod(a: real, b: real): real
    requires b != 0.0
  {
    a - b * (Trunc(a / b) as real)
  }

  /** `Math.round`: halves round toward positive infinity. */
  function Round(x: real): (n: int)
    ensures x - 0.5 < n as real <= x + 0.5
  {
    (x + 0.5).Floor
  }

  const Billion: real := 1000000000.0

  /** `Math.round(x * 1e9) / 1e9`: `x` rounded to nine decimals. */
  function Round9(x: real): (r: real)
    ensures x - 0.5 / Billion < r <= x + 0.5 / Billion
  {
    RoundScaled(x, Billion);
    (Round(x * Billion) as real) / Billion
  }

  /** Rounding at scale `s` stays within half a unit of the last place. */
  lemma RoundScaled(x: real, s: real)
    requires s > 0.0
    ensures x - 0.5 / s < (Round(x * s) as real) / s <= x + 0.5 / s
  {
    var n := Round(x * s) as real;
    assert x * s - 0.5 < n <= x * s + 0.5;
    DivideBoth(x * s - 0.5, n, s);
    DivideBoth(n, x * s + 0.5, s);
    assert (x * s - 0.5) / s == (x * s) / s - 0.5 / s;
    assert (x * s + 0.5) / s == (x * s) / s + 0.5 / s;
    assert (x * s) / s == x;
  }

  /** Dividing by a positive number keeps an inequality. */
  lemma DivideBoth(a: real, b: real, s: real)
    requires s > 0.0 && a <= b
    ensures a / s <= b / s
    ensures a < b ==> a / s < b / s
  {
    var d := b / s - a / s;
    assert d * s == b - a;
  }

  /** For a non-negative dividend and a positive divisor, `%` is the Euclidean remainder. */
  lemma JsModNonNegative(a: real, b: real)
    requires a >= 0.0 && b > 0.0
    ensures JsMod(a, b) == a - b * ((a / b).Floor as real)
    ensures 0.0 <= JsMod(a, b) < b
  {
    var q := a / b;
    var f := q.Floor as real;
    assert q >= 0.0 by { DivideBoth(0.0, a, b); }
    assert Trunc(q) == q.Floor;
    var frac := q - f;
    assert 0.0 <= frac < 1.0;
    var m := JsMod(a, b);
    assert m == b * frac by {
      assert a == b * q;
      assert a - b * f == b * (q - f);
    }
    MulPositive(b, frac, 1.0);
  }

  /** Multiplying by a positive number keeps an inequality. */
  lemma MulPositive(b: real, x: real, y: real)
    requires b > 0.0 && 0.0 <= x < y
    ensures 0.0 <= b * x < b * y
    ensures y == 1.0 ==> b * x < b
  {
    assert b * y - b * x == b * (y - x);
  }

  /** Multiplying by a non-negative number keeps a weak inequality. */
  lemma MulMonotone(k: real, x: real, y: real)
    requires k >= 0.0 && x <= y
    ensures k * x <= k * y
  {
    assert k * y - k * x == k * (y - x);
    MulNonNegative(k, y - x);
  }

  /** The product of two non-negative numbers is non-negative. */
  lemma MulNonNegative(a: real, b: real)
    requires a >= 0.0 && b >= 0.0
    ensures a * b >= 0.0
  {
    if a > 0.0 && b > 0.0 {
      MulPositive(a, 0.0, b);
    }
  }

  /** A non-negative amount shared out `m` ways: each share is non-negative, and `g <= m` shares make at most the whole. */
  lemma ShareBounds(d: real, m: real, g: real)
    requires m > 0.0 && d >= 0.0
    ensures d / m >= 0.0
    ensures 0.0 <= g <= m ==> g * (d / m) <= d
  {
    var c := d / m;
    assert c * m == d;
    if 0.0 <= g <= m {
      MulMonotone(c, g, m);
      assert c * g == g * c;
    }
  }

  /** Taking one tick off the time left takes exactly one tick off its count in whole ticks. */
  lemma FloorStepDown(a: real, t: real)
    requires t > 0.0
    ensures ((a - t) / t).Floor == (a / t).Floor - 1
  {
    var q := a / t;
    assert q * t == a;
    assert (q - 1.0) * t == a - t;
    DivUnique(q - 1.0, a - t, t);
    assert (q - 1.0).Floor == q.Floor - 1;
  }

  /** The quotient `y / t` is the only number that gives `y` when multiplied by `t`. */
  lemma DivUnique(x: real, y: real, t: real)
    requires t != 0.0 && x * t == y
    ensures y / t == x
  {
    var z := y / t;
    assert z * t == y;
    assert (z - x) * t == z * t - x * t;
    if z != x {
      if z > x {
        if t > 0.0 { MulPositive(t, 0.0, z - x); } else { MulPositive(-t, 0.0, z - x); }
      } else {
        if t > 0.0 { MulPositive(t, 0.0, x - z); } else { MulPositive(-t, 0.0, x - z); }
      }
      assert false;
    }
  }
}
