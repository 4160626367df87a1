// The exact integer counterpart of `Math.round(c / n * 100)`, used for quiz
// scores in functions/src/routes/quizzes.ts and course completion in
// functions/src/routes/progress.ts.

module Rounding {

  /** `Math.round(c / n * 100)` on exact rationals: 100c/n rounded to the
      nearest integer, halves upwards. */
  function RoundPercent(c: nat, n: nat): nat
    requires n > 0
  {
    (200 * c + n) / (2 * n)
  }

  /** r is the nearest integer to 100c/n, with halves rounded up:
      r - 1/2 <= 100c/n < r + 1/2. */
  lemma RoundPercentHalfUp(c: nat, n: nat)
    requires n > 0
    ensures var r := RoundPercent(c, n);
      2 * n * r <= 200 * c + n < 2 * n * (r + 1)
  {
    var r := RoundPercent(c, n);
    var q := 2 * n;
    assert q * r + (200 * c + n) % q == 200 * c + n;
    assert 2 * n * (r + 1) == q * r + q;
  }

  /** Multiplying by a natural number keeps an inequality. */
  lemma {:induction false} MulMono(a: nat, x: int, y: int)
    requires x <= y
    ensures a * x <= a * y
  {
    if a > 0 {
      MulMono(a - 1, x, y);
      assert a * x == (a - 1) * x + x;
      assert a * y == (a - 1) * y + y;
    }
  }

  /** A score never leaves 0..100. */
  lemma RoundPercentBounded(c: nat, n: nat)
    requires 0 < n
    ensures c <= n ==> 0 <= RoundPercent(c, n) <= 100
  {
    RoundPercentHalfUp(c, n);
    var r := RoundPercent(c, n);
    if r > 100 {
      MulMono(2 * n, 101, r);
    }
  }

  /** `a / b` is the q with b*q <= a < b*(q+1). */
  lemma DivUnique(a: int, b: nat, q: int)
    requires b > 0 && b * q <= a < b * (q + 1)
    ensures a / b == q
  {
    var d := a / b;
    assert b * d + a % b == a && 0 <= a % b < b;
    if d > q {
      MulMono(b, q + 1, d);
    } else if d < q {
      MulMono(b, d + 1, q);
    }
  }

  /** All correct scores 100 and none correct scores 0. */
  lemma RoundPercentExtremes(n: nat)
    requires n > 0
    ensures RoundPercent(n, n) == 100 && RoundPercent(0, n) == 0
  {
    DivUnique(200 * n + n, 2 * n, 100);
    DivUnique(n, 2 * n, 0);
  }

  /** 3 of 4 scores 75; 1 of 8 (12.5) rounds up to 13; 1 of 3 down to 33. */
  lemma ThreeOfFour()
    ensures RoundPercent(3, 4) == 75 && RoundPercent(1, 8) == 13 && RoundPercent(1, 3) == 33
  {
  }

  /** The progress percentage: `total > 0 ? Math.round(done / total * 100) : 0`. */
  function Percentage(done: nat, total: nat): (p: nat)
    ensures total == 0 ==> p == 0
    ensures done <= total ==> p <= 100
    ensures done == total && total > 0 ==> p == 100
  {
    if total > 0 then
      RoundPercentBounded(done, total);
      RoundPercentExtremes(total);
      RoundPercent(done, total)
    else 0
  }
}
