/** Plane geometry used by the contour tracer: points, projection of a point
    along a direction, and the one-step angle normaliser of touchscan.py.
    Angles are reals; the trigonometric functions are supplied by the caller
    (a `Trig` value), so nothing here depends on their actual values. */
module Geometry {

  type Positive = r: real | 0.0 < r witness 1.0

  /** The circle constant. Only its positivity is used. */
  const PI: Positive

  /** A position in the work plane (work offset already subtracted). */
  datatype Point = Point(x: real, y: real)

  /** The trigonometric functions the tracer calls, left uninterpreted. */
  datatype Trig = Trig(cos: real -> real, sin: real -> real, atan2: (real, real) -> real) {

    /** atan2 returns a principal angle in (-PI, PI]. */
    ghost predicate Valid() {
      forall y, x :: -(PI as real) < atan2(y, x) <= PI
    }

    /** cos and sin lie on the unit circle. */
    ghost predicate Pythagorean() {
      forall a :: cos(a) * cos(a) + sin(a) * sin(a) == 1.0
    }
  }

  /** Squared Euclidean distance. */
  function SqDist(p: Point, q: Point): real {
    (p.x - q.x) * (p.x - q.x) + (p.y - q.y) * (p.y - q.y)
  }

  /** The point `len` away from `pos` in direction `angle`. */
  function TargetPoint(trig: Trig, pos: Point, len: real, angle: real): (p: Point)
    ensures len == 0.0 ==> p == pos
  {
    Point(pos.x + len * trig.cos(angle), pos.y + len * trig.sin(angle))
  }

  /** Whether an angle is normalised into [0, 2*PI). */
  predicate Normal(a: real) {
    0.0 <= a < 2.0 * PI
  }

  /** Adds two angles, then corrects the sum once by a full turn: subtract
      2*PI when the sum reached 2*PI, add 2*PI when it is below zero. */
  function AddAngle(a: real, b: real): (r: real)
    ensures Normal(r) <==> -2.0 * PI <= a + b < 4.0 * PI
  {
    var s := a + b;
    var s' := if s >= 2.0 * PI then s - 2.0 * PI else s;
    if s' < 0.0 then s' + 2.0 * PI else s'
  }

  /** The sum is changed by at most one full turn, and left alone exactly
      when it is already normal. */
  lemma AddAngleCongruent(a: real, b: real)
    ensures var r := AddAngle(a, b);
      (r == a + b || r == a + b - 2.0 * PI || r == a + b + 2.0 * PI) &&
      (r == a + b <==> Normal(a + b))
  {
  }

  /** The angle after `k` successive advances by `step`. */
  function Sweep(a: real, step: real, k: nat): real {
    if k == 0 then a else AddAngle(Sweep(a, step, k - 1), step)
  }

  /** The total angle covered by `k` advances by `step`, before wrapping.
      It equals `k * step` (`TurnedIsProduct`); it is written as a sum only
      so that the induction in `SweepWithinTurn` stays linear for the
      solver. */
  function Turned(step: real, k: nat): (t: real)
    ensures 0.0 <= step ==> 0.0 <= t
  {
    if k == 0 then 0.0 else Turned(step, k - 1) + step
  }

  lemma {:induction false} TurnedIsProduct(step: real, k: nat)
    ensures Turned(step, k) == k as real * step
  {
    if k > 0 {
      TurnedIsProduct(step, k - 1);
      assert (k - 1) as real * step + step == k as real * step;
    }
  }

  /** Within one full turn, `k` advances by a positive `step` from a normal
      angle give the plain sum, wrapped once if it reached 2*PI. */
  lemma {:induction false} SweepWithinTurn(a: real, step: real, k: nat)
    requires Normal(a) && 0.0 < step && Turned(step, k) <= 2.0 * PI
    ensures var s := a + Turned(step, k);
      Sweep(a, step, k) == if s >= 2.0 * PI then s - 2.0 * PI else s
  {
    if k > 0 {
      SweepWithinTurn(a, step, k - 1);
      AdvanceOnce(a, Turned(step, k - 1), step);
    }
  }

  /** One more advance after `done` radians of sweep wraps at most once. */
  lemma AdvanceOnce(a: real, done: real, step: real)
    requires Normal(a) && 0.0 <= done && 0.0 < step && done + step <= 2.0 * PI
    ensures var s := a + done;
      var s' := a + done + step;
      AddAngle(if s >= 2.0 * PI then s - 2.0 * PI else s, step)
        == if s' >= 2.0 * PI then s' - 2.0 * PI else s'
  {
  }

  /** `n` advances by 2*PI/n bring a normal angle back to itself. */
  lemma SweepFullTurn(a: real, n: nat)
    requires Normal(a) && n >= 1
    ensures Sweep(a, 2.0 * PI / n as real, n) == a
  {
    var step := 2.0 * PI / n as real;
    TurnedIsProduct(step, n);
    assert n as real * step == 2.0 * PI;
    SweepWithinTurn(a, step, n);
  }

  /** For a non-negative root `s` of `d` and a non-negative bound `k`,
      comparing the root with `k` is comparing `d` with `k*k`. */
  lemma SqrtComparison(d: real, s: real, k: real)
    requires 0.0 <= s && s * s == d && 0.0 <= k
    ensures s < k <==> d < k * k
  {
    var ss, sk, kk := s * s, s * k, k * k;
    if s < k {
      assert ss <= sk && sk < kk;
    } else {
      assert kk <= sk && sk <= ss;
    }
  }

  /** With cos and sin on the unit circle, a projected point lies exactly
      `len` from its origin. */
  lemma ProjectionDistance(trig: Trig, pos: Point, len: real, angle: real)
    requires trig.Pythagorean()
    ensures SqDist(TargetPoint(trig, pos, len, angle), pos) == len * len
  {
  }
}
