/**
 * The fixed training set of the perceptron, its threshold, the activation
 * `getDiff` and the per-point classification rule used by `train`.
 * Float arithmetic is modelled by exact reals.
 */
module Dataset {

  /** A training example `(first, second)`, here `(x, y)`. */
  datatype Point = Point(x: real, y: real)

  /** The boundary `threshold = 4f`; it is never reassigned. */
  const Threshold: real := 4.0

  /** The tolerance band for points lying on the boundary (`0.03f`). */
  const Tolerance: real := 0.03

  /** The four training points, in the order `train` visits them. */
  const Points: seq<Point> := [Point(0.0, 6.0), Point(1.0, 5.0), Point(3.0, 3.0), Point(2.0, 4.0)]

  /** `n = points.size`. */
  const N: nat := |Points|

  function Abs(r: real): (a: real)
    ensures 0.0 <= a && (a == r || a == -r)
  {
    if r < 0.0 then -r else r
  }

  /** The linear activation `getDiff`: x * w1 + y * w2. */
  function Diff(p: Point, w1: real, w2: real): real
  {
    p.x * w1 + p.y * w2
  }

  /** The activation is linear in the weights: additive and homogeneous. */
  lemma DiffIsLinear(p: Point, w1: real, w2: real, v1: real, v2: real, c: real)
    ensures Diff(p, w1 + v1, w2 + v2) == Diff(p, w1, w2) + Diff(p, v1, v2)
    ensures Diff(p, c * w1, c * w2) == c * Diff(p, w1, w2)
  {
  }

  /**
   * True when `train` updates the weights on `p`: a point on the
   * boundary row needs its activation within the tolerance band, a point
   * below must not be above the threshold, a point above must not be below.
   */
  predicate NeedsUpdate(p: Point, w1: real, w2: real)
  {
    var diff := Diff(p, w1, w2);
    if p.y == Threshold then Abs(diff - Threshold) > Tolerance
    else if p.y < Threshold then diff > Threshold
    else diff < Threshold
  }

  /**
   * The classification rule without the absolute value: a point on the
   * boundary row needs an update exactly when its activation lies outside
   * the band [threshold - 0.03, threshold + 0.03]; a point below needs one
   * exactly when it is above the threshold, a point above exactly when it
   * is below.
   */
  lemma NeedsUpdateBand(p: Point, w1: real, w2: real)
    ensures p.y == Threshold ==>
              (NeedsUpdate(p, w1, w2)
               <==> Diff(p, w1, w2) < Threshold - Tolerance || Threshold + Tolerance < Diff(p, w1, w2))
    ensures p.y < Threshold ==> (NeedsUpdate(p, w1, w2) <==> Diff(p, w1, w2) > Threshold)
    ensures p.y > Threshold ==> (NeedsUpdate(p, w1, w2) <==> Diff(p, w1, w2) < Threshold)
  {
  }

  /** A pair of weights. */
  datatype Weights = Weights(w1: real, w2: real)

  /** The weights moved by error `d` along `p`: `w += d * coordinate * rate`. */
  function Nudge(p: Point, w1: real, w2: real, d: real, rate: real): Weights
  {
    Weights(w1 + d * p.x * rate, w2 + d * p.y * rate)
  }

  /**
   * The weights after the delta-rule update on `p`, with error
   * `d = threshold - diff`. The update scales the point's error by
   * `1 - rate * |p|^2`: afterwards the activation on `p` is off the
   * threshold by the old error times that factor.
   */
  function Updated(p: Point, w1: real, w2: real, rate: real): (w: Weights)
    ensures Diff(p, w.w1, w.w2) - Threshold
              == (Diff(p, w1, w2) - Threshold) * (1.0 - rate * (p.x * p.x + p.y * p.y))
  {
    var d := Threshold - Diff(p, w1, w2);
    assert p.x * (w1 + d * p.x * rate) + p.y * (w2 + d * p.y * rate)
        == Diff(p, w1, w2) + d * rate * (p.x * p.x + p.y * p.y);
    Nudge(p, w1, w2, d, rate)
  }

  /**
   * When `0 < rate * |p|^2 < 2` an update strictly shrinks the error on the
   * point it was made for; when `rate * |p|^2 > 2` it strictly grows it.
   */
  lemma UpdateShrinksOrGrowsError(p: Point, w1: real, w2: real, rate: real)
    requires Diff(p, w1, w2) != Threshold
    ensures var w := Updated(p, w1, w2, rate);
            var k := rate * (p.x * p.x + p.y * p.y);
            (0.0 < k < 2.0 ==> Abs(Diff(p, w.w1, w.w2) - Threshold) < Abs(Diff(p, w1, w2) - Threshold))
            && (k > 2.0 ==> Abs(Diff(p, w.w1, w.w2) - Threshold) > Abs(Diff(p, w1, w2) - Threshold))
  {
    var w := Updated(p, w1, w2, rate);
    var k := rate * (p.x * p.x + p.y * p.y);
    var e := Diff(p, w1, w2) - Threshold;
    assert Diff(p, w.w1, w.w2) - Threshold == e * (1.0 - k);
    ScaledError(e, k);
  }

  /** A non-zero error times `1 - k` shrinks for `0 < k < 2` and grows for `k > 2`. */
  lemma ScaledError(e: real, k: real)
    requires e != 0.0
    ensures 0.0 < k < 2.0 ==> Abs(e * (1.0 - k)) < Abs(e)
    ensures k > 2.0 ==> Abs(e * (1.0 - k)) > Abs(e)
  {
    var a := Abs(e);
    var s := if e > 0.0 then 1.0 else -1.0;
    assert e == s * a;
    // e * (1 - k) == s * (a - a * k), so only the sign-free part matters.
    assert e * (1.0 - k) == s * (a - a * k);
    assert Abs(s * (a - a * k)) == Abs(a - a * k);
    if 0.0 < k < 2.0 {
      MulPositive(a, k);
      MulPositive(a, 2.0 - k);
      assert a * (2.0 - k) == 2.0 * a - a * k;
    }
    if k > 2.0 {
      MulPositive(a, k - 2.0);
      assert a * (k - 2.0) == a * k - 2.0 * a;
    }
  }

  lemma MulPositive(a: real, b: real)
    requires 0.0 < a && 0.0 < b
    ensures 0.0 < a * b
  {
  }
}
