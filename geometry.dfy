/**
 * Exact vector arithmetic over the reals, standing in for VRageMath's
 * Vector3/Vector3D, and the six cardinal directions of Base6Directions.
 * Lengths are never taken: every distance comparison of the script is
 * stated on squared distances, which order points the same way.
 */
module Geometry {

  datatype Vec3 = Vec3(x: real, y: real, z: real)

  const Zero: Vec3 := Vec3(0.0, 0.0, 0.0)

  function Add(a: Vec3, b: Vec3): Vec3 {
    Vec3(a.x + b.x, a.y + b.y, a.z + b.z)
  }

  function Sub(a: Vec3, b: Vec3): Vec3 {
    Vec3(a.x - b.x, a.y - b.y, a.z - b.z)
  }

  function Scale(a: Vec3, k: real): Vec3 {
    Vec3(a.x * k, a.y * k, a.z * k)
  }

  function Dot(a: Vec3, b: Vec3): real {
    a.x * b.x + a.y * b.y + a.z * b.z
  }

  /** The square of Vector3D.Distance(a, b): the sum of the squared differences along the three axes. */
  function SqDist(a: Vec3, b: Vec3): (d: real)
    ensures d >= 0.0
    ensures a == b ==> d == 0.0
  {
    var dx, dy, dz := a.x - b.x, a.y - b.y, a.z - b.z;
    assert dx * dx >= 0.0 && dy * dy >= 0.0 && dz * dz >= 0.0;
    dx * dx + dy * dy + dz * dz
  }

  /** No point is strictly closer to b than b itself. */
  lemma NothingCloserThanSelf(a: Vec3, b: Vec3)
    ensures !(SqDist(a, b) < SqDist(b, b))
  {
    SqDistSelf(b);
    SqDistNonNegative(a, b);
  }

  lemma SqDistSelf(b: Vec3)
    ensures SqDist(b, b) == 0.0
  {
  }

  lemma SqDistNonNegative(a: Vec3, b: Vec3)
    ensures SqDist(a, b) >= 0.0
  {
  }

  /** `Distance(a, b) < r` for a radius r >= 0, without a square root. */
  predicate WithinRadius(a: Vec3, b: Vec3, r: real)
    requires r >= 0.0
  {
    SqDist(a, b) < r * r
  }

  /** Two successive moves along one axis add up to a single move. */
  lemma AddScaledTwice(p: Vec3, u: Vec3, j: real, k: real)
    ensures Add(Add(p, Scale(u, j)), Scale(u, k)) == Add(p, Scale(u, j + k))
  {
    assert u.x * j + u.x * k == u.x * (j + k);
    assert u.y * j + u.y * k == u.y * (j + k);
    assert u.z * j + u.z * k == u.z * (j + k);
  }

  lemma AddScaledZero(p: Vec3, u: Vec3)
    ensures Add(p, Scale(u, 0.0)) == p
  {
  }

  lemma ScaleScale(u: Vec3, j: real, k: real)
    ensures Scale(Scale(u, j), k) == Scale(u, j * k)
  {
    assert u.x * j * k == u.x * (j * k);
    assert u.y * j * k == u.y * (j * k);
    assert u.z * j * k == u.z * (j * k);
  }

  /**
   * v added to itself n times (subtracted -n times when n < 0): the
   * vector Scale(v, n), written without a product, so that a proof about
   * a whole layer stack can stay in linear arithmetic.
   */
  function Times(v: Vec3, n: int): Vec3
    decreases if n < 0 then -n else n
  {
    if n == 0 then Zero
    else if n > 0 then Add(Times(v, n - 1), v)
    else Sub(Times(v, n + 1), v)
  }

  lemma {:induction false} TimesIsScale(v: Vec3, n: int)
    ensures Times(v, n) == Scale(v, n as real)
    decreases if n < 0 then -n else n
  {
    if n > 0 {
      TimesIsScale(v, n - 1);
      ScaleOneMore(v, (n - 1) as real);
    } else if n < 0 {
      TimesIsScale(v, n + 1);
      ScaleOneLess(v, (n + 1) as real);
    }
  }

  /** One fewer copy of v is v subtracted once more. */
  lemma TimesPred(v: Vec3, n: int)
    ensures Times(v, n - 1) == Sub(Times(v, n), v)
  {
    TimesIsScale(v, n - 1);
    TimesIsScale(v, n);
    ScaleOneLess(v, n as real);
    assert (n - 1) as real == n as real - 1.0;
  }

  /** Taking u * m off one term of a sum is adding u * -m to the sum. */
  lemma SubScaledStep(o: Vec3, d: Vec3, f: Vec3, u: Vec3, m: real)
    ensures Add(Add(o, Sub(d, Scale(u, m))), f) == Add(Add(Add(o, d), f), Scale(u, -m))
  {
    assert u.x * -m == -(u.x * m) && u.y * -m == -(u.y * m) && u.z * -m == -(u.z * m);
  }

  /** A step of at least 0.5 along a unit axis leaves the 0.5 radius, measured from either end. */
  lemma StepLeavesRadius(p: Vec3, u: Vec3, k: real)
    requires Dot(u, u) == 1.0
    requires k * k >= 0.25
    ensures !WithinRadius(p, Add(p, Scale(u, k)), 0.5)
    ensures !WithinRadius(Add(p, Scale(u, k)), p, 0.5)
  {
    SqDistAlongUnit(p, u, k);
    SqDistSymmetric(p, Add(p, Scale(u, k)));
  }

  /** Two non-negative reals with equal squares are equal. */
  lemma SquaresEqual(a: real, b: real)
    requires a >= 0.0 && b >= 0.0 && a * a == b * b
    ensures a == b
  {
    if a + b != 0.0 {
      assert (a - b) * (a + b) == 0.0;
      assert a - b == (a - b) * (a + b) / (a + b);
    }
  }

  /** Squared distance does not depend on the order of its points. */
  lemma SqDistSymmetric(a: Vec3, b: Vec3)
    ensures SqDist(a, b) == SqDist(b, a)
  {
    assert (a.x - b.x) * (a.x - b.x) == (b.x - a.x) * (b.x - a.x);
    assert (a.y - b.y) * (a.y - b.y) == (b.y - a.y) * (b.y - a.y);
    assert (a.z - b.z) * (a.z - b.z) == (b.z - a.z) * (b.z - a.z);
  }

  lemma ScaleOneMore(v: Vec3, k: real)
    ensures Add(Scale(v, k), v) == Scale(v, k + 1.0)
  {
    assert v.x * k + v.x == v.x * (k + 1.0);
    assert v.y * k + v.y == v.y * (k + 1.0);
    assert v.z * k + v.z == v.z * (k + 1.0);
  }

  lemma ScaleOneLess(v: Vec3, k: real)
    ensures Sub(Scale(v, k), v) == Scale(v, k - 1.0)
  {
    assert v.x * k - v.x == v.x * (k - 1.0);
    assert v.y * k - v.y == v.y * (k - 1.0);
    assert v.z * k - v.z == v.z * (k - 1.0);
  }

  /** No steps and no offset leave a point where it is. */
  lemma ZeroStride(o: Vec3, s: Vec3, offsetDir: Vec3)
    ensures Add(Add(o, Scale(s, 0.0)), Scale(offsetDir, 0.0)) == o
  {
  }

  /** n steps of length len / n along d cover len along d. */
  lemma FullStride(o: Vec3, d: Vec3, len: real, n: real, offsetDir: Vec3)
    requires n > 0.0
    ensures Add(Add(o, Scale(Scale(d, len / n), n)), Scale(offsetDir, 0.0)) == Add(o, Scale(d, len))
  {
    ScaleScale(d, len / n, n);
    assert len / n * n == len;
  }

  /** Points i and i + 1 steps along s (with a common offset) are exactly s apart. */
  lemma StepDifference(o: Vec3, s: Vec3, offset: Vec3, i: real)
    ensures Sub(Add(Add(o, Scale(s, i + 1.0)), offset), Add(Add(o, Scale(s, i)), offset)) == s
  {
    assert s.x * (i + 1.0) - s.x * i == s.x;
    assert s.y * (i + 1.0) - s.y * i == s.y;
    assert s.z * (i + 1.0) - s.z * i == s.z;
  }

  /** The squared length of a step of size k along a unit axis is k squared. */
  lemma SqDistAlongUnit(p: Vec3, u: Vec3, k: real)
    requires Dot(u, u) == 1.0
    ensures SqDist(p, Add(p, Scale(u, k))) == k * k
  {
    var q := Add(p, Scale(u, k));
    assert p.x - q.x == -(u.x * k) && p.y - q.y == -(u.y * k) && p.z - q.z == -(u.z * k);
    calc {
      SqDist(p, q);
      (u.x * k) * (u.x * k) + (u.y * k) * (u.y * k) + (u.z * k) * (u.z * k);
      (u.x * u.x + u.y * u.y + u.z * u.z) * (k * k);
      k * k;
    }
  }

  /** Base6Directions.Direction, in its declaration order. */
  datatype Direction = Forward | Backward | Left | Right | Up | Down

  /** Base6Directions.GetOppositeDirection. */
  function Opposite(d: Direction): (o: Direction)
    ensures o != d
  {
    match d
    case Forward => Backward
    case Backward => Forward
    case Left => Right
    case Right => Left
    case Up => Down
    case Down => Up
  }

  lemma OppositeInvolution(d: Direction)
    ensures Opposite(Opposite(d)) == d
  {
  }
}
