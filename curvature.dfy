/** `find_kappa`: the discrete curvature at p2 of the polyline p1, p2, p3 — the
    turning angle between the incoming segment v1 = p2 - p1 and the outgoing
    segment v2 = p3 - p2, divided by the length of v1. Only x and y take part.
    The numeric primitives numpy supplies (`np.dot`, the Euclidean norm
    `la.norm` and `np.arccos` on [-1, 1]) are parameters, so every property of the pipeline
    holds whatever they compute; the lemmas below that need them to behave say
    so with `DotVanishes`, `NormDefinite`, `NormEuclidean` and `IsArccos`. */
module Curvature {
  import opened Float64
  import opened Msgs

  /** The real-valued primitives numpy supplies. */
  datatype FloatOps = FloatOps(dot: (Vec2, Vec2) -> real, norm: Vec2 -> real, arccos: real -> real)

  datatype Vec2 = Vec2(x: real, y: real)

  const Zero2 := Vec2(0.0, 0.0)

  function XY(p: PoseStamped): Vec2
  {
    Vec2(p.pose.position.x, p.pose.position.y)
  }

  function Sub(a: Vec2, b: Vec2): Vec2
  {
    Vec2(a.x - b.x, a.y - b.y)
  }

  function Scale(k: real, v: Vec2): Vec2
  {
    Vec2(k * v.x, k * v.y)
  }

  /** The dot product with the zero vector is zero. */
  ghost predicate DotVanishes(ops: FloatOps)
  {
    forall v :: ops.dot(Zero2, v) == 0.0 && ops.dot(v, Zero2) == 0.0
  }

  /** `norm` is non-negative and zero exactly at the zero vector. */
  ghost predicate NormDefinite(ops: FloatOps)
  {
    forall v :: 0.0 <= ops.norm(v) && (ops.norm(v) == 0.0 <==> v == Zero2)
  }

  /** `dot` and `norm` are the Euclidean ones: the norm is positively
      homogeneous, its square is the dot product of a vector with itself, and
      the dot product scales with both arguments. */
  ghost predicate NormEuclidean(ops: FloatOps)
  {
    (forall v :: ops.norm(v) * ops.norm(v) == ops.dot(v, v)) &&
    (forall k, v :: 0.0 <= k ==> ops.norm(Scale(k, v)) == k * ops.norm(v)) &&
    (forall u, w, v :: ops.dot(Scale(u, v), Scale(w, v)) == (u * w) * ops.dot(v, v))
  }

  /** `arccos` maps [-1, 1] to non-negative angles and arccos(1) = 0. */
  ghost predicate IsArccos(ops: FloatOps)
  {
    ops.arccos(1.0) == 0.0 &&
    forall x :: -1.0 <= x <= 1.0 ==> 0.0 <= ops.arccos(x)
  }

  /** `find_kappa(p1, p2, p3)`. */
  function FindKappa(ops: FloatOps, p1: PoseStamped, p2: PoseStamped, p3: PoseStamped): Float
  {
    var v1 := Sub(XY(p2), XY(p1));
    var v2 := Sub(XY(p3), XY(p2));
    TurnRate(ops.arccos, ops.dot(v1, v2), ops.norm(v1), ops.norm(v2))
  }

  /** The last three steps of `find_kappa` on the already computed dot product and norms:
      `arccos(clip(dot / (n1 * n2), -1, 1)) / n1`. */
  function TurnRate(arccos: real -> real, dot: real, n1: real, n2: real): Float
  {
    var innerProd := DivReal(dot, n1 * n2);
    var ang := ArcCos(arccos, Clip(innerProd, -1.0, 1.0));
    Div(ang, n1)
  }

  lemma ProductPositive(a: real, b: real)
    requires a > 0.0 && b > 0.0
    ensures a * b > 0.0
  {
  }

  /** Coincident consecutive points make the ratio 0/0, and NaN flows through
      clip, arccos and the final division: the curvature is NaN. */
  lemma DegenerateIsNaN(ops: FloatOps, p1: PoseStamped, p2: PoseStamped, p3: PoseStamped)
    requires DotVanishes(ops) && NormDefinite(ops)
    requires XY(p1) == XY(p2) || XY(p2) == XY(p3)
    ensures FindKappa(ops, p1, p2, p3) == NaN
  {
    var v1 := Sub(XY(p2), XY(p1));
    var v2 := Sub(XY(p3), XY(p2));
    if v1 == Zero2 {
      assert ops.norm(v1) == 0.0;
      assert ops.norm(v1) * ops.norm(v2) == 0.0;
    } else {
      assert v2 == Zero2;
      assert ops.norm(v2) == 0.0;
      assert ops.norm(v1) * ops.norm(v2) == 0.0;
    }
    assert ops.dot(v1, v2) == 0.0;
    assert DivReal(ops.dot(v1, v2), ops.norm(v1) * ops.norm(v2)) == NaN;
  }

  /** Clamping to [-1, 1], the finite branch of `np.clip`. */
  function Clamp1(c: real): real
  {
    if c < -1.0 then -1.0 else if c > 1.0 then 1.0 else c
  }

  /** With both lengths positive nothing is undefined: the result is the
      finite clipped angle over the incoming length. */
  lemma TurnRateFinite(arccos: real -> real, dot: real, n1: real, n2: real)
    requires n1 > 0.0 && n2 > 0.0
    ensures n1 * n2 > 0.0
    ensures TurnRate(arccos, dot, n1, n2) == Fin(arccos(Clamp1(dot / (n1 * n2))) / n1)
  {
    ProductPositive(n1, n2);
    assert Clip(DivReal(dot, n1 * n2), -1.0, 1.0) == Fin(Clamp1(dot / (n1 * n2)));
  }

  /** Away from coincident points the curvature is finite and equals
      arccos(clip(v1.v2 / (|v1| |v2|), -1, 1)) / |v1|, the turning angle over the
      incoming segment length. */
  lemma NonDegenerateIsAngleOverLength(ops: FloatOps, p1: PoseStamped, p2: PoseStamped, p3: PoseStamped)
    requires NormDefinite(ops)
    requires XY(p1) != XY(p2) && XY(p2) != XY(p3)
    ensures ops.norm(Sub(XY(p2), XY(p1))) > 0.0 && ops.norm(Sub(XY(p3), XY(p2))) > 0.0
    ensures var v1 := Sub(XY(p2), XY(p1));
            var v2 := Sub(XY(p3), XY(p2));
            FindKappa(ops, p1, p2, p3) ==
            Fin(ops.arccos(Clamp1(ops.dot(v1, v2) / (ops.norm(v1) * ops.norm(v2)))) / ops.norm(v1))
  {
    var v1 := Sub(XY(p2), XY(p1));
    var v2 := Sub(XY(p3), XY(p2));
    assert v1 != Zero2 && v2 != Zero2;
    TurnRateFinite(ops.arccos, ops.dot(v1, v2), ops.norm(v1), ops.norm(v2));
  }

  lemma QuotientNonNegative(a: real, b: real)
    requires a >= 0.0 && b > 0.0
    ensures a / b >= 0.0
  {
  }

  /** The curvature is never negative: it is NaN at coincident points and a
      non-negative angle over a positive length everywhere else. */
  lemma KappaNonNegative(ops: FloatOps, p1: PoseStamped, p2: PoseStamped, p3: PoseStamped)
    requires DotVanishes(ops) && NormDefinite(ops) && IsArccos(ops)
    ensures FindKappa(ops, p1, p2, p3) == NaN || (FindKappa(ops, p1, p2, p3).Fin? && FindKappa(ops, p1, p2, p3).v >= 0.0)
  {
    if XY(p1) == XY(p2) || XY(p2) == XY(p3) {
      DegenerateIsNaN(ops, p1, p2, p3);
    } else {
      NonDegenerateIsAngleOverLength(ops, p1, p2, p3);
      var v1 := Sub(XY(p2), XY(p1));
      var v2 := Sub(XY(p3), XY(p2));
      var c := Clamp1(ops.dot(v1, v2) / (ops.norm(v1) * ops.norm(v2)));
      assert ops.arccos(c) >= 0.0;
      QuotientNonNegative(ops.arccos(c), ops.norm(v1));
    }
  }

  lemma RatioOne(n1: real, n2: real, dot: real, n: real, u: real, w: real)
    requires n > 0.0 && u > 0.0 && w > 0.0
    requires n1 == u * n && n2 == w * n && dot == (u * w) * (n * n)
    ensures n1 * n2 > 0.0 && dot / (n1 * n2) == 1.0
  {
    ProductPositive(u, n);
    ProductPositive(w, n);
    ProductPositive(n1, n2);
    assert n1 * n2 == (u * n) * (w * n);
    assert (u * n) * (w * n) == (u * w) * (n * n);
  }

  /** A straight, forward-moving triple (both segments positive multiples of
      one direction) does not turn: its curvature is 0. */
  lemma StraightIsZero(ops: FloatOps, p1: PoseStamped, p2: PoseStamped, p3: PoseStamped,
                                          d: Vec2, u: real, w: real)
    requires NormDefinite(ops) && NormEuclidean(ops) && IsArccos(ops)
    requires d != Zero2 && u > 0.0 && w > 0.0
    requires Sub(XY(p2), XY(p1)) == Scale(u, d) && Sub(XY(p3), XY(p2)) == Scale(w, d)
    ensures FindKappa(ops, p1, p2, p3) == Fin(0.0)
  {
    var n := ops.norm(d);
    assert n > 0.0 && n * n == ops.dot(d, d);
    var n1, n2 := ops.norm(Scale(u, d)), ops.norm(Scale(w, d));
    assert n1 == u * n && n2 == w * n;
    assert ops.dot(Scale(u, d), Scale(w, d)) == (u * w) * ops.dot(d, d);
    RatioOne(n1, n2, ops.dot(Scale(u, d), Scale(w, d)), n, u, w);
    ProductPositive(u, n);
    ProductPositive(w, n);
    TurnRateFinite(ops.arccos, ops.dot(Scale(u, d), Scale(w, d)), n1, n2);
  }

  /** A right-angle turn (v1 perpendicular to v2) has curvature arccos(0) / |v1|,
      the quarter turn divided by the incoming segment length. */
  lemma RightAngle(ops: FloatOps, p1: PoseStamped, p2: PoseStamped, p3: PoseStamped)
    requires NormDefinite(ops)
    requires XY(p1) != XY(p2) && XY(p2) != XY(p3)
    requires ops.dot(Sub(XY(p2), XY(p1)), Sub(XY(p3), XY(p2))) == 0.0
    ensures ops.norm(Sub(XY(p2), XY(p1))) > 0.0
    ensures FindKappa(ops, p1, p2, p3) == Fin(ops.arccos(0.0) / ops.norm(Sub(XY(p2), XY(p1))))
  {
    NonDegenerateIsAngleOverLength(ops, p1, p2, p3);
    var v1 := Sub(XY(p2), XY(p1));
    var v2 := Sub(XY(p3), XY(p2));
    assert ops.dot(v1, v2) / (ops.norm(v1) * ops.norm(v2)) == 0.0;
  }
}
