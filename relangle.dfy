/** calc_rel_angle_crossn: the wrap-safe relative angle between two polarisation
    angles. Each angle t becomes the vector (-sin t, cos t, 0); the relative angle
    is atan2 of the norm of the cross product against the dot product. The
    single-pair branch hands atan2 the raw dot product, the batch branch its
    absolute value. sin, cos, sqrt and atan2 are uninterpreted (`Numerics`); the
    cross, dot and absolute-value arithmetic is exact over the reals. */
module RelativeAngle {
  import opened Common

  datatype Vec3 = Vec3(x: real, y: real, z: real)

  function Cross(a: Vec3, b: Vec3): Vec3 {
    Vec3(a.y * b.z - a.z * b.y, a.z * b.x - a.x * b.z, a.x * b.y - a.y * b.x)
  }

  function Dot(a: Vec3, b: Vec3): real {
    a.x * b.x + a.y * b.y + a.z * b.z
  }

  function Abs(r: real): real {
    if r < 0.0 then -r else r
  }

  /** The direction vector of a polarisation angle, lifted to 3D with z = 0. */
  function Direction(m: Numerics, t: real): Vec3 {
    Vec3(-m.sin(t), m.cos(t), 0.0)
  }

  /** `CdC`: the squared norm of the cross product of the two directions. */
  function CrossNormSq(m: Numerics, t1: real, t2: real): real {
    var c := Cross(Direction(m, t1), Direction(m, t2));
    Dot(c, c)
  }

  /** `vdgr`: the dot product of the two directions. */
  function DirDot(m: Numerics, t1: real, t2: real): real {
    Dot(Direction(m, t1), Direction(m, t2))
  }

  /** The single-pair branch: atan2(sqrt(CdC), vdgr). */
  function SingleAngle(m: Numerics, t1: real, t2: real): real {
    m.atan2(m.sqrt(CrossNormSq(m, t1, t2)), DirDot(m, t1, t2))
  }

  /** The batch branch, per element: atan2(sqrt(CdC), |vdgr|). */
  function BatchAngle(m: Numerics, t1: real, t2: real): real {
    m.atan2(m.sqrt(CrossNormSq(m, t1, t2)), Abs(DirDot(m, t1, t2)))
  }

  /** What calc_rel_angle_crossn does with its two inputs: the angles it returns,
      `None` when the first input is empty (neither branch runs), or the
      IndexError/ValueError numpy raises when the second input is too short
      (single branch) or of another length (batch branch, reshape). */
  datatype RelAngleResult = Angles(values: seq<real>) | NoneReturned | ShapeError

  method CalcRelAngleCrossn(m: Numerics, angle1: seq<real>, angle2: seq<real>) returns (r: RelAngleResult)
    ensures |angle1| == 0 <==> r == NoneReturned
    ensures r == ShapeError <==> (|angle1| == 1 && |angle2| == 0) || (|angle1| > 1 && |angle2| != |angle1|)
    ensures r.Angles? ==> |r.values| == |angle1| && |angle1| <= |angle2|
    ensures r.Angles? && |angle1| == 1 ==> r.values == [SingleAngle(m, angle1[0], angle2[0])]
    ensures r.Angles? && |angle1| > 1 ==>
      forall k :: 0 <= k < |angle1| ==> r.values[k] == BatchAngle(m, angle1[k], angle2[k])
  {
    var n := |angle1|;
    if n == 1 {
      if |angle2| == 0 {
        return ShapeError;
      }
      var v1, v2 := Direction(m, angle1[0]), Direction(m, angle2[0]);
      var c := Cross(v1, v2);
      var cdc := Dot(c, c);
      var vdgr := Dot(v1, v2);
      r := Angles([m.atan2(m.sqrt(cdc), vdgr)]);
    } else if n > 1 {
      if |angle2| != n {
        return ShapeError;
      }
      var v1 := seq(n, k requires 0 <= k < n => Direction(m, angle1[k]));
      var v2 := seq(n, k requires 0 <= k < n => Direction(m, angle2[k]));
      var cdc := seq(n, k requires 0 <= k < n => Dot(Cross(v1[k], v2[k]), Cross(v1[k], v2[k])));
      var vdgr: seq<real> := [];
      var i := 0;
      while i < n
        invariant 0 <= i <= n && |vdgr| == i
        invariant forall k :: 0 <= k < i ==> vdgr[k] == Dot(v1[k], v2[k])
      {
        vdgr := vdgr + [v1[i].x * v2[i].x + v1[i].y * v2[i].y + v1[i].z * v2[i].z];
        i := i + 1;
      }
      r := Angles(seq(n, k requires 0 <= k < n => m.atan2(m.sqrt(cdc[k]), Abs(vdgr[k]))));
    } else {
      r := NoneReturned;
    }
  }

  /** CdC and vdgr in closed form: CdC is the square of sin t2 cos t1 - cos t2 sin t1
      (hence never negative) and vdgr is sin t1 sin t2 + cos t1 cos t2. */
  lemma ClosedForms(m: Numerics, t1: real, t2: real)
    ensures CrossNormSq(m, t1, t2)
      == (m.sin(t2) * m.cos(t1) - m.cos(t2) * m.sin(t1)) * (m.sin(t2) * m.cos(t1) - m.cos(t2) * m.sin(t1))
    ensures CrossNormSq(m, t1, t2) >= 0.0
    ensures DirDot(m, t1, t2) == m.sin(t1) * m.sin(t2) + m.cos(t1) * m.cos(t2)
  {
    var s1, c1, s2, c2 := m.sin(t1), m.cos(t1), m.sin(t2), m.cos(t2);
    var w := s2 * c1 - c2 * s1;
    assert Cross(Direction(m, t1), Direction(m, t2)) == Vec3(0.0, 0.0, w);
  }

  /** CdC and vdgr do not depend on the order of the two angles, so neither
      branch does. */
  lemma SwapInvariant(m: Numerics, t1: real, t2: real)
    ensures CrossNormSq(m, t1, t2) == CrossNormSq(m, t2, t1)
    ensures DirDot(m, t1, t2) == DirDot(m, t2, t1)
    ensures SingleAngle(m, t1, t2) == SingleAngle(m, t2, t1)
    ensures BatchAngle(m, t1, t2) == BatchAngle(m, t2, t1)
  {
    ClosedForms(m, t1, t2);
    ClosedForms(m, t2, t1);
    var s1, c1, s2, c2 := m.sin(t1), m.cos(t1), m.sin(t2), m.cos(t2);
    assert (s2 * c1 - c2 * s1) == -(s1 * c2 - c1 * s2);
  }

  /** An angle against itself: CdC is 0 and vdgr is sin^2 + cos^2. */
  lemma SameAngle(m: Numerics, t: real)
    ensures CrossNormSq(m, t, t) == 0.0
    ensures DirDot(m, t, t) == m.sin(t) * m.sin(t) + m.cos(t) * m.cos(t)
  {
    SelfCross(m, t);
    SelfDot(m, t);
  }

  lemma SelfCross(m: Numerics, t: real)
    ensures CrossNormSq(m, t, t) == 0.0
  {
    var s, c := m.sin(t), m.cos(t);
    var d := Direction(m, t);
    assert d == Vec3(-s, c, 0.0);
    assert (-s) * c - c * (-s) == 0.0;
    assert Cross(d, d) == Vec3(0.0, 0.0, 0.0);
  }

  lemma SelfDot(m: Numerics, t: real)
    ensures DirDot(m, t, t) == m.sin(t) * m.sin(t) + m.cos(t) * m.cos(t)
  {
    var s, c := m.sin(t), m.cos(t);
    var d := Direction(m, t);
    assert d == Vec3(-s, c, 0.0);
    assert (-s) * (-s) == s * s;
  }

  /** Both branches are atan2 of sqrt(CdC) against vdgr (raw or absolute), whatever
      values CdC and vdgr take. */
  lemma AngleFromParts(m: Numerics, t1: real, t2: real, cdc: real, vdgr: real)
    requires CrossNormSq(m, t1, t2) == cdc && DirDot(m, t1, t2) == vdgr
    ensures SingleAngle(m, t1, t2) == m.atan2(m.sqrt(cdc), vdgr)
    ensures BatchAngle(m, t1, t2) == m.atan2(m.sqrt(cdc), Abs(vdgr))
  {
  }

  /** With sin^2 t + cos^2 t = 1, sqrt(0) = 0 and atan2(0, 1) = 0, both branches
      give relative angle 0 for an angle against itself. */
  lemma SelfAngleIsZero(m: Numerics, t: real)
    requires m.sin(t) * m.sin(t) + m.cos(t) * m.cos(t) == 1.0
    requires m.sqrt(0.0) == 0.0 && m.atan2(0.0, 1.0) == 0.0
    ensures SingleAngle(m, t, t) == 0.0
    ensures BatchAngle(m, t, t) == 0.0
  {
    SameAngle(m, t);
    AngleFromParts(m, t, t, 0.0, 1.0);
  }

  /** The batch branch hands atan2 two non-negative arguments whenever sqrt is
      non-negative on non-negative reals; the single branch's second argument is
      the raw, possibly negative, dot product. */
  lemma BatchArgumentsNonNegative(m: Numerics, t1: real, t2: real)
    requires forall v: real :: v >= 0.0 ==> m.sqrt(v) >= 0.0
    ensures m.sqrt(CrossNormSq(m, t1, t2)) >= 0.0 && Abs(DirDot(m, t1, t2)) >= 0.0
  {
    ClosedForms(m, t1, t2);
  }

  /** If atan2 maps the closed first quadrant into [0, halfPi] and the upper half
      plane into [0, pi], as the real arctan2 does, the batch branch lies in
      [0, halfPi] and the single branch in [0, pi]. */
  lemma AngleRanges(m: Numerics, t1: real, t2: real, halfPi: real, pi: real)
    requires forall v: real :: v >= 0.0 ==> m.sqrt(v) >= 0.0
    requires forall a: real, b: real :: a >= 0.0 && b >= 0.0 ==> 0.0 <= m.atan2(a, b) <= halfPi
    requires forall a: real, b: real :: a >= 0.0 ==> 0.0 <= m.atan2(a, b) <= pi
    ensures 0.0 <= BatchAngle(m, t1, t2) <= halfPi
    ensures 0.0 <= SingleAngle(m, t1, t2) <= pi
  {
    BatchArgumentsNonNegative(m, t1, t2);
  }

  /** The two branches agree whenever vdgr is non-negative. */
  lemma BranchesAgreeOnNonNegativeDot(m: Numerics, t1: real, t2: real)
    requires DirDot(m, t1, t2) >= 0.0
    ensures SingleAngle(m, t1, t2) == BatchAngle(m, t1, t2)
  {
  }

  /** The branches disagree on anti-parallel directions: with the real values of
      sin and cos at 0 and at pi, sqrt(0) = 0, atan2(0, -1) = pi and atan2(0, 1) = 0,
      the pair (0, pi) gives pi through the single branch and 0 through the batch
      branch. */
  lemma BranchesDisagreeOnAntiParallel(m: Numerics, pi: real)
    requires pi > 0.0
    requires m.sin(0.0) == 0.0 && m.cos(0.0) == 1.0 && m.sin(pi) == 0.0 && m.cos(pi) == -1.0
    requires m.sqrt(0.0) == 0.0 && m.atan2(0.0, -1.0) == pi && m.atan2(0.0, 1.0) == 0.0
    ensures SingleAngle(m, 0.0, pi) == pi
    ensures BatchAngle(m, 0.0, pi) == 0.0
  {
    CollinearCross(m, 0.0, pi);
    CollinearDot(m, 0.0, pi);
    AngleFromParts(m, 0.0, pi, 0.0, -1.0);
  }

  /** Directions along the y axis (sin t = 0) have a zero cross product ... */
  lemma CollinearCross(m: Numerics, t1: real, t2: real)
    requires m.sin(t1) == 0.0 && m.sin(t2) == 0.0
    ensures CrossNormSq(m, t1, t2) == 0.0
  {
    assert Cross(Direction(m, t1), Direction(m, t2)) == Vec3(0.0, 0.0, 0.0);
  }

  /** ... and a dot product equal to the product of their cosines. */
  lemma CollinearDot(m: Numerics, t1: real, t2: real)
    requires m.sin(t1) == 0.0 && m.sin(t2) == 0.0
    ensures DirDot(m, t1, t2) == m.cos(t1) * m.cos(t2)
  {
  }
}
