/**
 * Points, colours and the interpolation and placement formulas that every
 * population of the scene shares.
 */
module Geometry {
  import opened Numerics
  import opened Config

  datatype Vec3 = Vec3(x: real, y: real, z: real)

  datatype Rgb = Rgb(r: real, g: real, b: real)

  /** Squared distance from the origin. */
  function Norm2(v: Vec3): (n: real)
    ensures n >= 0.0
  {
    v.x * v.x + v.y * v.y + v.z * v.z
  }

  /** Squared distance from the tree's vertical axis (the y axis). */
  function Horizontal2(v: Vec3): (n: real)
    ensures n >= 0.0
  {
    v.x * v.x + v.z * v.z
  }

  /** One component of three.js Vector3.lerp / lerpVectors: a + (b - a) * alpha. */
  function Lerp(a: real, b: real, alpha: real): (r: real)
    ensures alpha == 0.0 ==> r == a
    ensures alpha == 1.0 ==> r == b
  {
    a + (b - a) * alpha
  }

  /** three.js Vector3.lerpVectors(v1, v2, alpha) (and v1.lerp(v2, alpha)). */
  function LerpVectors(v1: Vec3, v2: Vec3, alpha: real): (v: Vec3)
    ensures alpha == 0.0 ==> v == v1
    ensures alpha == 1.0 ==> v == v2
  {
    Vec3(Lerp(v1.x, v2.x, alpha), Lerp(v1.y, v2.y, alpha), Lerp(v1.z, v2.z, alpha))
  }

  /** GLSL mix(a, b, t) = a * (1 - t) + b * t; in exact arithmetic it is three.js's lerp. */
  function Mix(a: real, b: real, t: real): (r: real)
    ensures r == Lerp(a, b, t)
  {
    a * (1.0 - t) + b * t
  }

  /** GLSL mix on vec3. */
  function MixVectors(v1: Vec3, v2: Vec3, t: real): (v: Vec3)
    ensures v == LerpVectors(v1, v2, t)
  {
    Vec3(Mix(v1.x, v2.x, t), Mix(v1.y, v2.y, t), Mix(v1.z, v2.z, t))
  }

  /** v lies on the closed segment between a and b, whichever of them is larger. */
  predicate Between(v: real, a: real, b: real)
  {
    (a <= b ==> a <= v <= b) && (b <= a ==> b <= v <= a)
  }

  /** For a blend factor in [0, 1] the interpolated value lies between the two end points. */
  lemma LerpBetween(a: real, b: real, alpha: real)
    requires 0.0 <= alpha <= 1.0
    ensures Between(Lerp(a, b, alpha), a, b)
  {
    var d := b - a;
    MulNonNegative(Abs(d), alpha);
    MulNonNegative(Abs(d), 1.0 - alpha);
  }

  /** The two Math.random() draws that choose a direction: theta, then phi. */
  datatype SphereDraw = SphereDraw(theta: Unit, phi: Unit)

  /**
   * The chaos-point formula shared by all populations: theta = u * PI * 2,
   * phi = acos(2u - 1), and the spherical-to-Cartesian conversion at radius r.
   */
  function SpherePoint(m: MathLib, r: real, d: SphereDraw): Vec3
  {
    var theta := d.theta * PI * 2.0;
    var phi := Acos(m, 2.0 * d.phi - 1.0);
    Vec3(r * Sin(m, phi) * Cos(m, theta), r * Sin(m, phi) * Sin(m, theta), r * Cos(m, phi))
  }

  /** If (a, b) is on the unit circle then (k * a, k * b) is on the circle of radius |k|. */
  lemma ScaledPythagoras(k: real, a: real, b: real)
    requires a * a + b * b == 1.0
    ensures (k * a) * (k * a) + (k * b) * (k * b) == k * k
  {
    assert (k * a) * (k * a) == (k * k) * (a * a);
    assert (k * b) * (k * b) == (k * k) * (b * b);
    assert (k * k) * (a * a) + (k * k) * (b * b) == (k * k) * (a * a + b * b);
  }

  /** Spherical coordinates built from two points (s, c) and (a, b) of the unit circle lie at distance |r|. */
  lemma SphericalIdentity(r: real, s: real, c: real, a: real, b: real)
    requires s * s + c * c == 1.0 && a * a + b * b == 1.0
    ensures (r * s * a) * (r * s * a) + (r * s * b) * (r * s * b) + (r * c) * (r * c) == r * r
  {
    ScaledPythagoras(r * s, a, b);
    ScaledPythagoras(r, s, c);
  }

  /** Whatever the draws, the chaos point lies on the sphere of radius |r| about the origin. */
  lemma SpherePointOnSphere(m: MathLib, r: real, d: SphereDraw)
    requires TrigLaws(m)
    ensures Norm2(SpherePoint(m, r, d)) == r * r
  {
    var theta := d.theta * PI * 2.0;
    var phi := Acos(m, 2.0 * d.phi - 1.0);
    SphericalIdentity(r, Sin(m, phi), Cos(m, phi), Cos(m, theta), Sin(m, theta));
  }

  /** A point at distance rDist from the axis, at angle theta, at height h. */
  function RingPoint(m: MathLib, rDist: real, theta: real, h: real): Vec3
  {
    Vec3(rDist * Cos(m, theta), h, rDist * Sin(m, theta))
  }

  /** A ring point lies at distance |rDist| from the tree's axis, at height h. */
  lemma RingPointOnCircle(m: MathLib, rDist: real, theta: real, h: real)
    requires TrigLaws(m)
    ensures RingPoint(m, rDist, theta, h).y == h
    ensures Horizontal2(RingPoint(m, rDist, theta, h)) == rDist * rDist
  {
    var c, s := Cos(m, theta), Sin(m, theta);
    assert c * c + s * s == 1.0;
    ScaledPythagoras(rDist, c, s);
  }

  /**
   * Height normalised so that the tree's base (y = -H/2) is 0 and its apex
   * (y = H/2) is 1, for H = TREE_HEIGHT.  Here and in the other formulas
   * that multiply or divide by a configuration constant, the constant's value
   * is written as a literal so that the arithmetic stays linear for the solver.
   */
  function NormHeight(h: real): (n: real)
    ensures n == (h + TREE_HEIGHT / 2.0) / TREE_HEIGHT
  {
    (h + 9.0) / 18.0
  }

  /** The radius of the tree's cone at height h: R = TREE_RADIUS_BOTTOM at the base, shrinking linearly to 0 at the apex. */
  function ConeRadius(h: real): (r: real)
    ensures h == -TREE_HEIGHT / 2.0 ==> r == TREE_RADIUS_BOTTOM
    ensures h == TREE_HEIGHT / 2.0 ==> r == 0.0
    ensures h < TREE_HEIGHT / 2.0 <==> r > 0.0
    ensures -TREE_HEIGHT / 2.0 <= h ==> r <= TREE_RADIUS_BOTTOM
  {
    7.5 * (1.0 - NormHeight(h))
  }
}
