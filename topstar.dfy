/**
 * The star on the tree's tip (components/TopStar.tsx): the five-pointed
 * outline it is extruded from, its twinkling material and light, and the
 * per-frame flight from a chaos point to the tip.
 */
module TopStar {
  import opened Numerics
  import opened Geometry
  import opened Config
  import opened Easing

  // ----- outline -----

  /** The number of points of the star. */
  const STAR_POINTS: nat := 5
  const OUTER_RADIUS: real := 1.8
  const INNER_RADIUS: real := 0.5
  /** How far above the tree's tip (TREE_HEIGHT / 2) the star's centre sits. */
  const TIP_OFFSET: real := 1.25

  /** One command of the THREE.Shape path. */
  datatype PathCommand = MoveTo(x: real, y: real) | LineTo(x: real, y: real) | ClosePath

  /** Outline vertex i alternates between the outer radius (even i) and the inner radius (odd i). */
  function VertexRadius(i: nat): real
  {
    if i % 2 == 0 then OUTER_RADIUS else INNER_RADIUS
  }

  /** The angle of vertex i: i tenths of a full turn, offset by a quarter turn so that vertex 0 points up. */
  function VertexAngle(i: nat): real
  {
    (i as real / 10.0) * PI * 2.0 + PI / 2.0
  }

  /** The command the outline loop issues for vertex i: a move to the first vertex, a line to the others. */
  function VertexCommand(m: MathLib, i: nat): PathCommand
  {
    var l := VertexRadius(i);
    var a := VertexAngle(i);
    if i == 0 then MoveTo(Cos(m, a) * l, Sin(m, a) * l) else LineTo(Cos(m, a) * l, Sin(m, a) * l)
  }

  /**
   * The outline loop: one command per vertex for the 2 * STAR_POINTS
   * vertices, then the path is closed.
   */
  method StarOutline(m: MathLib) returns (path: seq<PathCommand>)
    ensures |path| == 2 * STAR_POINTS + 1
    ensures forall i :: 0 <= i < 2 * STAR_POINTS ==> path[i] == VertexCommand(m, i)
    ensures path[2 * STAR_POINTS] == ClosePath
  {
    path := [];
    var i := 0;
    while i < STAR_POINTS * 2
      invariant 0 <= i <= STAR_POINTS * 2
      invariant |path| == i
      invariant forall j :: 0 <= j < i ==> path[j] == VertexCommand(m, j)
    {
      var l := if i % 2 == 0 then OUTER_RADIUS else INNER_RADIUS;
      var a := (i as real / 10.0) * PI * 2.0 + PI / 2.0;
      var x := Cos(m, a) * l;
      var y := Sin(m, a) * l;
      if i == 0 {
        path := path + [MoveTo(x, y)];
      } else {
        path := path + [LineTo(x, y)];
      }
      i := i + 1;
    }
    path := path + [ClosePath];
  }

  /**
   * The first command moves to vertex 0, straight up (angle PI / 2) at the outer
   * radius; consecutive vertices are a tenth of a turn apart, and the radius
   * alternates between outer and inner.
   */
  lemma OutlineShape(i: nat)
    ensures VertexAngle(0) == PI / 2.0 && VertexRadius(0) == OUTER_RADIUS
    ensures VertexAngle(i + 1) - VertexAngle(i) == PI / 5.0
    ensures VertexRadius(i) == OUTER_RADIUS <==> VertexRadius(i + 1) == INNER_RADIUS
  {
    var t := i as real / 10.0;
    assert (i + 1) as real / 10.0 == t + 0.1;
    assert (t + 0.1) * PI * 2.0 == t * PI * 2.0 + 0.1 * PI * 2.0;
  }

  /** Each vertex lies on the circle of its radius about the star's centre. */
  lemma VertexOnCircle(m: MathLib, i: nat)
    requires TrigLaws(m)
    ensures var c := VertexCommand(m, i);
      !c.ClosePath? && c.x * c.x + c.y * c.y == VertexRadius(i) * VertexRadius(i)
  {
    var l, a := VertexRadius(i), VertexAngle(i);
    var co, si := Cos(m, a), Sin(m, a);
    assert co * co + si * si == 1.0;
    ScaledPythagoras(l, co, si);
    assert co * l == l * co && si * l == l * si;
  }

  // ----- twinkle -----

  /** The sharp flashes max(0, sin(t * 8 + 1))^8. */
  function StarSparkle(m: MathLib, t: real): (s: real)
    ensures TrigLaws(m) ==> 0.0 <= s <= 1.0
  {
    var flash := Sin(m, t * 8.0 + 1.0);
    PowNUnit(Max(0.0, flash), 8);
    PowN(Max(0.0, flash), 8)
  }

  /** The twinkle intensity 1 + sparkle * 4. */
  function TwinkleIntensity(m: MathLib, t: real): (k: real)
    ensures TrigLaws(m) ==> 1.0 <= k <= 5.0
  {
    1.0 + StarSparkle(m, t) * 4.0
  }

  /** The material's emissive intensity 0.5 + intensity. */
  function EmissiveIntensity(m: MathLib, t: real): (e: real)
    ensures TrigLaws(m) ==> 1.5 <= e <= 5.5
  {
    0.5 + TwinkleIntensity(m, t)
  }

  /** The point light's intensity 2 + intensity * 1.5. */
  function LightIntensity(m: MathLib, t: real): (l: real)
    ensures TrigLaws(m) ==> 3.5 <= l <= 9.5
  {
    2.0 + TwinkleIntensity(m, t) * 1.5
  }

  /** The light follows the material: both are affine in the same intensity. */
  lemma LightTracksEmissive(m: MathLib, t: real)
    ensures LightIntensity(m, t) == 1.25 + 1.5 * EmissiveIntensity(m, t)
  {
  }

  /** Between flashes (sine not positive) the intensity rests at 1; at a flash peak (sine 1) it reaches 5. */
  lemma TwinkleExtremes(m: MathLib, t: real)
    ensures Sin(m, t * 8.0 + 1.0) <= 0.0 ==> TwinkleIntensity(m, t) == 1.0
    ensures Sin(m, t * 8.0 + 1.0) == 1.0 ==> TwinkleIntensity(m, t) == 5.0
  {
    PowNOneZero(8);
  }

  /** The star's material and light, whose intensities the frame callback rewrites. */
  class StarLights {
    var emissiveIntensity: real
    var lightIntensity: real

    /** The material starts with emissive intensity 2; the light with three.js's default intensity 1. */
    constructor ()
      ensures emissiveIntensity == 2.0 && lightIntensity == 1.0
    {
      emissiveIntensity := 2.0;
      lightIntensity := 1.0;
    }

    /** One frame at clock time t. */
    method Twinkle(m: MathLib, t: real)
      modifies this
      ensures emissiveIntensity == EmissiveIntensity(m, t)
      ensures lightIntensity == LightIntensity(m, t)
      ensures TrigLaws(m) ==> 1.5 <= emissiveIntensity <= 5.5 && 3.5 <= lightIntensity <= 9.5
    {
      var sparkle := PowN(Max(0.0, Sin(m, t * 8.0 + 1.0)), 8);
      var intensity := 1.0 + sparkle * 4.0;
      emissiveIntensity := 0.5 + intensity;
      lightIntensity := 2.0 + intensity * 1.5;
    }
  }

  // ----- placement and flight -----

  /** The chaos point: a point of the sphere of radius CHAOS_RADIUS, raised by 10. */
  function StarStart(m: MathLib, d: SphereDraw): Vec3
  {
    var p := SpherePoint(m, CHAOS_RADIUS, d);
    Vec3(p.x, p.y + 10.0, p.z)
  }

  /** The end point: on the tree's axis, TIP_OFFSET above its tip. */
  function StarEnd(): Vec3
  {
    Vec3(0.0, TREE_HEIGHT / 2.0 + TIP_OFFSET, 0.0)
  }

  /** The start point is at distance CHAOS_RADIUS from (0, 10, 0), not from the origin; the end point is 10.25 high. */
  lemma StarPlacement(m: MathLib, d: SphereDraw)
    requires TrigLaws(m)
    ensures var s := StarStart(m, d);
      Norm2(Vec3(s.x, s.y - 10.0, s.z)) == CHAOS_RADIUS * CHAOS_RADIUS
    ensures StarEnd() == Vec3(0.0, 10.25, 0.0)
  {
    var s := StarStart(m, d);
    assert Vec3(s.x, s.y - 10.0, s.z) == SpherePoint(m, CHAOS_RADIUS, d);
    SpherePointOnSphere(m, CHAOS_RADIUS, d);
  }

  /** The star's group: where it flies between, and its position, spin and scale. */
  class StarGroup {
    const startPos: Vec3
    const endPos: Vec3
    var position: Vec3
    var rotationY: real
    var scale: real

    /** The placement is drawn once; the group starts with three.js's defaults. */
    constructor (m: MathLib, d: SphereDraw)
      ensures startPos == StarStart(m, d) && endPos == StarEnd()
      ensures position == Vec3(0.0, 0.0, 0.0) && rotationY == 0.0 && scale == 1.0
    {
      startPos := StarStart(m, d);
      endPos := StarEnd();
      position := Vec3(0.0, 0.0, 0.0);
      rotationY := 0.0;
      scale := 1.0;
    }

    /**
     * One frame: the position is lerped by the eased progress, the star turns
     * at 0.4 radians per second of clock time, and its scale is the ease, so it
     * is invisible while scattered and full-size when formed.
     */
    method Animate(progress: real, elapsed: real)
      modifies this
      ensures position == LerpVectors(startPos, endPos, Ease(progress))
      ensures rotationY == elapsed * 0.4
      ensures scale == Ease(progress)
      ensures progress == 0.0 ==> position == startPos && scale == 0.0
      ensures progress == 1.0 ==> position == endPos && scale == 1.0
      ensures 0.0 <= progress <= 1.0 ==> 0.0 <= scale <= 1.0
    {
      var ease := Ease(progress);
      position := LerpVectors(startPos, endPos, ease);
      rotationY := elapsed * 0.4;
      scale := ease;
    }
  }
}
