/**
 * The teddy bear (components/Bear.tsx): it flies from a chaos point to the
 * foot of the tree, wobbles while the tree is still forming, and pops in
 * to one and a half times its size.
 */
module Bear {
  import opened Numerics
  import opened Geometry
  import opened Config
  import opened Easing

  /** The chaos point: a point of the sphere of radius CHAOS_RADIUS about the origin. */
  function BearStart(m: MathLib, d: SphereDraw): Vec3
  {
    SpherePoint(m, CHAOS_RADIUS, d)
  }

  /** The end point: beside the tree, 1.5 above its base. */
  function BearEnd(): Vec3
  {
    Vec3(4.0, -TREE_HEIGHT / 2.0 + 1.5, 4.0)
  }

  /** The wobble stops once progress reaches 0.9. */
  const WOBBLE_CUTOFF: real := 0.9

  /** The angle added to the x rotation: sin(elapsed * 5) * 0.1 * (1 - t). */
  function WobbleX(m: MathLib, t: real, elapsed: real): real
  {
    (Sin(m, elapsed * 5.0) * 0.1) * (1.0 - t)
  }

  /** The angle added to the z rotation: cos(elapsed * 5) * 0.1 * (1 - t). */
  function WobbleZ(m: MathLib, t: real, elapsed: real): real
  {
    (Cos(m, elapsed * 5.0) * 0.1) * (1.0 - t)
  }

  /** The wobble is at most 0.1 * (1 - t) on each axis: it dies down as the bear settles. */
  lemma WobbleBounded(m: MathLib, t: real, elapsed: real)
    requires TrigLaws(m)
    requires t < WOBBLE_CUTOFF
    ensures Abs(WobbleX(m, t, elapsed)) <= 0.1 * (1.0 - t)
    ensures Abs(WobbleZ(m, t, elapsed)) <= 0.1 * (1.0 - t)
  {
    var k := 0.1 * (1.0 - t);
    var s, c := Sin(m, elapsed * 5.0), Cos(m, elapsed * 5.0);
    assert WobbleX(m, t, elapsed) == s * k;
    assert WobbleZ(m, t, elapsed) == c * k;
    ScaledUnitBound(s, k);
    ScaledUnitBound(c, k);
  }

  /** A factor in [-1, 1] times a non-negative k has magnitude at most k. */
  lemma ScaledUnitBound(s: real, k: real)
    requires -1.0 <= s <= 1.0 && 0.0 <= k
    ensures Abs(s * k) <= k
  {
    MulMonotone(s, 1.0, k);
    MulMonotone(-1.0, s, k);
    assert -k <= s * k <= k;
  }

  /** The bear's group: where it flies between, and its position, rotation and scale. */
  class BearGroup {
    const startPos: Vec3
    const endPos: Vec3
    var position: Vec3
    var rotation: Vec3
    var scale: real

    /** The placement is drawn once; the group starts with three.js's defaults. */
    constructor (m: MathLib, d: SphereDraw)
      ensures startPos == BearStart(m, d) && endPos == BearEnd()
      ensures position == Vec3(0.0, 0.0, 0.0) && rotation == Vec3(0.0, 0.0, 0.0) && scale == 1.0
    {
      startPos := BearStart(m, d);
      endPos := BearEnd();
      position := Vec3(0.0, 0.0, 0.0);
      rotation := Vec3(0.0, 0.0, 0.0);
      scale := 1.0;
    }

    /**
     * One frame.  `facing` is the rotation that lookAt(0, -TREE_HEIGHT / 2, 0)
     * gives the group at its new position; below the cutoff the wobble is
     * added to its x and z angles.
     */
    method Frame(m: MathLib, progress: real, elapsed: real, facing: Vec3)
      modifies this
      ensures position == LerpVectors(startPos, endPos, Ease(progress))
      ensures progress < WOBBLE_CUTOFF ==>
        rotation == Vec3(facing.x + WobbleX(m, progress, elapsed), facing.y, facing.z + WobbleZ(m, progress, elapsed))
      ensures WOBBLE_CUTOFF <= progress ==> rotation == facing
      ensures scale == Ease(progress) * 1.5
      ensures progress == 0.0 ==> position == startPos && scale == 0.0
      ensures progress == 1.0 ==> position == endPos && scale == 1.5
      ensures 0.0 <= progress <= 1.0 ==> 0.0 <= scale <= 1.5
    {
      var ease := Ease(progress);
      position := LerpVectors(startPos, endPos, ease);
      rotation := facing;
      if progress < 0.9 {
        rotation := rotation.(x := rotation.x + WobbleX(m, progress, elapsed));
        rotation := rotation.(z := rotation.z + WobbleZ(m, progress, elapsed));
      }
      scale := ease * 1.5;
    }
  }

  /** When the bear lands, its start point lies on the chaos sphere and its end point 7.5 below the tip. */
  lemma BearPlacement(m: MathLib, d: SphereDraw)
    requires TrigLaws(m)
    ensures Norm2(BearStart(m, d)) == CHAOS_RADIUS * CHAOS_RADIUS
    ensures BearEnd() == Vec3(4.0, -7.5, 4.0)
  {
    SpherePointOnSphere(m, CHAOS_RADIUS, d);
  }
}
