/**
 * The instanced ornament populations (components/Ornaments.tsx): the
 * generator that fills five index-aligned buffers once, and the per-frame
 * animator that writes one instance transform per ornament.
 */
module Ornaments {
  import opened Numerics
  import opened Geometry
  import opened Config
  import opened Easing

  /** The eleven Math.random() draws one ornament consumes, in the order the generator makes them. */
  datatype OrnamentDraw = OrnamentDraw(
    direction: SphereDraw,
    radius: Unit,
    height: Unit,
    depth: Unit,
    treeTheta: Unit,
    rotX: Unit,
    rotY: Unit,
    rotZ: Unit,
    jitter: Unit,
    color: Unit)

  /** Everything the generator fixes for one ornament. */
  datatype Placement = Placement(chaos: Vec3, target: Vec3, rotation: Vec3, scale: real, color: Rgb)

  /** The chaos radius (u * 0.5 + 0.5) * CHAOS_RADIUS (35): the chaos cloud is a thick shell. */
  function ChaosRadius(u: Unit): (r: real)
    ensures 0.5 * CHAOS_RADIUS <= r < CHAOS_RADIUS
  {
    (u * 0.5 + 0.5) * 35.0
  }

  /** The target height u * H * 0.95 - H / 2 + 0.2 (H = TREE_HEIGHT = 18): the lower 95% of the tree, raised by 0.2. */
  function TargetHeight(u: Unit): (h: real)
    ensures -TREE_HEIGHT / 2.0 + 0.2 <= h < 0.45 * TREE_HEIGHT + 0.2
  {
    u * 18.0 * 0.95 - 18.0 / 2.0 + 0.2
  }

  /** The radial bias 0.5 + sqrt(u) * 0.55, a fraction of the cone radius that may exceed 1. */
  function DepthBias(m: MathLib, u: Unit): (b: real)
    ensures RootLaws(m) ==> 0.5 <= b < 1.05
  {
    0.5 + Sqrt(m, u) * 0.55
  }

  /** Math.floor(u * n): the palette index picked by one draw. */
  function ColorIndex(u: Unit, n: nat): (k: nat)
    requires n > 0
    ensures k < n
  {
    var x := u * (n as real);
    assert x < n as real;
    x.Floor
  }

  /** Each palette index owns an interval of width 1/n of the draw: the pick is uniform. */
  lemma ColorIndexUniform(u: Unit, n: nat, k: nat)
    requires n > 0
    ensures ColorIndex(u, n) == k <==> (k as real) / (n as real) <= u < ((k + 1) as real) / (n as real)
  {
    var nr := n as real;
    var x := u * nr;
    assert ColorIndex(u, n) == k <==> (k as real) <= x < (k + 1) as real;
    DivIff(k as real, u, nr);
    DivIff((k + 1) as real, u, nr);
  }

  /** The chaos point: a direction on the sphere at the shell radius. */
  function ChaosPoint(m: MathLib, d: OrnamentDraw): Vec3
  {
    SpherePoint(m, ChaosRadius(d.radius), d.direction)
  }

  /** The target's distance from the axis: the cone radius at the target height times the radial bias. */
  function RadialDistance(m: MathLib, d: OrnamentDraw): real
  {
    ConeRadius(TargetHeight(d.height)) * DepthBias(m, d.depth)
  }

  /** The target point: a ring point at the sampled height, at the radial distance. */
  function TargetPoint(m: MathLib, d: OrnamentDraw): Vec3
  {
    RingPoint(m, RadialDistance(m, d), d.treeTheta * PI * 2.0, TargetHeight(d.height))
  }

  /** What iteration i of the generator computes from its draws. */
  function Place(m: MathLib, d: OrnamentDraw, baseScale: real, palette: seq<Rgb>): Placement
    requires |palette| > 0
  {
    Placement(
      ChaosPoint(m, d),
      TargetPoint(m, d),
      Vec3(d.rotX * PI, d.rotY * PI, d.rotZ * PI),
      baseScale * (0.6 + d.jitter * 0.8),
      palette[ColorIndex(d.color, |palette|)])
  }

  /** The chaos point lies in the shell between half the chaos radius and the chaos radius. */
  lemma ChaosInShell(m: MathLib, d: OrnamentDraw)
    requires TrigLaws(m)
    ensures (0.5 * CHAOS_RADIUS) * (0.5 * CHAOS_RADIUS) <= Norm2(ChaosPoint(m, d)) < CHAOS_RADIUS * CHAOS_RADIUS
  {
    var r := ChaosRadius(d.radius);
    SpherePointOnSphere(m, r, d.direction);
    SquareMonotone(0.5 * CHAOS_RADIUS, r);
    SquareStrictlyMonotone(r, CHAOS_RADIUS);
  }

  /** The target point sits at its sampled height, at the radial distance from the tree's axis. */
  lemma TargetOnRing(m: MathLib, d: OrnamentDraw)
    requires TrigLaws(m)
    ensures TargetPoint(m, d).y == TargetHeight(d.height)
    ensures Horizontal2(TargetPoint(m, d)) == RadialDistance(m, d) * RadialDistance(m, d)
  {
    RingPointOnCircle(m, RadialDistance(m, d), d.treeTheta * PI * 2.0, TargetHeight(d.height));
  }

  /**
   * The target height is strictly below the apex, so the cone radius there is
   * positive, and the radial distance is between half and 1.05 times that
   * radius: an ornament can stick out of the cone by up to 5%.
   */
  lemma TargetNearCone(m: MathLib, d: OrnamentDraw)
    requires RootLaws(m)
    ensures var maxR := ConeRadius(TargetHeight(d.height));
      && 0.0 < maxR
      && 0.5 * maxR <= RadialDistance(m, d) < 1.05 * maxR
  {
    var h := TargetHeight(d.height);
    ConeRadiusPositive(h);
    BiasedRadius(ConeRadius(h), DepthBias(m, d.depth), RadialDistance(m, d));
  }

  /** Below the apex the cone radius is positive. */
  lemma ConeRadiusPositive(h: real)
    requires h < 0.45 * TREE_HEIGHT + 0.2
    ensures 0.0 < ConeRadius(h)
  {
  }

  /** A radius r = maxR * b biased by b in [0.5, 1.05) lies in [0.5, 1.05) times a positive maximum. */
  lemma BiasedRadius(maxR: real, b: real, r: real)
    requires 0.0 < maxR && 0.5 <= b < 1.05 && r == maxR * b
    ensures 0.5 * maxR <= r < 1.05 * maxR
  {
    assert r - 0.5 * maxR == (b - 0.5) * maxR;
    MulNonNegative(b - 0.5, maxR);
    assert 1.05 * maxR - r == (1.05 - b) * maxR;
    MulStrictlyMonotone(0.0, 1.05 - b, maxR);
  }

  /**
   * The base rotation angles lie in [0, PI), the scale jitter keeps the scale
   * in [0.6, 1.4) times the base scale, and the colour is a palette entry.
   */
  lemma AttributesInRange(m: MathLib, d: OrnamentDraw, baseScale: real, palette: seq<Rgb>)
    requires |palette| > 0 && 0.0 < baseScale
    ensures var p := Place(m, d, baseScale, palette);
      && 0.0 <= p.rotation.x < PI && 0.0 <= p.rotation.y < PI && 0.0 <= p.rotation.z < PI
      && 0.6 * baseScale <= p.scale < 1.4 * baseScale
      && p.color in palette
  {
    AngleInRange(d.rotX);
    AngleInRange(d.rotY);
    AngleInRange(d.rotZ);
    JitterInRange(baseScale, d.jitter);
  }

  /** A draw times PI is an angle in [0, PI). */
  lemma AngleInRange(u: Unit)
    ensures 0.0 <= u * PI < PI
  {
    MulStrictlyMonotone(u, 1.0, PI);
    MulNonNegative(u, PI);
  }

  /** The scale jitter baseScale * (0.6 + u * 0.8) stays in [0.6, 1.4) times a positive base scale. */
  lemma JitterInRange(baseScale: real, u: Unit)
    requires 0.0 < baseScale
    ensures 0.6 * baseScale <= baseScale * (0.6 + u * 0.8) < 1.4 * baseScale
  {
    var s := baseScale * (0.6 + u * 0.8);
    assert s - 0.6 * baseScale == (u * 0.8) * baseScale;
    MulNonNegative(u * 0.8, baseScale);
    assert 1.4 * baseScale - s == (0.8 - u * 0.8) * baseScale;
    MulStrictlyMonotone(0.0, 0.8 - u * 0.8, baseScale);
  }

  /**
   * The generator loop: allocates the buffers and makes iteration i fill
   * entry i with the placement computed from the draws of ornament i.  The five index-aligned
   * Float32Arrays (chaos, target, rotations, scales, colours) are one array
   * of records here, entry i holding what the five buffers hold at index i.
   */
  method Generate(m: MathLib, count: nat, palette: seq<Rgb>, baseScale: real, draws: seq<OrnamentDraw>)
    returns (data: array<Placement>)
    requires |draws| == count
    requires count > 0 ==> |palette| > 0
    ensures fresh(data) && data.Length == count
    ensures forall i :: 0 <= i < count ==> data[i] == Place(m, draws[i], baseScale, palette)
  {
    data := new Placement[count](_ => Placement(Vec3(0.0, 0.0, 0.0), Vec3(0.0, 0.0, 0.0), Vec3(0.0, 0.0, 0.0), 0.0, Rgb(0.0, 0.0, 0.0)));
    var i := 0;
    while i < count
      invariant 0 <= i <= count
      invariant forall j :: 0 <= j < i ==> data[j] == Place(m, draws[j], baseScale, palette)
    {
      data[i] := Place(m, draws[i], baseScale, palette);
      i := i + 1;
    }
  }

  /** The transform setMatrixAt stores for one instance: position, Euler rotation, uniform scale. */
  datatype Transform = Transform(position: Vec3, rotation: Vec3, scale: real)

  /** The lights' sharp flash: max(0, sin(time * 5 + i * 42))^6. */
  function Sparkle(m: MathLib, time: real, i: nat): (s: real)
    ensures TrigLaws(m) ==> 0.0 <= s <= 1.0
  {
    var flash := Sin(m, time * 5.0 + (i as real) * 42.0);
    PowNUnit(Max(0.0, flash), 6);
    PowN(Max(0.0, flash), 6)
  }

  /** The blink multiplier 0.8 + sparkle * 2.5 applied to a blinking ornament's scale. */
  function BlinkFactor(m: MathLib, time: real, i: nat): (k: real)
    ensures TrigLaws(m) ==> 0.8 <= k <= 3.3
  {
    0.8 + Sparkle(m, time, i) * 2.5
  }

  /** At a flash peak (sine 1) the multiplier is at its maximum; while the sine is not positive it is 0.8. */
  lemma BlinkExtremes(m: MathLib, time: real, i: nat)
    ensures Sin(m, time * 5.0 + (i as real) * 42.0) == 1.0 ==> BlinkFactor(m, time, i) == 3.3
    ensures Sin(m, time * 5.0 + (i as real) * 42.0) <= 0.0 ==> BlinkFactor(m, time, i) == 0.8
  {
    PowNOneZero(6);
  }

  /**
   * The transform of ornament i in one frame: position lerped from chaos to
   * target by the blend factor, the x and y angles spun by time * (1 - ease) * 1.5,
   * and the scale multiplied by the blink factor when the population blinks.
   */
  function InstanceTransform(m: MathLib, chaos: Vec3, target: Vec3, rotation: Vec3, scale: real,
                             ease: real, time: real, blink: bool, i: nat): Transform
  {
    var spin := (1.0 - ease) * 1.5;
    Transform(
      LerpVectors(chaos, target, ease),
      Vec3(rotation.x + time * spin, rotation.y + time * spin, rotation.z),
      if blink then scale * BlinkFactor(m, time, i) else scale)
  }

  /**
   * A blend factor of 0 puts the ornament at its chaos point; 1 puts it at its
   * target with its base rotation (the spin has died out); in between it lies on
   * the segment between the two, coordinate by coordinate.
   */
  lemma InstancePosition(m: MathLib, chaos: Vec3, target: Vec3, rotation: Vec3, scale: real,
                         ease: real, time: real, blink: bool, i: nat)
    ensures var tr := InstanceTransform(m, chaos, target, rotation, scale, ease, time, blink, i);
      && (ease == 0.0 ==> tr.position == chaos)
      && (ease == 1.0 ==> tr.position == target && tr.rotation == rotation)
    ensures 0.0 <= ease <= 1.0 ==>
      var p := InstanceTransform(m, chaos, target, rotation, scale, ease, time, blink, i).position;
      Between(p.x, chaos.x, target.x) && Between(p.y, chaos.y, target.y) && Between(p.z, chaos.z, target.z)
  {
    if 0.0 <= ease <= 1.0 {
      LerpBetween(chaos.x, target.x, ease);
      LerpBetween(chaos.y, target.y, ease);
      LerpBetween(chaos.z, target.z, ease);
    }
  }

  /**
   * Only the x and y angles spin, both by the same amount; for a blend factor
   * in [0, 1] and time >= 0 that amount lies in [0, 1.5 * time], and the z angle
   * is always the base angle.
   */
  lemma InstanceSpin(m: MathLib, chaos: Vec3, target: Vec3, rotation: Vec3, scale: real,
                     ease: real, time: real, blink: bool, i: nat)
    requires 0.0 <= ease <= 1.0 && 0.0 <= time
    ensures var rot := InstanceTransform(m, chaos, target, rotation, scale, ease, time, blink, i).rotation;
      && rot.z == rotation.z
      && rot.x - rotation.x == rot.y - rotation.y
      && 0.0 <= rot.x - rotation.x <= 1.5 * time
  {
    var spin := (1.0 - ease) * 1.5;
    MulMonotone(0.0, spin, time);
    MulMonotone(spin, 1.5, time);
    assert time * spin == spin * time;
  }

  /**
   * Without blink the instance keeps its generated scale; with blink the
   * scale is between 0.8 and 3.3 times it, so a non-negative scale never
   * turns negative.
   */
  lemma InstanceScale(m: MathLib, chaos: Vec3, target: Vec3, rotation: Vec3, scale: real,
                      ease: real, time: real, blink: bool, i: nat)
    requires TrigLaws(m) && 0.0 <= scale
    ensures var s := InstanceTransform(m, chaos, target, rotation, scale, ease, time, blink, i).scale;
      && (!blink ==> s == scale)
      && (blink ==> 0.8 * scale <= s <= 3.3 * scale)
      && 0.0 <= s
  {
    var k := BlinkFactor(m, time, i);
    assert scale * k - 0.8 * scale == (k - 0.8) * scale;
    MulNonNegative(k - 0.8, scale);
    assert 3.3 * scale - scale * k == (3.3 - k) * scale;
    MulNonNegative(3.3 - k, scale);
  }

  /**
   * One ornament population: the generated buffers (never changed after
   * construction) and the instanced mesh's per-instance transforms and
   * colours.
   */
  class OrnamentBatch {
    const count: nat
    const weightFactor: real
    const blink: bool
    /** Entry i holds what the chaos, target, rotations, scales and colour buffers hold at index i. */
    const data: array<Placement>
    /** The mesh's instance matrices, one (position, rotation, scale) record per index. */
    const instances: array<Transform>
    /** The mesh's instance colours. */
    const instanceColors: array<Rgb>

    ghost predicate Valid()
      reads this
    {
      data.Length == count && instances.Length == count && instanceColors.Length == count
    }

    /** The transform ornament i must have in a frame with blend factor `ease` at `time`. */
    function FrameTransform(m: MathLib, ease: real, time: real, i: nat): Transform
      requires Valid() && i < count
      reads this, data
    {
      var p := data[i];
      InstanceTransform(m, p.chaos, p.target, p.rotation, p.scale, ease, time, blink, i)
    }

    /** Creating the population runs the generator once over the given draws. */
    constructor (m: MathLib, count: nat, palette: seq<Rgb>, baseScale: real, weightFactor: real,
                 blink: bool, draws: seq<OrnamentDraw>)
      requires |draws| == count
      requires count > 0 ==> |palette| > 0
      ensures Valid()
      ensures this.count == count && this.weightFactor == weightFactor && this.blink == blink
      ensures forall i :: 0 <= i < count ==> data[i] == Place(m, draws[i], baseScale, palette)
      ensures fresh(data) && fresh(instances) && fresh(instanceColors)
    {
      var generated := Generate(m, count, palette, baseScale, draws);
      data := generated;
      this.count := count;
      this.weightFactor := weightFactor;
      this.blink := blink;
      instances := new Transform[count](_ => Transform(Vec3(0.0, 0.0, 0.0), Vec3(0.0, 0.0, 0.0), 1.0));
      instanceColors := new Rgb[count](_ => Rgb(1.0, 1.0, 1.0));
    }

    /** The layout effect: copies each ornament's generated colour to its instance (setColorAt). */
    method ApplyColors()
      requires Valid()
      modifies instanceColors
      ensures forall i :: 0 <= i < count ==> instanceColors[i] == data[i].color
    {
      var i := 0;
      while i < count
        invariant 0 <= i <= count
        invariant forall j :: 0 <= j < i ==> instanceColors[j] == data[j].color
      {
        instanceColors[i] := data[i].color;
        i := i + 1;
      }
    }

    /**
     * One frame: the blend factor is computed once from the shared progress
     * and the population's weight, then every instance 0..count-1 is written
     * with its transform.
     */
    method Frame(m: MathLib, progress: real, time: real)
      requires Valid()
      modifies instances
      ensures forall i :: 0 <= i < count ==>
        instances[i] == FrameTransform(m, WeightedEase(m, progress, weightFactor), time, i)
      ensures PowLaws(m) && 0.0 < weightFactor && progress == 0.0 ==>
        forall i :: 0 <= i < count ==> instances[i].position == data[i].chaos
      ensures PowLaws(m) && 0.0 < weightFactor && progress == 1.0 ==>
        forall i :: 0 <= i < count ==>
          instances[i].position == data[i].target && instances[i].rotation == data[i].rotation
    {
      var effectiveT := Pow(m, progress, weightFactor);
      var ease := Ease(effectiveT);
      var i := 0;
      while i < count
        invariant 0 <= i <= count
        invariant forall j :: 0 <= j < i ==> instances[j] == FrameTransform(m, ease, time, j)
      {
        var p := data[i];
        instances[i] := InstanceTransform(m, p.chaos, p.target, p.rotation, p.scale, ease, time, blink, i);
        i := i + 1;
      }
    }
  }
}
