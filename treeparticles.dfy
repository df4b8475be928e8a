/**
 * The foliage point cloud (components/TreeParticles.tsx): the generator that
 * gives every particle a chaos point inside a ball, a target point inside the
 * tree's cone, a colour tier and a size, and the vertex and fragment shaders
 * that move and shade the points in every frame.
 */
module TreeParticles {
  import opened Numerics
  import opened Geometry
  import opened Config
  import opened Easing

  /** The eight Math.random() draws one particle consumes, in the order the generator makes them. */
  datatype ParticleDraw = ParticleDraw(
    direction: SphereDraw,
    radius: Unit,
    height: Unit,
    bias: Unit,
    treeTheta: Unit,
    tier: Unit,
    size: Unit)

  /** The three.js colours made from GOLD, EMERALD and DEEP_GREEN. */
  datatype TierColors = TierColors(gold: Rgb, emerald: Rgb, deepGreen: Rgb)

  /** The three colour strategies of the foliage. */
  datatype Tier = Gold | Emerald | DeepGreen

  /**
   * Everything the generator fixes for one particle: what slots 3i..3i+2 of
   * the chaos, target and colour buffers and slot i of the size buffer hold.
   */
  datatype Particle = Particle(chaos: Vec3, target: Vec3, color: Rgb, size: real)

  // ----- generator -----

  /** The chaos radius cbrt(u) * CHAOS_RADIUS (35): the chaos cloud fills a ball. */
  function ChaosRadius(m: MathLib, u: Unit): (r: real)
    ensures RootLaws(m) ==> 0.0 <= r < CHAOS_RADIUS
  {
    Cbrt(m, u) * 35.0
  }

  function ChaosPoint(m: MathLib, d: ParticleDraw): Vec3
  {
    SpherePoint(m, ChaosRadius(m, d.radius), d.direction)
  }

  /** The chaos point lies strictly inside the ball of radius CHAOS_RADIUS. */
  lemma ChaosInBall(m: MathLib, d: ParticleDraw)
    requires TrigLaws(m) && RootLaws(m)
    ensures Norm2(ChaosPoint(m, d)) < CHAOS_RADIUS * CHAOS_RADIUS
  {
    var r := ChaosRadius(m, d.radius);
    SpherePointOnSphere(m, r, d.direction);
    SquareMonotoneStrict(r, CHAOS_RADIUS, Norm2(ChaosPoint(m, d)));
  }

  /** r * r is strictly below c * c for 0 <= r < c; n names r * r. */
  lemma SquareMonotoneStrict(r: real, c: real, n: real)
    requires 0.0 <= r < c && n == r * r
    ensures n < c * c
  {
    SquareStrictlyMonotone(r, c);
  }

  /** The target height u * H - H / 2 (H = TREE_HEIGHT = 18): anywhere from the base up to the apex. */
  function TargetHeight(u: Unit): (h: real)
    ensures -TREE_HEIGHT / 2.0 <= h < TREE_HEIGHT / 2.0
  {
    u * 18.0 - 18.0 / 2.0
  }

  /** The volume-filling distance from the axis: pow(u, 0.3) times the cone radius at the target height. */
  function RadialDistance(m: MathLib, d: ParticleDraw): real
  {
    Pow(m, d.bias, 0.3) * ConeRadius(TargetHeight(d.height))
  }

  function TargetPoint(m: MathLib, d: ParticleDraw): Vec3
  {
    RingPoint(m, RadialDistance(m, d), d.treeTheta * PI * 2.0, TargetHeight(d.height))
  }

  /** A fraction f in [0, 1] of a positive maximum lies in [0, maxR]; r names f * maxR. */
  lemma FractionOfRadius(f: real, maxR: real, r: real)
    requires 0.0 <= f <= 1.0 && 0.0 < maxR && r == f * maxR
    ensures 0.0 <= r <= maxR
  {
    MulNonNegative(f, maxR);
    MulMonotone(f, 1.0, maxR);
  }

  /**
   * The cone radius at the target height is in (0, TREE_RADIUS_BOTTOM] and the
   * distance from the axis is at most that radius: unlike the ornaments, the
   * particles never leave the cone.
   */
  lemma TargetRadius(m: MathLib, d: ParticleDraw)
    requires PowLaws(m)
    ensures var maxR := ConeRadius(TargetHeight(d.height));
      && 0.0 < maxR <= TREE_RADIUS_BOTTOM
      && 0.0 <= RadialDistance(m, d) <= maxR
  {
    var maxR := ConeRadius(TargetHeight(d.height));
    FractionOfRadius(Pow(m, d.bias, 0.3), maxR, RadialDistance(m, d));
  }

  /** The target point is at its sampled height, and its distance from the axis is the radial distance. */
  lemma TargetOnRing(m: MathLib, d: ParticleDraw)
    requires TrigLaws(m)
    ensures TargetPoint(m, d).y == TargetHeight(d.height)
    ensures Horizontal2(TargetPoint(m, d)) == RadialDistance(m, d) * RadialDistance(m, d)
  {
    RingPointOnCircle(m, RadialDistance(m, d), d.treeTheta * PI * 2.0, TargetHeight(d.height));
  }

  /** Every target point lies inside the tree's cone: between base and apex, within the cone radius at its height. */
  lemma TargetInsideCone(m: MathLib, d: ParticleDraw)
    requires TrigLaws(m) && PowLaws(m)
    ensures var t := TargetPoint(m, d);
      && -TREE_HEIGHT / 2.0 <= t.y < TREE_HEIGHT / 2.0
      && Horizontal2(t) <= ConeRadius(t.y) * ConeRadius(t.y)
  {
    TargetOnRing(m, d);
    TargetRadius(m, d);
    SquareMonotone(RadialDistance(m, d), ConeRadius(TargetHeight(d.height)));
  }

  /** The colour strategy picked by one draw: the top 1.5% gold, the next 8.5% emerald, the rest deep green. */
  function TierOf(rand: Unit): (t: Tier)
    ensures t == Gold <==> rand > 0.985
    ensures t == Emerald <==> 0.90 < rand <= 0.985
    ensures t == DeepGreen <==> rand <= 0.90
  {
    if rand > 0.985 then Gold
    else if rand > 0.90 then Emerald
    else DeepGreen
  }

  /** The size drawn within a tier. */
  function Size(tier: Tier, u: Unit): (s: real)
    ensures tier == Gold ==> 0.4 <= s < 0.8
    ensures tier == Emerald ==> 0.1 <= s < 0.4
    ensures tier == DeepGreen ==> 0.15 <= s < 0.5
    ensures 0.0 < s
  {
    match tier
    case Gold => u * 0.4 + 0.4
    case Emerald => u * 0.3 + 0.1
    case DeepGreen => u * 0.35 + 0.15
  }

  function TierColor(colors: TierColors, tier: Tier): Rgb
  {
    match tier
    case Gold => colors.gold
    case Emerald => colors.emerald
    case DeepGreen => colors.deepGreen
  }

  /** What iteration i of the generator computes from its draws. */
  function Spawn(m: MathLib, d: ParticleDraw, colors: TierColors): Particle
  {
    var tier := TierOf(d.tier);
    Particle(ChaosPoint(m, d), TargetPoint(m, d), TierColor(colors, tier), Size(tier, d.size))
  }

  /**
   * The colour draw puts each particle in exactly one tier, and its colour and
   * size range follow that tier.
   */
  lemma SpawnTier(m: MathLib, d: ParticleDraw, colors: TierColors)
    ensures var p := Spawn(m, d, colors);
      && (d.tier > 0.985 ==> p.color == colors.gold && 0.4 <= p.size < 0.8)
      && (0.90 < d.tier <= 0.985 ==> p.color == colors.emerald && 0.1 <= p.size < 0.4)
      && (d.tier <= 0.90 ==> p.color == colors.deepGreen && 0.15 <= p.size < 0.5)
      && 0.0 < p.size
  {
    var tier := TierOf(d.tier);
    assert Size(tier, d.size) > 0.0;
  }

  /**
   * The generator loop over all PARTICLE_COUNT particles: iteration i fills
   * entry i from the draws of particle i.  The four Float32Arrays (chaos,
   * target and colour with three slots per particle, sizes with one) are one
   * array of records, entry i holding what they hold for particle i.
   */
  method Generate(m: MathLib, colors: TierColors, draws: seq<ParticleDraw>) returns (particles: array<Particle>)
    requires |draws| == PARTICLE_COUNT
    ensures fresh(particles) && particles.Length == PARTICLE_COUNT
    ensures forall i :: 0 <= i < PARTICLE_COUNT ==> particles[i] == Spawn(m, draws[i], colors)
  {
    particles := new Particle[PARTICLE_COUNT](_ => Particle(Vec3(0.0, 0.0, 0.0), Vec3(0.0, 0.0, 0.0), Rgb(0.0, 0.0, 0.0), 0.0));
    var i := 0;
    while i < PARTICLE_COUNT
      invariant 0 <= i <= PARTICLE_COUNT
      invariant forall j :: 0 <= j < i ==> particles[j] == Spawn(m, draws[j], colors)
    {
      particles[i] := Spawn(m, draws[i], colors);
      i := i + 1;
    }
  }

  // ----- vertex shader -----

  /** What the vertex shader hands on to the fragment shader, with the moved position. */
  datatype VertexOut = VertexOut(position: Vec3, color: Rgb, alpha: real)

  /** The breathing offset: x moves by sin(time * 0.5 + y * 0.2) * 0.1, then z by cos(time * 0.3 + new x) * 0.05. */
  function Wind(m: MathLib, pos: Vec3, time: real): Vec3
  {
    var x := pos.x + Sin(m, time * 0.5 + pos.y * 0.2) * 0.1;
    Vec3(x, pos.y, pos.z + Cos(m, time * 0.3 + x) * 0.05)
  }

  /** The chaos swirl: a rotation about the vertical axis by the angle time * 0.2. */
  function Swirl(m: MathLib, pos: Vec3, time: real): Vec3
  {
    var angle := time * 0.2;
    Vec3(pos.x * Cos(m, angle) - pos.z * Sin(m, angle), pos.y, pos.x * Sin(m, angle) + pos.z * Cos(m, angle))
  }

  /**
   * The vertex shader on one particle: mix chaos and target by the eased
   * progress, add the wind above progress 0.8, swirl below progress 0.3.
   */
  function ShadeVertex(m: MathLib, chaos: Vec3, target: Vec3, color: Rgb, progress: real, time: real): VertexOut
  {
    var t := Ease(progress);
    var pos := MixVectors(chaos, target, t);
    var blown := if progress > 0.8 then Wind(m, pos, time) else pos;
    var swirled := if progress < 0.3 then Swirl(m, blown, time) else blown;
    VertexOut(swirled, color, 1.0)
  }

  /** The wind leaves the height alone and moves x by at most 0.1 and z by at most 0.05. */
  lemma WindBounded(m: MathLib, pos: Vec3, time: real)
    requires TrigLaws(m)
    ensures var w := Wind(m, pos, time);
      && w.y == pos.y
      && Abs(w.x - pos.x) <= 0.1
      && Abs(w.z - pos.z) <= 0.05
  {
  }

  /** Rotating (x, z) by an angle with cos^2 + sin^2 = 1 keeps x^2 + z^2. */
  lemma RotationIdentity(x: real, z: real, c: real, s: real)
    requires c * c + s * s == 1.0
    ensures (x * c - z * s) * (x * c - z * s) + (x * s + z * c) * (x * s + z * c) == x * x + z * z
  {
    assert (x * c - z * s) * (x * c - z * s) == x * x * (c * c) - 2.0 * (x * z) * (c * s) + z * z * (s * s);
    assert (x * s + z * c) * (x * s + z * c) == x * x * (s * s) + 2.0 * (x * z) * (c * s) + z * z * (c * c);
    assert x * x * (c * c) + x * x * (s * s) == x * x * (c * c + s * s);
    assert z * z * (s * s) + z * z * (c * c) == z * z * (c * c + s * s);
  }

  /** The swirl is a rotation about the tree's axis: height and distance from the axis are kept. */
  lemma SwirlIsRotation(m: MathLib, pos: Vec3, time: real)
    requires TrigLaws(m)
    ensures Swirl(m, pos, time).y == pos.y
    ensures Horizontal2(Swirl(m, pos, time)) == Horizontal2(pos)
  {
    var angle := time * 0.2;
    RotationIdentity(pos.x, pos.z, Cos(m, angle), Sin(m, angle));
  }

  /**
   * At progress 0 the particle is at its chaos point turned about the axis by
   * the swirl: same height, same distance from the axis.
   */
  lemma VertexScattered(m: MathLib, chaos: Vec3, target: Vec3, color: Rgb, time: real)
    requires TrigLaws(m)
    ensures var p := ShadeVertex(m, chaos, target, color, 0.0, time).position;
      && p == Swirl(m, chaos, time)
      && p.y == chaos.y
      && Horizontal2(p) == Horizontal2(chaos)
  {
    SwirlIsRotation(m, chaos, time);
  }

  /**
   * At progress 1 the particle is at its target point plus the wind: on the
   * target's height, within 0.1 of it on x and 0.05 on z, but not necessarily on it.
   */
  lemma VertexFormed(m: MathLib, chaos: Vec3, target: Vec3, color: Rgb, time: real)
    requires TrigLaws(m)
    ensures var p := ShadeVertex(m, chaos, target, color, 1.0, time).position;
      && p == Wind(m, target, time)
      && p.y == target.y
      && Abs(p.x - target.x) <= 0.1
      && Abs(p.z - target.z) <= 0.05
  {
    WindBounded(m, target, time);
  }

  /**
   * For progress in [0.3, 0.8] neither wind nor swirl applies: the particle is
   * exactly the mix, coordinate by coordinate between chaos and target.
   */
  lemma VertexInTransit(m: MathLib, chaos: Vec3, target: Vec3, color: Rgb, progress: real, time: real)
    requires 0.3 <= progress <= 0.8
    ensures var p := ShadeVertex(m, chaos, target, color, progress, time).position;
      && p == MixVectors(chaos, target, Ease(progress))
      && Between(p.x, chaos.x, target.x)
      && Between(p.y, chaos.y, target.y)
      && Between(p.z, chaos.z, target.z)
  {
    var t := Ease(progress);
    LerpBetween(chaos.x, target.x, t);
    LerpBetween(chaos.y, target.y, t);
    LerpBetween(chaos.z, target.z, t);
  }

  /** The vertex shader passes the colour through and always sets the alpha to 1. */
  lemma VertexPassesColor(m: MathLib, chaos: Vec3, target: Vec3, color: Rgb, progress: real, time: real)
    ensures ShadeVertex(m, chaos, target, color, progress, time).color == color
    ensures ShadeVertex(m, chaos, target, color, progress, time).alpha == 1.0
  {
  }

  // ----- fragment shader -----

  /** The fragment shader's result: discarded, or a colour with an alpha. */
  datatype Fragment = Discarded | Shaded(color: Rgb, alpha: real)

  /** The gold sheen every fragment is mixed towards. */
  const SHEEN: Rgb := Rgb(1.0, 0.9, 0.6)

  /** GLSL mix on colours. */
  function MixRgb(a: Rgb, b: Rgb, t: real): Rgb
  {
    Rgb(Mix(a.r, b.r, t), Mix(a.g, b.g, t), Mix(a.b, b.b, t))
  }

  /** distance(gl_PointCoord, vec2(0.5)). */
  function CentreDistance(m: MathLib, px: real, py: real): real
  {
    Sqrt(m, (px - 0.5) * (px - 0.5) + (py - 0.5) * (py - 0.5))
  }

  /** The fragment sparkle sin(time * 3 + colour.r * 10) * 0.5 + 0.5. */
  function FragmentSparkle(m: MathLib, time: real, color: Rgb): (s: real)
    ensures TrigLaws(m) ==> 0.0 <= s <= 1.0
  {
    Sin(m, time * 3.0 + color.r * 10.0) * 0.5 + 0.5
  }

  /** The glow pow(1 - r * 2, 2). */
  function Glow(r: real): real
  {
    PowN(1.0 - r * 2.0, 2)
  }

  /** The fragment shader at point coordinate (px, py) of a particle. */
  function ShadeFragment(m: MathLib, px: real, py: real, vColor: Rgb, vAlpha: real, time: real): Fragment
  {
    var r := CentreDistance(m, px, py);
    if r > 0.5 then Discarded
    else
      var sparkle := FragmentSparkle(m, time, vColor);
      Shaded(MixRgb(vColor, SHEEN, sparkle * 0.2), vAlpha * Glow(r))
  }

  /** A fragment is discarded exactly when it lies outside the disc of radius 0.5 about the point's centre. */
  lemma DiscardOutsideDisc(m: MathLib, px: real, py: real, vColor: Rgb, vAlpha: real, time: real)
    requires RootLaws(m)
    ensures ShadeFragment(m, px, py, vColor, vAlpha, time).Discarded? <==>
      (px - 0.5) * (px - 0.5) + (py - 0.5) * (py - 0.5) > 0.25
  {
    var d := (px - 0.5) * (px - 0.5) + (py - 0.5) * (py - 0.5);
    var r := CentreDistance(m, px, py);
    assert 0.0 <= d;
    assert r * r == d && 0.0 <= r;
    if r > 0.5 {
      SquareStrictlyMonotone(0.5, r);
    } else {
      SquareMonotone(r, 0.5);
    }
  }

  /** On the kept disc, r in [0, 0.5], the glow is in [0, 1]: 1 at the centre and 0 on the rim. */
  lemma GlowRange(r: real)
    requires 0.0 <= r <= 0.5
    ensures 0.0 <= Glow(r) <= 1.0
    ensures r == 0.0 ==> Glow(r) == 1.0
    ensures r == 0.5 ==> Glow(r) == 0.0
  {
    PowNUnit(1.0 - r * 2.0, 2);
    assert PowN(1.0, 2) == 1.0;
    assert PowN(0.0, 2) == 0.0;
  }

  /** The glow fades strictly from the centre of the point to its rim. */
  lemma GlowFades(r1: real, r2: real)
    requires 0.0 <= r1 < r2 <= 0.5
    ensures Glow(r2) < Glow(r1)
  {
    PowNStrictlyIncreasing(1.0 - r2 * 2.0, 1.0 - r1 * 2.0, 2);
  }

  /** The squared distance from the centre is non-negative, so the distance is its true square root. */
  lemma CentreDistanceRoot(m: MathLib, px: real, py: real)
    requires RootLaws(m)
    ensures var r := CentreDistance(m, px, py);
      0.0 <= r && r * r == (px - 0.5) * (px - 0.5) + (py - 0.5) * (py - 0.5)
  {
    var a, b := px - 0.5, py - 0.5;
    assert 0.0 <= a * a && 0.0 <= b * b;
  }

  /** An alpha scaled by a factor g in [0, 1] stays between 0 and the alpha; s names a * g. */
  lemma ScaledAlpha(a: real, g: real, s: real)
    requires 0.0 <= a && 0.0 <= g <= 1.0 && s == a * g
    ensures 0.0 <= s <= a
  {
    MulNonNegative(a, g);
    MulMonotone(g, 1.0, a);
    assert a * g == g * a;
  }

  /** A kept fragment's alpha is between 0 and the vertex alpha. */
  lemma KeptAlpha(m: MathLib, px: real, py: real, vColor: Rgb, vAlpha: real, time: real)
    requires RootLaws(m) && 0.0 <= vAlpha
    ensures var f := ShadeFragment(m, px, py, vColor, vAlpha, time);
      f.Shaded? ==> 0.0 <= f.alpha <= vAlpha
  {
    var r := CentreDistance(m, px, py);
    CentreDistanceRoot(m, px, py);
    if r <= 0.5 {
      GlowRange(r);
      ScaledAlpha(vAlpha, Glow(r), vAlpha * Glow(r));
    }
  }

  /**
   * A kept fragment's colour lies, channel by channel, between the particle's
   * colour and the sheen: the mix factor is the sparkle times 0.2, in [0, 0.2].
   */
  lemma KeptTint(m: MathLib, px: real, py: real, vColor: Rgb, vAlpha: real, time: real)
    requires TrigLaws(m)
    ensures var f := ShadeFragment(m, px, py, vColor, vAlpha, time);
      f.Shaded? ==>
        && f.color == MixRgb(vColor, SHEEN, FragmentSparkle(m, time, vColor) * 0.2)
        && 0.0 <= FragmentSparkle(m, time, vColor) * 0.2 <= 0.2
        && Between(f.color.r, vColor.r, SHEEN.r)
        && Between(f.color.g, vColor.g, SHEEN.g)
        && Between(f.color.b, vColor.b, SHEEN.b)
  {
    var t := FragmentSparkle(m, time, vColor) * 0.2;
    LerpBetween(vColor.r, SHEEN.r, t);
    LerpBetween(vColor.g, SHEEN.g, t);
    LerpBetween(vColor.b, SHEEN.b, t);
  }

  /** The fragment at the centre of the point is kept with the full vertex alpha. */
  lemma CentreFragment(m: MathLib, vColor: Rgb, vAlpha: real, time: real)
    requires RootLaws(m)
    ensures ShadeFragment(m, 0.5, 0.5, vColor, vAlpha, time) ==
      Shaded(MixRgb(vColor, SHEEN, FragmentSparkle(m, time, vColor) * 0.2), vAlpha)
  {
    assert CentreDistance(m, 0.5, 0.5) == Sqrt(m, 0.0) == 0.0;
    GlowRange(0.0);
  }

  /**
   * What a particle shows at each point coordinate: the vertex alpha is 1, so
   * a kept fragment's alpha is the glow itself.
   */
  lemma ParticleAlphaIsGlow(m: MathLib, chaos: Vec3, target: Vec3, color: Rgb, progress: real, time: real,
                            px: real, py: real)
    ensures var v := ShadeVertex(m, chaos, target, color, progress, time);
      var f := ShadeFragment(m, px, py, v.color, v.alpha, time);
      f.Shaded? ==> f.alpha == Glow(CentreDistance(m, px, py))
  {
  }
}
