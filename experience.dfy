/**
 * The scene controller (components/Experience.tsx): the one progress value
 * every population reads, damped each frame towards 0 (scattered) or 1
 * (formed), and the table of ornament populations the scene mounts.
 */
module Experience {
  import opened Numerics
  import opened Geometry
  import opened Config
  import opened Easing

  // ----- the progress driver -----

  /**
   * three.js MathUtils.damp(x, y, lambda, dt): a frame-rate independent
   * exponential approach, lerp(x, y, 1 - exp(-lambda * dt)).
   */
  function Damp(m: MathLib, x: real, y: real, lambda: real, dt: real): real
  {
    Lerp(x, y, 1.0 - Exp(m, -lambda * dt))
  }

  /** The blend factor of a damp step with non-negative rate and time is in [0, 1); it is 0 when no time passes and positive when both are positive. */
  lemma DampFactor(m: MathLib, lambda: real, dt: real)
    requires ExpLaws(m)
    requires 0.0 <= lambda && 0.0 <= dt
    ensures 0.0 <= 1.0 - Exp(m, -lambda * dt) < 1.0
    ensures dt == 0.0 ==> 1.0 - Exp(m, -lambda * dt) == 0.0
    ensures 0.0 < lambda && 0.0 < dt ==> 0.0 < 1.0 - Exp(m, -lambda * dt)
  {
    MulNonNegative(lambda, dt);
    if 0.0 < lambda && 0.0 < dt {
      MulStrictlyMonotone(0.0, lambda, dt);
    }
  }

  /** A damp step never overshoots: the new value lies between the old value and the target. */
  lemma DampBetween(m: MathLib, x: real, y: real, lambda: real, dt: real)
    requires ExpLaws(m)
    requires 0.0 <= lambda && 0.0 <= dt
    ensures Between(Damp(m, x, y, lambda, dt), x, y)
  {
    DampFactor(m, lambda, dt);
    LerpBetween(x, y, 1.0 - Exp(m, -lambda * dt));
  }

  /** No time, no change. */
  lemma DampStill(m: MathLib, x: real, y: real, lambda: real)
    requires ExpLaws(m)
    ensures Damp(m, x, y, lambda, 0.0) == x
  {
    assert -lambda * 0.0 == 0.0;
  }

  /** With a positive rate and a positive time step, a value off target gets strictly closer to it. */
  lemma DampApproaches(m: MathLib, x: real, y: real, lambda: real, dt: real)
    requires ExpLaws(m)
    requires 0.0 < lambda && 0.0 < dt && x != y
    ensures Abs(y - Damp(m, x, y, lambda, dt)) < Abs(y - x)
  {
    var e := Exp(m, -lambda * dt);
    DampFactor(m, lambda, dt);
    var d := Damp(m, x, y, lambda, dt);
    assert y - d == (y - x) * e;
    ShrunkGap(y - x, e);
  }

  /** Scaling a non-zero gap by a factor in (0, 1) makes it strictly smaller. */
  lemma ShrunkGap(g: real, e: real)
    requires g != 0.0 && 0.0 < e < 1.0
    ensures Abs(g * e) < Abs(g)
  {
    if g > 0.0 {
      MulStrictlyMonotone(e, 1.0, g);
    } else {
      MulStrictlyMonotone(e, 1.0, -g);
      assert g * e == -(e * -g);
      assert Abs(g * e) == e * -g;
    }
  }

  /** The progress goal: 1 while the tree is formed, 0 while it is scattered. */
  function Target(isFormed: bool): (t: real)
    ensures t == 0.0 || t == 1.0
    ensures t == 1.0 <==> isFormed
  {
    if isFormed then 1.0 else 0.0
  }

  /** The damping rate: a slower 0.6 when forming, 1.0 when scattering. */
  function Speed(isFormed: bool): (s: real)
    ensures 0.0 < s
    ensures isFormed ==> s < Speed(false)
  {
    if isFormed then 0.6 else 1.0
  }

  /** The single progress value that the tree, the star and the ornaments read every frame. */
  class SceneController {
    var progress: real

    /** Progress starts scattered, at 0. */
    constructor ()
      ensures progress == 0.0
    {
      progress := 0.0;
    }

    /** One frame of length delta seconds while the toggle reads isFormed. */
    method Frame(m: MathLib, isFormed: bool, delta: real)
      modifies this
      ensures progress == Damp(m, old(progress), Target(isFormed), Speed(isFormed), delta)
      ensures ExpLaws(m) && 0.0 <= delta && 0.0 <= old(progress) <= 1.0 ==> 0.0 <= progress <= 1.0
      ensures ExpLaws(m) && 0.0 <= delta ==> Between(progress, old(progress), Target(isFormed))
    {
      var target := if isFormed then 1.0 else 0.0;
      var speed := if isFormed then 0.6 else 1.0;
      progress := Damp(m, progress, target, speed, delta);
      if ExpLaws(m) && 0.0 <= delta {
        DampBetween(m, old(progress), target, speed, delta);
      }
    }
  }

  /** The progress after a run of frames with fixed toggle, the frame lengths given in order. */
  function Settle(m: MathLib, p: real, isFormed: bool, deltas: seq<real>): real
    decreases |deltas|
  {
    if |deltas| == 0 then p
    else Settle(m, Damp(m, p, Target(isFormed), Speed(isFormed), deltas[0]), isFormed, deltas[1..])
  }

  /**
   * Over any run of frames with the toggle fixed, progress moves towards the
   * goal without passing it, and so stays in [0, 1] when it starts there.
   */
  lemma {:induction false} SettleBetween(m: MathLib, p: real, isFormed: bool, deltas: seq<real>)
    requires ExpLaws(m)
    requires forall k :: 0 <= k < |deltas| ==> 0.0 <= deltas[k]
    ensures Between(Settle(m, p, isFormed, deltas), p, Target(isFormed))
    ensures 0.0 <= p <= 1.0 ==> 0.0 <= Settle(m, p, isFormed, deltas) <= 1.0
    decreases |deltas|
  {
    if |deltas| > 0 {
      var q := Damp(m, p, Target(isFormed), Speed(isFormed), deltas[0]);
      DampBetween(m, p, Target(isFormed), Speed(isFormed), deltas[0]);
      SettleBetween(m, q, isFormed, deltas[1..]);
    }
  }

  /**
   * Over a run of positive frame lengths, progress that is not yet at the goal
   * ends strictly closer to it.
   */
  lemma {:induction false} SettleApproaches(m: MathLib, p: real, isFormed: bool, deltas: seq<real>)
    requires ExpLaws(m)
    requires forall k :: 0 <= k < |deltas| ==> 0.0 < deltas[k]
    requires 0 < |deltas| && p != Target(isFormed)
    ensures Abs(Target(isFormed) - Settle(m, p, isFormed, deltas)) < Abs(Target(isFormed) - p)
    decreases |deltas|
  {
    var y := Target(isFormed);
    var q := Damp(m, p, y, Speed(isFormed), deltas[0]);
    DampApproaches(m, p, y, Speed(isFormed), deltas[0]);
    if |deltas| > 1 {
      if q == y {
        SettleStays(m, isFormed, deltas[1..]);
      } else {
        SettleApproaches(m, q, isFormed, deltas[1..]);
      }
    }
  }

  /** Once progress has reached the goal it stays there. */
  lemma {:induction false} SettleStays(m: MathLib, isFormed: bool, deltas: seq<real>)
    ensures Settle(m, Target(isFormed), isFormed, deltas) == Target(isFormed)
    decreases |deltas|
  {
    if |deltas| > 0 {
      var y := Target(isFormed);
      assert Damp(m, y, y, Speed(isFormed), deltas[0]) == y;
      SettleStays(m, isFormed, deltas[1..]);
    }
  }

  // ----- the ornament populations -----

  datatype Shape = Box | Sphere

  /** The props of one Ornaments element of the scene. */
  datatype Population = Population(
    shape: Shape,
    count: nat,
    palette: seq<string>,
    baseScale: real,
    weightFactor: real,
    blink: bool)

  /** The five populations in the order the scene mounts them. */
  const POPULATIONS: seq<Population> := [
    // white, yellow and green boxes
    Population(Box, 200, ["#ffffff", GOLD, EMERALD], 0.9, 1.3, false),
    // gifts: heavy boxes
    Population(Box, GIFT_COUNT, [GOLD, RED_VELVET, "#ffffff"], 0.8, 1.5, false),
    // green balls
    Population(Sphere, 200, [EMERALD], 0.5, 1.0, false),
    // gold balls, half size
    Population(Sphere, 400, [GOLD, CHAMPAGNE], 0.25, 1.0, false),
    // lights: small, fast and blinking
    Population(Sphere, 150, [WARM_LIGHT], 0.15, 0.5, true)
  ]

  const GIFTS: nat := 1
  const GREEN_BALLS: nat := 2
  const LIGHTS: nat := 4

  /**
   * Every population has instances, a non-empty palette (so its colour pick is
   * defined), a positive size and a positive weight; only the lights blink.
   */
  lemma PopulationsWellFormed()
    ensures |POPULATIONS| == 5
    ensures forall i :: 0 <= i < |POPULATIONS| ==>
      (0 < POPULATIONS[i].count && 0 < |POPULATIONS[i].palette| &&
       0.0 < POPULATIONS[i].baseScale && 0.0 < POPULATIONS[i].weightFactor)
    ensures forall i :: 0 <= i < |POPULATIONS| ==> (POPULATIONS[i].blink <==> i == LIGHTS)
  {
  }

  /** Strictly inside the transition the gifts (weight 1.5) trail the green balls (weight 1.0). */
  lemma GiftsLag(m: MathLib, progress: real)
    requires PowLaws(m)
    requires 0.0 < progress < 1.0
    ensures WeightedEase(m, progress, POPULATIONS[GIFTS].weightFactor)
          < WeightedEase(m, progress, POPULATIONS[GREEN_BALLS].weightFactor)
  {
    HeavierLags(m, progress, POPULATIONS[GREEN_BALLS].weightFactor, POPULATIONS[GIFTS].weightFactor);
  }

  /** Strictly inside the transition the lights (weight 0.5) lead every other population. */
  lemma LightsLead(m: MathLib, progress: real, i: nat)
    requires PowLaws(m)
    requires 0.0 < progress < 1.0
    requires i < |POPULATIONS| && i != LIGHTS
    ensures WeightedEase(m, progress, POPULATIONS[i].weightFactor)
          < WeightedEase(m, progress, POPULATIONS[LIGHTS].weightFactor)
  {
    HeavierLags(m, progress, POPULATIONS[LIGHTS].weightFactor, POPULATIONS[i].weightFactor);
  }
}
