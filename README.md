# Formation and chaos animation of the Christmas tree scene

The scene shows five kinds of entity:

- a point cloud of 135 000 foliage particles;
- five populations of instanced ornaments;
- a star on the tip;
- a teddy bear;
- a progress value that drives them all.

Each entity has two places: a *chaos* point somewhere in a cloud around the origin and a *target* point on or in the tree's cone. A toggle damps the single progress value towards 1 (formed) or 0 (scattered). Every frame, each entity blends between its two places by a cubic ease-in-out of that progress.

The Dafny project models this arithmetic:

- the generators that turn random draws into placements;
- the ease and its weighted variant;
- the per-frame animators of ornaments, star and bear;
- the particles' vertex and fragment shaders;
- the progress driver;
- the table of ornament populations.

It proves what the code promises about them.

Modules, one per file:

- `Numerics` (numerics.dfy): `real` stand-ins for `Math` and the GLSL built-ins.
  - `Unit` is one `Math.random()` draw in `[0, 1)`.
  - `MathLib` holds sin, cos, acos, sqrt, cbrt, fractional `pow` and exp as total tables.
  - Four groups of laws state what the proofs assume of those tables: `TrigLaws`, `RootLaws`, `PowLaws` and `ExpLaws`.
  - Whole-number powers are computed exactly by `PowN`.
- `Config` (config.dfy): the constants of constants.ts.
- `Geometry` (geometry.dfy): vectors, three.js `lerp` and GLSL `mix`, the shared sphere-point, ring-point and cone-radius formulas.
- `Easing` (easing.dfy): the cubic ease-in-out, written out identically in four places in the source, and `pow(t, weightFactor)` followed by the ease.
- `Ornaments` (ornaments.dfy): the generator, the per-frame transform loop, and a class that owns one population's buffers and instances.
- `TreeParticles` (treeparticles.dfy): the particle generator with its three colour tiers, and the two shaders as pure functions.
- `TopStar` (topstar.dfy): the outline loop, the twinkle of material and light, and the star's flight.
- `Bear` (bear.dfy): the bear's flight, wobble and pop-in scale.
- `Experience` (experience.dfy): the damped progress driver and the population table.

Randomness, clock time and the frame length are parameters. Each entity's random draws are a datatype listing them in the order the source makes them. Each loop body calls the function that specifies one iteration, and the method's `ensures` ties every entry to that function. The properties are proved about the functions.

Where the code and the written design of the system disagree, the model follows the code:

- The ornaments' spin `(1 - ease) * 1.5` vanishes only at ease 1, not already once the ease passes 0.9.
- An ornament's per-frame scale is its generated scale, times the blink factor for the lights. It is not multiplied by the ease; only the star (`ease`) and the bear (`ease * 1.5`) scale with it.
- Progress is never clamped. It stays in `[0, 1]` because a damp step never overshoots (`Experience.SettleBetween`).
- The ornaments' target height is `u * H * 0.95 - H / 2 + 0.2`, so it lies in `[-H/2 + 0.2, 0.45 H + 0.2)`.
- Ornament radii reach up to 1.05 times the cone radius.
- Particles get the wind offset whenever progress exceeds 0.8, so at progress 1 they are near their targets but not on them.
- The star's chaos point is its sphere point raised by 10 in y.
- `ORNAMENT_COUNT` is declared but no population uses it.

## Model

| member | source | states |
|---|---|---|
| Geometry.LerpVectors | components/Ornaments.tsx:98 | three.js lerp gives the first vector at alpha 0 and the second at alpha 1 |
| Geometry.LerpBetween | components/Ornaments.tsx:98 | for alpha in [0, 1] a lerped coordinate lies between its two end points |
| Geometry.Mix | components/TreeParticles.tsx:47 | GLSL mix a(1-t)+bt equals three.js lerp for every t |
| Geometry.MixVectors | components/TreeParticles.tsx:47 | mix on vec3 is lerpVectors |
| Geometry.SpherePointOnSphere | components/Ornaments.tsx:37-42 | the spherical chaos formula puts the point at squared distance r*r from the origin whatever the draws |
| Geometry.RingPointOnCircle | components/Ornaments.tsx:52-55 | a target built from rDist, an angle and h has y = h and squared distance rDist*rDist from the tree's axis |
| Geometry.ConeRadius | components/Ornaments.tsx:46-48 | maxR is R_bottom at the base and 0 at the apex, is positive exactly below the apex, and never exceeds R_bottom above the base |
| Easing.BranchRanges | components/Ornaments.tsx:85 | the 4x^3 branch maps [0, 0.5) into [0, 0.5) and the other branch maps [0.5, 1] into [0.5, 1]; the curve fixes 0 and 1 |
| Easing.BranchesMeet | components/Ornaments.tsx:85 | both branches give 0.5 at 0.5, so the ease has no jump |
| Easing.Ease | components/Ornaments.tsx:85 | the ease maps [0, 1] into [0, 1], 0 to 0 and 1 to 1 |
| Easing.EaseStrictlyIncreasing | components/Ornaments.tsx:85 | the ease is strictly increasing on [0, 1] |
| Easing.EaseMonotone | components/Ornaments.tsx:85 | the ease never decreases on [0, 1] |
| Easing.EaseSymmetric | components/Ornaments.tsx:85 | ease(1 - t) = 1 - ease(t): easing out mirrors easing in |
| Easing.WeightedEase | components/Ornaments.tsx:84-85 | ease(pow(t, w)) is in [0, 1] for t in [0, 1] and w > 0, with 0 at progress 0 and 1 at progress 1 |
| Easing.WeightOneIsPlainEase | components/Ornaments.tsx:84-85 | a weight of 1 gives the plain ease |
| Easing.WeightedEaseMonotone | components/Ornaments.tsx:84-85 | with the weight fixed the blend factor never decreases with progress |
| Easing.HeavierLags | components/Ornaments.tsx:84-85 | for progress strictly inside (0, 1), a larger weight gives a strictly smaller blend factor |
| Ornaments.ChaosRadius | components/Ornaments.tsx:39 | the chaos radius is in [0.5 CHAOS_RADIUS, CHAOS_RADIUS) |
| Ornaments.TargetHeight | components/Ornaments.tsx:45 | the target height is in [-H/2 + 0.2, 0.45 H + 0.2) |
| Ornaments.DepthBias | components/Ornaments.tsx:49 | the depth bias 0.5 + sqrt(u) * 0.55 is in [0.5, 1.05) |
| Ornaments.ColorIndex | components/Ornaments.tsx:64 | floor(u * n) is a valid palette index for a non-empty palette |
| Ornaments.ColorIndexUniform | components/Ornaments.tsx:64 | index k is picked exactly when u is in [k/n, (k+1)/n) |
| Ornaments.ChaosInShell | components/Ornaments.tsx:37-42 | the chaos point lies in the shell between half the chaos radius and the chaos radius |
| Ornaments.TargetOnRing | components/Ornaments.tsx:52-55 | the target's y is the sampled height and its squared distance from the axis is rDist squared |
| Ornaments.TargetNearCone | components/Ornaments.tsx:45-50 | maxR > 0 at the target height, and rDist is in [0.5 maxR, 1.05 maxR), so it can exceed the cone by up to 5% |
| Ornaments.AttributesInRange | components/Ornaments.tsx:57-64 | base angles in [0, PI), scale in [0.6, 1.4) times baseScale, colour taken from the palette |
| Ornaments.AngleInRange | components/Ornaments.tsx:57-59 | a draw times PI is an angle in [0, PI) |
| Ornaments.JitterInRange | components/Ornaments.tsx:62 | baseScale * (0.6 + u * 0.8) is in [0.6, 1.4) times a positive baseScale |
| Ornaments.Generate | components/Ornaments.tsx:27-66 | allocates count entries and entry i of the buffers is the placement of ornament i's draws |
| Ornaments.Sparkle | components/Ornaments.tsx:112-113 | max(0, flash)^6 is in [0, 1] |
| Ornaments.BlinkFactor | components/Ornaments.tsx:114 | the blink multiplier is in [0.8, 3.3] |
| Ornaments.BlinkExtremes | components/Ornaments.tsx:112-114 | the multiplier is 3.3 at a flash peak and 0.8 whenever the sine is not positive |
| Ornaments.InstancePosition | components/Ornaments.tsx:98-107 | ease 0 gives the chaos point, ease 1 the target and the base rotation, and in between each coordinate lies between chaos and target |
| Ornaments.InstanceSpin | components/Ornaments.tsx:100-107 | x and y spin by the same amount in [0, 1.5 time], and z is always the base angle |
| Ornaments.InstanceScale | components/Ornaments.tsx:109-117 | without blink the scale is the generated scale; with blink it is 0.8 to 3.3 times it, never negative |
| Ornaments.OrnamentBatch.constructor | components/Ornaments.tsx:27-68 | the population's buffers are the generator's output for its draws, and it has count instances |
| Ornaments.OrnamentBatch.ApplyColors | components/Ornaments.tsx:70-78 | every instance colour is set to its ornament's generated colour |
| Ornaments.OrnamentBatch.Frame | components/Ornaments.tsx:80-122 | each index 0..count-1 gets the transform for ease(pow(progress, weight)); at progress 0 every ornament is at its chaos point, and at 1 at its target with its base rotation |
| TreeParticles.ChaosRadius | components/TreeParticles.tsx:96 | cbrt(u) * CHAOS_RADIUS is in [0, CHAOS_RADIUS) |
| TreeParticles.ChaosInBall | components/TreeParticles.tsx:94-99 | the chaos point lies strictly inside the ball of radius CHAOS_RADIUS |
| TreeParticles.TargetHeight | components/TreeParticles.tsx:102 | the target height is in [-H/2, H/2) |
| TreeParticles.TargetRadius | components/TreeParticles.tsx:103-109 | maxR is in (0, R_bottom] and rDist = pow(u, 0.3) * maxR is in [0, maxR] |
| TreeParticles.TargetOnRing | components/TreeParticles.tsx:111-114 | the target's y is the height and its squared distance from the axis is rDist squared |
| TreeParticles.TargetInsideCone | components/TreeParticles.tsx:102-114 | every target lies between base and apex and within the cone radius at its own height |
| TreeParticles.TierOf | components/TreeParticles.tsx:120-131 | gold exactly when rand > 0.985, emerald exactly when 0.90 < rand <= 0.985, deep green exactly when rand <= 0.90 |
| TreeParticles.Size | components/TreeParticles.tsx:122-131 | per-tier size ranges [0.4, 0.8), [0.1, 0.4), [0.15, 0.5); every size positive |
| TreeParticles.SpawnTier | components/TreeParticles.tsx:120-133 | a particle's colour and size range follow the one tier its draw falls in |
| TreeParticles.Generate | components/TreeParticles.tsx:81-136 | allocates PARTICLE_COUNT entries and entry i holds the particle spawned from draws i |
| TreeParticles.WindBounded | components/TreeParticles.tsx:50-54 | the wind keeps y and moves x by at most 0.1 and z by at most 0.05 |
| TreeParticles.SwirlIsRotation | components/TreeParticles.tsx:57-63 | the swirl keeps y and the squared distance from the axis |
| TreeParticles.VertexScattered | components/TreeParticles.tsx:42-63 | at progress 0 the vertex is its chaos point swirled, same height and distance from the axis |
| TreeParticles.VertexFormed | components/TreeParticles.tsx:42-54 | at progress 1 the vertex is its target plus the wind: same height, within 0.1 on x and 0.05 on z |
| TreeParticles.VertexInTransit | components/TreeParticles.tsx:45-63 | for progress in [0.3, 0.8] the vertex is exactly the mix, each coordinate between chaos and target |
| TreeParticles.VertexPassesColor | components/TreeParticles.tsx:43-44 | the colour is passed through and the alpha is 1 |
| TreeParticles.FragmentSparkle | components/TreeParticles.tsx:16 | the fragment sparkle is in [0, 1] |
| TreeParticles.DiscardOutsideDisc | components/TreeParticles.tsx:12-13 | a fragment is discarded exactly when it is outside the disc of radius 0.5 about the point's centre |
| TreeParticles.CentreDistanceRoot | components/TreeParticles.tsx:12 | the distance to the centre is non-negative and squares to the squared distance |
| TreeParticles.GlowRange | components/TreeParticles.tsx:21-22 | on the kept disc the glow is in [0, 1], 1 at the centre and 0 on the rim |
| TreeParticles.GlowFades | components/TreeParticles.tsx:21-22 | the glow decreases strictly from centre to rim |
| TreeParticles.KeptAlpha | components/TreeParticles.tsx:21-24 | a kept fragment's alpha is between 0 and the vertex alpha |
| TreeParticles.KeptTint | components/TreeParticles.tsx:16-19 | a kept fragment's colour is the mix towards the sheen by sparkle * 0.2 in [0, 0.2], each channel between the colour and the sheen |
| TreeParticles.CentreFragment | components/TreeParticles.tsx:12-24 | the centre fragment is kept with the full vertex alpha |
| TreeParticles.ParticleAlphaIsGlow | components/TreeParticles.tsx:21-24 | since the vertex alpha is 1, a kept fragment's alpha is the glow itself |
| TopStar.StarOutline | components/TopStar.tsx:19-28 | the path has 11 commands: a move to vertex 0, lines to vertices 1..9, then close |
| TopStar.OutlineShape | components/TopStar.tsx:20-22 | vertex 0 is at angle PI/2 and the outer radius; consecutive angles differ by PI/5 and the radius alternates |
| TopStar.VertexOnCircle | components/TopStar.tsx:20-24 | each vertex lies at distance 1.8 or 0.5 from the centre |
| TopStar.StarSparkle | components/TopStar.tsx:47 | max(0, sin(t * 8 + 1))^8 is in [0, 1] |
| TopStar.TwinkleIntensity | components/TopStar.tsx:49 | the intensity is in [1, 5] |
| TopStar.EmissiveIntensity | components/TopStar.tsx:52 | the emissive intensity is in [1.5, 5.5] |
| TopStar.LightIntensity | components/TopStar.tsx:56 | the light intensity is in [3.5, 9.5] |
| TopStar.LightTracksEmissive | components/TopStar.tsx:52-56 | light = 1.25 + 1.5 * emissive: the light follows the material |
| TopStar.TwinkleExtremes | components/TopStar.tsx:47-49 | the intensity is 1 while the sine is not positive and 5 at a flash peak |
| TopStar.StarLights.constructor | components/TopStar.tsx:65-75 | emissive intensity 2 as declared; light intensity 1, the three.js default |
| TopStar.StarLights.Twinkle | components/TopStar.tsx:43-57 | both intensities are set from the clock time, within [1.5, 5.5] and [3.5, 9.5] |
| TopStar.StarPlacement | components/TopStar.tsx:83-99 | the start lies at CHAOS_RADIUS from (0, 10, 0); the end is (0, 10.25, 0) |
| TopStar.StarGroup.constructor | components/TopStar.tsx:83-100 | start and end are fixed once from the draws |
| TopStar.StarGroup.Animate | components/TopStar.tsx:102-115 | the position is the lerp by the ease, the spin is 0.4 elapsed, and the scale is the ease: 0 and start at progress 0, 1 and end at progress 1, in [0, 1] between |
| Bear.BearPlacement | components/Bear.tsx:13-28 | the start lies on the chaos sphere; the end is (4, -7.5, 4) |
| Bear.WobbleBounded | components/Bear.tsx:41-45 | below progress 0.9 each wobble increment has magnitude at most 0.1 (1 - t) |
| Bear.BearGroup.constructor | components/Bear.tsx:13-28 | start and end are fixed once from the draws |
| Bear.BearGroup.Frame | components/Bear.tsx:30-49 | the position is the lerp by the ease; the wobble is added to x and z only below 0.9, and y is the facing angle; the scale is 1.5 ease: 0 at progress 0, 1.5 at 1, in [0, 1.5] between |
| Experience.DampFactor | components/Experience.tsx:22 | the damp blend factor 1 - exp(-lambda dt) is in [0, 1), 0 for dt = 0 and positive for positive rate and time |
| Experience.DampBetween | components/Experience.tsx:22 | a damp step lands between the current value and the target: no overshoot |
| Experience.DampStill | components/Experience.tsx:22 | a frame of length 0 changes nothing |
| Experience.DampApproaches | components/Experience.tsx:22 | with positive rate and time a value off target gets strictly closer to it |
| Experience.Target | components/Experience.tsx:20 | the goal is 1 exactly when formed, else 0 |
| Experience.Speed | components/Experience.tsx:21 | the rate is positive and slower when forming than when scattering |
| Experience.SceneController.constructor | components/Experience.tsx:17 | progress starts at 0 |
| Experience.SceneController.Frame | components/Experience.tsx:19-23 | progress becomes the damp step towards the goal, between the old progress and the goal and so in [0, 1] |
| Experience.SettleBetween | components/Experience.tsx:19-23 | over any run of frames with the toggle fixed, progress stays between its start and the goal, and in [0, 1] |
| Experience.SettleApproaches | components/Experience.tsx:19-23 | over a run of positive frames, progress off target ends strictly closer to the goal |
| Experience.SettleStays | components/Experience.tsx:19-23 | once at the goal, progress stays there |
| Experience.PopulationsWellFormed | components/Experience.tsx:38-86 | five populations, each with instances, a non-empty palette, positive scale and weight; only the lights blink |
| Experience.GiftsLag | components/Experience.tsx:48-65 | inside the transition the gifts (weight 1.5) trail the green balls (weight 1.0) |
| Experience.LightsLead | components/Experience.tsx:77-86 | inside the transition the lights (weight 0.5) lead every other population |

## Left out

- Rendering is not modelled: the renderer, camera, lights, post-processing, orbit controls, meshes, materials and the extrude/bevel settings. The ornaments' `setMatrixAt` is modelled as storing a (position, rotation, scale) record per index, not a matrix; `needsUpdate` flags are not modelled.
- Float32Array layout: index-aligned buffers with three slots per entity are one array of records, entry i holding slots 3i..3i+2 of each buffer. The stride arithmetic is not modelled.
- Floating point: values are `real`, so Float32 storage rounding and double rounding are not modelled.
- Transcendentals: sin, cos, acos, sqrt, cbrt, fractional pow and exp are tables about which only the stated laws are assumed. Whole powers are exact.
- Formula bodies that multiply or divide by a configuration constant write its value as a literal (the doc comment names the constant), and their contracts use the constant's name.
- Randomness, clock time and frame length are parameters: `Math.random()` draws, `clock.elapsedTime` and `delta`.
- Colours: the conversion of hex strings to `THREE.Color` is not modelled. Generators take colours as `Rgb` values, and the population table keeps the strings.
- `THREE.Shape` is modelled as the list of path commands the outline loop issues. The extrusion is not modelled.
- Bear.BearGroup.Frame: `lookAt` is a library call, so the orientation it produces is the parameter `facing`, and the wobble is added to it.
- The particles' point-size formula depends on the camera's matrices and is not modelled. The uniform updates of the particle material are the `progress` and `time` parameters of the shader functions.
- The star's `glow` in its frame callback is computed and never used, so it is not modelled.
- The bear is not mounted in the scene; it is modelled on its own.
- The React lifecycle is not modelled: memoisation, frame-callback order, refs and the null-ref guards, and the reusable scratch objects of constants.ts.
- Nothing in the model captures the absence of per-frame allocation.
- Overlay.tsx and App.tsx (UI markup and the toggle) are not part of this model.
