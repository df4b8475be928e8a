/** The numeric configuration and the colour palette of the scene (constants.ts). */
module Config {

  const PARTICLE_COUNT: nat := 135000
  /** Declared in the configuration; no population of the scene uses it. */
  const ORNAMENT_COUNT: nat := 600
  const GIFT_COUNT: nat := 120
  const TREE_HEIGHT: real := 18.0
  const TREE_RADIUS_BOTTOM: real := 7.5
  const CHAOS_RADIUS: real := 35.0

  /** Colours as the hexadecimal strings the components hand to THREE.Color. */
  const EMERALD: string := "#046335"
  const DEEP_GREEN: string := "#011c0d"
  const GOLD: string := "#FFD700"
  const CHAMPAGNE: string := "#F7E7CE"
  const RED_VELVET: string := "#800020"
  const WARM_LIGHT: string := "#ffaa33"
  const STAR_WHITE: string := "#fffef0"
}
