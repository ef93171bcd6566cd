/**
 * The `CONFIG` constants of pages/features/js/config.js that the particle
 * and clock code read.
 */
module Config {
  /** `CONFIG.PARTICLE` */
  const MinSize: real := 1.0
  const MaxSize: real := 4.0
  const MinSpeed: real := -1.0
  const MaxSpeed: real := 1.0
  const BaseHue: real := 240.0
  const HueRange: real := 60.0

  /** `CONFIG.QUANTUM` */
  const MinCoherence: real := 0.5
  const MaxCoherence: real := 1.0
  const StateChangeRate: real := 0.1

  /** `CONFIG.ZKP` */
  const State0Threshold: real := 0.33
  const State05Threshold: real := 0.66
}
