/** Tuning constants of the simulation (src/constants/constants.ts). */
module Constants {
  const TILE_SIZE: real := 40.0
  const GRAVITY: real := 0.8
  const JUMP_FORCE: real := -16.0
  const MOVE_SPEED: real := 5.0
  const VIEWPORT_WIDTH: real := 800.0
  const VIEWPORT_HEIGHT: real := 600.0
  const WORLD_WIDTH: real := 5000.0
  const INITIAL_LIFE: int := 3
}
