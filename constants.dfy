/** The game's tuning constants. The modern code (src/) and the legacy loop
    (components/Game.tsx) read two constant files that agree on every value
    used here except the initial fall speed and the initial spawn interval;
    the legacy values of those two carry the LEGACY_ prefix. Lengths are in
    pixels, spawn intervals in seconds, power-up durations in milliseconds. */
module Constants {

  // Playfield and player
  const GAME_WIDTH: real := 800.0
  const GAME_HEIGHT: real := 600.0
  const PLAYER_WIDTH: real := 80.0
  const PLAYER_HEIGHT: real := 100.0
  const PLAYER_SPEED: real := 500.0
  const BASKET_OFFSET_Y: real := 60.0
  const BASKET_WIDTH: real := 90.0
  const BASKET_HEIGHT: real := 20.0

  // Falling item geometry
  const EGG_WIDTH: real := 30.0
  const EGG_HEIGHT: real := 40.0
  const BOMB_RADIUS: real := 20.0
  const HEART_WIDTH: real := 35.0
  const HEART_HEIGHT: real := 35.0
  const CLOCK_RADIUS: real := 20.0
  const STAR_WIDTH: real := 35.0
  const STAR_HEIGHT: real := 35.0
  const MAGNET_WIDTH: real := 40.0
  const MAGNET_HEIGHT: real := 35.0

  // Difficulty
  const INITIAL_EGG_SPEED: real := 120.0
  const INITIAL_SPAWN_RATE: real := 1.1
  const LEGACY_INITIAL_EGG_SPEED: real := 100.0
  const LEGACY_INITIAL_SPAWN_RATE: real := 1.2
  const MIN_SPAWN_RATE: real := 0.3
  const MAX_SPEED_BONUS: real := 300.0
  const MAX_DIFFICULTY_SCORE: int := 500
  const DIFFICULTY_SCORE_INTERVAL: int := 100
  const SPEED_INCREASE_PER_INTERVAL: real := 25.0
  const SPAWN_RATE_DECREASE_PER_INTERVAL: real := 0.05

  // Power-ups
  const SLOW_MOTION_DURATION: real := 5000.0
  const SLOW_MOTION_FACTOR: real := 0.5
  const MULTIPLIER_DURATION: real := 7000.0
  const SCORE_MULTIPLIER: int := 2
  const MAGNET_DURATION: real := 5000.0
  const MAGNET_ATTRACTION_FORCE: real := 300.0
  /** Below this distance the magnet stops pulling (GameScreen.tsx). */
  const MAGNET_DEAD_ZONE: real := 10.0

  // Scoring, combo, lives
  const SCORE_NORMAL: int := 1
  const SCORE_GOLDEN: int := 5
  const COIN_CONVERSION_RATE: int := 10
  const COMBO_THRESHOLD: int := 5
  const COMBO_DURATION: real := 5000.0
  const MAX_LIVES: int := 3
  const ADMIN_LIVES: int := 99

  // Player steering toward a touch point moves this fraction of the gap per frame
  const TOUCH_SMOOTHING: real := 0.2
  // Horizontal drift of a new item is (u - 0.5) * SPAWN_DRIFT for a uniform u
  const SPAWN_DRIFT: real := 60.0

  // Leaderboard and inventory
  const LEADERBOARD_SIZE: int := 5
  const INVENTORY_SIZE: int := 3

  /** Right-most legal player position. */
  const MAX_PLAYER_X: real := GAME_WIDTH - PLAYER_WIDTH
}
