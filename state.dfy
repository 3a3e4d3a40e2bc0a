/** The game state of the modern simulation (src/game/state.ts): a value
    snapshot, the fresh initial state, and the mutable record that the step
    functions of src/game/logic.ts and src/game/effects.ts update in place.
    The frame timestamp `lastTime` belongs to the frame driver and is not
    part of this model. */
module GameState {
  import opened Wrappers
  import opened Constants
  import opened Types

  datatype Snapshot = Snapshot(
    score: int,
    lives: int,
    playerX: real,
    eggs: seq<Item>,
    particles: seq<Particle>,
    floatingTexts: seq<FloatingText>,
    input: Input,
    spawnTimer: real,
    shake: Shake,
    comboCounter: int,
    comboActive: bool,
    comboTimer: real,
    slowMoTimer: real,
    scoreMultiplier: int,
    multiplierTimer: real,
    stats: Stats)

  const NoInput := Input(false, false, None)

  /** `getInitialGameState`: a clean slate with three lives, the player
      centred, nothing on screen, no input, every timer and counter at zero
      and the multiplier at one. */
  function InitialState(): (s: Snapshot)
    ensures s.score == 0 && s.lives == MAX_LIVES
    ensures 0.0 <= s.playerX <= MAX_PLAYER_X && s.playerX + PLAYER_WIDTH / 2.0 == GAME_WIDTH / 2.0
    ensures s.eggs == [] && s.particles == [] && s.floatingTexts == []
    ensures s.input == NoInput && s.shake == NoShake
    ensures s.spawnTimer == 0.0 && s.comboTimer == 0.0 && s.slowMoTimer == 0.0 && s.multiplierTimer == 0.0
    ensures s.comboCounter == 0 && !s.comboActive && s.scoreMultiplier == 1
    ensures s.stats == ZeroStats
  {
    Snapshot(0, 3, GAME_WIDTH / 2.0 - PLAYER_WIDTH / 2.0, [], [], [], NoInput,
             0.0, NoShake, 0, false, 0.0, 0.0, 1, 0.0, ZeroStats)
  }

  /** The mutable state record shared by the logic and effect updates. */
  class GameStateRef {
    var score: int
    var lives: int
    var playerX: real
    var eggs: seq<Item>
    var particles: seq<Particle>
    var floatingTexts: seq<FloatingText>
    var input: Input
    var spawnTimer: real
    var shake: Shake
    var comboCounter: int
    var comboActive: bool
    var comboTimer: real
    var slowMoTimer: real
    var scoreMultiplier: int
    var multiplierTimer: real
    var stats: Stats

    /** The record's current value. */
    function View(): Snapshot
      reads this
    {
      Snapshot(score, lives, playerX, eggs, particles, floatingTexts, input, spawnTimer, shake,
               comboCounter, comboActive, comboTimer, slowMoTimer, scoreMultiplier, multiplierTimer, stats)
    }

    /** A record holding `s`, as `useRef(getInitialGameState())` makes one. */
    constructor (s: Snapshot)
      ensures View() == s
    {
      score, lives, playerX := s.score, s.lives, s.playerX;
      eggs, particles, floatingTexts := s.eggs, s.particles, s.floatingTexts;
      input, spawnTimer, shake := s.input, s.spawnTimer, s.shake;
      comboCounter, comboActive, comboTimer := s.comboCounter, s.comboActive, s.comboTimer;
      slowMoTimer, scoreMultiplier, multiplierTimer := s.slowMoTimer, s.scoreMultiplier, s.multiplierTimer;
      stats := s.stats;
    }
  }
}
