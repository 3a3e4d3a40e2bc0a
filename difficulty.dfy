/** The two difficulty curves: spawn interval (seconds) and base fall speed
    (pixels per second) as functions of the score. The classic loops use a
    continuous ratio that saturates at MAX_DIFFICULTY_SCORE; the inventory
    screen uses a step function of the level floor(score / 100). */
module Difficulty {
  import opened Constants
  import opened Physics

  /** `Math.min(score / MAX_DIFFICULTY_SCORE, 1)`. */
  function Ratio(score: int): real {
    Min(score as real / MAX_DIFFICULTY_SCORE as real, 1.0)
  }

  /** Spawn interval of the ratio curve, for the loop's initial interval. */
  function RatioSpawnRate(initial: real, score: int): real {
    initial - (initial - MIN_SPAWN_RATE) * Ratio(score)
  }

  /** Base fall speed of the ratio curve, for the loop's initial speed. */
  function RatioSpeed(initial: real, score: int): real {
    initial + MAX_SPEED_BONUS * Ratio(score)
  }

  lemma RatioInUnit(score: int)
    requires score >= 0
    ensures 0.0 <= Ratio(score) <= 1.0
  {
  }

  lemma MulLe(k: real, a: real, b: real)
    requires k >= 0.0 && a <= b
    ensures k * a <= k * b
  {
  }

  /** For a non-negative score the interval lies between the floor and the
      initial interval, and the speed between the initial speed and that
      speed plus the maximum bonus. */
  lemma RatioBounds(initial: real, score: int)
    requires initial >= MIN_SPAWN_RATE && score >= 0
    ensures MIN_SPAWN_RATE <= RatioSpawnRate(initial, score) <= initial
    ensures initial <= RatioSpeed(initial, score) <= initial + MAX_SPEED_BONUS
  {
    var d := Ratio(score);
    var k := initial - MIN_SPAWN_RATE;
    RatioInUnit(score);
    MulLe(k, d, 1.0);
    MulLe(k, 0.0, d);
    assert 0.0 <= k * d <= k;
    assert RatioSpawnRate(initial, score) == initial - k * d;
    assert 0.0 <= MAX_SPEED_BONUS * d <= MAX_SPEED_BONUS;
  }

  /** A higher score never lengthens the interval nor slows the fall. */
  lemma RatioMonotone(initial: real, s1: int, s2: int)
    requires initial >= MIN_SPAWN_RATE && s1 <= s2
    ensures RatioSpawnRate(initial, s2) <= RatioSpawnRate(initial, s1)
    ensures RatioSpeed(initial, s1) <= RatioSpeed(initial, s2)
  {
    assert Ratio(s1) <= Ratio(s2);
    MulLe(initial - MIN_SPAWN_RATE, Ratio(s1), Ratio(s2));
  }

  /** From MAX_DIFFICULTY_SCORE on, both curves are at their limits. */
  lemma RatioSaturates(initial: real, score: int)
    requires score >= MAX_DIFFICULTY_SCORE
    ensures RatioSpawnRate(initial, score) == MIN_SPAWN_RATE
    ensures RatioSpeed(initial, score) == initial + MAX_SPEED_BONUS
  {
  }

  /** `Math.floor(score / DIFFICULTY_SCORE_INTERVAL)`; Dafny's division by a
      positive divisor is already the floor. */
  function Level(score: int): (l: int)
    ensures l * DIFFICULTY_SCORE_INTERVAL <= score < (l + 1) * DIFFICULTY_SCORE_INTERVAL
  {
    score / DIFFICULTY_SCORE_INTERVAL
  }

  /** Spawn interval of the step curve. */
  function StepSpawnRate(score: int): real {
    Max(MIN_SPAWN_RATE, INITIAL_SPAWN_RATE - Level(score) as real * SPAWN_RATE_DECREASE_PER_INTERVAL)
  }

  /** Base fall speed of the step curve. */
  function StepSpeed(score: int): real {
    INITIAL_EGG_SPEED + Level(score) as real * SPEED_INCREASE_PER_INTERVAL
  }

  /** The step curve: the interval stays between the floor and the initial
      interval for a non-negative score, and the speed is at least the
      initial speed. */
  lemma StepBounds(score: int)
    requires score >= 0
    ensures MIN_SPAWN_RATE <= StepSpawnRate(score) <= INITIAL_SPAWN_RATE
    ensures StepSpeed(score) >= INITIAL_EGG_SPEED
  {
    assert Level(score) >= 0;
  }

  lemma StepMonotone(s1: int, s2: int)
    requires s1 <= s2
    ensures StepSpawnRate(s2) <= StepSpawnRate(s1)
    ensures StepSpeed(s1) <= StepSpeed(s2)
  {
    assert Level(s1) <= Level(s2);
  }

  /** Both step values only change at multiples of the interval. */
  lemma StepIsPiecewiseConstant(s1: int, s2: int)
    requires s1 / DIFFICULTY_SCORE_INTERVAL == s2 / DIFFICULTY_SCORE_INTERVAL
    ensures StepSpawnRate(s1) == StepSpawnRate(s2) && StepSpeed(s1) == StepSpeed(s2)
  {
  }

  /** The step interval reaches its floor at level 16 (score 1600), while the
      step speed keeps growing without bound: above any speed there is a
      score whose speed exceeds it. */
  lemma StepSpeedUnbounded(bound: real)
    ensures StepSpawnRate(1600) == MIN_SPAWN_RATE
    ensures exists score: int :: score >= 0 && StepSpeed(score) > bound
  {
    var n: int := if bound <= 0.0 then 0 else bound.Floor + 1;
    assert n as real > bound - INITIAL_EGG_SPEED;
    var score := n * DIFFICULTY_SCORE_INTERVAL;
    assert Level(score) == n;
    assert StepSpeed(score) > bound;
  }
}
