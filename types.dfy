/** The entities shared by the three simulation loops. The modern item enum
    has nine variants; the legacy one (types.ts) is its first seven. */
module Types {
  import opened Wrappers

  datatype ItemType = NORMAL | GOLDEN | ROTTEN | BOMB | HEART | CLOCK | STAR | MAGNET | FRENZY

  /** The types whose catch awards points. */
  predicate IsScoring(t: ItemType) {
    t == NORMAL || t == GOLDEN
  }

  /** The deferred power-ups that the inventory screen stores. */
  predicate IsPowerUp(t: ItemType) {
    t == CLOCK || t == STAR || t == MAGNET
  }

  /** A falling item (an "egg" in the source). Positions are the top-left
      corner; y grows downward. */
  datatype Item = Item(id: int, kind: ItemType, x: real, y: real, width: real, height: real, vx: real, vy: real)

  /** Keyboard intent and an optional absolute touch coordinate. */
  datatype Input = Input(left: bool, right: bool, touchX: Option<real>)

  /** Per-match counters handed to the game-over screen. */
  datatype Stats = Stats(goldenEggs: int, bombsHit: int, rottenHit: int, starsCaught: int, magnetsCaught: int)

  const ZeroStats := Stats(0, 0, 0, 0, 0)

  /** Every counter of `b` is at least the one of `a`. */
  predicate StatsLe(a: Stats, b: Stats) {
    a.goldenEggs <= b.goldenEggs && a.bombsHit <= b.bombsHit && a.rottenHit <= b.rottenHit
    && a.starsCaught <= b.starsCaught && a.magnetsCaught <= b.magnetsCaught
  }

  predicate StatsNonNegative(s: Stats) {
    StatsLe(ZeroStats, s)
  }

  datatype FloatingText = FloatingText(text: string, x: real, y: real, vy: real, opacity: real, life: real)

  datatype Particle = Particle(x: real, y: real, vx: real, vy: real, radius: real, color: string, life: real, opacity: real)

  /** Screen shake: magnitude in pixels, duration in milliseconds. */
  datatype Shake = Shake(magnitude: real, duration: real)

  const NoShake := Shake(0.0, 0.0)

  /** The shakes the two screen loops start on a rotten and on a bomb hit. */
  const ROTTEN_SHAKE := Shake(8.0, 200.0)
  const BOMB_SHAKE := Shake(20.0, 500.0)
}
