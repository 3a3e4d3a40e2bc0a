/** Choosing and building a new falling item. The source draws a uniform
    value in [0, 1) and walks cumulative thresholds; here the draws are
    parameters. The ratio-curve loops (src/game/logic.ts and
    components/Game.tsx) share one table; src/screens/GameScreen.tsx adds
    the magnet. */
module Spawning {
  import opened Constants
  import opened Types

  /** The type chosen by the ratio-curve loops for a band draw `rand`. */
  function ClassicKind(rand: real): ItemType {
    if rand < 0.02 then HEART
    else if rand < 0.05 then CLOCK
    else if rand < 0.09 then STAR
    else if rand < 0.15 then BOMB
    else if rand < 0.25 then GOLDEN
    else if rand < 0.40 then ROTTEN
    else NORMAL
  }

  /** The type chosen by the inventory screen for a band draw `rand`. */
  function ScreenKind(rand: real): ItemType {
    if rand < 0.02 then HEART
    else if rand < 0.05 then CLOCK
    else if rand < 0.08 then STAR
    else if rand < 0.11 then MAGNET
    else if rand < 0.18 then BOMB
    else if rand < 0.28 then GOLDEN
    else if rand < 0.45 then ROTTEN
    else NORMAL
  }

  /** A spawn table given as per-type probability weights, the last entry
      being the default that takes whatever remains. */
  type Weights = seq<(ItemType, real)>

  const ClassicWeights: Weights :=
    [(HEART, 0.02), (CLOCK, 0.03), (STAR, 0.04), (BOMB, 0.06), (GOLDEN, 0.10), (ROTTEN, 0.15), (NORMAL, 0.60)]

  const ScreenWeights: Weights :=
    [(HEART, 0.02), (CLOCK, 0.03), (STAR, 0.03), (MAGNET, 0.03), (BOMB, 0.07), (GOLDEN, 0.10), (ROTTEN, 0.17), (NORMAL, 0.55)]

  function TotalWeight(w: Weights): real {
    if w == [] then 0.0 else w[0].1 + TotalWeight(w[1..])
  }

  /** Reference selection by weights: the draw falls into the first band
      whose weight it does not exhaust. */
  function Pick(w: Weights, rand: real): ItemType
    requires w != []
  {
    if |w| == 1 || rand < w[0].1 then w[0].0 else Pick(w[1..], rand - w[0].1)
  }

  /** The weights of each table sum to one, so they are a probability
      distribution over the types. */
  lemma WeightsAreDistributions()
    ensures TotalWeight(ClassicWeights) == 1.0
    ensures TotalWeight(ScreenWeights) == 1.0
  {
    var c := ClassicWeights;
    assert TotalWeight(c[6..]) == 0.60;
    assert TotalWeight(c[5..]) == 0.75;
    assert TotalWeight(c[4..]) == 0.85;
    assert TotalWeight(c[3..]) == 0.91;
    assert TotalWeight(c[2..]) == 0.95;
    assert TotalWeight(c[1..]) == 0.98;
    var s := ScreenWeights;
    assert TotalWeight(s[7..]) == 0.55;
    assert TotalWeight(s[6..]) == 0.72;
    assert TotalWeight(s[5..]) == 0.82;
    assert TotalWeight(s[4..]) == 0.89;
    assert TotalWeight(s[3..]) == 0.92;
    assert TotalWeight(s[2..]) == 0.95;
    assert TotalWeight(s[1..]) == 0.98;
  }

  /** The cumulative thresholds of the classic loops select exactly by the
      classic weights, for every draw. */
  lemma ClassicKindFollowsWeights(rand: real)
    ensures ClassicKind(rand) == Pick(ClassicWeights, rand)
  {
    var w := ClassicWeights;
    assert Pick(w[6..], rand - 0.40) == NORMAL;
    assert Pick(w[5..], rand - 0.25) == if rand < 0.40 then ROTTEN else NORMAL;
    assert Pick(w[4..], rand - 0.15) == if rand < 0.25 then GOLDEN else Pick(w[5..], rand - 0.25);
    assert Pick(w[3..], rand - 0.09) == if rand < 0.15 then BOMB else Pick(w[4..], rand - 0.15);
    assert Pick(w[2..], rand - 0.05) == if rand < 0.09 then STAR else Pick(w[3..], rand - 0.09);
    assert Pick(w[1..], rand - 0.02) == if rand < 0.05 then CLOCK else Pick(w[2..], rand - 0.05);
  }

  /** The same for the inventory screen's table. */
  lemma ScreenKindFollowsWeights(rand: real)
    ensures ScreenKind(rand) == Pick(ScreenWeights, rand)
  {
    var w := ScreenWeights;
    assert Pick(w[7..], rand - 0.45) == NORMAL;
    assert Pick(w[6..], rand - 0.28) == if rand < 0.45 then ROTTEN else NORMAL;
    assert Pick(w[5..], rand - 0.18) == if rand < 0.28 then GOLDEN else Pick(w[6..], rand - 0.28);
    assert Pick(w[4..], rand - 0.11) == if rand < 0.18 then BOMB else Pick(w[5..], rand - 0.18);
    assert Pick(w[3..], rand - 0.08) == if rand < 0.11 then MAGNET else Pick(w[4..], rand - 0.11);
    assert Pick(w[2..], rand - 0.05) == if rand < 0.08 then STAR else Pick(w[3..], rand - 0.08);
    assert Pick(w[1..], rand - 0.02) == if rand < 0.05 then CLOCK else Pick(w[2..], rand - 0.05);
  }

  /** The classic loops never create a magnet or a frenzy item; the
      inventory screen never creates a frenzy item. */
  lemma SpawnedKinds(rand: real)
    ensures ClassicKind(rand) !in {MAGNET, FRENZY}
    ensures ScreenKind(rand) != FRENZY
  {
  }

  /** Width of a new item of type `t` (bombs and clocks are circles given by radius). */
  function ItemWidth(t: ItemType): (w: real)
    ensures 0.0 < w <= GAME_WIDTH
  {
    match t
    case BOMB => BOMB_RADIUS * 2.0
    case HEART => HEART_WIDTH
    case CLOCK => CLOCK_RADIUS * 2.0
    case STAR => STAR_WIDTH
    case MAGNET => MAGNET_WIDTH
    case _ => EGG_WIDTH
  }

  function ItemHeight(t: ItemType): (h: real)
    ensures h > 0.0
  {
    match t
    case BOMB => BOMB_RADIUS * 2.0
    case HEART => HEART_HEIGHT
    case CLOCK => CLOCK_RADIUS * 2.0
    case STAR => STAR_HEIGHT
    case MAGNET => MAGNET_HEIGHT
    case _ => EGG_HEIGHT
  }

  /** The three uniform draws one spawn consumes: the band value choosing
      the type, the horizontal position fraction and the sideways drift. */
  datatype SpawnDraw = SpawnDraw(band: real, xDraw: real, drift: real)

  /** The item that `spawnItem` pushes for type `t`, id `id`, horizontal draw
      `xDraw` and drift draw `driftDraw`: it starts just above the visible
      area with no vertical speed (the integrator sets that). */
  function NewItem(t: ItemType, id: int, xDraw: real, driftDraw: real): (e: Item)
    ensures e.id == id && e.kind == t && e.width == ItemWidth(t) && e.height == ItemHeight(t)
    ensures e.y == -e.height && e.vy == 0.0
    ensures 0.0 <= xDraw <= 1.0 ==> 0.0 <= e.x <= GAME_WIDTH - e.width
    ensures 0.0 <= driftDraw <= 1.0 ==> -SPAWN_DRIFT / 2.0 <= e.vx <= SPAWN_DRIFT / 2.0
    ensures e.vx == (driftDraw - 0.5) * SPAWN_DRIFT && e.x == xDraw * (GAME_WIDTH - e.width)
  {
    var w := ItemWidth(t);
    var h := ItemHeight(t);
    Item(id, t, xDraw * (GAME_WIDTH - w), -h, w, h, (driftDraw - 0.5) * SPAWN_DRIFT, 0.0)
  }
}
