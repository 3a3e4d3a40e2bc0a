/** Kinematics shared by the three simulation loops: player steering and
    clamping, item integration with the side-wall bounce, and the basket
    hit test (src/game/logic.ts, src/screens/GameScreen.tsx and
    components/Game.tsx use the same formulas and constants). */
module Physics {
  import opened Wrappers
  import opened Constants
  import opened Types

  function Max(a: real, b: real): real { if a >= b then a else b }
  function Min(a: real, b: real): real { if a <= b then a else b }

  /** `Math.max(lo, Math.min(hi, v))`. */
  function Clamp(lo: real, hi: real, v: real): (r: real)
    ensures lo <= r
    ensures lo <= hi ==> r <= hi
    ensures lo <= v <= hi ==> r == v
    ensures v < lo ==> r == lo
    ensures lo <= hi < v ==> r == hi
  {
    Max(lo, Min(hi, v))
  }

  /** The unclamped player position after one frame of input: a touch point
      pulls the player's centre a fixed fraction of the way toward it and
      overrides the keys; otherwise left and right each move by speed * dt
      (both together cancel). */
  function Steer(x: real, input: Input, dt: real): real {
    match input.touchX
    case Some(t) => x + (t - PLAYER_WIDTH / 2.0 - x) * TOUCH_SMOOTHING
    case None =>
      var afterLeft := if input.left then x - PLAYER_SPEED * dt else x;
      if input.right then afterLeft + PLAYER_SPEED * dt else afterLeft
  }

  /** Player movement for one frame: steer, then clamp to the playfield. */
  function MovePlayer(x: real, input: Input, dt: real): (r: real)
    ensures 0.0 <= r <= MAX_PLAYER_X
    ensures 0.0 <= Steer(x, input, dt) <= MAX_PLAYER_X ==> r == Steer(x, input, dt)
  {
    Clamp(0.0, MAX_PLAYER_X, Steer(x, input, dt))
  }

  /** Holding both keys leaves a keyboard-driven player in place (up to the clamp). */
  lemma BothKeysCancel(x: real, dt: real)
    requires 0.0 <= x <= MAX_PLAYER_X
    ensures MovePlayer(x, Input(true, true, None), dt) == x
  {
  }

  /** With a touch point present the keys are ignored. */
  lemma TouchOverridesKeys(x: real, t: real, l1: bool, r1: bool, l2: bool, r2: bool, dt: real)
    ensures MovePlayer(x, Input(l1, r1, Some(t)), dt) == MovePlayer(x, Input(l2, r2, Some(t)), dt)
  {
  }

  /** Move an item by its velocity and bounce it off the side walls: when its
      horizontal extent touches or leaves the playfield the horizontal
      velocity flips sign and the position is clamped back inside. */
  function Advance(e: Item, logicDt: real): (r: Item)
    ensures r.id == e.id && r.kind == e.kind && r.width == e.width && r.height == e.height
    ensures r.vy == e.vy && r.y == e.y + e.vy * logicDt
    ensures r.vx == e.vx || r.vx == -e.vx
    ensures 0.0 <= r.x
    ensures e.width <= GAME_WIDTH ==> r.x <= GAME_WIDTH - r.width
    ensures var nx := e.x + e.vx * logicDt;
      (nx <= 0.0 || nx + e.width >= GAME_WIDTH) ==> r.vx == -e.vx && r.x == Clamp(0.0, GAME_WIDTH - e.width, nx)
    ensures var nx := e.x + e.vx * logicDt;
      !(nx <= 0.0 || nx + e.width >= GAME_WIDTH) ==> r.vx == e.vx && r.x == nx
  {
    var moved := e.(y := e.y + e.vy * logicDt, x := e.x + e.vx * logicDt);
    if moved.x <= 0.0 || moved.x + moved.width >= GAME_WIDTH then
      moved.(vx := -moved.vx, x := Clamp(0.0, GAME_WIDTH - moved.width, moved.x))
    else moved
  }

  /** An item well inside the walls keeps its drift and is only translated. */
  lemma AdvanceInterior(e: Item, logicDt: real)
    requires 0.0 < e.x + e.vx * logicDt && e.x + e.vx * logicDt + e.width < GAME_WIDTH
    ensures Advance(e, logicDt) == e.(x := e.x + e.vx * logicDt, y := e.y + e.vy * logicDt)
  {
  }

  /** The per-frame fall of the ratio-curve loops: every item's vertical
      speed is overwritten by the global base speed, then it advances. */
  function Fall(e: Item, speed: real, logicDt: real): (r: Item)
    ensures r.vy == speed && r.y == e.y + speed * logicDt
    ensures r.id == e.id && r.kind == e.kind && r.width == e.width && r.height == e.height
    ensures 0.0 <= r.x
    ensures e.width <= GAME_WIDTH ==> r.x <= GAME_WIDTH - r.width
    ensures var nx := e.x + e.vx * logicDt;
      (nx <= 0.0 || nx + e.width >= GAME_WIDTH) ==> r.vx == -e.vx && r.x == Clamp(0.0, GAME_WIDTH - e.width, nx)
    ensures var nx := e.x + e.vx * logicDt;
      !(nx <= 0.0 || nx + e.width >= GAME_WIDTH) ==> r.vx == e.vx && r.x == nx
  {
    Advance(e.(vy := speed), logicDt)
  }

  /** The per-frame fall of every item, in list order. */
  function FallAll(items: seq<Item>, speed: real, logicDt: real): (r: seq<Item>)
    ensures |r| == |items|
    ensures forall i :: 0 <= i < |items| ==> r[i] == Fall(items[i], speed, logicDt)
  {
    seq(|items|, i requires 0 <= i < |items| => Fall(items[i], speed, logicDt))
  }

  // The basket: a fixed-size rectangle centred under the player, offset from the player's top.
  const BASKET_Y: real := GAME_HEIGHT - PLAYER_HEIGHT + BASKET_OFFSET_Y

  function BasketX(playerX: real): real {
    playerX + (PLAYER_WIDTH - BASKET_WIDTH) / 2.0
  }

  /** Strict axis-aligned overlap of the item with the basket. */
  predicate Caught(e: Item, playerX: real) {
    e.y + e.height > BASKET_Y && e.y < BASKET_Y + BASKET_HEIGHT
    && e.x + e.width > BasketX(playerX) && e.x < BasketX(playerX) + BASKET_WIDTH
  }

  /** The item's top edge is below the playfield (strict `>`, so an item at
      exactly y == GAME_HEIGHT is not yet missed). */
  predicate PastBottom(e: Item) {
    e.y > GAME_HEIGHT
  }

  /** The basket lies wholly above the bottom edge, so no item is both caught
      and past the bottom in the same frame: the separate catch and miss
      passes of the two screen loops never resolve one item twice. */
  lemma CaughtIsNotMissed(e: Item, playerX: real)
    requires Caught(e, playerX)
    ensures !PastBottom(e)
  {
  }

  /** Some item with this id is in the basket or past the bottom: the two
      screen loops drop every item carrying such an id. */
  predicate Resolved(eggs: seq<Item>, playerX: real, id: int) {
    exists f :: f in eggs && f.id == id && (Caught(f, playerX) || PastBottom(f))
  }
}
