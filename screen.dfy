/** The in-component game loop of src/screens/GameScreen.tsx: every
    `useRef` cell is a field of one object, the inventory is a fixed array of
    three slots written in place, and each procedure is proved to compute
    the corresponding rule of module ScreenRules. Random draws, the square
    root of the magnet and the `isPaused` prop are parameters. */
module Screen {
  import opened Wrappers
  import opened Constants
  import opened Types
  import opened Sequences
  import opened Physics
  import opened Spawning
  import opened Difficulty
  import opened Effects
  import opened ScreenRules

  class GameScreen {
    /** `user?.isAdmin`, fixed for the life of the component. */
    const isAdmin: bool
    var score: int
    var lives: int
    var playerX: real
    var eggs: seq<Item>
    /** The three power-up slots; `None` is an empty slot. */
    const inventory: array<Option<ItemType>>
    var input: Input
    var spawnTimer: real
    var shake: Shake
    var comboCounter: int
    var comboActive: bool
    var comboTimer: real
    var slowMoTimer: real
    var scoreMultiplier: int
    var multiplierTimer: real
    var magnetTimer: real
    var stats: Stats

    /** The current value of the refs. */
    function View(): ScreenState
      reads this, inventory
    {
      ScreenState(score, lives, playerX, eggs, inventory[..], input, spawnTimer, shake, comboCounter,
                  comboActive, comboTimer, slowMoTimer, scoreMultiplier, multiplierTimer, magnetTimer, stats)
    }

    /** The refs as the component mounts for a user who is or is not an admin. */
    constructor (isAdmin: bool)
      ensures this.isAdmin == isAdmin && fresh(inventory)
      ensures View() == ScreenInitial(isAdmin)
    {
      this.isAdmin := isAdmin;
      score := 0;
      lives := if isAdmin then ADMIN_LIVES else MAX_LIVES;
      playerX := GAME_WIDTH / 2.0 - PLAYER_WIDTH / 2.0;
      eggs := [];
      inventory := new Option<ItemType>[3](_ => None);
      input := Input(false, false, None);
      spawnTimer := 0.0;
      shake := NoShake;
      comboCounter, comboActive, comboTimer := 0, false, 0.0;
      slowMoTimer, scoreMultiplier, multiplierTimer, magnetTimer := 0.0, 1, 0.0, 0.0;
      stats := ZeroStats;
      new;
      assert inventory[..] == [None, None, None];
    }

    // ----- The inventory -----

    /** `useInventoryItem(slot)`. */
    method UseInventoryItem(slot: int)
      modifies this, inventory
      ensures View() == UseSlot(old(View()), slot)
    {
      if !(0 <= slot < inventory.Length) || inventory[slot].None? {
        return;
      }
      var itemType := inventory[slot].value;
      inventory[slot] := None;
      match itemType {
        case CLOCK =>
          slowMoTimer := SLOW_MOTION_DURATION;
        case STAR =>
          multiplierTimer := MULTIPLIER_DURATION;
          scoreMultiplier := SCORE_MULTIPLIER;
        case MAGNET =>
          magnetTimer := MAGNET_DURATION;
        case _ =>
      }
    }

    /** The slot keys of the key-down handler. */
    method PressKey(key: string)
      modifies this, inventory
      ensures View() == match KeySlot(key) case Some(k) => UseSlot(old(View()), k) case None => old(View())
    {
      if LexLe("1", key) && LexLe(key, "3") {
        UseInventoryItem(LeadingDigits(key, 0) - 1);
      }
    }

    /** `inventory.findIndex(i => i === null)`. */
    method FindEmptySlot() returns (k: int)
      ensures k == FirstEmpty(inventory[..])
    {
      k := 0;
      while k < inventory.Length && inventory[k].Some?
        invariant 0 <= k <= inventory.Length
        invariant forall i :: 0 <= i < k ==> inventory[i].Some?
      {
        k := k + 1;
      }
      if k == inventory.Length {
        k := -1;
      }
    }

    /** Put a caught power-up into the first empty slot, if there is one. */
    method StoreItem(t: ItemType)
      modifies inventory
      ensures inventory[..] == Store(old(inventory[..]), t)
    {
      var emptySlot := FindEmptySlot();
      if emptySlot != -1 {
        inventory[emptySlot] := Some(t);
      }
    }

    // ----- Catches and misses -----

    /** The type `switch` of the catch pass; returns the points earned. */
    method CatchSwitch(egg: Item) returns (pointsEarned: int)
      modifies this, inventory
      ensures View() == ScreenCatchSwitch(old(View()), egg, isAdmin)
      ensures pointsEarned == ScreenPoints(egg.kind)
    {
      pointsEarned := 0;
      match egg.kind {
        case NORMAL =>
          pointsEarned := SCORE_NORMAL;
        case GOLDEN =>
          pointsEarned := SCORE_GOLDEN;
          stats := stats.(goldenEggs := stats.goldenEggs + 1);
        case ROTTEN =>
          if !isAdmin {
            lives := lives - 1;
          }
          stats := stats.(rottenHit := stats.rottenHit + 1);
          shake := ROTTEN_SHAKE;
        case BOMB =>
          if !isAdmin {
            lives := lives - 1;
          }
          stats := stats.(bombsHit := stats.bombsHit + 1);
          shake := BOMB_SHAKE;
        case HEART =>
          if lives < MAX_LIVES && !isAdmin {
            lives := lives + 1;
          }
        case CLOCK =>
          StoreItem(CLOCK);
        case STAR =>
          StoreItem(STAR);
          stats := stats.(starsCaught := stats.starsCaught + 1);
        case MAGNET =>
          StoreItem(MAGNET);
          stats := stats.(magnetsCaught := stats.magnetsCaught + 1);
        case FRENZY =>
      }
    }

    /** One caught item: the switch, then the combo and the score. */
    method CatchOne(egg: Item)
      modifies this, inventory
      ensures View() == ScreenCatch(old(View()), egg, isAdmin)
    {
      var pointsEarned := CatchSwitch(egg);
      if pointsEarned > 0 {
        comboCounter := comboCounter + 1;
        if comboCounter >= COMBO_THRESHOLD {
          comboActive := true;
          comboTimer := COMBO_DURATION;
        }
        var finalPoints := pointsEarned * (if comboActive then 2 else 1) * scoreMultiplier;
        score := score + finalPoints;
      } else if egg.kind == ROTTEN || egg.kind == BOMB {
        comboCounter := 0;
        comboActive := false;
      }
    }

    /** One item past the bottom. */
    method MissOne(egg: Item)
      modifies this
      ensures View() == ScreenMiss(old(View()), egg, isAdmin)
    {
      if (egg.kind == NORMAL || egg.kind == GOLDEN) && !isAdmin {
        lives := lives - 1;
        comboCounter := 0;
        comboActive := false;
      }
    }

    /** The catch `forEach`: resolve and mark every item in the basket. */
    method CatchPass(items: seq<Item>) returns (caughtEggs: set<int>)
      modifies this, inventory
      ensures View() == Catches(old(View()), items, isAdmin).state
      ensures caughtEggs == Catches(old(View()), items, isAdmin).ids
    {
      ghost var s0 := View();
      var px := playerX;
      caughtEggs := {};
      for i := 0 to |items|
        invariant View() == Catches(s0, items[..i], isAdmin).state
        invariant caughtEggs == Catches(s0, items[..i], isAdmin).ids
        invariant px == s0.playerX
      {
        CatchesIds(s0, items[..i], isAdmin);
        var egg := items[i];
        assert items[..i + 1][..i] == items[..i];
        if Caught(egg, px) {
          caughtEggs := caughtEggs + {egg.id};
          CatchOne(egg);
        }
      }
      assert items[..|items|] == items;
    }

    /** The miss `forEach`: resolve and mark every item past the bottom. */
    method MissPass(items: seq<Item>) returns (missedEggs: set<int>)
      modifies this
      ensures View() == Misses(old(View()), items, isAdmin).state
      ensures missedEggs == Misses(old(View()), items, isAdmin).ids
    {
      ghost var s0 := View();
      missedEggs := {};
      for i := 0 to |items|
        invariant View() == Misses(s0, items[..i], isAdmin).state
        invariant missedEggs == Misses(s0, items[..i], isAdmin).ids
      {
        var egg := items[i];
        assert items[..i + 1][..i] == items[..i];
        if PastBottom(egg) {
          missedEggs := missedEggs + {egg.id};
          MissOne(egg);
        }
      }
      assert items[..|items|] == items;
    }

    // ----- The phases before the passes -----

    /** Steer and clamp the player. */
    method MovePlayerStep(dt: real)
      modifies this
      ensures View() == old(View()).(playerX := MovePlayer(old(playerX), old(input), dt))
    {
      var x := playerX;
      if input.touchX.Some? {
        x := x + (input.touchX.value - PLAYER_WIDTH / 2.0 - x) * TOUCH_SMOOTHING;
      } else {
        if input.left {
          x := x - PLAYER_SPEED * dt;
        }
        if input.right {
          x := x + PLAYER_SPEED * dt;
        }
      }
      playerX := Max(0.0, Min(GAME_WIDTH - PLAYER_WIDTH, x));
    }

    /** `spawnItem` with the screen's band table. */
    method SpawnStep(logicDt: real, currentSpawnRate: real, draw: SpawnDraw, id: int)
      modifies this
      ensures View() == ScreenSpawn(old(View()), logicDt, currentSpawnRate, draw, id)
    {
      spawnTimer := spawnTimer + logicDt;
      if spawnTimer > currentSpawnRate {
        spawnTimer := 0.0;
        var kind := ScreenKind(draw.band);
        var width, height := ItemWidth(kind), ItemHeight(kind);
        eggs := eggs + [Item(id, kind, draw.xDraw * (GAME_WIDTH - width), -height, width, height,
                             (draw.drift - 0.5) * SPAWN_DRIFT, 0.0)];
      }
    }

    /** The timer block: slow motion, magnet, multiplier and combo. */
    method TimersStep(dt: real)
      modifies this
      ensures View() == ScreenTimers(old(View()), dt)
    {
      PowerUpTimersStep(dt);
      if comboActive {
        comboTimer := comboTimer - dt * 1000.0;
        if comboTimer <= 0.0 {
          comboActive := false;
        }
      }
      if shake.duration > 0.0 {
        shake := shake.(duration := shake.duration - dt * 1000.0);
      } else {
        shake := shake.(magnitude := 0.0);
      }
    }

    /** The three power-up timers of the timer block. */
    method PowerUpTimersStep(dt: real)
      modifies this
      ensures View() == old(View()).(
        slowMoTimer := ScreenTimers(old(View()), dt).slowMoTimer,
        magnetTimer := ScreenTimers(old(View()), dt).magnetTimer,
        multiplierTimer := ScreenTimers(old(View()), dt).multiplierTimer,
        scoreMultiplier := ScreenTimers(old(View()), dt).scoreMultiplier)
    {
      if slowMoTimer > 0.0 {
        slowMoTimer := Max(0.0, slowMoTimer - dt * 1000.0);
      }
      if magnetTimer > 0.0 {
        magnetTimer := Max(0.0, magnetTimer - dt * 1000.0);
      }
      if multiplierTimer > 0.0 {
        multiplierTimer := multiplierTimer - dt * 1000.0;
        if multiplierTimer <= 0.0 {
          scoreMultiplier := 1;
        }
      }
    }

    /** The magnet's pull on one item, as in the movement `forEach`. */
    static method Pull(egg: Item, centerX: real, dt: real, norm: (real, real) -> real) returns (r: Item)
      ensures r == Attract(egg, centerX, dt, norm)
    {
      r := egg;
      var dx := centerX - (r.x + r.width / 2.0);
      var dy := (GAME_HEIGHT - PLAYER_HEIGHT + BASKET_OFFSET_Y) - (r.y + r.height / 2.0);
      var dist := norm(dx, dy);
      if dist > MAGNET_DEAD_ZONE {
        r := r.(vx := r.vx + dx / dist * MAGNET_ATTRACTION_FORCE * dt);
        r := r.(vy := r.vy + dy / dist * MAGNET_ATTRACTION_FORCE * dt);
      }
    }

    /** Integrate one item and bounce it off a side wall it touches. */
    static method Integrate(egg: Item, logicDt: real) returns (r: Item)
      ensures r == Advance(egg, logicDt)
    {
      r := egg.(y := egg.y + egg.vy * logicDt);
      r := r.(x := r.x + r.vx * logicDt);
      if r.x <= 0.0 || r.x + r.width >= GAME_WIDTH {
        r := r.(vx := r.vx * -1.0);
        r := r.(x := Max(0.0, Min(GAME_WIDTH - r.width, r.x)));
      }
    }

    /** The body of the movement `forEach` for one item. */
    static method FallOne(egg: Item, speed: real, magnetOn: bool, centerX: real, dt: real, logicDt: real,
                          norm: (real, real) -> real) returns (r: Item)
      ensures r == ScreenFall(egg, speed, magnetOn, centerX, dt, logicDt, norm)
    {
      r := egg.(vy := speed);
      if magnetOn && (r.kind == NORMAL || r.kind == GOLDEN || r.kind == HEART) {
        r := Pull(r, centerX, dt, norm);
      }
      r := Integrate(r, logicDt);
    }

    /** The movement `forEach` over the item list. */
    method MoveItems(speed: real, dt: real, logicDt: real, norm: (real, real) -> real)
      modifies this
      ensures View() == old(View()).(eggs := ScreenFallAll(old(eggs), speed,
                         old(magnetTimer) > 0.0, old(playerX) + PLAYER_WIDTH / 2.0, dt, logicDt, norm))
    {
      var basketCenterX := playerX + PLAYER_WIDTH / 2.0;
      var magnetOn := magnetTimer > 0.0;
      var items := eggs;
      for i := 0 to |items|
        invariant |items| == |old(eggs)|
        invariant forall k :: 0 <= k < i ==>
          items[k] == ScreenFall(old(eggs)[k], speed, magnetOn, basketCenterX, dt, logicDt, norm)
        invariant forall k :: i <= k < |items| ==> items[k] == old(eggs)[k]
        invariant unchanged(this)
      {
        var egg := FallOne(items[i], speed, magnetOn, basketCenterX, dt, logicDt, norm);
        items := items[i := egg];
      }
      assert items == ScreenFallAll(old(eggs), speed, magnetOn, basketCenterX, dt, logicDt, norm);
      eggs := items;
    }

    // ----- The frame -----

    /** The phases before the passes: player, spawn, timers and movement. */
    method PrepareStep(logicDt: real, dt: real, draw: SpawnDraw, id: int, norm: (real, real) -> real)
      requires logicDt == LogicDt(View(), dt)
      modifies this
      ensures View() == Prepared(old(View()), dt, draw, id, norm)
    {
      ghost var s0 := View();
      MovePlayerStep(dt);
      ghost var s1 := View();
      var difficultyLevel := score / DIFFICULTY_SCORE_INTERVAL;
      var currentSpawnRate := Max(MIN_SPAWN_RATE, INITIAL_SPAWN_RATE - difficultyLevel as real * SPAWN_RATE_DECREASE_PER_INTERVAL);
      assert currentSpawnRate == StepSpawnRate(s0.score);
      SpawnStep(logicDt, currentSpawnRate, draw, id);
      ghost var s2 := View();
      assert s2 == ScreenSpawn(s1, logicDt, StepSpawnRate(s0.score), draw, id);
      TimersStep(dt);
      ghost var s3 := View();
      assert s3 == ScreenTimers(s2, dt);
      var eggBaseSpeed := INITIAL_EGG_SPEED + difficultyLevel as real * SPEED_INCREASE_PER_INTERVAL;
      assert eggBaseSpeed == StepSpeed(s0.score);
      MoveItems(eggBaseSpeed, dt, logicDt, norm);
      assert View() == Moved(s3, dt, logicDt, norm);
    }

    /** The catch pass, the miss pass over the same list, the filter, and
        the game-over test. */
    method ResolveStep() returns (gameOver: Option<(int, Stats)>)
      modifies this, inventory
      ensures View() == Resolve(old(View()), isAdmin).state
      ensures gameOver == Resolve(old(View()), isAdmin).gameOver
    {
      ghost var s4 := View();
      var moved := eggs;
      var caughtEggs := CatchPass(moved);
      ghost var c := Catches(s4, s4.eggs, isAdmin);
      var missedEggs := MissPass(moved);
      ghost var m := Misses(c.state, s4.eggs, isAdmin);
      var kept := FilterLoop(moved, (e: Item) => e.id !in caughtEggs && e.id !in missedEggs);
      FilterCongruent(moved, (e: Item) => e.id !in caughtEggs && e.id !in missedEggs,
                      (e: Item) => e.id !in c.ids && e.id !in m.ids);
      eggs := kept;
      gameOver := None;
      if lives <= 0 {
        gameOver := Some((score, stats));
      }
    }

    /** The logic half of `gameLoop`; returns the score and stats passed to
        `onGameOver` when the lives have run out (the loop then stops). */
    method Frame(paused: bool, dt: real, draw: SpawnDraw, id: int, norm: (real, real) -> real)
      returns (gameOver: Option<(int, Stats)>)
      modifies this, inventory
      ensures View() == ScreenFrame(old(View()), isAdmin, paused, dt, draw, id, norm).state
      ensures gameOver == ScreenFrame(old(View()), isAdmin, paused, dt, draw, id, norm).gameOver
    {
      var logicDt := if slowMoTimer > 0.0 then dt * SLOW_MOTION_FACTOR else dt;
      gameOver := None;
      if paused {
        return;
      }
      PrepareStep(logicDt, dt, draw, id, norm);
      gameOver := ResolveStep();
    }
  }
}
