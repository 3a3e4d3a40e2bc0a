/** The rules of the in-component loop of src/screens/GameScreen.tsx as
    functions on a value of its state refs: the deferred power-up inventory,
    the magnet, admin immunity, the level-based difficulty and the separate
    catch and miss passes. The class in module Screen performs them in
    place and is proved to agree with these functions. */
module ScreenRules {
  import opened Wrappers
  import opened Constants
  import opened Types
  import opened Sequences
  import opened Physics
  import opened Spawning
  import opened Difficulty
  import opened Effects

  type Inventory = seq<Option<ItemType>>

  /** The value of the screen's state refs (the particle and floating-text
      refs are never updated by this loop and are not part of the value). */
  datatype ScreenState = ScreenState(
    score: int,
    lives: int,
    playerX: real,
    eggs: seq<Item>,
    inventory: Inventory,
    input: Input,
    spawnTimer: real,
    shake: Shake,
    comboCounter: int,
    comboActive: bool,
    comboTimer: real,
    slowMoTimer: real,
    scoreMultiplier: int,
    multiplierTimer: real,
    magnetTimer: real,
    stats: Stats)

  /** The refs as the component mounts: an admin starts with 99 lives,
      everyone else with three; three empty slots; everything else as in
      the modern initial state, plus an idle magnet. */
  function ScreenInitial(isAdmin: bool): (s: ScreenState)
    ensures s.lives == (if isAdmin then ADMIN_LIVES else MAX_LIVES) && s.score == 0
    ensures s.inventory == [None, None, None] && |s.inventory| == INVENTORY_SIZE
    ensures s.playerX + PLAYER_WIDTH / 2.0 == GAME_WIDTH / 2.0 && s.eggs == []
    ensures s.magnetTimer == 0.0 && s.slowMoTimer == 0.0 && s.multiplierTimer == 0.0 && s.scoreMultiplier == 1
    ensures s.stats == ZeroStats && s.comboCounter == 0 && !s.comboActive
  {
    ScreenState(0, if isAdmin then ADMIN_LIVES else MAX_LIVES, GAME_WIDTH / 2.0 - PLAYER_WIDTH / 2.0, [],
                [None, None, None], Input(false, false, None), 0.0, NoShake, 0, false, 0.0, 0.0, 1, 0.0, 0.0, ZeroStats)
  }

  /** The screen's running invariant: score, counters and the positive
      timers non-negative, the multiplier one or two, the player on the
      field, and three slots holding nothing but power-ups. */
  predicate ScreenValid(s: ScreenState) {
    s.score >= 0 && s.comboCounter >= 0
    && (s.scoreMultiplier == 1 || s.scoreMultiplier == SCORE_MULTIPLIER)
    && 0.0 <= s.playerX <= MAX_PLAYER_X
    && s.slowMoTimer >= 0.0 && s.magnetTimer >= 0.0
    && |s.inventory| == INVENTORY_SIZE
    && (forall i :: 0 <= i < |s.inventory| && s.inventory[i].Some? ==> IsPowerUp(s.inventory[i].value))
    && StatsNonNegative(s.stats)
  }

  lemma ScreenInitialIsValid(isAdmin: bool)
    ensures ScreenValid(ScreenInitial(isAdmin))
  {
  }

  // ----- The inventory -----

  /** `findIndex(i => i === null)`: the first empty slot, or -1. */
  function FirstEmpty(inv: Inventory): (k: int)
    ensures -1 <= k < |inv|
    ensures k == -1 <==> forall i :: 0 <= i < |inv| ==> inv[i].Some?
    ensures k >= 0 ==> inv[k] == None && forall i :: 0 <= i < k ==> inv[i].Some?
  {
    if inv == [] then -1
    else if inv[0] == None then 0
    else
      var k := FirstEmpty(inv[1..]);
      if k == -1 then -1 else k + 1
  }

  /** A caught power-up goes into the first empty slot; with every slot full
      it is lost. */
  function Store(inv: Inventory, t: ItemType): (r: Inventory)
    ensures |r| == |inv|
  {
    var k := FirstEmpty(inv);
    if k == -1 then inv else inv[k := Some(t)]
  }

  /** Storing fills exactly the first empty slot and no other, or changes
      nothing when the inventory is full. */
  lemma StoreSpec(inv: Inventory, t: ItemType)
    ensures (forall i :: 0 <= i < |inv| ==> inv[i].Some?) ==> Store(inv, t) == inv
    ensures forall j :: 0 <= j < |inv| && inv[j] == None && (forall i :: 0 <= i < j ==> inv[i].Some?) ==>
      Store(inv, t) == inv[j := Some(t)]
  {
    forall j | 0 <= j < |inv| && inv[j] == None && (forall i :: 0 <= i < j ==> inv[i].Some?)
      ensures Store(inv, t) == inv[j := Some(t)]
    {
      var k := FirstEmpty(inv);
      assert k != -1;
      assert !(k < j) && !(j < k);
    }
  }

  /** `useInventoryItem(slot)`: an out-of-range or empty slot changes nothing;
      otherwise the slot is emptied and the stored power-up takes effect. */
  function UseSlot(s: ScreenState, slot: int): ScreenState {
    if 0 <= slot < |s.inventory| && s.inventory[slot].Some? then
      var t := s.inventory[slot].value;
      var cleared := s.(inventory := s.inventory[slot := None]);
      match t
      case CLOCK => cleared.(slowMoTimer := SLOW_MOTION_DURATION)
      case STAR => cleared.(multiplierTimer := MULTIPLIER_DURATION, scoreMultiplier := SCORE_MULTIPLIER)
      case MAGNET => cleared.(magnetTimer := MAGNET_DURATION)
      case _ => cleared
    else s
  }

  /** Using an empty or out-of-range slot is a no-op. */
  lemma UseEmptySlot(s: ScreenState, slot: int)
    requires !(0 <= slot < |s.inventory|) || s.inventory[slot] == None
    ensures UseSlot(s, slot) == s
  {
  }

  /** Using a filled slot empties that slot only and sets exactly one effect:
      a clock starts slow motion, a star the multiplier, a magnet the magnet;
      nothing else changes. */
  lemma UseFilledSlot(s: ScreenState, slot: int)
    requires 0 <= slot < |s.inventory| && s.inventory[slot].Some? && IsPowerUp(s.inventory[slot].value)
    ensures var r := UseSlot(s, slot);
      && r.inventory == s.inventory[slot := None]
      && (s.inventory[slot].value == CLOCK ==> r == s.(inventory := r.inventory, slowMoTimer := SLOW_MOTION_DURATION))
      && (s.inventory[slot].value == STAR ==>
            r == s.(inventory := r.inventory, multiplierTimer := MULTIPLIER_DURATION, scoreMultiplier := SCORE_MULTIPLIER))
      && (s.inventory[slot].value == MAGNET ==> r == s.(inventory := r.inventory, magnetTimer := MAGNET_DURATION))
  {
  }

  /** Using a slot keeps the invariant. */
  lemma UseSlotKeepsValid(s: ScreenState, slot: int)
    requires ScreenValid(s)
    ensures ScreenValid(UseSlot(s, slot))
  {
  }

  // ----- The key-to-slot mapping -----

  /** JavaScript's `<=` on strings: lexicographic order of the code units. */
  predicate LexLe(a: string, b: string) {
    |a| == 0 || (|b| > 0 && (a[0] < b[0] || (a[0] == b[0] && LexLe(a[1..], b[1..]))))
  }

  predicate IsDigit(c: char) { '0' <= c <= '9' }

  /** The value of the leading decimal digits of `s`, accumulated onto `acc`
      (`parseInt` on a string that starts with a digit). */
  function LeadingDigits(s: string, acc: int): int {
    if s == [] || !IsDigit(s[0]) then acc
    else LeadingDigits(s[1..], acc * 10 + (s[0] as int - '0' as int))
  }

  /** The key handler's slot: a key between "1" and "3" in string order
      selects slot `parseInt(key) - 1`; other keys select nothing. */
  function KeySlot(key: string): (r: Option<int>)
    ensures r.Some? ==> |key| > 0 && '1' <= key[0] <= '3'
  {
    if LexLe("1", key) && LexLe(key, "3") then Some(LeadingDigits(key, 0) - 1) else None
  }

  /** The single keys "1", "2" and "3" select slots 0, 1 and 2; no other
      single character selects a slot. */
  lemma KeySlotOfChar(c: char)
    ensures KeySlot([c]) == if '1' <= c <= '3' then Some(c as int - '1' as int) else None
  {
    assert [c][1..] == [] && "1"[1..] == [] && "3"[1..] == [];
    assert LexLe("1", [c]) <==> '1' <= c;
    assert LexLe([c], "3") <==> c <= '3';
    if IsDigit(c) {
      assert LeadingDigits([c], 0) == LeadingDigits([], c as int - '0' as int);
    }
  }

  // ----- Difficulty, timers and the magnet -----

  /** The timer block: slow motion and the magnet count down and clamp at
      zero; the multiplier and combo timers count down unclamped, the
      multiplier falling back to one and the combo switching off once its
      timer is spent; then the screen shake ticks. */
  function ScreenTimers(s: ScreenState, dt: real): ScreenState {
    var slow := if s.slowMoTimer > 0.0 then Max(0.0, s.slowMoTimer - dt * 1000.0) else s.slowMoTimer;
    var mag := if s.magnetTimer > 0.0 then Max(0.0, s.magnetTimer - dt * 1000.0) else s.magnetTimer;
    var mt := if s.multiplierTimer > 0.0 then s.multiplierTimer - dt * 1000.0 else s.multiplierTimer;
    var mult := if s.multiplierTimer > 0.0 && mt <= 0.0 then 1 else s.scoreMultiplier;
    var ct := if s.comboActive then s.comboTimer - dt * 1000.0 else s.comboTimer;
    var active := s.comboActive && ct > 0.0;
    s.(slowMoTimer := slow, magnetTimer := mag, multiplierTimer := mt, scoreMultiplier := mult,
       comboTimer := ct, comboActive := active, shake := ScreenShakeTick(s.shake, dt))
  }

  /** Slow motion and the magnet never go below zero; the multiplier and
      combo timers can (a 100 ms multiplier after a one-second frame stands
      at -900 ms); the multiplier is reset exactly when a running timer is
      spent, and the combo counter is kept. */
  lemma ScreenTimersSpec(s: ScreenState, dt: real)
    requires s.slowMoTimer >= 0.0 && s.magnetTimer >= 0.0
    ensures ScreenTimers(s, dt).slowMoTimer >= 0.0 && ScreenTimers(s, dt).magnetTimer >= 0.0
    ensures ScreenTimers(s, dt).scoreMultiplier ==
      (if s.multiplierTimer > 0.0 && ScreenTimers(s, dt).multiplierTimer <= 0.0 then 1 else s.scoreMultiplier)
    ensures ScreenTimers(s, dt).comboActive <==> s.comboActive && ScreenTimers(s, dt).comboTimer > 0.0
    ensures ScreenTimers(s, dt).comboCounter == s.comboCounter
    ensures s.multiplierTimer == 100.0 && dt == 1.0 ==> ScreenTimers(s, dt).multiplierTimer == -900.0
  {
  }

  /** The types the magnet pulls. */
  predicate Attractable(t: ItemType) {
    t == NORMAL || t == GOLDEN || t == HEART
  }

  /** The magnet's pull on one item toward the basket centre: the velocity
      gains force * dt along the unit vector (dx, dy) / dist, unless the item
      is within the dead zone. `norm` stands for `Math.sqrt(dx*dx + dy*dy)`. */
  function Attract(e: Item, centerX: real, dt: real, norm: (real, real) -> real): Item {
    var dx := centerX - (e.x + e.width / 2.0);
    var dy := BASKET_Y - (e.y + e.height / 2.0);
    var dist := norm(dx, dy);
    if dist > MAGNET_DEAD_ZONE then
      e.(vx := e.vx + dx / dist * MAGNET_ATTRACTION_FORCE * dt, vy := e.vy + dy / dist * MAGNET_ATTRACTION_FORCE * dt)
    else e
  }

  /** One item's motion in the screen loop: base speed, the magnet's pull
      while it runs, then the usual integration and wall bounce. */
  function ScreenFall(e: Item, speed: real, magnetOn: bool, centerX: real, dt: real, logicDt: real,
                      norm: (real, real) -> real): Item {
    var e1 := e.(vy := speed);
    Advance(if magnetOn && Attractable(e.kind) then Attract(e1, centerX, dt, norm) else e1, logicDt)
  }

  /** Without a running magnet, or for a type the magnet ignores (bombs
      among them), an item falls exactly as in the other loops. */
  lemma MagnetOnlyPullsAttractable(e: Item, speed: real, magnetOn: bool, centerX: real, dt: real, logicDt: real,
                                   norm: (real, real) -> real)
    requires !magnetOn || !Attractable(e.kind)
    ensures ScreenFall(e, speed, magnetOn, centerX, dt, logicDt, norm) == Fall(e, speed, logicDt)
  {
  }

  /** A pulled item keeps its identity and size, and stays on the field. */
  lemma ScreenFallGeometry(e: Item, speed: real, magnetOn: bool, centerX: real, dt: real, logicDt: real,
                           norm: (real, real) -> real)
    requires e.width <= GAME_WIDTH
    ensures var r := ScreenFall(e, speed, magnetOn, centerX, dt, logicDt, norm);
      r.id == e.id && r.kind == e.kind && r.width == e.width && 0.0 <= r.x <= GAME_WIDTH - r.width
  {
  }

  function ScreenFallAll(eggs: seq<Item>, speed: real, magnetOn: bool, centerX: real, dt: real, logicDt: real,
                         norm: (real, real) -> real): (r: seq<Item>)
    ensures |r| == |eggs|
    ensures forall i :: 0 <= i < |eggs| ==> r[i] == ScreenFall(eggs[i], speed, magnetOn, centerX, dt, logicDt, norm)
  {
    seq(|eggs|, i requires 0 <= i < |eggs| => ScreenFall(eggs[i], speed, magnetOn, centerX, dt, logicDt, norm))
  }

  // ----- Catches and misses -----

  /** The type `switch` of a screen catch: points for eggs, lives (never for
      an admin) and shakes for hazards, a capped heart (never for an admin),
      and power-ups into the inventory. Frenzy items have no case. */
  function ScreenCatchSwitch(s: ScreenState, e: Item, isAdmin: bool): ScreenState {
    match e.kind
    case NORMAL => s
    case GOLDEN => s.(stats := s.stats.(goldenEggs := s.stats.goldenEggs + 1))
    case ROTTEN => s.(lives := if isAdmin then s.lives else s.lives - 1,
                      stats := s.stats.(rottenHit := s.stats.rottenHit + 1), shake := ROTTEN_SHAKE)
    case BOMB => s.(lives := if isAdmin then s.lives else s.lives - 1,
                    stats := s.stats.(bombsHit := s.stats.bombsHit + 1), shake := BOMB_SHAKE)
    case HEART => if s.lives < MAX_LIVES && !isAdmin then s.(lives := s.lives + 1) else s
    case CLOCK => s.(inventory := Store(s.inventory, CLOCK))
    case STAR => s.(inventory := Store(s.inventory, STAR), stats := s.stats.(starsCaught := s.stats.starsCaught + 1))
    case MAGNET => s.(inventory := Store(s.inventory, MAGNET), stats := s.stats.(magnetsCaught := s.stats.magnetsCaught + 1))
    case FRENZY => s
  }

  /** Points a screen catch awards before combo and multiplier. */
  function ScreenPoints(t: ItemType): (p: int)
    ensures p > 0 <==> IsScoring(t)
    ensures t == NORMAL ==> p == SCORE_NORMAL
    ensures t == GOLDEN ==> p == SCORE_GOLDEN
  {
    if t == NORMAL then SCORE_NORMAL else if t == GOLDEN then SCORE_GOLDEN else 0
  }

  /** One catch: the switch, then the combo and score for eggs, or a combo
      reset for rotten eggs and bombs only. */
  function ScreenCatch(s: ScreenState, e: Item, isAdmin: bool): ScreenState {
    var t := ScreenCatchSwitch(s, e, isAdmin);
    var base := ScreenPoints(e.kind);
    if base > 0 then
      var counter := t.comboCounter + 1;
      var active := if counter >= COMBO_THRESHOLD then true else t.comboActive;
      var timer := if counter >= COMBO_THRESHOLD then COMBO_DURATION else t.comboTimer;
      t.(comboCounter := counter, comboActive := active, comboTimer := timer,
         score := t.score + base * (if active then 2 else 1) * t.scoreMultiplier)
    else if e.kind == ROTTEN || e.kind == BOMB then
      t.(comboCounter := 0, comboActive := false)
    else t
  }

  /** One miss: a normal or golden egg costs a non-admin a life and the
      combo; anything else, or any miss by an admin, changes nothing. */
  function ScreenMiss(s: ScreenState, e: Item, isAdmin: bool): (r: ScreenState)
    ensures isAdmin || !IsScoring(e.kind) ==> r == s
    ensures IsScoring(e.kind) && !isAdmin ==> r == s.(lives := s.lives - 1, comboCounter := 0, comboActive := false)
  {
    if IsScoring(e.kind) && !isAdmin then s.(lives := s.lives - 1, comboCounter := 0, comboActive := false)
    else s
  }

  /** Catching a power-up stores it (or loses it when the inventory is
      full), counts stars and magnets, awards nothing and leaves the combo
      and lives alone. */
  lemma PowerUpCatch(s: ScreenState, e: Item, isAdmin: bool)
    requires IsPowerUp(e.kind)
    ensures var r := ScreenCatch(s, e, isAdmin);
      && r.inventory == Store(s.inventory, e.kind)
      && r.score == s.score && r.lives == s.lives
      && r.comboCounter == s.comboCounter && r.comboActive == s.comboActive && r.comboTimer == s.comboTimer
      && r.stats.starsCaught == s.stats.starsCaught + (if e.kind == STAR then 1 else 0)
      && r.stats.magnetsCaught == s.stats.magnetsCaught + (if e.kind == MAGNET then 1 else 0)
  {
  }

  /** Of the catches that award nothing, only rotten eggs and bombs reset the
      combo; every other one leaves it exactly as it was. */
  lemma OnlyHazardsResetCombo(s: ScreenState, e: Item, isAdmin: bool)
    requires !IsScoring(e.kind)
    ensures var r := ScreenCatch(s, e, isAdmin);
      if e.kind == ROTTEN || e.kind == BOMB then r.comboCounter == 0 && !r.comboActive
      else r.comboCounter == s.comboCounter && r.comboActive == s.comboActive && r.comboTimer == s.comboTimer
    ensures ScreenCatch(s, e, isAdmin).score == s.score
  {
  }

  /** An admin's lives are never changed by a catch or a miss. */
  lemma AdminLivesFixed(s: ScreenState, e: Item)
    ensures ScreenCatch(s, e, true).lives == s.lives
    ensures ScreenMiss(s, e, true).lives == s.lives
  {
  }

  /** For everyone else lives follow the hazards, the capped heart and the
      missed eggs. */
  lemma PlayerLives(s: ScreenState, e: Item)
    ensures ScreenCatch(s, e, false).lives ==
      if e.kind == ROTTEN || e.kind == BOMB then s.lives - 1
      else if e.kind == HEART && s.lives < MAX_LIVES then s.lives + 1
      else s.lives
    ensures ScreenMiss(s, e, false).lives == if IsScoring(e.kind) then s.lives - 1 else s.lives
  {
  }

  /** A scoring catch raises the combo counter by one, switches the combo on
      at the threshold with a full countdown (and otherwise leaves it as it
      was), and adds base x (2 if the combo is active else 1) x multiplier
      to the score; lives and the inventory are untouched. */
  lemma ScreenScoringCatch(s: ScreenState, e: Item, isAdmin: bool)
    requires IsScoring(e.kind)
    ensures var r := ScreenCatch(s, e, isAdmin);
      && r.comboCounter == s.comboCounter + 1
      && r.comboActive == (s.comboActive || s.comboCounter + 1 >= COMBO_THRESHOLD)
      && r.comboTimer == (if s.comboCounter + 1 >= COMBO_THRESHOLD then COMBO_DURATION else s.comboTimer)
      && r.score == s.score + ScreenPoints(e.kind) * (if r.comboActive then 2 else 1) * s.scoreMultiplier
      && r.lives == s.lives && r.inventory == s.inventory && r.scoreMultiplier == s.scoreMultiplier
  {
  }

  /** The stat counter a screen catch raises (golden eggs, rotten eggs,
      bombs, stars or magnets, one each) and the shake a hazard starts:
      8 px for 200 ms after a rotten egg, 20 px for 500 ms after a bomb.
      Any other catch leaves the counters and the shake alone. */
  lemma ScreenCatchStats(s: ScreenState, e: Item, isAdmin: bool)
    ensures var r := ScreenCatch(s, e, isAdmin);
      && (e.kind == GOLDEN ==> r.stats == s.stats.(goldenEggs := s.stats.goldenEggs + 1))
      && (e.kind == ROTTEN ==> r.stats == s.stats.(rottenHit := s.stats.rottenHit + 1) && r.shake == ROTTEN_SHAKE)
      && (e.kind == BOMB ==> r.stats == s.stats.(bombsHit := s.stats.bombsHit + 1) && r.shake == BOMB_SHAKE)
      && (e.kind == STAR ==> r.stats == s.stats.(starsCaught := s.stats.starsCaught + 1))
      && (e.kind == MAGNET ==> r.stats == s.stats.(magnetsCaught := s.stats.magnetsCaught + 1))
      && (!(e.kind == GOLDEN || e.kind == ROTTEN || e.kind == BOMB || e.kind == STAR || e.kind == MAGNET) ==>
            r.stats == s.stats)
      && (!(e.kind == ROTTEN || e.kind == BOMB) ==> r.shake == s.shake)
  {
  }

  /** Storing a power-up keeps every slot holding a power-up. */
  lemma StoreKeepsPowerUps(inv: Inventory, t: ItemType)
    requires IsPowerUp(t)
    requires forall i :: 0 <= i < |inv| && inv[i].Some? ==> IsPowerUp(inv[i].value)
    ensures forall i :: 0 <= i < |Store(inv, t)| && Store(inv, t)[i].Some? ==> IsPowerUp(Store(inv, t)[i].value)
  {
  }

  /** The type switch keeps the invariant, leaves the score alone and never
      lowers a counter. */
  lemma CatchSwitchKeepsValid(s: ScreenState, e: Item, isAdmin: bool)
    requires ScreenValid(s)
    ensures ScreenValid(ScreenCatchSwitch(s, e, isAdmin))
    ensures ScreenCatchSwitch(s, e, isAdmin).score == s.score
    ensures ScreenCatchSwitch(s, e, isAdmin).scoreMultiplier == s.scoreMultiplier
    ensures StatsLe(s.stats, ScreenCatchSwitch(s, e, isAdmin).stats)
  {
    if IsPowerUp(e.kind) {
      StoreKeepsPowerUps(s.inventory, e.kind);
    }
  }

  /** A catch keeps the invariant and never lowers the score or a counter. */
  lemma ScreenCatchKeepsValid(s: ScreenState, e: Item, isAdmin: bool)
    requires ScreenValid(s)
    ensures ScreenValid(ScreenCatch(s, e, isAdmin))
    ensures ScreenCatch(s, e, isAdmin).score >= s.score
    ensures StatsLe(s.stats, ScreenCatch(s, e, isAdmin).stats)
  {
    var t := ScreenCatchSwitch(s, e, isAdmin);
    CatchSwitchKeepsValid(s, e, isAdmin);
    var base := ScreenPoints(e.kind);
    if base > 0 {
      var k := if ScreenCatch(s, e, isAdmin).comboActive then 2 else 1;
      assert base * k > 0;
      assert base * k * t.scoreMultiplier > 0;
    }
  }

  /** The catch pass: every item overlapping the basket, in list order, is
      resolved and its id marked. */
  datatype Marked = Marked(state: ScreenState, ids: set<int>)

  function Catches(s: ScreenState, eggs: seq<Item>, isAdmin: bool): Marked {
    if eggs == [] then Marked(s, {})
    else
      var m := Catches(s, eggs[..|eggs| - 1], isAdmin);
      var e := eggs[|eggs| - 1];
      if Caught(e, m.state.playerX) then Marked(ScreenCatch(m.state, e, isAdmin), m.ids + {e.id}) else m
  }

  /** The miss pass over the same list: every item past the bottom. */
  function Misses(s: ScreenState, eggs: seq<Item>, isAdmin: bool): Marked {
    if eggs == [] then Marked(s, {})
    else
      var m := Misses(s, eggs[..|eggs| - 1], isAdmin);
      var e := eggs[|eggs| - 1];
      if PastBottom(e) then Marked(ScreenMiss(m.state, e, isAdmin), m.ids + {e.id}) else m
  }

  /** The catch pass marks exactly the ids of the items in the basket and
      leaves the player and the item list as they were. */
  lemma {:induction false} CatchesIds(s: ScreenState, eggs: seq<Item>, isAdmin: bool)
    ensures Catches(s, eggs, isAdmin).ids == set e | e in eggs && Caught(e, s.playerX) :: e.id
    ensures Catches(s, eggs, isAdmin).state.playerX == s.playerX
    ensures Catches(s, eggs, isAdmin).state.eggs == s.eggs
  {
    if eggs != [] {
      var init := eggs[..|eggs| - 1];
      CatchesIds(s, init, isAdmin);
      assert eggs == init + [eggs[|eggs| - 1]];
    }
  }

  /** The catch pass keeps the invariant and (for an admin) the lives; the
      score and counters only grow. */
  lemma {:induction false} CatchesKeepValid(s: ScreenState, eggs: seq<Item>, isAdmin: bool)
    requires ScreenValid(s)
    ensures ScreenValid(Catches(s, eggs, isAdmin).state)
    ensures Catches(s, eggs, isAdmin).state.score >= s.score
    ensures StatsLe(s.stats, Catches(s, eggs, isAdmin).state.stats)
    ensures isAdmin ==> Catches(s, eggs, isAdmin).state.lives == s.lives
  {
    if eggs != [] {
      var init := eggs[..|eggs| - 1];
      var e := eggs[|eggs| - 1];
      CatchesKeepValid(s, init, isAdmin);
      var m := Catches(s, init, isAdmin);
      if Caught(e, m.state.playerX) {
        ScreenCatchKeepsValid(m.state, e, isAdmin);
        AdminLivesFixed(m.state, e);
      }
    }
  }

  /** The miss pass marks exactly the ids of the items past the bottom and
      touches only lives and the combo; an admin's state is left as it was. */
  lemma {:induction false} MissesSpec(s: ScreenState, eggs: seq<Item>, isAdmin: bool)
    ensures Misses(s, eggs, isAdmin).ids == set e | e in eggs && PastBottom(e) :: e.id
    ensures Misses(s, eggs, isAdmin).state ==
      s.(lives := Misses(s, eggs, isAdmin).state.lives, comboCounter := Misses(s, eggs, isAdmin).state.comboCounter,
         comboActive := Misses(s, eggs, isAdmin).state.comboActive)
    ensures Misses(s, eggs, isAdmin).state.comboCounter == s.comboCounter || Misses(s, eggs, isAdmin).state.comboCounter == 0
    ensures isAdmin ==> Misses(s, eggs, isAdmin).state == s
  {
    if eggs != [] {
      var init := eggs[..|eggs| - 1];
      var e := eggs[|eggs| - 1];
      MissesSpec(s, init, isAdmin);
      assert eggs == init + [e];
    }
  }

  // ----- The frame -----

  /** The spawn block with the screen's band table. */
  function ScreenSpawn(s: ScreenState, logicDt: real, rate: real, draw: SpawnDraw, id: int): (r: ScreenState)
    ensures s.spawnTimer + logicDt > rate ==>
      r == s.(spawnTimer := 0.0, eggs := s.eggs + [NewItem(ScreenKind(draw.band), id, draw.xDraw, draw.drift)])
    ensures s.spawnTimer + logicDt <= rate ==> r == s.(spawnTimer := s.spawnTimer + logicDt)
  {
    var t := s.spawnTimer + logicDt;
    if t > rate then s.(spawnTimer := 0.0, eggs := s.eggs + [NewItem(ScreenKind(draw.band), id, draw.xDraw, draw.drift)])
    else s.(spawnTimer := t)
  }

  /** Slow motion halves the time that moves and spawns items. */
  function LogicDt(s: ScreenState, dt: real): real {
    if s.slowMoTimer > 0.0 then dt * SLOW_MOTION_FACTOR else dt
  }

  /** The outcome of a frame: the new refs and, when the lives have run out,
      the score and stats reported to `onGameOver` (the loop then stops). */
  datatype Frame = Frame(state: ScreenState, gameOver: Option<(int, Stats)>)

  /** The moved items of a frame, before the catch and miss passes. */
  function Moved(s: ScreenState, dt: real, logicDt: real, norm: (real, real) -> real): ScreenState {
    s.(eggs := ScreenFallAll(s.eggs, StepSpeed(s.score), s.magnetTimer > 0.0, s.playerX + PLAYER_WIDTH / 2.0,
                             dt, logicDt, norm))
  }

  /** Everything a frame does before the catch and miss passes: move the
      player, spawn on the level's interval, count the timers down and move
      the items at the level's speed (the magnet pulling if still running).
      The level is read from the score at the start of the frame. */
  function Prepared(s: ScreenState, dt: real, draw: SpawnDraw, id: int, norm: (real, real) -> real): ScreenState {
    var logicDt := LogicDt(s, dt);
    var s1 := s.(playerX := MovePlayer(s.playerX, s.input, dt));
    var s2 := ScreenSpawn(s1, logicDt, StepSpawnRate(s.score), draw, id);
    Moved(ScreenTimers(s2, dt), dt, logicDt, norm)
  }

  /** The catch pass, then the miss pass over the same list, then the
      filter that drops every marked id, and the game-over report. */
  function Resolve(s: ScreenState, isAdmin: bool): Frame {
    var c := Catches(s, s.eggs, isAdmin);
    var m := Misses(c.state, s.eggs, isAdmin);
    var r := m.state.(eggs := Filter(s.eggs, (e: Item) => e.id !in c.ids && e.id !in m.ids));
    Frame(r, if r.lives <= 0 then Some((r.score, r.stats)) else None)
  }

  /** The logic half of `gameLoop`: nothing while paused; otherwise prepare
      and resolve. */
  function ScreenFrame(s: ScreenState, isAdmin: bool, paused: bool, dt: real, draw: SpawnDraw, id: int,
                       norm: (real, real) -> real): Frame {
    if paused then Frame(s, None) else Resolve(Prepared(s, dt, draw, id, norm), isAdmin)
  }

  /** The preparation keeps the invariant and leaves score, lives and stats alone. */
  lemma PreparedSpec(s: ScreenState, dt: real, draw: SpawnDraw, id: int, norm: (real, real) -> real)
    requires ScreenValid(s)
    ensures var p := Prepared(s, dt, draw, id, norm);
      ScreenValid(p) && p.score == s.score && p.lives == s.lives && p.stats == s.stats
  {
    var logicDt := LogicDt(s, dt);
    var s1 := s.(playerX := MovePlayer(s.playerX, s.input, dt));
    var s2 := ScreenSpawn(s1, logicDt, StepSpawnRate(s.score), draw, id);
    ScreenTimersSpec(s2, dt);
  }

  /** Resolution keeps the invariant, never lowers the score or a counter,
      keeps an admin's lives, reports game over exactly when the lives are
      spent, and keeps exactly the items whose id no caught or missed item
      carries, in order. */
  lemma ResolveSpec(s: ScreenState, isAdmin: bool)
    requires ScreenValid(s)
    ensures var f := Resolve(s, isAdmin);
      && ScreenValid(f.state) && f.state.score >= s.score && StatsLe(s.stats, f.state.stats)
      && (isAdmin ==> f.state.lives == s.lives)
      && (f.gameOver.Some? <==> f.state.lives <= 0)
      && (f.gameOver.Some? ==> f.gameOver.value == (f.state.score, f.state.stats))
      && f.state.eggs == Filter(s.eggs, (e: Item) => !Resolved(s.eggs, s.playerX, e.id))
  {
    var c := Catches(s, s.eggs, isAdmin);
    CatchesIds(s, s.eggs, isAdmin);
    CatchesKeepValid(s, s.eggs, isAdmin);
    var m := Misses(c.state, s.eggs, isAdmin);
    MissesSpec(c.state, s.eggs, isAdmin);
    assert ScreenValid(m.state);
    forall i | 0 <= i < |s.eggs|
      ensures (s.eggs[i].id !in c.ids && s.eggs[i].id !in m.ids) == !Resolved(s.eggs, s.playerX, s.eggs[i].id)
    {
      var e := s.eggs[i];
      if Resolved(s.eggs, s.playerX, e.id) {
        var f :| f in s.eggs && f.id == e.id && (Caught(f, s.playerX) || PastBottom(f));
        if Caught(f, s.playerX) {
          assert e.id in c.ids;
        } else {
          assert e.id in m.ids;
        }
      }
    }
    FilterCongruent(s.eggs, (e: Item) => e.id !in c.ids && e.id !in m.ids,
                    (e: Item) => !Resolved(s.eggs, s.playerX, e.id));
  }

  /** A frame keeps the invariant and never lowers the score or a counter;
      a paused frame changes nothing; an admin's lives never change; an
      unpaused frame reports game over exactly when the lives are spent. */
  lemma FrameSpec(s: ScreenState, isAdmin: bool, paused: bool, dt: real, draw: SpawnDraw, id: int,
                  norm: (real, real) -> real)
    requires ScreenValid(s)
    ensures var f := ScreenFrame(s, isAdmin, paused, dt, draw, id, norm);
      && ScreenValid(f.state) && f.state.score >= s.score && StatsLe(s.stats, f.state.stats)
      && (paused ==> f == Frame(s, None))
      && (isAdmin ==> f.state.lives == s.lives)
      && (!paused ==> (f.gameOver.Some? <==> f.state.lives <= 0))
  {
    if !paused {
      PreparedSpec(s, dt, draw, id, norm);
      ResolveSpec(Prepared(s, dt, draw, id, norm), isAdmin);
    }
  }
}
