/** The older game loop of components/Game.tsx. Its refs are the same record
    as the modern state (src/game/state.ts was extracted from them), so the
    loop works on GameStateRef; it shares player movement, spawning with the
    classic band table, the fall and the effect helpers with the modern
    step, and differs in what this module states: power-ups act at once,
    the ratio curve starts from 1.2 s and 100 px/s, catches that award
    nothing leave the combo alone, every catch adds texts and particles, and
    the frame ends with the game-over test and the shake tick. */
module Legacy {
  import opened Wrappers
  import opened Constants
  import opened Types
  import opened Sequences
  import opened Physics
  import opened Spawning
  import opened Difficulty
  import opened GameState
  import opened Effects
  import opened Logic

  const PRIMARY_COLOR := "#0048ab"
  const ROTTEN_EGG_COLOR := "#d92626"
  const GOLDEN_EGG_COLOR := "#ffb833"
  const BOMB_COLOR := "#333333"
  const HEART_COLOR := "#e53e3e"
  const CLOCK_COLOR := "#3b82f6"
  const STAR_COLOR := "#ffde0a"

  // ----- Decimal text of the awarded points -----

  function DigitChar(d: int): char
    requires 0 <= d < 10
  {
    ('0' as int + d) as char
  }

  /** The decimal digits of `n`, as a template literal prints a non-negative integer. */
  function NatToString(n: nat): (s: string)
    ensures |s| >= 1 && forall i :: 0 <= i < |s| ==> '0' <= s[i] <= '9'
  {
    if n < 10 then [DigitChar(n)] else NatToString(n / 10) + [DigitChar(n % 10)]
  }

  /** The value of a string of decimal digits. */
  function DigitsValue(s: string): int {
    if s == [] then 0 else DigitsValue(s[..|s| - 1]) * 10 + (s[|s| - 1] as int - '0' as int)
  }

  /** Reading the printed digits back gives the number. */
  lemma {:induction false} NatToStringRoundTrip(n: nat)
    ensures DigitsValue(NatToString(n)) == n
  {
    var s := NatToString(n);
    if n >= 10 {
      NatToStringRoundTrip(n / 10);
      assert s[..|s| - 1] == NatToString(n / 10);
    } else {
      assert s[..|s| - 1] == [];
    }
  }

  /** The template literal of an integer: a minus sign before a negative one. */
  function IntToString(i: int): string {
    if i < 0 then "-" + NatToString(-i) else NatToString(i)
  }

  const HEART_TEXT := "+1 \U{2665}"
  const SLOW_TEXT := "SLOW!"
  const STAR_TEXT := "x" + NatToString(SCORE_MULTIPLIER) + " SCORE!"

  // ----- Effect helpers as values -----

  /** The state after `createParticles(x, y, color, count)`, the particle
      pushed at list length k taking draw `draw(k)`. */
  function Burst(s: Snapshot, x: real, y: real, color: string, count: nat, draw: nat -> ParticleDraw): (r: Snapshot)
    ensures |r.particles| == |s.particles| + count
  {
    s.(particles := s.particles + NewParticles(x, y, color, count, draw, |s.particles|))
  }

  /** The state after `addFloatingText(text, x, y)`. */
  function Say(s: Snapshot, text: string, x: real, y: real): (r: Snapshot)
    ensures r.floatingTexts == s.floatingTexts + [NewText(text, x, y)]
  {
    s.(floatingTexts := s.floatingTexts + [NewText(text, x, y)])
  }

  // ----- Catches and misses -----

  /** What the type `switch` leaves for the scoring tail: the points and the
      colour and size of the burst a scoring catch makes. */
  datatype Switched = Switched(state: Snapshot, points: int, color: string, count: nat)

  /** A rotten egg or a bomb: a life and a counter, a shake, and a burst
      at the item's centre. */
  function HazardHit(s: Snapshot, e: Item, draw: nat -> ParticleDraw): Snapshot {
    var cx := e.x + e.width / 2.0;
    var cy := e.y + e.height / 2.0;
    if e.kind == ROTTEN then
      Burst(s.(lives := s.lives - 1, stats := s.stats.(rottenHit := s.stats.rottenHit + 1), shake := ROTTEN_SHAKE),
            cx, cy, ROTTEN_EGG_COLOR, 15, draw)
    else
      Burst(s.(lives := s.lives - 1, stats := s.stats.(bombsHit := s.stats.bombsHit + 1), shake := BOMB_SHAKE),
            cx, cy, BOMB_COLOR, 30, draw)
  }

  /** A heart, clock or star: its effect at once, and a text at the item. */
  function PowerUpHit(s: Snapshot, e: Item): Snapshot {
    if e.kind == HEART then
      Say(if s.lives < MAX_LIVES then s.(lives := s.lives + 1) else s, HEART_TEXT, e.x, e.y)
    else if e.kind == CLOCK then
      Say(s.(slowMoTimer := SLOW_MOTION_DURATION), SLOW_TEXT, e.x, e.y)
    else
      Say(s.(multiplierTimer := MULTIPLIER_DURATION, scoreMultiplier := SCORE_MULTIPLIER,
             stats := s.stats.(starsCaught := s.stats.starsCaught + 1)), STAR_TEXT, e.x, e.y)
  }

  /** The type `switch` of a legacy catch. Power-ups take effect at once and
      restart their timers; magnet and frenzy items have no case. */
  function LegacySwitch(s: Snapshot, e: Item, draw: nat -> ParticleDraw): Switched {
    match e.kind
    case NORMAL => Switched(s, SCORE_NORMAL, PRIMARY_COLOR, 10)
    case GOLDEN => Switched(s.(stats := s.stats.(goldenEggs := s.stats.goldenEggs + 1)), SCORE_GOLDEN, GOLDEN_EGG_COLOR, 20)
    case ROTTEN => Switched(HazardHit(s, e, draw), 0, PRIMARY_COLOR, 10)
    case BOMB => Switched(HazardHit(s, e, draw), 0, PRIMARY_COLOR, 10)
    case HEART => Switched(PowerUpHit(s, e), 0, HEART_COLOR, 10)
    case CLOCK => Switched(PowerUpHit(s, e), 0, CLOCK_COLOR, 10)
    case STAR => Switched(PowerUpHit(s, e), 0, STAR_COLOR, 30)
    case MAGNET => Switched(s, 0, PRIMARY_COLOR, 10)
    case FRENZY => Switched(s, 0, PRIMARY_COLOR, 10)
  }

  /** The scoring tail: the combo counter goes up first, the combo switches
      on at the threshold, the points are base x combo factor x multiplier,
      and a "+N" text and a burst mark the catch. */
  function ScoreCatch(t: Snapshot, e: Item, points: int, color: string, count: nat, draw: nat -> ParticleDraw): Snapshot {
    var counter := t.comboCounter + 1;
    var active := if counter >= COMBO_THRESHOLD then true else t.comboActive;
    var timer := if counter >= COMBO_THRESHOLD then COMBO_DURATION else t.comboTimer;
    var doubled := if active then points * 2 else points;
    var finalPoints := doubled * t.scoreMultiplier;
    var u := t.(comboCounter := counter, comboActive := active, comboTimer := timer, score := t.score + finalPoints);
    Burst(Say(u, "+" + IntToString(finalPoints), e.x, e.y), e.x + e.width / 2.0, e.y + e.height / 2.0, color, count, draw)
  }

  /** One legacy catch: the switch, then the scoring tail for an egg.
      Nothing else touches the combo. */
  function LegacyCatch(s: Snapshot, e: Item, draw: nat -> ParticleDraw): Snapshot {
    var w := LegacySwitch(s, e, draw);
    if w.points > 0 then ScoreCatch(w.state, e, w.points, w.color, w.count, draw) else w.state
  }

  /** The miss test of the legacy loop: every type except the five it names. */
  predicate CostsLifeOnMiss(t: ItemType) {
    t != ROTTEN && t != BOMB && t != HEART && t != CLOCK && t != STAR
  }

  /** One legacy miss: a costly type takes a life, resets the combo and shakes. */
  function LegacyMiss(s: Snapshot, e: Item): (r: Snapshot)
    ensures !CostsLifeOnMiss(e.kind) ==> r == s
    ensures CostsLifeOnMiss(e.kind) ==> r.shake == ROTTEN_SHAKE && r.lives == s.lives - 1
  {
    if CostsLifeOnMiss(e.kind) then s.(lives := s.lives - 1, comboCounter := 0, comboActive := false, shake := ROTTEN_SHAKE)
    else s
  }

  /** Catching a clock or a star restarts its timer at the full duration and
      sets the multiplier to its one value, however many were caught before:
      nothing stacks. No catch of a non-scoring type touches the combo or
      the score. */
  lemma LegacyPowerUps(s: Snapshot, e: Item, draw: nat -> ParticleDraw)
    ensures e.kind == CLOCK ==> LegacyCatch(s, e, draw).slowMoTimer == SLOW_MOTION_DURATION
    ensures e.kind == STAR ==>
      LegacyCatch(s, e, draw).multiplierTimer == MULTIPLIER_DURATION && LegacyCatch(s, e, draw).scoreMultiplier == SCORE_MULTIPLIER
    ensures e.kind == STAR ==> LegacyCatch(LegacyCatch(s, e, draw), e, draw).scoreMultiplier == SCORE_MULTIPLIER
    ensures !IsScoring(e.kind) ==>
      var r := LegacyCatch(s, e, draw);
      r.comboCounter == s.comboCounter && r.comboActive == s.comboActive && r.comboTimer == s.comboTimer && r.score == s.score
  {
  }

  /** Lives after a legacy catch: rotten and bomb always cost one, a heart
      gives one only below the cap. */
  lemma LegacyCatchLives(s: Snapshot, e: Item, draw: nat -> ParticleDraw)
    ensures LegacyCatch(s, e, draw).lives ==
      if e.kind == ROTTEN || e.kind == BOMB then s.lives - 1
      else if e.kind == HEART && s.lives < MAX_LIVES then s.lives + 1
      else s.lives
  {
  }

  /** The stat counter a legacy catch raises (golden eggs, rotten eggs,
      bombs or stars, one each) and the shake a hazard starts: 8 px for
      200 ms after a rotten egg, 20 px for 500 ms after a bomb. Any other
      catch leaves the counters and the shake alone. */
  lemma LegacyCatchStats(s: Snapshot, e: Item, draw: nat -> ParticleDraw)
    ensures var r := LegacyCatch(s, e, draw);
      && (e.kind == GOLDEN ==> r.stats == s.stats.(goldenEggs := s.stats.goldenEggs + 1))
      && (e.kind == ROTTEN ==> r.stats == s.stats.(rottenHit := s.stats.rottenHit + 1) && r.shake == ROTTEN_SHAKE)
      && (e.kind == BOMB ==> r.stats == s.stats.(bombsHit := s.stats.bombsHit + 1) && r.shake == BOMB_SHAKE)
      && (e.kind == STAR ==> r.stats == s.stats.(starsCaught := s.stats.starsCaught + 1))
      && (!(e.kind == GOLDEN || e.kind == ROTTEN || e.kind == BOMB || e.kind == STAR) ==> r.stats == s.stats)
      && (!(e.kind == ROTTEN || e.kind == BOMB) ==> r.shake == s.shake)
  {
  }

  /** A scoring catch adds exactly one text, whose digits read back as the
      points added to the score, placed at the item. */
  lemma LegacyScoringText(s: Snapshot, e: Item, draw: nat -> ParticleDraw)
    requires IsScoring(e.kind) && s.scoreMultiplier >= 1
    ensures var r := LegacyCatch(s, e, draw);
      && |r.floatingTexts| == |s.floatingTexts| + 1
      && r.floatingTexts[..|s.floatingTexts|] == s.floatingTexts
      && var t := r.floatingTexts[|s.floatingTexts|];
         t.x == e.x && t.y == e.y && |t.text| >= 2 && t.text[0] == '+'
         && DigitsValue(t.text[1..]) == r.score - s.score > 0
  {
    var w := LegacySwitch(s, e, draw);
    assert w.state.scoreMultiplier == s.scoreMultiplier && w.state.floatingTexts == s.floatingTexts;
    assert w.state.score == s.score && w.points > 0;
    ScoreCatchText(w.state, e, w.points, w.color, w.count, draw);
  }

  /** The scoring tail's one text: "+" and the decimal digits of the points
      it adds to the score. */
  lemma ScoreCatchText(t: Snapshot, e: Item, points: int, color: string, count: nat, draw: nat -> ParticleDraw)
    requires points > 0 && t.scoreMultiplier >= 1
    ensures var r := ScoreCatch(t, e, points, color, count, draw);
      && |r.floatingTexts| == |t.floatingTexts| + 1
      && r.floatingTexts[..|t.floatingTexts|] == t.floatingTexts
      && var x := r.floatingTexts[|t.floatingTexts|];
         x.x == e.x && x.y == e.y && |x.text| >= 2 && x.text[0] == '+'
         && DigitsValue(x.text[1..]) == r.score - t.score > 0
  {
    var counter := t.comboCounter + 1;
    var active := if counter >= COMBO_THRESHOLD then true else t.comboActive;
    var doubled := if active then points * 2 else points;
    var finalPoints := doubled * t.scoreMultiplier;
    PositiveProduct(doubled, t.scoreMultiplier);
    var text := "+" + IntToString(finalPoints);
    var r := ScoreCatch(t, e, points, color, count, draw);
    assert r.score == t.score + finalPoints;
    assert r.floatingTexts == t.floatingTexts + [NewText(text, e.x, e.y)];
    NatToStringRoundTrip(finalPoints);
    assert text[1..] == NatToString(finalPoints);
  }

  lemma PositiveProduct(a: int, b: int)
    requires a > 0 && b > 0
    ensures a * b > 0
  {
  }

  /** For the types the legacy band table spawns, a miss costs a life exactly
      for normal and golden eggs. */
  lemma LegacyMissIsScoring(rand: real)
    ensures CostsLifeOnMiss(ClassicKind(rand)) <==> IsScoring(ClassicKind(rand))
  {
  }

  /** A legacy miss of a costly type takes one life, resets the combo and
      starts the small shake, leaving score, stats, timers and items alone;
      any other miss changes nothing. */
  lemma LegacyMissLives(s: Snapshot, e: Item)
    ensures CostsLifeOnMiss(e.kind) ==>
      var r := LegacyMiss(s, e);
      && r.lives == s.lives - 1 && r.comboCounter == 0 && !r.comboActive && r.shake == ROTTEN_SHAKE
      && r == s.(lives := r.lives, comboCounter := 0, comboActive := false, shake := ROTTEN_SHAKE)
    ensures !CostsLifeOnMiss(e.kind) ==> LegacyMiss(s, e) == s
  {
  }

  /** The state after a pass and the ids it marked. */
  datatype Marks = Marks(state: Snapshot, ids: set<int>)

  /** The catch `forEach`, basket fixed at the player position. */
  function LegacyCatches(s: Snapshot, eggs: seq<Item>, playerX: real, draw: nat -> ParticleDraw): Marks {
    if eggs == [] then Marks(s, {})
    else
      var m := LegacyCatches(s, eggs[..|eggs| - 1], playerX, draw);
      var e := eggs[|eggs| - 1];
      if Caught(e, playerX) then Marks(LegacyCatch(m.state, e, draw), m.ids + {e.id}) else m
  }

  /** The miss `forEach`. */
  function LegacyMisses(s: Snapshot, eggs: seq<Item>): Marks {
    if eggs == [] then Marks(s, {})
    else
      var m := LegacyMisses(s, eggs[..|eggs| - 1]);
      var e := eggs[|eggs| - 1];
      if PastBottom(e) then Marks(LegacyMiss(m.state, e), m.ids + {e.id}) else m
  }

  /** The running invariant of the legacy refs: score, counters and slow
      motion non-negative, at most three lives, the multiplier one or two,
      the player on the field, and every text on screen still alive with a
      non-negative opacity. */
  predicate LegacyValid(s: Snapshot) {
    s.score >= 0 && s.lives <= MAX_LIVES && s.comboCounter >= 0 && s.slowMoTimer >= 0.0
    && (s.scoreMultiplier == 1 || s.scoreMultiplier == SCORE_MULTIPLIER)
    && 0.0 <= s.playerX <= MAX_PLAYER_X
    && StatsNonNegative(s.stats)
    && (forall t :: t in s.floatingTexts ==> t.life > 0.0 && t.opacity >= 0.0)
  }

  lemma LegacyInitialIsValid()
    ensures LegacyValid(InitialState())
  {
  }

  /** Texts and particles added by a switch keep the invariant. */
  lemma SwitchKeepsLegacyValid(s: Snapshot, e: Item, draw: nat -> ParticleDraw)
    requires LegacyValid(s)
    ensures var w := LegacySwitch(s, e, draw);
      && LegacyValid(w.state) && w.state.score == s.score && StatsLe(s.stats, w.state.stats)
      && w.state.playerX == s.playerX && w.state.eggs == s.eggs
      && (w.points > 0 <==> IsScoring(e.kind)) && w.state.scoreMultiplier >= 1
  {
    var w := LegacySwitch(s, e, draw);
    match e.kind
    case ROTTEN =>
      HazardKeepsLegacyValid(s, e, draw);
      assert w.state == HazardHit(s, e, draw) && w.points == 0;
    case BOMB =>
      HazardKeepsLegacyValid(s, e, draw);
      assert w.state == HazardHit(s, e, draw) && w.points == 0;
    case HEART =>
      PowerUpKeepsLegacyValid(s, e);
      assert w.state == PowerUpHit(s, e) && w.points == 0;
    case CLOCK =>
      PowerUpKeepsLegacyValid(s, e);
      assert w.state == PowerUpHit(s, e) && w.points == 0;
    case STAR =>
      PowerUpKeepsLegacyValid(s, e);
      assert w.state == PowerUpHit(s, e) && w.points == 0;
    case NORMAL =>
      assert w.state == s && w.points > 0;
    case GOLDEN =>
      assert w.points > 0;
    case MAGNET =>
      assert w.state == s && w.points == 0;
    case FRENZY =>
      assert w.state == s && w.points == 0;
  }

  lemma HazardKeepsLegacyValid(s: Snapshot, e: Item, draw: nat -> ParticleDraw)
    requires LegacyValid(s)
    ensures var r := HazardHit(s, e, draw);
      && LegacyValid(r) && r.score == s.score && StatsLe(s.stats, r.stats)
      && r.playerX == s.playerX && r.eggs == s.eggs && r.scoreMultiplier == s.scoreMultiplier
  {
  }

  lemma PowerUpKeepsLegacyValid(s: Snapshot, e: Item)
    requires LegacyValid(s)
    ensures var r := PowerUpHit(s, e);
      && LegacyValid(r) && r.score == s.score && StatsLe(s.stats, r.stats)
      && r.playerX == s.playerX && r.eggs == s.eggs && r.scoreMultiplier >= 1
  {
    var u := if e.kind == HEART then (if s.lives < MAX_LIVES then s.(lives := s.lives + 1) else s)
             else if e.kind == CLOCK then s.(slowMoTimer := SLOW_MOTION_DURATION)
             else s.(multiplierTimer := MULTIPLIER_DURATION, scoreMultiplier := SCORE_MULTIPLIER,
                     stats := s.stats.(starsCaught := s.stats.starsCaught + 1));
    var text := if e.kind == HEART then HEART_TEXT else if e.kind == CLOCK then SLOW_TEXT else STAR_TEXT;
    assert PowerUpHit(s, e) == Say(u, text, e.x, e.y);
    assert LegacyValid(u);
    SayKeepsLegacyValid(u, text, e.x, e.y);
  }

  /** Adding a fresh text keeps the invariant. */
  lemma SayKeepsLegacyValid(s: Snapshot, text: string, x: real, y: real)
    requires LegacyValid(s)
    ensures LegacyValid(Say(s, text, x, y))
  {
    var t := NewText(text, x, y);
    assert t.life > 0.0 && t.opacity >= 0.0;
  }

  /** The scoring tail keeps the invariant and raises the score. */
  lemma ScoreCatchKeepsLegacyValid(t: Snapshot, e: Item, points: int, color: string, count: nat, draw: nat -> ParticleDraw)
    requires LegacyValid(t) && points > 0
    ensures var r := ScoreCatch(t, e, points, color, count, draw);
      LegacyValid(r) && r.score > t.score && r.stats == t.stats && r.playerX == t.playerX && r.eggs == t.eggs
  {
    var doubled := if ScoreCatch(t, e, points, color, count, draw).comboActive then points * 2 else points;
    PositiveProduct(doubled, t.scoreMultiplier);
    SayKeepsLegacyValid(t.(comboCounter := t.comboCounter + 1), "", e.x, e.y);
  }

  /** A catch keeps the invariant and never lowers the score or a counter. */
  lemma CatchKeepsLegacyValid(s: Snapshot, e: Item, draw: nat -> ParticleDraw)
    requires LegacyValid(s)
    ensures LegacyValid(LegacyCatch(s, e, draw))
    ensures LegacyCatch(s, e, draw).score >= s.score && StatsLe(s.stats, LegacyCatch(s, e, draw).stats)
    ensures LegacyCatch(s, e, draw).playerX == s.playerX && LegacyCatch(s, e, draw).eggs == s.eggs
  {
    var w := LegacySwitch(s, e, draw);
    SwitchKeepsLegacyValid(s, e, draw);
    if w.points > 0 {
      ScoreCatchKeepsLegacyValid(w.state, e, w.points, w.color, w.count, draw);
    }
  }

  lemma {:induction false} CatchesKeepLegacyValid(s: Snapshot, eggs: seq<Item>, playerX: real, draw: nat -> ParticleDraw)
    requires LegacyValid(s)
    ensures LegacyValid(LegacyCatches(s, eggs, playerX, draw).state)
    ensures LegacyCatches(s, eggs, playerX, draw).state.score >= s.score
    ensures StatsLe(s.stats, LegacyCatches(s, eggs, playerX, draw).state.stats)
    ensures LegacyCatches(s, eggs, playerX, draw).state.eggs == s.eggs
    ensures LegacyCatches(s, eggs, playerX, draw).ids == set e | e in eggs && Caught(e, playerX) :: e.id
  {
    if eggs != [] {
      var init := eggs[..|eggs| - 1];
      var e := eggs[|eggs| - 1];
      CatchesKeepLegacyValid(s, init, playerX, draw);
      var m := LegacyCatches(s, init, playerX, draw);
      if Caught(e, playerX) {
        CatchKeepsLegacyValid(m.state, e, draw);
      }
      assert eggs == init + [e];
    }
  }

  lemma {:induction false} MissesKeepLegacyValid(s: Snapshot, eggs: seq<Item>)
    requires LegacyValid(s)
    ensures LegacyValid(LegacyMisses(s, eggs).state)
    ensures LegacyMisses(s, eggs).state.score == s.score && LegacyMisses(s, eggs).state.stats == s.stats
    ensures LegacyMisses(s, eggs).state.eggs == s.eggs
    ensures LegacyMisses(s, eggs).ids == set e | e in eggs && PastBottom(e) :: e.id
  {
    if eggs != [] {
      var init := eggs[..|eggs| - 1];
      MissesKeepLegacyValid(s, init);
      assert eggs == init + [eggs[|eggs| - 1]];
    }
  }

  // ----- The frame -----

  /** The legacy timer block: slow motion clamps at zero, the multiplier
      timer counts down unclamped and the multiplier falls back to one once
      it is spent. */
  function LegacyTimers(s: Snapshot, dt: real): (r: Snapshot)
    ensures s.slowMoTimer >= 0.0 ==> r.slowMoTimer >= 0.0
    ensures r.scoreMultiplier == (if s.multiplierTimer > 0.0 && r.multiplierTimer <= 0.0 then 1 else s.scoreMultiplier)
    ensures s.multiplierTimer > 0.0 ==> r.multiplierTimer == s.multiplierTimer - dt * 1000.0
  {
    var slow := if s.slowMoTimer > 0.0 then Max(0.0, s.slowMoTimer - dt * 1000.0) else s.slowMoTimer;
    var mt := if s.multiplierTimer > 0.0 then s.multiplierTimer - dt * 1000.0 else s.multiplierTimer;
    var mult := if s.multiplierTimer > 0.0 && mt <= 0.0 then 1 else s.scoreMultiplier;
    s.(slowMoTimer := slow, multiplierTimer := mt, scoreMultiplier := mult)
  }

  /** The legacy combo countdown, run after the texts have aged. */
  function LegacyComboTick(s: Snapshot, dt: real): (r: Snapshot)
    ensures r.comboActive <==> s.comboActive && r.comboTimer > 0.0
    ensures r.comboCounter == s.comboCounter
    ensures s.comboActive ==> r.comboTimer == s.comboTimer - dt * 1000.0
    ensures !s.comboActive ==> r == s
    ensures r == s.(comboTimer := r.comboTimer, comboActive := r.comboActive)
  {
    var ct := if s.comboActive then s.comboTimer - dt * 1000.0 else s.comboTimer;
    s.(comboTimer := ct, comboActive := s.comboActive && ct > 0.0)
  }

  /** The frame up to the catch pass: player, spawn on the legacy ratio
      curve, timers, the fall at the legacy base speed, the texts' ageing
      and the combo countdown. The difficulty is read from the score at the
      start of the frame. */
  function LegacyPrepared(s: Snapshot, dt: real, draw: SpawnDraw, id: int): Snapshot {
    var logicDt := if s.slowMoTimer > 0.0 then dt * SLOW_MOTION_FACTOR else dt;
    var s1 := s.(playerX := MovePlayer(s.playerX, s.input, dt));
    var s2 := SpawnResult(s1, logicDt, RatioSpawnRate(LEGACY_INITIAL_SPAWN_RATE, s.score), draw, id);
    var s3 := LegacyTimers(s2, dt);
    var s4 := s3.(eggs := FallAll(s3.eggs, RatioSpeed(LEGACY_INITIAL_EGG_SPEED, s.score), logicDt));
    LegacyComboTick(s4.(floatingTexts := UpdatedTexts(s4.floatingTexts, dt)), dt)
  }

  datatype LegacyOutcome = LegacyOutcome(state: Snapshot, gameOver: Option<(int, Stats)>)

  /** The passes, the filter and the game-over test; a frame that goes on
      ticks the shake. */
  function LegacyResolve(s: Snapshot, dt: real, draw: nat -> ParticleDraw): LegacyOutcome {
    var c := LegacyCatches(s, s.eggs, s.playerX, draw);
    var m := LegacyMisses(c.state, s.eggs);
    var r := m.state.(eggs := Filter(s.eggs, (e: Item) => e.id !in c.ids && e.id !in m.ids));
    if r.lives <= 0 then LegacyOutcome(r, Some((r.score, r.stats)))
    else LegacyOutcome(r.(shake := ScreenShakeTick(r.shake, dt)), None)
  }

  /** One call of the legacy `gameLoop`: while paused only the particles
      age; otherwise prepare and resolve, and unless the game ended the
      particles age as the frame is drawn. */
  function LegacyFrame(s: Snapshot, paused: bool, dt: real, sdraw: SpawnDraw, id: int, pdraw: nat -> ParticleDraw): LegacyOutcome {
    if paused then LegacyOutcome(s.(particles := UpdatedParticles(s.particles, dt)), None)
    else
      var o := LegacyResolve(LegacyPrepared(s, dt, sdraw, id), dt, pdraw);
      if o.gameOver.Some? then o
      else LegacyOutcome(o.state.(particles := UpdatedParticles(o.state.particles, dt)), None)
  }

  /** The preparation keeps the invariant and leaves score, lives and stats alone. */
  lemma LegacyPreparedSpec(s: Snapshot, dt: real, draw: SpawnDraw, id: int)
    requires LegacyValid(s)
    ensures var p := LegacyPrepared(s, dt, draw, id);
      LegacyValid(p) && p.score == s.score && p.lives == s.lives && p.stats == s.stats
  {
    var logicDt := if s.slowMoTimer > 0.0 then dt * SLOW_MOTION_FACTOR else dt;
    var s1 := s.(playerX := MovePlayer(s.playerX, s.input, dt));
    var s2 := SpawnResult(s1, logicDt, RatioSpawnRate(LEGACY_INITIAL_SPAWN_RATE, s.score), draw, id);
    var s3 := LegacyTimers(s2, dt);
    var s4 := s3.(eggs := FallAll(s3.eggs, RatioSpeed(LEGACY_INITIAL_EGG_SPEED, s.score), logicDt));
    UpdatedTextsSpec(s4.floatingTexts, dt);
  }

  /** Resolution keeps the invariant, never lowers the score or a counter,
      reports game over exactly when the lives are spent (with the score and
      stats of that moment), and keeps exactly the items whose id no caught
      or missed item carries, in order. */
  lemma LegacyResolveSpec(s: Snapshot, dt: real, draw: nat -> ParticleDraw)
    requires LegacyValid(s)
    ensures var o := LegacyResolve(s, dt, draw);
      && LegacyValid(o.state) && o.state.score >= s.score && StatsLe(s.stats, o.state.stats)
      && (o.gameOver.Some? <==> o.state.lives <= 0)
      && (o.gameOver.Some? ==> o.gameOver.value == (o.state.score, o.state.stats))
      && o.state.eggs == Filter(s.eggs, (e: Item) => !Resolved(s.eggs, s.playerX, e.id))
  {
    var c := LegacyCatches(s, s.eggs, s.playerX, draw);
    CatchesKeepLegacyValid(s, s.eggs, s.playerX, draw);
    var m := LegacyMisses(c.state, s.eggs);
    MissesKeepLegacyValid(c.state, s.eggs);
    forall i | 0 <= i < |s.eggs|
      ensures (s.eggs[i].id !in c.ids && s.eggs[i].id !in m.ids) == !Resolved(s.eggs, s.playerX, s.eggs[i].id)
    {
      var e := s.eggs[i];
      if Resolved(s.eggs, s.playerX, e.id) {
        var f :| f in s.eggs && f.id == e.id && (Caught(f, s.playerX) || PastBottom(f));
        if Caught(f, s.playerX) {
          assert e.id in c.ids;
        } else {
          assert e.id in m.ids;
        }
      }
    }
    FilterCongruent(s.eggs, (e: Item) => e.id !in c.ids && e.id !in m.ids,
                    (e: Item) => !Resolved(s.eggs, s.playerX, e.id));
  }

  /** A legacy frame keeps the invariant and never lowers the score or a
      counter; a paused frame only ages the particles; an unpaused frame
      reports game over exactly when the lives are spent, and then leaves
      the shake and the particles as the passes left them. */
  lemma LegacyFrameSpec(s: Snapshot, paused: bool, dt: real, sdraw: SpawnDraw, id: int, pdraw: nat -> ParticleDraw)
    requires LegacyValid(s)
    ensures var o := LegacyFrame(s, paused, dt, sdraw, id, pdraw);
      && LegacyValid(o.state) && o.state.score >= s.score && StatsLe(s.stats, o.state.stats)
      && (paused ==> o.state == s.(particles := UpdatedParticles(s.particles, dt)) && o.gameOver == None)
      && (!paused ==> (o.gameOver.Some? <==> o.state.lives <= 0))
      && (!paused && o.gameOver.Some? ==> o.state == LegacyResolve(LegacyPrepared(s, dt, sdraw, id), dt, pdraw).state)
      && (!paused && o.gameOver.None? ==>
            var r := LegacyResolve(LegacyPrepared(s, dt, sdraw, id), dt, pdraw).state;
            o.state == r.(particles := UpdatedParticles(r.particles, dt)))
  {
    if !paused {
      LegacyPreparedSpec(s, dt, sdraw, id);
      LegacyResolveSpec(LegacyPrepared(s, dt, sdraw, id), dt, pdraw);
    }
  }

  // ----- The loop on the refs -----

  /** A rotten egg or a bomb on the refs. */
  method HazardStep(game: GameStateRef, egg: Item, draw: nat -> ParticleDraw)
    modifies game
    ensures game.View() == HazardHit(old(game.View()), egg, draw)
  {
    game.lives := game.lives - 1;
    if egg.kind == ROTTEN {
      game.stats := game.stats.(rottenHit := game.stats.rottenHit + 1);
      TriggerScreenShake(game, 8.0, 200.0);
      CreateParticles(game, egg.x + egg.width / 2.0, egg.y + egg.height / 2.0, ROTTEN_EGG_COLOR, 15, draw);
    } else {
      game.stats := game.stats.(bombsHit := game.stats.bombsHit + 1);
      TriggerScreenShake(game, 20.0, 500.0);
      CreateParticles(game, egg.x + egg.width / 2.0, egg.y + egg.height / 2.0, BOMB_COLOR, 30, draw);
    }
  }

  /** A heart, clock or star on the refs. */
  method PowerUpStep(game: GameStateRef, egg: Item)
    modifies game
    ensures game.View() == PowerUpHit(old(game.View()), egg)
  {
    ghost var s := game.View();
    if egg.kind == HEART {
      if game.lives < MAX_LIVES {
        game.lives := game.lives + 1;
      }
      ghost var u := game.View();
      assert u == if s.lives < MAX_LIVES then s.(lives := s.lives + 1) else s;
      AddFloatingText(game, HEART_TEXT, egg.x, egg.y);
      assert game.View() == Say(u, HEART_TEXT, egg.x, egg.y);
    } else if egg.kind == CLOCK {
      game.slowMoTimer := SLOW_MOTION_DURATION;
      ghost var u := game.View();
      assert u == s.(slowMoTimer := SLOW_MOTION_DURATION);
      AddFloatingText(game, SLOW_TEXT, egg.x, egg.y);
      assert game.View() == Say(u, SLOW_TEXT, egg.x, egg.y);
    } else {
      game.multiplierTimer := MULTIPLIER_DURATION;
      game.scoreMultiplier := SCORE_MULTIPLIER;
      game.stats := game.stats.(starsCaught := game.stats.starsCaught + 1);
      ghost var u := game.View();
      assert u == s.(multiplierTimer := MULTIPLIER_DURATION, scoreMultiplier := SCORE_MULTIPLIER,
                     stats := s.stats.(starsCaught := s.stats.starsCaught + 1));
      AddFloatingText(game, STAR_TEXT, egg.x, egg.y);
      assert game.View() == Say(u, STAR_TEXT, egg.x, egg.y);
    }
  }

  /** The type `switch` on the refs. */
  method LegacySwitchStep(game: GameStateRef, egg: Item, draw: nat -> ParticleDraw)
    returns (pointsEarned: int, particleColor: string, particleCount: nat)
    modifies game
    ensures Switched(game.View(), pointsEarned, particleColor, particleCount) == LegacySwitch(old(game.View()), egg, draw)
  {
    pointsEarned, particleColor, particleCount := 0, PRIMARY_COLOR, 10;
    match egg.kind {
      case NORMAL =>
        pointsEarned := SCORE_NORMAL;
      case GOLDEN =>
        pointsEarned := SCORE_GOLDEN;
        game.stats := game.stats.(goldenEggs := game.stats.goldenEggs + 1);
        particleColor, particleCount := GOLDEN_EGG_COLOR, 20;
      case ROTTEN =>
        HazardStep(game, egg, draw);
      case BOMB =>
        HazardStep(game, egg, draw);
      case HEART =>
        PowerUpStep(game, egg);
        particleColor := HEART_COLOR;
      case CLOCK =>
        PowerUpStep(game, egg);
        particleColor := CLOCK_COLOR;
      case STAR =>
        PowerUpStep(game, egg);
        particleColor, particleCount := STAR_COLOR, 30;
      case MAGNET =>
      case FRENZY =>
    }
  }

  /** The scoring tail on the refs. */
  method ScoreStep(game: GameStateRef, egg: Item, pointsEarned: int, particleColor: string, particleCount: nat,
                   draw: nat -> ParticleDraw)
    modifies game
    ensures game.View() == ScoreCatch(old(game.View()), egg, pointsEarned, particleColor, particleCount, draw)
  {
    ghost var t := game.View();
    var finalPoints := ComboAndScoreStep(game, pointsEarned);
    ghost var u := game.View();
    var text := "+" + IntToString(finalPoints);
    AddFloatingText(game, text, egg.x, egg.y);
    ghost var v := Say(u, text, egg.x, egg.y);
    assert game.View() == v;
    CreateParticles(game, egg.x + egg.width / 2.0, egg.y + egg.height / 2.0, particleColor, particleCount, draw);
    ScoreCatchUnfold(t, egg, pointsEarned, particleColor, particleCount, draw, u, finalPoints);
  }

  /** The combo counter goes up first, the combo switches on at the
      threshold, and the score takes the doubled and multiplied points. */
  method ComboAndScoreStep(game: GameStateRef, pointsEarned: int) returns (finalPoints: int)
    modifies game
    ensures game.comboCounter == old(game.comboCounter) + 1
    ensures game.comboActive == (if game.comboCounter >= COMBO_THRESHOLD then true else old(game.comboActive))
    ensures game.comboTimer == (if game.comboCounter >= COMBO_THRESHOLD then COMBO_DURATION else old(game.comboTimer))
    ensures finalPoints == (if game.comboActive then pointsEarned * 2 else pointsEarned) * old(game.scoreMultiplier)
    ensures game.View() == old(game.View()).(comboCounter := game.comboCounter, comboActive := game.comboActive,
                                             comboTimer := game.comboTimer, score := old(game.score) + finalPoints)
  {
    game.comboCounter := game.comboCounter + 1;
    if game.comboCounter >= COMBO_THRESHOLD {
      game.comboActive := true;
      game.comboTimer := COMBO_DURATION;
    }
    finalPoints := pointsEarned;
    if game.comboActive {
      finalPoints := finalPoints * 2;
    }
    finalPoints := finalPoints * game.scoreMultiplier;
    game.score := game.score + finalPoints;
  }

  /** The scoring tail, given the combo state and the points it computes. */
  lemma ScoreCatchUnfold(t: Snapshot, e: Item, points: int, color: string, count: nat, draw: nat -> ParticleDraw,
                         u: Snapshot, finalPoints: int)
    requires u.comboCounter == t.comboCounter + 1
    requires u.comboActive == (if u.comboCounter >= COMBO_THRESHOLD then true else t.comboActive)
    requires u.comboTimer == (if u.comboCounter >= COMBO_THRESHOLD then COMBO_DURATION else t.comboTimer)
    requires finalPoints == (if u.comboActive then points * 2 else points) * t.scoreMultiplier
    requires u == t.(comboCounter := u.comboCounter, comboActive := u.comboActive, comboTimer := u.comboTimer,
                     score := t.score + finalPoints)
    ensures ScoreCatch(t, e, points, color, count, draw)
         == Burst(Say(u, "+" + IntToString(finalPoints), e.x, e.y), e.x + e.width / 2.0, e.y + e.height / 2.0, color, count, draw)
  {
  }

  /** One caught item on the refs. */
  method LegacyCatchOne(game: GameStateRef, egg: Item, draw: nat -> ParticleDraw)
    modifies game
    ensures game.View() == LegacyCatch(old(game.View()), egg, draw)
  {
    var pointsEarned, particleColor, particleCount := LegacySwitchStep(game, egg, draw);
    if pointsEarned > 0 {
      ScoreStep(game, egg, pointsEarned, particleColor, particleCount, draw);
    }
  }

  /** One missed item on the refs. */
  method LegacyMissOne(game: GameStateRef, egg: Item)
    modifies game
    ensures game.View() == LegacyMiss(old(game.View()), egg)
  {
    var t := egg.kind;
    if t != ROTTEN && t != BOMB && t != HEART && t != CLOCK && t != STAR {
      game.lives := game.lives - 1;
      game.comboCounter := 0;
      game.comboActive := false;
      TriggerScreenShake(game, 8.0, 200.0);
    }
  }

  /** The catch `forEach`. */
  method LegacyCatchPass(game: GameStateRef, items: seq<Item>, draw: nat -> ParticleDraw) returns (caughtEggs: set<int>)
    modifies game
    ensures game.View() == LegacyCatches(old(game.View()), items, old(game.playerX), draw).state
    ensures caughtEggs == LegacyCatches(old(game.View()), items, old(game.playerX), draw).ids
  {
    ghost var s0 := game.View();
    var basketPlayerX := game.playerX;
    caughtEggs := {};
    for i := 0 to |items|
      invariant game.View() == LegacyCatches(s0, items[..i], basketPlayerX, draw).state
      invariant caughtEggs == LegacyCatches(s0, items[..i], basketPlayerX, draw).ids
    {
      var egg := items[i];
      assert items[..i + 1][..i] == items[..i];
      if Caught(egg, basketPlayerX) {
        caughtEggs := caughtEggs + {egg.id};
        LegacyCatchOne(game, egg, draw);
      }
    }
    assert items[..|items|] == items;
  }

  /** The miss `forEach`. */
  method LegacyMissPass(game: GameStateRef, items: seq<Item>) returns (missedEggs: set<int>)
    modifies game
    ensures game.View() == LegacyMisses(old(game.View()), items).state
    ensures missedEggs == LegacyMisses(old(game.View()), items).ids
  {
    ghost var s0 := game.View();
    missedEggs := {};
    for i := 0 to |items|
      invariant game.View() == LegacyMisses(s0, items[..i]).state
      invariant missedEggs == LegacyMisses(s0, items[..i]).ids
    {
      var egg := items[i];
      assert items[..i + 1][..i] == items[..i];
      if PastBottom(egg) {
        missedEggs := missedEggs + {egg.id};
        LegacyMissOne(game, egg);
      }
    }
    assert items[..|items|] == items;
  }

  /** The legacy slow-motion and multiplier countdowns. */
  method LegacyTimersStep(game: GameStateRef, dt: real)
    modifies game
    ensures game.View() == LegacyTimers(old(game.View()), dt)
  {
    if game.slowMoTimer > 0.0 {
      game.slowMoTimer := game.slowMoTimer - dt * 1000.0;
      if game.slowMoTimer < 0.0 {
        game.slowMoTimer := 0.0;
      }
    }
    if game.multiplierTimer > 0.0 {
      game.multiplierTimer := game.multiplierTimer - dt * 1000.0;
      if game.multiplierTimer <= 0.0 {
        game.scoreMultiplier := 1;
      }
    }
  }

  /** Age the texts in place and drop the dead ones, then count the combo down. */
  method TextsAndComboStep(game: GameStateRef, dt: real)
    modifies game
    ensures game.View() == LegacyComboTick(old(game.View()).(floatingTexts := UpdatedTexts(old(game.floatingTexts), dt)), dt)
  {
    var aged := AgeTextsLoop(game.floatingTexts, dt);
    game.floatingTexts := FilterLoop(aged, TextAlive);
    assert game.View() == old(game.View()).(floatingTexts := UpdatedTexts(old(game.floatingTexts), dt));
    if game.comboActive {
      game.comboTimer := game.comboTimer - dt * 1000.0;
      if game.comboTimer <= 0.0 {
        game.comboActive := false;
      }
    }
  }

  /** The frame up to the catch pass, on the refs. */
  method LegacyPrepareStep(game: GameStateRef, dt: real, draw: SpawnDraw, id: int)
    modifies game
    ensures game.View() == LegacyPrepared(old(game.View()), dt, draw, id)
  {
    ghost var s0 := game.View();
    var logicDt := if game.slowMoTimer > 0.0 then dt * SLOW_MOTION_FACTOR else dt;
    MovePlayerStep(game, dt);
    ghost var s1 := game.View();
    var difficulty := Ratio(game.score);
    var currentSpawnRate := LEGACY_INITIAL_SPAWN_RATE - (LEGACY_INITIAL_SPAWN_RATE - 0.3) * difficulty;
    assert currentSpawnRate == RatioSpawnRate(LEGACY_INITIAL_SPAWN_RATE, s0.score);
    SpawnStep(game, logicDt, currentSpawnRate, draw, id);
    ghost var s2 := game.View();
    assert s2 == SpawnResult(s1, logicDt, RatioSpawnRate(LEGACY_INITIAL_SPAWN_RATE, s0.score), draw, id);
    LegacyTimersStep(game, dt);
    ghost var s3 := game.View();
    var eggBaseSpeed := LEGACY_INITIAL_EGG_SPEED + 300.0 * difficulty;
    assert eggBaseSpeed == RatioSpeed(LEGACY_INITIAL_EGG_SPEED, s0.score);
    FallEggs(game, eggBaseSpeed, logicDt);
    ghost var s4 := game.View();
    assert s4 == s3.(eggs := FallAll(s3.eggs, RatioSpeed(LEGACY_INITIAL_EGG_SPEED, s0.score), logicDt));
    TextsAndComboStep(game, dt);
  }

  /** The passes, the filter, the game-over test and the shake tick. */
  method LegacyResolveStep(game: GameStateRef, dt: real, draw: nat -> ParticleDraw) returns (gameOver: Option<(int, Stats)>)
    modifies game
    ensures game.View() == LegacyResolve(old(game.View()), dt, draw).state
    ensures gameOver == LegacyResolve(old(game.View()), dt, draw).gameOver
  {
    ghost var s0 := game.View();
    var moved := game.eggs;
    var caughtEggs := LegacyCatchPass(game, moved, draw);
    ghost var c := LegacyCatches(s0, s0.eggs, s0.playerX, draw);
    var missedEggs := LegacyMissPass(game, moved);
    ghost var m := LegacyMisses(c.state, s0.eggs);
    var kept := FilterLoop(moved, (e: Item) => e.id !in caughtEggs && e.id !in missedEggs);
    FilterCongruent(moved, (e: Item) => e.id !in caughtEggs && e.id !in missedEggs,
                    (e: Item) => e.id !in c.ids && e.id !in m.ids);
    game.eggs := kept;
    gameOver := None;
    if game.lives <= 0 {
      gameOver := Some((game.score, game.stats));
      return;
    }
    if game.shake.duration > 0.0 {
      game.shake := game.shake.(duration := game.shake.duration - dt * 1000.0);
    } else {
      game.shake := game.shake.(magnitude := 0.0);
    }
  }

  /** Age the particles in place and drop the dead ones (the draw half). */
  method AgeParticlesStep(game: GameStateRef, dt: real)
    modifies game
    ensures game.View() == old(game.View()).(particles := UpdatedParticles(old(game.particles), dt))
  {
    var aged := AgeParticlesLoop(game.particles, dt);
    game.particles := FilterLoop(aged, ParticleAlive);
  }

  /** One call of the legacy `gameLoop`; returns what `onGameOver` receives
      when the lives have run out (the loop then stops). */
  method LegacyGameLoop(game: GameStateRef, paused: bool, dt: real, sdraw: SpawnDraw, id: int, pdraw: nat -> ParticleDraw)
    returns (gameOver: Option<(int, Stats)>)
    modifies game
    ensures game.View() == LegacyFrame(old(game.View()), paused, dt, sdraw, id, pdraw).state
    ensures gameOver == LegacyFrame(old(game.View()), paused, dt, sdraw, id, pdraw).gameOver
  {
    gameOver := None;
    if !paused {
      LegacyPrepareStep(game, dt, sdraw, id);
      gameOver := LegacyResolveStep(game, dt, pdraw);
      if gameOver.Some? {
        return;
      }
    }
    AgeParticlesStep(game, dt);
  }
}
