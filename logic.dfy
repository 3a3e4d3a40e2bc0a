/** The per-frame simulation step of src/game/logic.ts. The pure functions
    give the value each phase computes from the state snapshot; the methods
    perform the same phases on the mutable state record, in the source's
    order, and are proved to compute exactly those values. The random draws
    of a spawn and the id of a new item are parameters. */
module Logic {
  import opened Wrappers
  import opened Constants
  import opened Types
  import opened Sequences
  import opened Physics
  import opened Spawning
  import opened Difficulty
  import opened GameState

  datatype Point = Point(x: real, y: real)

  /** What a step emits for the audio and effect layers. */
  datatype GameEvent =
    | CatchEvent(kind: ItemType, at: Point)
    | Miss
    | AddScore(at: Point, amount: int)

  datatype Outcome = Outcome(state: Snapshot, events: seq<GameEvent>)

  /** The running invariant of the modern state: non-negative score, timers
      and counters, at most three lives, the player on the field, the
      multiplier raised exactly while its timer runs, and an active combo
      always having time left. */
  predicate Valid(s: Snapshot) {
    s.score >= 0 && s.lives <= MAX_LIVES && s.comboCounter >= 0
    && 0.0 <= s.playerX <= MAX_PLAYER_X
    && s.slowMoTimer >= 0.0 && s.multiplierTimer >= 0.0 && s.comboTimer >= 0.0
    && s.scoreMultiplier == (if s.multiplierTimer > 0.0 then SCORE_MULTIPLIER else 1)
    && (s.comboActive ==> s.comboTimer > 0.0)
    && StatsNonNegative(s.stats)
  }

  /** The initial state satisfies the invariant. */
  lemma InitialStateIsValid()
    ensures Valid(InitialState())
  {
  }

  // ----- Phase 2: spawning -----

  /** The spawn phase: the timer accumulates the logic time; once it exceeds
      the interval it restarts from zero (the excess is dropped) and exactly
      one new item is appended. */
  function SpawnResult(s: Snapshot, logicDt: real, rate: real, draw: SpawnDraw, id: int): (r: Snapshot)
    ensures s.spawnTimer + logicDt > rate ==>
      r == s.(spawnTimer := 0.0, eggs := s.eggs + [NewItem(ClassicKind(draw.band), id, draw.xDraw, draw.drift)])
    ensures s.spawnTimer + logicDt <= rate ==> r == s.(spawnTimer := s.spawnTimer + logicDt)
  {
    var t := s.spawnTimer + logicDt;
    if t > rate then s.(spawnTimer := 0.0, eggs := s.eggs + [NewItem(ClassicKind(draw.band), id, draw.xDraw, draw.drift)])
    else s.(spawnTimer := t)
  }

  // ----- Phase 3: power-up timers -----

  /** The timer phase: slow motion and the multiplier count down by real
      time and clamp at zero; the multiplier falls back to one on the frame
      its timer reaches zero; an active combo counts down and switches off
      when its timer reaches zero. */
  function TimersAfter(s: Snapshot, dt: real): (r: Snapshot)
    ensures r == s.(slowMoTimer := r.slowMoTimer, multiplierTimer := r.multiplierTimer,
                    scoreMultiplier := r.scoreMultiplier, comboTimer := r.comboTimer, comboActive := r.comboActive)
  {
    var slow := if s.slowMoTimer > 0.0 then Max(0.0, s.slowMoTimer - dt * 1000.0) else s.slowMoTimer;
    var mt := if s.multiplierTimer > 0.0 then Max(0.0, s.multiplierTimer - dt * 1000.0) else s.multiplierTimer;
    var mult := if s.multiplierTimer > 0.0 && mt == 0.0 then 1 else s.scoreMultiplier;
    var ct := if s.comboActive then Max(0.0, s.comboTimer - dt * 1000.0) else s.comboTimer;
    var active := s.comboActive && ct != 0.0;
    s.(slowMoTimer := slow, multiplierTimer := mt, scoreMultiplier := mult, comboTimer := ct, comboActive := active)
  }

  /** The timer phase keeps non-negative timers non-negative; the multiplier
      is reset to one exactly on the frame its timer goes from positive to
      zero; the combo is switched off exactly when an active combo's timer
      reaches zero; the combo counter is never touched. */
  lemma TimersSpec(s: Snapshot, dt: real)
    requires s.slowMoTimer >= 0.0 && s.multiplierTimer >= 0.0 && s.comboTimer >= 0.0
    ensures TimersAfter(s, dt).slowMoTimer >= 0.0 && TimersAfter(s, dt).multiplierTimer >= 0.0
    ensures TimersAfter(s, dt).comboTimer >= 0.0
    ensures TimersAfter(s, dt).scoreMultiplier ==
      (if s.multiplierTimer > 0.0 && TimersAfter(s, dt).multiplierTimer == 0.0 then 1 else s.scoreMultiplier)
    ensures TimersAfter(s, dt).comboActive <==> s.comboActive && TimersAfter(s, dt).comboTimer > 0.0
    ensures TimersAfter(s, dt).comboCounter == s.comboCounter
    ensures s.multiplierTimer > 0.0 && dt >= 0.0 ==> TimersAfter(s, dt).multiplierTimer <= s.multiplierTimer
  {
  }

  // ----- Phase 5: catches and misses -----

  /** Points a catch of type `t` is worth before combo and multiplier. */
  function BasePoints(t: ItemType): (p: int)
    ensures p > 0 <==> IsScoring(t)
    ensures t == NORMAL ==> p == SCORE_NORMAL
    ensures t == GOLDEN ==> p == SCORE_GOLDEN
  {
    match t
    case NORMAL => SCORE_NORMAL
    case GOLDEN => SCORE_GOLDEN
    case _ => 0
  }

  /** The type-specific part of `processCatch` (the `switch`). Magnet and
      frenzy items have no case and change nothing. */
  function CatchSwitch(s: Snapshot, e: Item): Outcome {
    var ev := [CatchEvent(e.kind, Point(e.x, e.y))];
    match e.kind
    case NORMAL => Outcome(s, ev)
    case GOLDEN => Outcome(s.(stats := s.stats.(goldenEggs := s.stats.goldenEggs + 1)), ev)
    case ROTTEN => Outcome(s.(lives := s.lives - 1, stats := s.stats.(rottenHit := s.stats.rottenHit + 1)), ev)
    case BOMB => Outcome(s.(lives := s.lives - 1, stats := s.stats.(bombsHit := s.stats.bombsHit + 1)), ev)
    case HEART => Outcome(if s.lives < MAX_LIVES then s.(lives := s.lives + 1) else s, ev)
    case CLOCK => Outcome(s.(slowMoTimer := SLOW_MOTION_DURATION), ev)
    case STAR => Outcome(s.(multiplierTimer := MULTIPLIER_DURATION, scoreMultiplier := SCORE_MULTIPLIER,
                             stats := s.stats.(starsCaught := s.stats.starsCaught + 1)), ev)
    case MAGNET => Outcome(s, [])
    case FRENZY => Outcome(s, [])
  }

  /** `processCatch`: the type switch, then either the scoring path (the
      combo counter goes up first, the combo switches on at the threshold,
      and the points are base x combo factor x multiplier) or a combo reset. */
  function CatchResult(s: Snapshot, e: Item): Outcome {
    var o := CatchSwitch(s, e);
    var t := o.state;
    var base := BasePoints(e.kind);
    if base > 0 then
      var counter := t.comboCounter + 1;
      var active := if counter >= COMBO_THRESHOLD then true else t.comboActive;
      var timer := if counter >= COMBO_THRESHOLD then COMBO_DURATION else t.comboTimer;
      var points := base * (if active then 2 else 1) * t.scoreMultiplier;
      Outcome(t.(comboCounter := counter, comboActive := active, comboTimer := timer, score := t.score + points),
              o.events + [AddScore(Point(e.x, e.y), points)])
    else
      Outcome(t.(comboCounter := 0, comboActive := false), o.events)
  }

  /** `processMiss`: only a normal or golden item falling past the bottom
      costs a life, resets the combo and emits a miss. */
  function MissResult(s: Snapshot, e: Item): (o: Outcome)
    ensures !IsScoring(e.kind) ==> o == Outcome(s, [])
    ensures IsScoring(e.kind) ==> o == Outcome(s.(lives := s.lives - 1, comboCounter := 0, comboActive := false), [Miss])
  {
    if e.kind == NORMAL || e.kind == GOLDEN then
      Outcome(s.(lives := s.lives - 1, comboCounter := 0, comboActive := false), [Miss])
    else Outcome(s, [])
  }

  /** A scoring catch raises the combo counter by one, switches the combo on
      at the threshold with a full countdown (and otherwise leaves it as it
      was), adds
      base x (2 if the combo is active else 1) x multiplier to the score,
      and ends its events with that amount; with a non-negative multiplier
      the score never decreases. Lives and the egg list are untouched. */
  lemma ScoringCatch(s: Snapshot, e: Item)
    requires IsScoring(e.kind)
    ensures var r := CatchResult(s, e).state;
      && r.comboCounter == s.comboCounter + 1
      && r.comboActive == (s.comboActive || s.comboCounter + 1 >= COMBO_THRESHOLD)
      && r.comboTimer == (if s.comboCounter + 1 >= COMBO_THRESHOLD then COMBO_DURATION else s.comboTimer)
      && r.score == s.score + BasePoints(e.kind) * (if r.comboActive then 2 else 1) * s.scoreMultiplier
      && r.lives == s.lives && r.eggs == s.eggs && r.scoreMultiplier == s.scoreMultiplier
    ensures CatchResult(s, e).events ==
      [CatchEvent(e.kind, Point(e.x, e.y)),
       AddScore(Point(e.x, e.y), BasePoints(e.kind) * (if CatchResult(s, e).state.comboActive then 2 else 1) * s.scoreMultiplier)]
    ensures s.scoreMultiplier >= 0 ==> CatchResult(s, e).state.score >= s.score
  {
    var r := CatchResult(s, e).state;
    var k := if r.comboActive then 2 else 1;
    assert BasePoints(e.kind) * k >= 0;
    assert s.scoreMultiplier >= 0 ==> BasePoints(e.kind) * k * s.scoreMultiplier >= 0;
  }

  /** Every catch that awards no points (rotten, bomb, heart, clock, star,
      and the unhandled magnet and frenzy) resets the combo and leaves the
      score alone. */
  lemma NonScoringCatchResetsCombo(s: Snapshot, e: Item)
    requires !IsScoring(e.kind)
    ensures CatchResult(s, e).state.comboCounter == 0 && !CatchResult(s, e).state.comboActive
    ensures CatchResult(s, e).state.score == s.score
  {
  }

  /** Lives after a catch: rotten and bomb cost one, a heart gives one only
      below the cap, everything else leaves them alone. */
  lemma CatchLives(s: Snapshot, e: Item)
    ensures CatchResult(s, e).state.lives ==
      if e.kind == ROTTEN || e.kind == BOMB then s.lives - 1
      else if e.kind == HEART && s.lives < MAX_LIVES then s.lives + 1
      else s.lives
  {
  }

  /** The stat counter a catch raises: golden eggs, rotten eggs, bombs or
      stars, one each; any other catch leaves the counters alone. */
  lemma CatchStats(s: Snapshot, e: Item)
    ensures e.kind == GOLDEN ==> CatchResult(s, e).state.stats == s.stats.(goldenEggs := s.stats.goldenEggs + 1)
    ensures e.kind == ROTTEN ==> CatchResult(s, e).state.stats == s.stats.(rottenHit := s.stats.rottenHit + 1)
    ensures e.kind == BOMB ==> CatchResult(s, e).state.stats == s.stats.(bombsHit := s.stats.bombsHit + 1)
    ensures e.kind == STAR ==> CatchResult(s, e).state.stats == s.stats.(starsCaught := s.stats.starsCaught + 1)
    ensures !(e.kind == GOLDEN || e.kind == ROTTEN || e.kind == BOMB || e.kind == STAR) ==>
      CatchResult(s, e).state.stats == s.stats
  {
  }

  /** Lives after a miss: a normal or golden item costs one, resets the
      combo and emits exactly one miss, and changes nothing else; any other
      type changes nothing. */
  lemma MissLives(s: Snapshot, e: Item)
    ensures IsScoring(e.kind) ==>
      var r := MissResult(s, e).state;
      && r.lives == s.lives - 1 && r.comboCounter == 0 && !r.comboActive && MissResult(s, e).events == [Miss]
      && r == s.(lives := r.lives, comboCounter := 0, comboActive := false)
    ensures !IsScoring(e.kind) ==> MissResult(s, e) == Outcome(s, [])
  {
  }

  /** The collision pass so far: the state after resolving a prefix of the
      egg list, the ids marked caught and missed, and the events emitted. */
  datatype Pass = Pass(state: Snapshot, caught: set<int>, missed: set<int>, events: seq<GameEvent>)

  /** The `for...of` over the egg list: each egg is tested against the basket
      first; only an egg not caught is tested for a miss. */
  function Collide(s: Snapshot, eggs: seq<Item>, playerX: real): Pass
  {
    if eggs == [] then Pass(s, {}, {}, [])
    else
      var p := Collide(s, eggs[..|eggs| - 1], playerX);
      var e := eggs[|eggs| - 1];
      if Caught(e, playerX) then
        var o := CatchResult(p.state, e);
        Pass(o.state, p.caught + {e.id}, p.missed, p.events + o.events)
      else if PastBottom(e) then
        var o := MissResult(p.state, e);
        Pass(o.state, p.caught, p.missed + {e.id}, p.events + o.events)
      else p
  }

  /** The filter predicate of `handleCollisionsAndMisses`. */
  predicate Unresolved(p: Pass, e: Item) {
    e.id !in p.caught && e.id !in p.missed
  }

  /** `handleCollisionsAndMisses`: resolve every egg against the basket at the
      current player position, then drop every egg whose id was caught or
      missed. */
  function CollisionResult(s: Snapshot): Outcome {
    var p := Collide(s, s.eggs, s.playerX);
    Outcome(p.state.(eggs := Filter(s.eggs, e => Unresolved(p, e))), p.events)
  }

  /** The caught and missed ids are exactly those of the caught eggs and of
      the uncaught eggs past the bottom; the pass never touches the egg list
      or the player. */
  lemma {:induction false} CollideSets(s: Snapshot, eggs: seq<Item>, playerX: real)
    ensures Collide(s, eggs, playerX).caught == set e | e in eggs && Caught(e, playerX) :: e.id
    ensures Collide(s, eggs, playerX).missed == set e | e in eggs && !Caught(e, playerX) && PastBottom(e) :: e.id
    ensures Collide(s, eggs, playerX).state.eggs == s.eggs
    ensures Collide(s, eggs, playerX).state.playerX == s.playerX
  {
    if eggs != [] {
      var init := eggs[..|eggs| - 1];
      CollideSets(s, init, playerX);
      assert eggs == init + [eggs[|eggs| - 1]];
    }
  }

  /** Ids are unique within an egg list. */
  predicate UniqueIds(eggs: seq<Item>) {
    forall i, j :: 0 <= i < |eggs| && 0 <= j < |eggs| && eggs[i].id == eggs[j].id ==> i == j
  }

  /** Each egg is caught, missed or kept, never two of these: an egg
      survives the collision pass exactly when no egg carrying its id was
      caught or went past the bottom, and the survivors keep their order. */
  lemma CollisionPartition(s: Snapshot)
    ensures forall e :: e in CollisionResult(s).state.eggs <==>
      e in s.eggs && !Resolved(s.eggs, s.playerX, e.id)
    ensures CollisionResult(s).state.eggs == Filter(s.eggs, (e: Item) => !Resolved(s.eggs, s.playerX, e.id))
  {
    var p := Collide(s, s.eggs, s.playerX);
    CollideSets(s, s.eggs, s.playerX);
    var keep := e => Unresolved(p, e);
    forall i | 0 <= i < |s.eggs|
      ensures keep(s.eggs[i]) == !Resolved(s.eggs, s.playerX, s.eggs[i].id)
    {
      var e := s.eggs[i];
      if Resolved(s.eggs, s.playerX, e.id) {
        var f :| f in s.eggs && f.id == e.id && (Caught(f, s.playerX) || PastBottom(f));
        if Caught(f, s.playerX) {
          assert e.id in p.caught;
        } else {
          assert e.id in p.missed;
        }
      }
    }
    FilterCongruent(s.eggs, keep, (e: Item) => !Resolved(s.eggs, s.playerX, e.id));
    forall e | e in s.eggs && !Resolved(s.eggs, s.playerX, e.id)
      ensures e in CollisionResult(s).state.eggs
    {
      FilterKeeps(s.eggs, (e: Item) => !Resolved(s.eggs, s.playerX, e.id), e);
    }
  }

  /** With unique ids the survivors are exactly the eggs that were neither
      caught nor past the bottom themselves. */
  lemma CollisionPartitionUnique(s: Snapshot)
    requires UniqueIds(s.eggs)
    ensures forall e :: e in CollisionResult(s).state.eggs <==>
      e in s.eggs && !Caught(e, s.playerX) && !PastBottom(e)
    ensures CollisionResult(s).state.eggs == Filter(s.eggs, e => !Caught(e, s.playerX) && !PastBottom(e))
  {
    var p := Collide(s, s.eggs, s.playerX);
    CollideSets(s, s.eggs, s.playerX);
    var keep := e => Unresolved(p, e);
    forall e | e in s.eggs && !Caught(e, s.playerX) && !PastBottom(e)
      ensures e in CollisionResult(s).state.eggs
    {
      forall f | f in s.eggs && f.id == e.id ensures f == e {
        var i :| 0 <= i < |s.eggs| && s.eggs[i] == e;
        var j :| 0 <= j < |s.eggs| && s.eggs[j] == f;
      }
      FilterKeeps(s.eggs, keep, e);
    }
    forall i | 0 <= i < |s.eggs|
      ensures keep(s.eggs[i]) == (!Caught(s.eggs[i], s.playerX) && !PastBottom(s.eggs[i]))
    {
      var e := s.eggs[i];
      if !Caught(e, s.playerX) && !PastBottom(e) {
        forall j | 0 <= j < |s.eggs| && s.eggs[j].id == e.id ensures s.eggs[j] == e { }
      }
    }
    FilterCongruent(s.eggs, keep, e => !Caught(e, s.playerX) && !PastBottom(e));
  }

  // ----- The whole step -----

  /** `updateGameLogic`: move and clamp the player, spawn, count the timers
      down, let every egg fall at the current base speed, then resolve
      catches and misses. The difficulty is read once, from the score at the
      start of the step. */
  function LogicStep(s: Snapshot, dt: real, logicDt: real, draw: SpawnDraw, id: int): Outcome {
    var s1 := s.(playerX := MovePlayer(s.playerX, s.input, dt));
    var s2 := SpawnResult(s1, logicDt, RatioSpawnRate(INITIAL_SPAWN_RATE, s.score), draw, id);
    var s3 := TimersAfter(s2, dt);
    var s4 := s3.(eggs := FallAll(s3.eggs, RatioSpeed(INITIAL_EGG_SPEED, s.score), logicDt));
    CollisionResult(s4)
  }

  /** A catch keeps the invariant and never lowers the score or a counter. */
  lemma CatchKeepsValid(s: Snapshot, e: Item)
    requires Valid(s)
    ensures Valid(CatchResult(s, e).state)
    ensures CatchResult(s, e).state.score >= s.score && StatsLe(s.stats, CatchResult(s, e).state.stats)
  {
    if IsScoring(e.kind) {
      ScoringCatch(s, e);
    }
  }

  /** A miss keeps the invariant and never lowers the score or a counter. */
  lemma MissKeepsValid(s: Snapshot, e: Item)
    requires Valid(s)
    ensures Valid(MissResult(s, e).state)
    ensures MissResult(s, e).state.score == s.score && MissResult(s, e).state.stats == s.stats
  {
  }

  /** The whole collision pass keeps the invariant; score and counters only grow. */
  lemma {:induction false} CollideKeepsValid(s: Snapshot, eggs: seq<Item>, playerX: real)
    requires Valid(s)
    ensures Valid(Collide(s, eggs, playerX).state)
    ensures Collide(s, eggs, playerX).state.score >= s.score
    ensures StatsLe(s.stats, Collide(s, eggs, playerX).state.stats)
  {
    if eggs != [] {
      var init := eggs[..|eggs| - 1];
      var e := eggs[|eggs| - 1];
      CollideKeepsValid(s, init, playerX);
      var p := Collide(s, init, playerX);
      if Caught(e, playerX) {
        CatchKeepsValid(p.state, e);
      } else if PastBottom(e) {
        MissKeepsValid(p.state, e);
      }
    }
  }

  /** One step keeps the invariant, leaves the player inside the field
      whatever the input, and never lowers the score or a stat counter. */
  lemma StepKeepsValid(s: Snapshot, dt: real, logicDt: real, draw: SpawnDraw, id: int)
    requires Valid(s)
    ensures Valid(LogicStep(s, dt, logicDt, draw, id).state)
    ensures 0.0 <= LogicStep(s, dt, logicDt, draw, id).state.playerX <= MAX_PLAYER_X
    ensures LogicStep(s, dt, logicDt, draw, id).state.score >= s.score
    ensures StatsLe(s.stats, LogicStep(s, dt, logicDt, draw, id).state.stats)
  {
    var s1 := s.(playerX := MovePlayer(s.playerX, s.input, dt));
    var s2 := SpawnResult(s1, logicDt, RatioSpawnRate(INITIAL_SPAWN_RATE, s.score), draw, id);
    var s3 := TimersAfter(s2, dt);
    TimersSpec(s2, dt);
    var s4 := s3.(eggs := FallAll(s3.eggs, RatioSpeed(INITIAL_EGG_SPEED, s.score), logicDt));
    assert Valid(s4);
    CollideKeepsValid(s4, s4.eggs, s4.playerX);
    CollideSets(s4, s4.eggs, s4.playerX);
  }

  // ----- The source's procedures on the mutable state record -----

  /** `spawnItem`: push one new item chosen by the band draw. */
  method SpawnItem(state: GameStateRef, draw: SpawnDraw, id: int)
    modifies state
    ensures state.View() == old(state.View()).(eggs := old(state.eggs) + [NewItem(ClassicKind(draw.band), id, draw.xDraw, draw.drift)])
  {
    var kind := ClassicKind(draw.band);
    var width, height := ItemWidth(kind), ItemHeight(kind);
    state.eggs := state.eggs + [Item(id, kind, draw.xDraw * (GAME_WIDTH - width), -height, width, height,
                                     (draw.drift - 0.5) * SPAWN_DRIFT, 0.0)];
  }

  /** The `switch` of `processCatch` on the record: returns the type's
      event (none for magnet and frenzy) and the points the item is worth. */
  method CatchSwitchStep(egg: Item, state: GameStateRef) returns (ev: seq<GameEvent>, pointsEarned: int)
    modifies state
    ensures state.View() == CatchSwitch(old(state.View()), egg).state
    ensures ev == CatchSwitch(old(state.View()), egg).events
    ensures pointsEarned == BasePoints(egg.kind)
  {
    pointsEarned := 0;
    ev := [CatchEvent(egg.kind, Point(egg.x, egg.y))];
    match egg.kind {
      case NORMAL =>
        pointsEarned := SCORE_NORMAL;
      case GOLDEN =>
        pointsEarned := SCORE_GOLDEN;
        state.stats := state.stats.(goldenEggs := state.stats.goldenEggs + 1);
      case ROTTEN =>
        state.lives := state.lives - 1;
        state.stats := state.stats.(rottenHit := state.stats.rottenHit + 1);
      case BOMB =>
        state.lives := state.lives - 1;
        state.stats := state.stats.(bombsHit := state.stats.bombsHit + 1);
      case HEART =>
        if state.lives < MAX_LIVES {
          state.lives := state.lives + 1;
        }
      case CLOCK =>
        state.slowMoTimer := SLOW_MOTION_DURATION;
      case STAR =>
        state.multiplierTimer := MULTIPLIER_DURATION;
        state.scoreMultiplier := SCORE_MULTIPLIER;
        state.stats := state.stats.(starsCaught := state.stats.starsCaught + 1);
      case MAGNET =>
        ev := [];
      case FRENZY =>
        ev := [];
    }
  }

  /** `processCatch`: the type switch, then the combo and score update. */
  method ProcessCatch(egg: Item, state: GameStateRef, events: seq<GameEvent>) returns (out: seq<GameEvent>)
    modifies state
    ensures state.View() == CatchResult(old(state.View()), egg).state
    ensures out == events + CatchResult(old(state.View()), egg).events
  {
    var ev, pointsEarned := CatchSwitchStep(egg, state);
    out := events + ev;
    if pointsEarned > 0 {
      state.comboCounter := state.comboCounter + 1;
      if state.comboCounter >= COMBO_THRESHOLD {
        state.comboActive := true;
        state.comboTimer := COMBO_DURATION;
      }
      var finalPoints := pointsEarned;
      if state.comboActive {
        finalPoints := finalPoints * 2;
      }
      finalPoints := finalPoints * state.scoreMultiplier;
      state.score := state.score + finalPoints;
      out := out + [AddScore(Point(egg.x, egg.y), finalPoints)];
    } else {
      state.comboCounter := 0;
      state.comboActive := false;
    }
  }

  /** `processMiss`. */
  method ProcessMiss(egg: Item, state: GameStateRef, events: seq<GameEvent>) returns (out: seq<GameEvent>)
    modifies state
    ensures state.View() == MissResult(old(state.View()), egg).state
    ensures out == events + MissResult(old(state.View()), egg).events
  {
    out := events;
    if egg.kind == NORMAL || egg.kind == GOLDEN {
      state.lives := state.lives - 1;
      state.comboCounter := 0;
      state.comboActive := false;
      out := out + [Miss];
    }
  }

  /** `handleCollisionsAndMisses`: one pass that marks and resolves, then a
      filter that drops every marked id. */
  method HandleCollisionsAndMisses(state: GameStateRef, events: seq<GameEvent>) returns (out: seq<GameEvent>)
    modifies state
    ensures state.View() == CollisionResult(old(state.View())).state
    ensures out == events + CollisionResult(old(state.View())).events
  {
    ghost var s0 := state.View();
    var playerX := state.playerX;
    var eggs := state.eggs;
    var caught: set<int> := {};
    var missed: set<int> := {};
    out := events;
    for i := 0 to |eggs|
      invariant state.View() == Collide(s0, eggs[..i], playerX).state
      invariant caught == Collide(s0, eggs[..i], playerX).caught
      invariant missed == Collide(s0, eggs[..i], playerX).missed
      invariant out == events + Collide(s0, eggs[..i], playerX).events
    {
      var egg := eggs[i];
      assert eggs[..i + 1][..i] == eggs[..i];
      if Caught(egg, playerX) {
        caught := caught + {egg.id};
        out := ProcessCatch(egg, state, out);
      } else if PastBottom(egg) {
        missed := missed + {egg.id};
        out := ProcessMiss(egg, state, out);
      }
    }
    assert eggs[..|eggs|] == eggs;
    ghost var p := Collide(s0, eggs, playerX);
    CollideSets(s0, eggs, playerX);
    var kept := FilterLoop(eggs, (e: Item) => e.id !in caught && e.id !in missed);
    FilterCongruent(eggs, (e: Item) => e.id !in caught && e.id !in missed, (e: Item) => Unresolved(p, e));
    state.eggs := kept;
  }

  /** The body of the `forEach` for one egg: set its vertical speed, move
      it, and bounce it off a side wall it touches. */
  method FallOne(egg: Item, speed: real, logicDt: real) returns (r: Item)
    ensures r == Fall(egg, speed, logicDt)
  {
    r := egg.(vy := speed);
    r := r.(y := r.y + r.vy * logicDt);
    r := r.(x := r.x + r.vx * logicDt);
    if r.x <= 0.0 || r.x + r.width >= GAME_WIDTH {
      r := r.(vx := r.vx * -1.0);
      r := r.(x := Max(0.0, Min(GAME_WIDTH - r.width, r.x)));
    }
  }

  /** The `forEach` over the item list (phase 4). */
  method FallEggs(state: GameStateRef, speed: real, logicDt: real)
    modifies state
    ensures state.View() == old(state.View()).(eggs := FallAll(old(state.eggs), speed, logicDt))
  {
    var eggs := state.eggs;
    for i := 0 to |eggs|
      invariant |eggs| == |old(state.eggs)|
      invariant forall k :: 0 <= k < i ==> eggs[k] == Fall(old(state.eggs)[k], speed, logicDt)
      invariant forall k :: i <= k < |eggs| ==> eggs[k] == old(state.eggs)[k]
      invariant unchanged(state)
    {
      var egg := FallOne(eggs[i], speed, logicDt);
      eggs := eggs[i := egg];
    }
    assert eggs == FallAll(old(state.eggs), speed, logicDt);
    state.eggs := eggs;
  }

  /** Phase 1: steer the player, then clamp to the playfield. */
  method MovePlayerStep(state: GameStateRef, dt: real)
    modifies state
    ensures state.View() == old(state.View()).(playerX := MovePlayer(old(state.playerX), old(state.input), dt))
  {
    var x := state.playerX;
    if state.input.touchX.Some? {
      x := x + (state.input.touchX.value - PLAYER_WIDTH / 2.0 - x) * TOUCH_SMOOTHING;
    } else {
      if state.input.left {
        x := x - PLAYER_SPEED * dt;
      }
      if state.input.right {
        x := x + PLAYER_SPEED * dt;
      }
    }
    state.playerX := Max(0.0, Min(GAME_WIDTH - PLAYER_WIDTH, x));
  }

  /** Phase 2: accumulate the spawn timer and spawn once it passes the rate. */
  method SpawnStep(state: GameStateRef, logicDt: real, currentSpawnRate: real, draw: SpawnDraw, id: int)
    modifies state
    ensures state.View() == SpawnResult(old(state.View()), logicDt, currentSpawnRate, draw, id)
  {
    state.spawnTimer := state.spawnTimer + logicDt;
    if state.spawnTimer > currentSpawnRate {
      state.spawnTimer := 0.0;
      SpawnItem(state, draw, id);
    }
  }

  /** Phase 3: count the power-up and combo timers down by real time. */
  method TimersStep(state: GameStateRef, dt: real)
    modifies state
    ensures state.View() == TimersAfter(old(state.View()), dt)
  {
    ghost var s0 := state.View();
    if state.slowMoTimer > 0.0 {
      state.slowMoTimer := Max(0.0, state.slowMoTimer - dt * 1000.0);
    }
    if state.multiplierTimer > 0.0 {
      state.multiplierTimer := Max(0.0, state.multiplierTimer - dt * 1000.0);
      if state.multiplierTimer == 0.0 {
        state.scoreMultiplier := 1;
      }
    }
    if state.comboActive {
      state.comboTimer := Max(0.0, state.comboTimer - dt * 1000.0);
      if state.comboTimer == 0.0 {
        state.comboActive := false;
      }
    }
    ghost var r := TimersAfter(s0, dt);
    assert state.slowMoTimer == r.slowMoTimer && state.multiplierTimer == r.multiplierTimer;
    assert state.scoreMultiplier == r.scoreMultiplier;
    assert state.comboTimer == r.comboTimer && state.comboActive == r.comboActive;
  }

  /** `updateGameLogic`: the five phases in order; returns the events. */
  method UpdateGameLogic(state: GameStateRef, dt: real, logicDt: real, draw: SpawnDraw, id: int) returns (events: seq<GameEvent>)
    modifies state
    ensures state.View() == LogicStep(old(state.View()), dt, logicDt, draw, id).state
    ensures events == LogicStep(old(state.View()), dt, logicDt, draw, id).events
  {
    ghost var s0 := state.View();
    MovePlayerStep(state, dt);
    ghost var s1 := state.View();
    assert s1 == s0.(playerX := MovePlayer(s0.playerX, s0.input, dt));
    var difficulty := Ratio(state.score);
    var currentSpawnRate := INITIAL_SPAWN_RATE - (INITIAL_SPAWN_RATE - MIN_SPAWN_RATE) * difficulty;
    assert currentSpawnRate == RatioSpawnRate(INITIAL_SPAWN_RATE, s0.score);
    SpawnStep(state, logicDt, currentSpawnRate, draw, id);
    ghost var s2 := state.View();
    assert s2 == SpawnResult(s1, logicDt, RatioSpawnRate(INITIAL_SPAWN_RATE, s0.score), draw, id);
    TimersStep(state, dt);
    ghost var s3 := state.View();
    assert s3 == TimersAfter(s2, dt);
    var eggBaseSpeed := INITIAL_EGG_SPEED + MAX_SPEED_BONUS * difficulty;
    assert eggBaseSpeed == RatioSpeed(INITIAL_EGG_SPEED, s0.score);
    FallEggs(state, eggBaseSpeed, logicDt);
    ghost var s4 := state.View();
    assert s4 == s3.(eggs := FallAll(s3.eggs, RatioSpeed(INITIAL_EGG_SPEED, s0.score), logicDt));
    events := HandleCollisionsAndMisses(state, []);
    assert events == CollisionResult(s4).events;
  }
}
