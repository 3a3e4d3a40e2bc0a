# Egg-catching game — a verified Dafny model of its core

The game is a browser arcade game. Items fall from the top of an 800 × 600
playfield: normal and golden eggs, rotten eggs, bombs, hearts, clocks, stars
and magnets. The player steers a basket along the bottom to catch them.
The repository contains three versions of the per-frame simulation:

- **the modular engine** (`src/game/logic.ts`, with `src/game/state.ts` and
  `src/game/effects.ts`): a state record that the logic step and the effect
  helpers update in place;
- **the inventory screen** (`src/screens/GameScreen.tsx`): caught clocks,
  stars and magnets are stored in three slots and used later with keys
  1–3; a running magnet pulls eggs and hearts toward the basket; an admin
  plays with 99 lives and is immune to damage;
- **the legacy component** (`components/Game.tsx`): power-ups act at once,
  and catches raise floating texts, particle bursts and screen shakes.

Around the simulation sit the profile service
(`src/services/supabaseService.ts`) and the top-level app (`App.tsx`). The
service handles accounts, the shop, equipment and a stored top-5
leaderboard. The app is a small screen machine; at the end of a run it
updates the best score and the leaderboard.

Each simulation is modelled twice:

- **pure specification functions** over a snapshot datatype, one per phase
  of a frame (move, spawn, timers, fall, catch pass, miss pass, filter);
- **imperative methods** on a class holding the mutable fields, proved to
  compute exactly those functions.

The invariants and game rules are then proved as lemmas about the
specification functions. The random draws of a spawn, the random values of
a particle burst, new item ids and the square root used by the magnet are
parameters.

Modules, one per file:

- `Constants`: the tuning constants.
- `Types`: item types and records.
- `Sequences`: `filter` and its laws.
- `Physics`: steering, the fall, the wall bounce and the basket test.
- `Spawning`: the band tables and new items.
- `Difficulty`: the ratio curve and the step curve.
- `GameState`: the state record.
- `Effects`: texts, particles and shake.
- `Logic`: the modular engine.
- `ScreenRules` and `Screen`: the inventory screen, as rules and as a class.
- `Legacy`: the legacy component.
- `Leaderboard`, `Profiles` and `AppShell`.

Where the code and the design intent differ, the model follows the code:

- Not every timer is clamped at zero. The multiplier and combo timers of
  the two screen loops, and the combo timer of the legacy loop, count down
  unclamped and can go negative.
- The loops disagree on which catches reset the combo:
  - the modular engine resets it on every catch that awards no points,
    hearts and power-ups included;
  - the inventory screen resets it only on rotten eggs and bombs;
  - the legacy loop resets it on no catch at all.
- The modular engine's switch has no case for magnets: catching one emits
  no event and, as it awards no points, only resets the combo.
- An admin's lives start at 99, outside the usual 0 to 3 range, and an
  admin's misses neither cost a life nor reset the combo.
- The game-over test runs once per frame, after both passes. A frame can
  therefore drop the lives to zero or below and keep resolving items.

## Model

| member | source | states |
|---|---|---|
| Physics.Steer | src/game/logic.ts:119-125 | defined as the unclamped move: a touch point moves the player 0.2 of the way toward touchX − player width / 2 and overrides the keys; otherwise left and right each move by speed × dt. MovePlayer, BothKeysCancel and TouchOverridesKeys state its properties |
| Physics.Clamp | src/game/logic.ts:126 | the clamp result lies in [lo, hi], is the value itself inside the range, and the nearer bound outside it |
| Physics.MovePlayer | src/game/logic.ts:119-126 | the player always ends on the field, and is exactly the steered position whenever that position is on the field |
| Physics.BothKeysCancel | src/screens/GameScreen.tsx:252-254 | holding both keys leaves an on-field player where it is |
| Physics.TouchOverridesKeys | components/Game.tsx:378-384 | with a touch point present, the key state does not affect the move |
| Physics.Advance | src/game/logic.ts:152-157 | size, id, type and vertical speed are kept and y advances by vy × logic time; when the moved item touches or crosses a side wall its horizontal speed is reversed and x is clamped back inside, otherwise the speed is kept and x is the moved position; the item ends inside the side walls |
| Physics.AdvanceInterior | src/game/logic.ts:152-157 | an item that stays clear of the walls is only translated, with its drift kept |
| Physics.Fall | src/game/logic.ts:149-158 | the vertical speed becomes the frame's base speed, y advances by speed × logic time, the item bounces off a wall it touches or crosses (speed reversed, x clamped) and otherwise keeps its drift, and it stays between the walls |
| Physics.FallAll | src/game/logic.ts:150-158 | the fall of every item, position by position, with the list length kept |
| Physics.BasketX | src/game/logic.ts:92-97 | defined as the basket's left edge, centred under the player |
| Physics.Caught | src/game/logic.ts:103 | defined as strict overlap of the item's box with the basket's on both axes; CollideSets and CatchesIds state which ids it marks |
| Physics.PastBottom | src/game/logic.ts:107 | defined as the item's top edge strictly below the field height; CaughtIsNotMissed shows no caught item satisfies it |
| Physics.CaughtIsNotMissed | src/game/logic.ts:103-107 | an item overlapping the basket is never also past the bottom, so no item is resolved twice |
| Spawning.ClassicKind | src/game/logic.ts:22-30 | defined as the threshold chain of the classic loops; ClassicKindFollowsWeights proves it equal to Pick over the classic weight table |
| Spawning.ScreenKind | src/screens/GameScreen.tsx:219-228 | defined as the inventory screen's threshold chain; ScreenKindFollowsWeights proves it equal to Pick over the screen table |
| Spawning.Pick | src/game/logic.ts:22-30 | the independent reference: choose by per-type weights, the first band the draw does not exhaust |
| Spawning.WeightsAreDistributions | src/game/logic.ts:22-30 | the per-type weights of both band tables sum to one |
| Spawning.ClassicKindFollowsWeights | src/game/logic.ts:22-30 | the cumulative thresholds of the classic table choose exactly the type the weight table assigns to every draw |
| Spawning.ScreenKindFollowsWeights | src/screens/GameScreen.tsx:219-228 | the same for the inventory screen's table with magnets |
| Spawning.SpawnedKinds | components/Game.tsx:342-350 | the classic table never yields a magnet or frenzy item; the screen table never yields a frenzy item |
| Spawning.ItemWidth | src/screens/GameScreen.tsx:230-236 | a new item's width for each type (circles take twice their radius); always positive and at most the field width |
| Spawning.ItemHeight | src/game/logic.ts:32-39 | a new item's height for each type; always positive |
| Spawning.NewItem | src/game/logic.ts:41-44 | the new item starts fully above the field with no vertical speed, at x = draw × (field width − item width) and with drift (draw − 0.5) × 60; for draws in [0, 1) it lies between the walls |
| Difficulty.Ratio | src/game/logic.ts:129 | defined as min(score / 500, 1); RatioInUnit bounds it to [0, 1] |
| Difficulty.RatioSpawnRate | src/game/logic.ts:130 | defined as the initial interval lowered linearly toward 0.3 by the ratio; RatioBounds, RatioMonotone and RatioSaturates state its range, order and limit |
| Difficulty.RatioSpeed | src/game/logic.ts:149 | defined as the initial speed plus 300 × ratio; RatioBounds, RatioMonotone and RatioSaturates state its range, order and limit |
| Difficulty.RatioBounds | src/game/logic.ts:129-130 | for a non-negative score, the ratio curve's interval lies between the floor and the initial interval, and its speed within 300 of the initial speed |
| Difficulty.RatioMonotone | components/Game.tsx:386-387 | a higher score never lengthens the interval nor slows the fall |
| Difficulty.RatioSaturates | src/game/logic.ts:149 | from score 500 on, both ratio curves sit at their limits |
| Difficulty.RatioInUnit | src/game/logic.ts:129 | the difficulty ratio of a non-negative score lies in [0, 1] |
| Difficulty.Level | src/screens/GameScreen.tsx:257 | the level is the floor of score / 100 |
| Difficulty.StepSpawnRate | src/screens/GameScreen.tsx:258 | defined as max(0.3, initial interval − level × decrease); StepBounds, StepMonotone and StepIsPiecewiseConstant state its properties |
| Difficulty.StepSpeed | src/screens/GameScreen.tsx:270 | defined as the initial speed plus level × increase; StepBounds, StepMonotone and StepSpeedUnbounded state its properties |
| Difficulty.StepBounds | src/screens/GameScreen.tsx:257-258 | the step interval stays between 0.3 and the initial interval; the step speed is at least the initial speed |
| Difficulty.StepMonotone | src/screens/GameScreen.tsx:258-270 | a higher score never lengthens the step interval nor slows the step speed |
| Difficulty.StepIsPiecewiseConstant | src/screens/GameScreen.tsx:257-270 | scores on the same level give the same interval and speed |
| Difficulty.StepSpeedUnbounded | src/screens/GameScreen.tsx:270 | the step speed has no ceiling: every bound is exceeded at some score |
| GameState.InitialState | src/game/state.ts:5-24 | a fresh state: score 0, three lives, the player centred, no items, effects or shake, multiplier 1 and every timer and counter zero |
| GameState.GameStateRef.constructor | src/game/state.ts:27 | a record holding the given snapshot |
| Effects.NewText | src/game/effects.ts:3-5 | a new text sits at the given point, rises at 50 px/s, is fully opaque and lives one second |
| Effects.NewParticle | src/game/effects.ts:15-23 | a new particle sits at the burst point, is opaque, has radius in [2, 5) and life in [0.5, 1) for draws in [0, 1) |
| Effects.NewParticles | src/game/effects.ts:11-25 | a burst has exactly `count` particles, the i-th built from draw base + i |
| Effects.NewParticlesAtBurst | components/Game.tsx:325-339 | every particle of a burst starts at the burst point, fully opaque |
| Effects.AgeParticle | src/game/effects.ts:29 | a particle moves by (vx, vy) once per frame, whatever dt is; it loses dt of life and its opacity becomes its life |
| Effects.AgeText | src/game/effects.ts:33 | a text moves by vy × dt, loses dt of life, and its opacity is its life floored at zero |
| Effects.AgeParticles | src/game/effects.ts:29 | every particle aged in place, order and count kept |
| Effects.AgeTexts | src/game/effects.ts:33 | every text aged in place, order and count kept |
| Effects.UpdatedParticles | src/game/effects.ts:29-30 | defined as ageing every particle, then keeping those with life left; UpdatedParticlesSpec and UpdatedParticlesKeepOrder state its content and order |
| Effects.UpdatedTexts | src/game/effects.ts:33-34 | defined as ageing every text, then keeping those with life left; UpdatedTextsSpec and UpdatedTextsKeepOrder state its content and order |
| Effects.UpdatedParticlesSpec | src/game/effects.ts:29-30 | after an update every particle is alive and is the aged form of an old one; every old particle that survives ageing is kept |
| Effects.UpdatedTextsSpec | src/game/effects.ts:33-34 | after an update every text is alive with a non-negative opacity and is an aged old text; every survivor is kept |
| Effects.UpdatedTextsKeepOrder | src/game/effects.ts:34 | updating a concatenation equals concatenating the updates, so survivors keep their order |
| Effects.UpdatedParticlesKeepOrder | src/game/effects.ts:30 | the same for particles |
| Effects.UpdateShake | src/game/effects.ts:37-42 | a running shake loses dt × 1000 ms and its magnitude drops to zero once the time is spent; an idle shake is unchanged |
| Effects.ScreenShakeTick | src/screens/GameScreen.tsx:267 | the screen loops' shake: a running shake loses time with its magnitude kept; an idle one has its magnitude zeroed |
| Effects.ShakeCountdownsDiffer | components/Game.tsx:475 | with positive frame time the screen loops keep a shake's magnitude on the frame its time runs out, where the engine's countdown zeroes it |
| Effects.AddFloatingText | src/game/effects.ts:3-5 | the record gains exactly one new text at the end; nothing else changes |
| Effects.TriggerScreenShake | src/game/effects.ts:7-9 | the shake is overwritten with the given magnitude and duration; nothing else changes |
| Effects.CreateParticles | src/game/effects.ts:11-25 | the loop appends exactly the burst of `count` particles; nothing else changes |
| Effects.AgeParticlesLoop | src/game/effects.ts:29 | the in-place ageing loop computes the aged list |
| Effects.AgeTextsLoop | src/game/effects.ts:33 | the in-place ageing loop computes the aged list |
| Effects.UpdateEffects | src/game/effects.ts:27-43 | particles and texts become their updated lists and the shake its countdown; nothing else changes |
| Sequences.Filter | src/game/logic.ts:113 | the kept list is never longer than the input and holds only input elements that pass the test |
| Sequences.FilterLoop | src/game/effects.ts:30 | the scanning loop returns exactly the filtered list |
| Logic.Valid | src/game/state.ts:5-24 | the running invariant: non-negative score, counters and timers, at most three lives, the player on the field, the multiplier raised exactly while its timer runs, an active combo with time left; InitialStateIsValid and StepKeepsValid establish and keep it |
| Logic.InitialStateIsValid | src/game/state.ts:5-24 | the initial state satisfies the running invariant |
| Logic.SpawnResult | src/game/logic.ts:131-135 | the spawn timer accumulates; once past the interval it restarts at zero and exactly one item of the drawn type is appended; otherwise the list is unchanged |
| Logic.TimersAfter | src/game/logic.ts:137-146 | the timer phase changes only the timers, the multiplier and the combo flag |
| Logic.TimersSpec | src/game/logic.ts:138-146 | timers stay non-negative and a running multiplier timer never grows for dt ≥ 0; the multiplier returns to 1 exactly on the frame its timer reaches zero; the combo switches off exactly when its timer runs out; the combo counter is untouched |
| Logic.CatchSwitch | src/game/logic.ts:50-63 | defined as the per-type switch; CatchLives, CatchSwitchStep and CatchKeepsValid state its effects |
| Logic.CatchResult | src/game/logic.ts:47-80 | defined as the switch followed by the scoring path or a combo reset; ScoringCatch, NonScoringCatchResetsCombo and CatchKeepsValid state its effects |
| Logic.BasePoints | src/game/logic.ts:51-52 | a normal egg is worth SCORE_NORMAL (1), a golden one SCORE_GOLDEN (5); the points are positive exactly for those two types |
| Logic.MissResult | src/game/logic.ts:82-89 | a missed normal or golden egg changes exactly lives (one fewer), the combo counter (0) and the combo flag (off), and emits one miss; any other miss changes nothing and emits nothing |
| Logic.ScoringCatch | src/game/logic.ts:65-75 | a scoring catch adds one to the combo counter, switches the combo on with a full COMBO_DURATION countdown at the threshold (otherwise leaves flag and timer), adds base × (2 if combo) × multiplier and emits that amount; lives, items and multiplier are untouched |
| Logic.NonScoringCatchResetsCombo | src/game/logic.ts:76-79 | every catch that awards nothing resets the combo and leaves the score alone |
| Logic.CatchLives | src/game/logic.ts:53-55 | rotten and bomb catches cost one life; a heart adds one only below three; other catches keep the lives |
| Logic.CatchStats | src/game/logic.ts:52-60 | a golden, rotten, bomb or star catch raises its own stat counter by one (goldenEggs, rottenHit, bombsHit, starsCaught); any other catch leaves the counters alone |
| Logic.MissLives | src/game/logic.ts:83-88 | missing a normal or golden egg costs one life, resets the combo, emits one miss and changes nothing else; other misses change nothing |
| Logic.Collide | src/game/logic.ts:102-111 | defined as the loop over the list, testing the basket before the bottom; CollideSets states the ids it marks |
| Logic.CollisionResult | src/game/logic.ts:91-114 | defined as the loop followed by the filter; CollisionPartition and CollideKeepsValid state its result |
| Logic.CollideSets | src/game/logic.ts:99-111 | the caught ids are exactly those of items in the basket; the missed ids exactly those of uncaught items past the bottom; player and item list untouched |
| Logic.CollisionPartition | src/game/logic.ts:102-113 | an item survives the collision pass exactly when no item with its id was caught or past the bottom; the survivors are the input list filtered by that test, in order |
| Logic.CollisionPartitionUnique | src/game/logic.ts:102-113 | with unique ids the same test is per item: an item survives exactly when it is neither in the basket nor past the bottom |
| Logic.CatchKeepsValid | src/game/logic.ts:47-80 | a catch keeps the invariant and never lowers score or a stat counter |
| Logic.MissKeepsValid | src/game/logic.ts:82-89 | a miss keeps the invariant and never lowers score or a stat counter |
| Logic.CollideKeepsValid | src/game/logic.ts:102-111 | the whole collision pass keeps the invariant, with score and counters only growing |
| Logic.LogicStep | src/game/logic.ts:116-164 | defined as the five phases in the source's order, the difficulty read from the score at the start; StepKeepsValid states what it keeps and UpdateGameLogic that the imperative step computes it |
| Logic.StepKeepsValid | src/game/logic.ts:116-164 | one step keeps the invariant, the player on the field, and never lowers the score or a counter |
| Logic.SpawnItem | src/game/logic.ts:21-45 | the item list gains exactly the new item of the drawn type; nothing else changes |
| Logic.CatchSwitchStep | src/game/logic.ts:50-63 | the switch on the record equals the specification's switch; the points returned are the type's base points |
| Logic.ProcessCatch | src/game/logic.ts:47-80 | the record becomes the specified catch result and the events are extended by its events |
| Logic.ProcessMiss | src/game/logic.ts:82-89 | the record becomes the specified miss result and the events are extended by its events |
| Logic.HandleCollisionsAndMisses | src/game/logic.ts:91-114 | the loop and the filter give exactly the specified collision result |
| Logic.FallOne | src/game/logic.ts:151-157 | one item's update equals the specified fall |
| Logic.FallEggs | src/game/logic.ts:150-158 | the item list becomes the fall of every item; nothing else changes |
| Logic.MovePlayerStep | src/game/logic.ts:120-126 | the player becomes the specified clamped move |
| Logic.SpawnStep | src/game/logic.ts:131-135 | the record becomes the specified spawn result |
| Logic.TimersStep | src/game/logic.ts:138-146 | the record becomes the specified timer result |
| Logic.UpdateGameLogic | src/game/logic.ts:116-164 | the five phases on the record give exactly the specified step, state and events |
| ScreenRules.ScreenInitial | src/screens/GameScreen.tsx:21-39 | an admin starts with 99 lives, anyone else with 3; three empty slots; every timer and counter zero |
| ScreenRules.ScreenValid | src/screens/GameScreen.tsx:21-39 | the screen's invariant: non-negative score, counters and clamped timers, multiplier 1 or 2, the player on the field, three slots holding only power-ups; ScreenInitialIsValid and FrameSpec establish and keep it |
| ScreenRules.ScreenInitialIsValid | src/screens/GameScreen.tsx:21-39 | the mounted refs satisfy the screen's invariant |
| ScreenRules.FirstEmpty | src/screens/GameScreen.tsx:302 | the index of the first empty slot (all before it filled), or −1 exactly when no slot is empty |
| ScreenRules.Store | src/screens/GameScreen.tsx:302-303 | defined as the write into the first empty slot, the inventory keeping its size; StoreSpec states its effect |
| ScreenRules.StoreSpec | src/screens/GameScreen.tsx:302-303 | storing fills exactly the first empty slot and no other, or changes nothing when every slot is full |
| ScreenRules.UseSlot | src/screens/GameScreen.tsx:206-216 | defined as the slot use; UseEmptySlot, UseFilledSlot and UseSlotKeepsValid state its effects |
| ScreenRules.UseEmptySlot | src/screens/GameScreen.tsx:207-208 | using an empty or out-of-range slot changes nothing |
| ScreenRules.UseFilledSlot | src/screens/GameScreen.tsx:206-216 | using a filled slot empties it alone and starts exactly its power-up: clock → slow motion, star → multiplier 2 for 7 s, magnet → magnet for 5 s |
| ScreenRules.UseSlotKeepsValid | src/screens/GameScreen.tsx:206-216 | using a slot keeps the invariant |
| ScreenRules.KeySlot | src/screens/GameScreen.tsx:356 | a key in the string range "1" to "3" (LexLe, JavaScript's string order) selects slot parseInt(key) − 1 (LeadingDigits); any other key selects none |
| ScreenRules.KeySlotOfChar | src/screens/GameScreen.tsx:356 | the keys "1", "2" and "3" select slots 0, 1 and 2; no other single character selects a slot |
| ScreenRules.ScreenTimers | src/screens/GameScreen.tsx:263-267 | defined as the timer block; ScreenTimersSpec states its effects |
| ScreenRules.ScreenTimersSpec | src/screens/GameScreen.tsx:263-267 | slow motion and magnet never go below zero; the multiplier and combo timers can (100 ms after a 1 s frame is −900 ms); the multiplier resets exactly when a running timer is spent; the combo counter is kept |
| ScreenRules.Attract | src/screens/GameScreen.tsx:274-282 | defined as the magnet's pull toward the basket centre outside the 10 px dead zone; ScreenFallGeometry states what it keeps |
| ScreenRules.ScreenFall | src/screens/GameScreen.tsx:272-286 | defined as base speed, the pull for attractable types (Attractable: normal, golden, heart) while the magnet runs, then integration with wall bounce; MagnetOnlyPullsAttractable and ScreenFallGeometry state its properties |
| ScreenRules.MagnetOnlyPullsAttractable | src/screens/GameScreen.tsx:272-286 | without a running magnet, or for a type it ignores (bombs among them), an item falls exactly as in the other loops |
| ScreenRules.ScreenFallGeometry | src/screens/GameScreen.tsx:272-286 | a pulled item keeps id, type and size and stays between the walls |
| ScreenRules.ScreenFallAll | src/screens/GameScreen.tsx:272-286 | every item moved in place, with order and count kept |
| ScreenRules.ScreenPoints | src/screens/GameScreen.tsx:296-297 | a normal egg is worth SCORE_NORMAL (1), a golden one SCORE_GOLDEN (5); the points are positive exactly for those two types |
| ScreenRules.ScreenMiss | src/screens/GameScreen.tsx:319-322 | a non-admin's missed normal or golden egg changes exactly lives (one fewer), the combo counter (0) and the combo flag (off); anything else changes nothing |
| ScreenRules.PowerUpCatch | src/screens/GameScreen.tsx:301-307 | a caught power-up is stored (or lost when full), stars and magnets are counted, nothing is awarded, and combo and lives are kept |
| ScreenRules.OnlyHazardsResetCombo | src/screens/GameScreen.tsx:309-313 | of the catches that award nothing, only rotten eggs and bombs reset the combo |
| ScreenRules.AdminLivesFixed | src/screens/GameScreen.tsx:298-321 | an admin's lives never change on a catch or a miss |
| ScreenRules.PlayerLives | src/screens/GameScreen.tsx:298-321 | for others, hazards cost one life, a heart adds one below three, and a missed egg costs one |
| ScreenRules.StoreKeepsPowerUps | src/screens/GameScreen.tsx:302-303 | storing a power-up keeps every slot empty or a power-up |
| ScreenRules.ScreenCatchSwitch | src/screens/GameScreen.tsx:295-308 | defined as the screen's per-type switch; PowerUpCatch, AdminLivesFixed, PlayerLives and CatchSwitchKeepsValid state its effects |
| ScreenRules.ScreenCatch | src/screens/GameScreen.tsx:292-314 | defined as the switch followed by scoring or a hazard's combo reset; ScreenScoringCatch, OnlyHazardsResetCombo, ScreenCatchStats and ScreenCatchKeepsValid state its effects |
| ScreenRules.ScreenScoringCatch | src/screens/GameScreen.tsx:309-312 | a scoring catch adds one to the combo counter, switches the combo on with a full COMBO_DURATION countdown at the threshold (otherwise leaves flag and timer), and adds base × (2 if combo) × multiplier to the score; lives, inventory and multiplier are untouched |
| ScreenRules.ScreenCatchStats | src/screens/GameScreen.tsx:297-305 | a golden, rotten, bomb, star or magnet catch raises its own stat counter by one, others leave the counters alone; a rotten egg sets the 8 px / 200 ms shake, a bomb the 20 px / 500 ms one, and any other catch keeps the shake |
| ScreenRules.CatchSwitchKeepsValid | src/screens/GameScreen.tsx:295-308 | the type switch keeps the invariant, leaves the score alone and never lowers a counter |
| ScreenRules.ScreenCatchKeepsValid | src/screens/GameScreen.tsx:292-314 | a catch keeps the invariant and never lowers the score or a counter |
| ScreenRules.Catches | src/screens/GameScreen.tsx:290-315 | defined as the catch pass in list order; CatchesIds and CatchesKeepValid state its effects |
| ScreenRules.Misses | src/screens/GameScreen.tsx:317-323 | defined as the miss pass in list order; MissesSpec states its effects |
| ScreenRules.CatchesIds | src/screens/GameScreen.tsx:290-315 | the catch pass marks exactly the ids of items in the basket and keeps the player and the item list |
| ScreenRules.CatchesKeepValid | src/screens/GameScreen.tsx:291-315 | the catch pass keeps the invariant and an admin's lives; score and counters only grow |
| ScreenRules.MissesSpec | src/screens/GameScreen.tsx:317-323 | the miss pass marks exactly the ids past the bottom, touches only lives and combo, and leaves an admin's state as it was |
| ScreenRules.ScreenSpawn | src/screens/GameScreen.tsx:259-260 | the spawn timer accumulates, restarts at zero past the interval and appends one item of the drawn type; otherwise nothing is added |
| ScreenRules.Prepared | src/screens/GameScreen.tsx:247-286 | defined as move, spawn, timers and item motion (Moved), the logic time slowed while slow motion runs (LogicDt) and the level read at the start of the frame; PreparedSpec states its effects |
| ScreenRules.Resolve | src/screens/GameScreen.tsx:289-326 | defined as the catch pass, the miss pass, the filter and the game-over test; ResolveSpec states its effects |
| ScreenRules.ScreenFrame | src/screens/GameScreen.tsx:240-327 | defined as nothing while paused, else prepare and resolve; FrameSpec states its effects |
| ScreenRules.PreparedSpec | src/screens/GameScreen.tsx:247-286 | the phases before the passes keep the invariant and leave score, lives and stats alone |
| ScreenRules.ResolveSpec | src/screens/GameScreen.tsx:289-326 | resolution keeps the invariant, never lowers score or counters, keeps an admin's lives, reports game over exactly when lives ≤ 0, and keeps exactly the items no caught or missed id matches, in order |
| ScreenRules.FrameSpec | src/screens/GameScreen.tsx:240-327 | a frame keeps the invariant and never lowers score or counters; a paused frame changes nothing; an admin's lives never change; game over is reported exactly when lives are spent |
| Screen.GameScreen.constructor | src/screens/GameScreen.tsx:21-39 | the refs as mounted, for an admin or not |
| Screen.GameScreen.UseInventoryItem | src/screens/GameScreen.tsx:206-216 | the refs become the specified slot use |
| Screen.GameScreen.PressKey | src/screens/GameScreen.tsx:356 | a slot key uses its slot; any other key changes nothing |
| Screen.GameScreen.FindEmptySlot | src/screens/GameScreen.tsx:302 | the search loop returns the first empty slot, or −1 |
| Screen.GameScreen.StoreItem | src/screens/GameScreen.tsx:302-303 | the slot array becomes the specified store; nothing else changes |
| Screen.GameScreen.CatchSwitch | src/screens/GameScreen.tsx:295-308 | the refs become the specified switch; the points returned are the type's points |
| Screen.GameScreen.CatchOne | src/screens/GameScreen.tsx:292-314 | the refs become the specified catch |
| Screen.GameScreen.MissOne | src/screens/GameScreen.tsx:319-322 | the refs become the specified miss |
| Screen.GameScreen.CatchPass | src/screens/GameScreen.tsx:290-315 | the loop gives the specified catch pass and its set of marked ids |
| Screen.GameScreen.MissPass | src/screens/GameScreen.tsx:317-323 | the loop gives the specified miss pass and its set of marked ids |
| Screen.GameScreen.MovePlayerStep | src/screens/GameScreen.tsx:252-254 | the player becomes the clamped move |
| Screen.GameScreen.SpawnStep | src/screens/GameScreen.tsx:259-260 | the refs become the specified spawn |
| Screen.GameScreen.TimersStep | src/screens/GameScreen.tsx:263-267 | the refs become the specified timer block |
| Screen.GameScreen.PowerUpTimersStep | src/screens/GameScreen.tsx:263-265 | slow motion, magnet and multiplier count down as specified; nothing else changes |
| Screen.GameScreen.Pull | src/screens/GameScreen.tsx:274-282 | one item's pull equals the specified attraction |
| Screen.GameScreen.Integrate | src/screens/GameScreen.tsx:283-285 | one item's integration equals the shared advance with wall bounce |
| Screen.GameScreen.FallOne | src/screens/GameScreen.tsx:273-285 | one item's update equals the specified screen fall |
| Screen.GameScreen.MoveItems | src/screens/GameScreen.tsx:270-286 | the item list becomes the specified move of every item; nothing else changes |
| Screen.GameScreen.PrepareStep | src/screens/GameScreen.tsx:247-286 | the refs become the specified preparation |
| Screen.GameScreen.ResolveStep | src/screens/GameScreen.tsx:289-326 | the refs and the game-over report become the specified resolution |
| Screen.GameScreen.Frame | src/screens/GameScreen.tsx:240-327 | the refs and the game-over report become the specified frame |
| Legacy.NatToString | components/Game.tsx:455 | the printed form of a number is a non-empty string of decimal digits |
| Legacy.NatToStringRoundTrip | components/Game.tsx:455 | reading the printed digits back gives the number |
| Legacy.IntToString | components/Game.tsx:455 | defined as the template-literal form, a minus sign before a negative number; LegacyScoringText shows the "+N" text reads back as the points |
| Legacy.Burst | components/Game.tsx:325-339 | the state gains exactly the burst particles at the end; nothing else changes |
| Legacy.Say | components/Game.tsx:317-319 | the state gains exactly one new text at the end; nothing else changes |
| Legacy.LegacyMiss | components/Game.tsx:463-468 | a costly miss (CostsLifeOnMiss: any type but rotten, bomb, heart, clock and star) takes exactly one life and starts the 8 px / 200 ms shake; any other miss returns the state unchanged |
| Legacy.HazardHit | components/Game.tsx:434-435 | defined as one life and one counter, the hazard's shake and a burst at the item's centre; HazardKeepsLegacyValid and HazardStep state its effects |
| Legacy.PowerUpHit | components/Game.tsx:436-446 | defined as the heart, clock or star effect with its text; LegacyPowerUps states its effects |
| Legacy.LegacySwitch | components/Game.tsx:431-447 | defined as the per-type switch giving points, colour and particle count; LegacyCatchLives and SwitchKeepsLegacyValid state its effects |
| Legacy.ScoreCatch | components/Game.tsx:448-457 | defined as the combo, the points and the "+N" text and burst; ComboAndScoreStep, LegacyScoringText and ScoreCatchKeepsLegacyValid state its effects |
| Legacy.LegacyCatch | components/Game.tsx:428-458 | defined as the switch followed by the scoring tail for eggs; CatchKeepsLegacyValid states its effects |
| Legacy.LegacyPowerUps | components/Game.tsx:436-446 | clocks and stars restart their timers at full duration and set the multiplier to 2, never stacking; no non-scoring catch touches combo or score |
| Legacy.LegacyCatchLives | components/Game.tsx:434-436 | rotten and bomb cost one life; a heart adds one only below three |
| Legacy.LegacyCatchStats | components/Game.tsx:433-441 | a golden, rotten, bomb or star catch raises its own stat counter by one, others leave the counters alone; a rotten egg sets the 8 px / 200 ms shake, a bomb the 20 px / 500 ms one, and any other catch keeps the shake |
| Legacy.LegacyScoringText | components/Game.tsx:448-456 | a scoring catch adds one text at the item whose digits read back as the points added |
| Legacy.LegacyMissIsScoring | components/Game.tsx:465 | for the types the legacy table spawns, a miss costs a life exactly for normal and golden eggs |
| Legacy.LegacyMissLives | components/Game.tsx:463-468 | a costly miss changes exactly lives (one fewer), the combo (counter 0, switched off) and the shake (8 px / 200 ms), and nothing else; any other miss changes nothing |
| Legacy.LegacyInitialIsValid | components/Game.tsx:57-73 | the mounted refs satisfy the legacy invariant |
| Legacy.SwitchKeepsLegacyValid | components/Game.tsx:431-447 | the type switch keeps the invariant and never lowers a counter |
| Legacy.ScoreCatchKeepsLegacyValid | components/Game.tsx:448-457 | the scoring tail keeps the invariant and raises the score |
| Legacy.CatchKeepsLegacyValid | components/Game.tsx:428-458 | a catch keeps the invariant and never lowers the score or a counter |
| Legacy.LegacyCatches | components/Game.tsx:426-459 | defined as the catch pass in list order; CatchesKeepLegacyValid states its effects |
| Legacy.LegacyMisses | components/Game.tsx:461-470 | defined as the miss pass in list order; MissesKeepLegacyValid states its effects |
| Legacy.CatchesKeepLegacyValid | components/Game.tsx:426-459 | the catch pass keeps the invariant, marks exactly the caught ids, and only raises score and counters |
| Legacy.MissesKeepLegacyValid | components/Game.tsx:461-470 | the miss pass keeps the invariant, marks exactly the ids past the bottom, and keeps score and counters |
| Legacy.LegacyTimers | components/Game.tsx:394-404 | slow motion is clamped at zero; the multiplier timer counts down unclamped and the multiplier returns to 1 once it is spent |
| Legacy.LegacyComboTick | components/Game.tsx:420-423 | an active combo loses dt × 1000 ms, unclamped, and switches off once its time reaches zero; only the combo timer and flag change; an inactive combo leaves the state unchanged |
| Legacy.LegacyPrepared | components/Game.tsx:378-423 | defined as move, spawn, timers, fall, text ageing and the combo countdown; LegacyPreparedSpec states its effects |
| Legacy.LegacyResolve | components/Game.tsx:425-475 | defined as the passes, the filter, the game-over test and the shake tick; LegacyResolveSpec states its effects |
| Legacy.LegacyFrame | components/Game.tsx:367-480 | defined as particle ageing alone while paused, else prepare, resolve and age the particles unless the game ended; LegacyFrameSpec states its effects |
| Legacy.LegacyPreparedSpec | components/Game.tsx:378-423 | the phases before the passes keep the invariant and leave score, lives and stats alone |
| Legacy.LegacyResolveSpec | components/Game.tsx:425-475 | resolution keeps the invariant, never lowers score or counters, reports game over exactly when lives ≤ 0 (with that score and those stats) and keeps exactly the unmarked items in order |
| Legacy.LegacyFrameSpec | components/Game.tsx:367-480 | a frame keeps the invariant; a paused frame only ages particles; game over exactly when lives are spent, leaving the shake and particles as the passes left them |
| Legacy.HazardStep | components/Game.tsx:434-435 | the refs become the specified hazard hit |
| Legacy.PowerUpStep | components/Game.tsx:436-446 | the refs become the specified power-up hit |
| Legacy.LegacySwitchStep | components/Game.tsx:430-447 | the refs, points, colour and particle count become the specified switch |
| Legacy.ScoreStep | components/Game.tsx:448-457 | the refs become the specified scoring tail |
| Legacy.ComboAndScoreStep | components/Game.tsx:449-454 | the combo counter rises by one, the combo switches on with a full timer at the threshold, and the score grows by the points doubled under an active combo and times the multiplier; nothing else changes |
| Legacy.LegacyCatchOne | components/Game.tsx:428-458 | the refs become the specified catch |
| Legacy.LegacyMissOne | components/Game.tsx:463-468 | the refs become the specified miss |
| Legacy.LegacyCatchPass | components/Game.tsx:426-459 | the loop gives the specified catch pass and marked ids |
| Legacy.LegacyMissPass | components/Game.tsx:461-470 | the loop gives the specified miss pass and marked ids |
| Legacy.LegacyTimersStep | components/Game.tsx:394-404 | the refs become the specified legacy timers |
| Legacy.TextsAndComboStep | components/Game.tsx:417-423 | texts become their updated list, then the combo ticks |
| Legacy.LegacyPrepareStep | components/Game.tsx:378-423 | the refs become the specified preparation |
| Legacy.LegacyResolveStep | components/Game.tsx:425-475 | the refs and the game-over report become the specified resolution |
| Legacy.AgeParticlesStep | components/Game.tsx:479-480 | particles become their updated list; nothing else changes |
| Legacy.LegacyGameLoop | components/Game.tsx:367-480 | the refs and the game-over report become the specified legacy frame |
| Leaderboard.WithScore | src/services/supabaseService.ts:35 | the entries of one score in input order, never more than the list holds; InsertStable and SortDescStable state stability through it |
| Leaderboard.SortDesc | src/services/supabaseService.ts:35 | the sort keeps the length; SortDescSpec, SortDescStable and SortDescOfSorted state that it is the stable descending sort |
| Leaderboard.Insert | src/services/supabaseService.ts:34-35 | inserting makes the list exactly one entry longer |
| Leaderboard.InsertPerm | src/services/supabaseService.ts:34-35 | inserting adds exactly the new entry: the multiset of the result is the old multiset plus the entry |
| Leaderboard.SortDescSpec | src/services/supabaseService.ts:35 | the sort yields a descending permutation of its input |
| Leaderboard.InsertSorted | src/services/supabaseService.ts:35 | inserting into a descending list keeps it descending |
| Leaderboard.InsertStable | src/services/supabaseService.ts:35 | for every score, the inserted entry lands after the entries of that score already present |
| Leaderboard.SortDescStable | src/services/supabaseService.ts:35 | the sort is stable: the entries of every score keep their input order |
| Leaderboard.TopOfSorted | src/services/supabaseService.ts:36 | cutting a descending list leaves nothing behind that outscores anything kept |
| Leaderboard.Merge | src/services/supabaseService.ts:32-37 | defined as append, sort and keep the first five; MergeSpec, MergeTooLow and MergeOfSorted state its result |
| Leaderboard.MergeSpec | src/services/supabaseService.ts:32-37 | the merged board has min(n + 1, 5) entries, is descending, comes from the old board plus the new entry, and nothing dropped outscores anything kept |
| Leaderboard.SortDescOfSorted | src/services/supabaseService.ts:35 | sorting a descending list leaves it as it is |
| Leaderboard.MergeTooLow | App.tsx:86-88 | a full descending board is unchanged when the new score does not beat the fifth (ties go to the earlier entry) |
| Leaderboard.MergeOfSorted | App.tsx:86-87 | on a descending board, the new entry lands after every entry scoring at least as much |
| Profiles.FindItem | src/services/supabaseService.ts:90 | the lookup fails exactly when no item has the id; otherwise it returns the first item with it |
| Profiles.ShopIdsDistinct | src/services/supabaseService.ts:9-18 | no id appears twice in the catalogue |
| Profiles.ShopCatalogue | src/services/supabaseService.ts:9-18 | looking up robot, stickman, top hat and sunglasses finds their own entries, priced 0, 500, 150 and 200 |
| Profiles.Lower | src/services/supabaseService.ts:60 | lower-casing keeps the length and lower-cases each letter A–Z alone |
| Profiles.IsAdminName | src/services/supabaseService.ts:60 | defined as the lower-cased name equal to "admin"; AdminNames characterises it |
| Profiles.AdminNames | src/services/supabaseService.ts:60 | a name is an admin name exactly when it spells "admin" in any mix of cases |
| Profiles.NewUser | src/services/supabaseService.ts:60-75 | a new profile is admin exactly for an admin name; it has 99999 coins if admin, else 100; high score 0; robot equipped and owned; an admin also owns stickman, top hat and sunglasses |
| Profiles.NewUserValid | src/services/supabaseService.ts:61-74 | a new profile lists no item twice |
| Profiles.SaveProgress | src/services/supabaseService.ts:82-83 | the best score becomes the larger of the old best and the run; coins grow by exactly the earned amount; nothing else changes |
| Profiles.Buy | src/services/supabaseService.ts:93-98 | the price is always deducted and the balance stays non-negative; the item is owned afterwards in its category; an item already owned is not listed again |
| Profiles.BuyKeepsValid | src/services/supabaseService.ts:94-98 | buying never lists an item twice |
| Profiles.BuyOwnedSkinOnlyCharges | src/services/supabaseService.ts:93-94 | buying a skin already owned only takes the price |
| Profiles.Equip | src/services/supabaseService.ts:103-120 | a skin replaces the equipped skin; an accessory changes only the worn accessories; nothing else changes |
| Profiles.EquipAccessoryToggles | src/services/supabaseService.ts:111-117 | toggling flips whether the accessory is worn and leaves every other accessory as it was |
| Profiles.EquipTwiceRestores | src/services/supabaseService.ts:111-117 | toggling twice restores what is worn, exactly when it was not worn before |
| Profiles.EquipKeepsValid | src/services/supabaseService.ts:113-116 | equipping never wears an accessory twice |
| Profiles.CoinsEarned | src/screens/GameOverScreen.tsx:19 | the coins earned are the floor of score / 10, non-negative for a non-negative score |
| Profiles.RunRewardNeverLoses | src/screens/GameOverScreen.tsx:19-24 | saving a run with a non-negative score never lowers the coins or the best score |
| Profiles.Login | src/services/supabaseService.ts:55-76 | defined as the stored profile, or a new one stored; LoginSpec states its result |
| Profiles.Save | src/services/supabaseService.ts:78-86 | defined as failure for an unknown name, else the run recorded on profile and board; SaveSpec states its result |
| Profiles.Purchase | src/services/supabaseService.ts:88-101 | defined as failure for an unknown name or item or a short balance, else the purchase; PurchaseSpec states its result |
| Profiles.EquipFor | src/services/supabaseService.ts:103-120 | defined as failure for an unknown name, else the equip; EquipForSpec states its result |
| Profiles.LoginSpec | src/services/supabaseService.ts:55-76 | an existing profile is returned unchanged with nothing stored; otherwise the new profile is stored under the name; a second login returns the same profile; the store invariant is kept |
| Profiles.SaveSpec | src/services/supabaseService.ts:78-86 | saving fails exactly for an unknown name, changing nothing; otherwise the best score is max(old, run), coins grow by the earned amount, and the leaderboard takes the run |
| Profiles.PurchaseSpec | src/services/supabaseService.ts:88-101 | a purchase succeeds exactly when the profile and item exist and the balance covers the price; failure changes nothing; success costs exactly the price and leaves a non-negative balance |
| Profiles.EquipForSpec | src/services/supabaseService.ts:103-120 | equipping fails exactly for an unknown name; otherwise only that profile changes, as specified |
| Profiles.LocalStore.constructor | src/services/supabaseService.ts:23-30 | an empty store: no profiles and an empty leaderboard |
| Profiles.LocalStore.GetUser | src/services/supabaseService.ts:41-48 | returns the stored profile exactly when one is stored under the name |
| Profiles.LocalStore.UpdateUser | src/services/supabaseService.ts:50-53 | stores the profile under its own name; nothing else changes |
| Profiles.LocalStore.UpdateLeaderboard | src/services/supabaseService.ts:32-38 | the stored leaderboard becomes the merge with the new entry |
| Profiles.LocalStore.LoginOrRegister | src/services/supabaseService.ts:55-76 | the result and the store are those of the specified login |
| Profiles.LocalStore.SaveUserProgress | src/services/supabaseService.ts:78-86 | the result and the store are those of the specified save |
| Profiles.LocalStore.PurchaseItem | src/services/supabaseService.ts:88-101 | the result and the store are those of the specified purchase |
| Profiles.LocalStore.EquipItem | src/services/supabaseService.ts:103-120 | the result and the store are those of the specified equip |
| AppShell.Initial | App.tsx:15-22 | the app starts on the name prompt with no name, score and best score 0, an empty leaderboard and zero stats |
| AppShell.Load | App.tsx:24-43 | the storage load changes only the name and screen, the best score and the leaderboard: a non-empty stored name is taken and opens the start menu, otherwise name and screen are kept; a stored best score and leaderboard are taken, otherwise kept |
| AppShell.Available | App.tsx:100-133 | defined as the handlers each screen renders: the prompt submits a name, the menu starts or opens a page, the pages go back, the game pauses or ends, the pause menu resumes, restarts or goes back, game over restarts; StepKeepsValid quantifies over it |
| AppShell.Step | App.tsx:24-98 | defined as one handler's effect on the app state; StepKeepsValid, NameInputNeverReentered and HighScoreNeverDecreases state its properties |
| AppShell.EndRun | App.tsx:72-98 | defined as the run's end; EndRunSpec states its result |
| AppShell.InitialValid | App.tsx:15-22 | the starting state satisfies the app invariant |
| AppShell.StepKeepsValid | App.tsx:100-133 | every handler the current screen offers keeps a name known once the prompt is left, so a run's end always has a name |
| AppShell.NameInputNeverReentered | App.tsx:30-53 | no handler leads back to the name prompt; a submitted name, or a non-empty stored name at load, moves it to the start menu |
| AppShell.PauseOnlyFromPlaying | App.tsx:69-70 | pausing changes the screen exactly when the game is running; resuming then restores the state |
| AppShell.StartGameResets | App.tsx:60-64 | starting a game zeroes the score and stats and enters the game, keeping the best score and the leaderboard |
| AppShell.EndRunSpec | App.tsx:72-98 | a run's end shows game over with its score and stats; the best score becomes max(old, run); the leaderboard is the merge, at most five entries and descending; the stored best changes only when beaten |
| AppShell.HighScoreNeverDecreases | App.tsx:76-83 | no handler except the storage load lowers the best score |
| AppShell.ReloadRestores | App.tsx:24-43 | a reload finds a submitted non-empty name and opens the start menu with it, and finds the best score and leaderboard a run's end left |
| AppShell.App.constructor | App.tsx:15-22 | the app as first rendered, over the given storage |
| AppShell.App.LoadStored | App.tsx:24-43 | the fields become the specified storage load |
| AppShell.App.HandleNameSubmit | App.tsx:45-53 | the fields become the specified name submission |
| AppShell.App.HandleToggleMusic | App.tsx:55-58 | the music flag flips |
| AppShell.App.HandleStartGame | App.tsx:60-64 | the fields become the specified game start |
| AppShell.App.HandleShowInstructions | App.tsx:66 | the screen becomes the instructions |
| AppShell.App.HandleShowLeaderboard | App.tsx:67 | the screen becomes the leaderboard |
| AppShell.App.HandleBackToMenu | App.tsx:68 | the screen becomes the start menu |
| AppShell.App.HandlePause | App.tsx:69 | the fields become the specified pause |
| AppShell.App.HandleResume | App.tsx:70 | the screen becomes the running game |
| AppShell.App.HandleGameOver | App.tsx:72-98 | the fields become the specified run end |

## Left out

- Drawing: canvas drawing, pixels and the shake's random translation
  (`drawPlayer`, `drawFallingItem`, `drawUI`, `src/game/drawing.ts`, the
  graphics components). These produce no state.
- Sound: calls into the audio services, and the music player behind the
  toggle. Only the flag is modelled.
- Scheduling: frame scheduling (`requestAnimationFrame`) and the wall
  clock. The frame time `dt` is a parameter, and the score and stats of
  `onGameOver` are the value a frame returns.
- Input: keyboard and touch listeners and canvas resizing. The input state
  is a field that the caller sets. The slot keys are modelled as
  `PressKey`.
- Randomness:
  - the random type band, horizontal position and drift of a spawn are
    the parameters `SpawnDraw`;
  - the particle angle, speed, radius and life are the parameters
    `ParticleDraw`. The angle's cosine and sine are not modelled; each
    draw supplies the velocity directly.
- Square root: the magnet's distance is the parameter `norm`. The model
  does not assume that it is a square root.
- Ids: `Date.now() + Math.random()` ids of new items are a caller-supplied
  integer. Ids of texts and particles are not modelled because nothing
  reads them.
- Floating point: JavaScript numbers are unbounded Dafny reals (positions,
  timers) and integers (score, lives, coins). No rounding or overflow is
  modelled.
- Storage I/O: JSON encoding, the storage keys and the swallowed exceptions
  around `localStorage` are not modelled. The store is a map from name to
  profile plus the leaderboard list; the app's storage is a record of
  optional values.
  - `AppShell.Load` takes the stored best score as an already parsed
    integer, so `parseInt` of a malformed string (NaN) is not modelled.
  - `AppShell.ReloadRestores` likewise takes the storage round trip of an
    integer's decimal form for granted.
- The Gemini summary on the game-over screen. It is a network call with no
  effect on state.
- `src/App.tsx`, `src/context/AuthContext.tsx` and the menu and screen
  components are not part of this model. `isAdmin` is a constructor
  parameter of `Screen.GameScreen`.
- `Screen.GameScreen`: the `particles` and `floatingTexts` refs that the
  inventory screen declares are not modelled, because that screen never
  updates them.
- `Legacy`: the legacy loop runs on the same state record as the modular
  engine. Its statistics record has no magnet counter, so that field of
  the shared record stays zero.
- `Profiles.LowerChar`: lower-cases ASCII letters only. For the comparison
  with "admin" this matches full Unicode lower-casing, since no other
  character lower-cases to a, d, i, m or n.
- The `Power-ups` shop category has no catalogue entry, so purchasing a
  power-up always fails, as in the code.
