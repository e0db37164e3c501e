# Horde shooter: the frame simulation in Dafny

This project models the core of a touch-screen arcade shooter. The player sits at the bottom of
the field and follows the finger. While the screen is touched the equipped weapon fires upwards
at its own rate. Enemies fall from the top on an interval that shrinks with level and difficulty.
Every five seconds a supply crate may fall; it carries points or a weapon. A health kind of crate
exists and has no effect when taken, but the spawner never produces one.
Each frame runs in this order:

1. the level-up banner counts down;
2. unless paused: the game clock advances, the weapon fires, enemies and crates spawn, and
   everything moves, with whatever left the field culled;
3. `checkCollisions` resolves bullets against enemies, then the player against the surviving
   enemies (which ends the game), then the player against the crates;
4. the score effect derives level, tokens and difficulty from the score.

Around the game, a container switches between the start, playing and game-over screens. The
game-over screen derives the level reached from the final score and picks one of four messages.

Modules, one file each:

- `Seqs`: an order-keeping filter and the subsequence relation.
- `Entities`: the records, their inset hitboxes and the strict overlap test.
- `Weapons`: the shots of each weapon and the fire-rate test.
- `Spawner`: the enemy and crate spawners.
- `Motion`: the move-and-cull steps and the pointer clamp.
- `Collisions`: the three passes of `checkCollisions`. The two loops are written as methods over
  working copies of the lists, each proved equal to a recursive definition.
- `Progression`: the level, token and difficulty effect and the banner countdown.
- `GamePlay`: the whole frame in two forms.
  - As a function `Step` on a `World` value, with the properties of a frame proved as lemmas.
  - As the class `Game`, whose fields the stage methods update in place. Each method is proved
    to produce exactly the corresponding function's result (`Snapshot() == Stage(old(Snapshot()))`).
- `GameContainer`: the session state machine.
- `GameOverScreen`: the game-over screen.

Random draws (`Math.random()`), the clock (`Date.now()`), the frame duration and the touch state
are parameters of a frame (`Frame`, `Draws`); each draw is required to lie in [0, 1).

## Model

| member | source | states |
|---|---|---|
| Entities.OverlapsIffSharedPoint | components/game-play.tsx:478-483 | for boxes of positive size, the four strict edge comparisons hold exactly when the boxes share an interior point |
| Entities.OverlapsSymmetricAndStrict | components/game-play.tsx:528-532 | the overlap test is symmetric, and boxes that only touch along an edge do not collide |
| Weapons.FireRate | components/game-play.tsx:611-623 | exactly 200 ms for the rapid gun, exactly 800 ms for the powerful one, and 500 ms for the basic, double and triple guns and no other |
| Weapons.ShouldFire | components/game-play.tsx:609-627 | a shot is due only while the screen is touched and in a frame of positive duration |
| Weapons.Shots | components/game-play.tsx:336-437 | double fires 2 bullets, triple 3, the others 1; only the powerful gun's bullets have power 3; ids are the clock reading plus the position; every bullet starts above the player, moving up, and within the player's width |
| Weapons.FiresIffIntervalCrossed | components/game-play.tsx:626 | for a frame no longer than the interval, the test `time mod rate < dt` passes exactly when the frame crosses a multiple of the rate |
| Weapons.FireCountIsBoundariesCrossed | components/game-play.tsx:609-629 | holding fire over frames no longer than the rate fires once per rate boundary crossed, whatever the frame durations |
| Spawner.Column | components/game-play.tsx:645 | a random left edge lies in [0, width - size] whenever the entity fits in the field |
| Spawner.SpawnInterval | components/game-play.tsx:634 | the interval is positive and at least 500 / difficulty; it is exactly (1500 - 100·level) / difficulty up to level 10 and exactly 500 / difficulty from level 10 on |
| Spawner.SpawnIntervalShrinks | components/game-play.tsx:634 | a higher level or difficulty never lengthens the enemy interval |
| Spawner.NewEnemy | components/game-play.tsx:640-651 | a new enemy has health min(level, 3) (1..3 from level 1), speed exactly 2 + 0.3·level (so at least 2.3 from level 1), size 30, y = -30, and an x inside the field |
| Spawner.WeaponTier | components/game-play.tsx:676-688 | the chosen tier is unlocked by the level and its band holds the draw, and no better-ranked tier qualifies; basic is the fallback |
| Spawner.FirstLevelDropsBasic | components/game-play.tsx:676-688 | at level 1 every weapon crate holds the basic gun |
| Spawner.SupplyDrop | components/game-play.tsx:661-700 | a crate appears exactly when the first draw is below 0.4; it is a 20-point crate exactly when the second is below 0.6, otherwise a weapon crate of the tier above; never a health crate; size 20, y = -20, x inside the field |
| Motion.Fallen | components/game-play.tsx:706-711 | every enemy moves down by its own speed, nothing else changes |
| Motion.Drifted | components/game-play.tsx:716-721 | every crate moves down by 1.5 |
| Motion.Risen | components/game-play.tsx:726-731 | every bullet moves up by its own speed |
| Motion.MoveEnemies | components/game-play.tsx:706-713 | survivors are above the bottom edge and keep their order (a subsequence of the moved list) |
| Motion.MoveEnemiesSurvivors | components/game-play.tsx:706-713 | every survivor is a moved enemy, and every moved enemy above the bottom edge survives |
| Motion.MoveSupplies | components/game-play.tsx:716-723 | survivors are above the bottom edge and keep their order |
| Motion.MoveSuppliesSurvivors | components/game-play.tsx:716-723 | every survivor is a moved crate, and every moved crate above the bottom edge survives |
| Motion.MoveBullets | components/game-play.tsx:726-733 | surviving bullets still reach into the field and keep their order |
| Motion.MoveBulletsSurvivors | components/game-play.tsx:726-733 | every survivor is a moved bullet, and every moved bullet still reaching into the field survives |
| Motion.ClampX | components/game-play.tsx:265 | the new x lies in [0, width - size] and is the position in that range nearest to centring the player under the pointer |
| Collisions.Target | components/game-play.tsx:469-484 | the enemy a bullet hits is an index of the list |
| Collisions.TargetSpec | components/game-play.tsx:469-484 | the target is struck and no enemy after it in the list is; without a target no enemy is struck |
| Collisions.Hurt | components/game-play.tsx:486-497 | the list loses one enemy exactly when the wounded one's health is no longer positive |
| Collisions.HurtSpec | components/game-play.tsx:486-497 | the hit enemy's health drops by exactly the bullet's power; every other enemy is unchanged and keeps its place; an enemy is spliced out only at health ≤ 0, so all enemies left stay alive |
| Collisions.HurtKeepsBodies | components/game-play.tsx:486-497 | apart from health, the enemies after a hit are a subsequence of those before |
| Collisions.StrikeOne | components/game-play.tsx:469-508 | a bullet hits exactly when the reverse scan finds a target; only a hit can destroy an enemy |
| Collisions.StrikeOneSpec | components/game-play.tsx:469-508 | a bullet hits exactly when its hitbox overlaps some enemy's; a miss leaves the list alone and makes no explosion; on a hit, the last overlapping enemy j loses exactly the bullet's power and is removed exactly when its health was at most the power; every enemy before j keeps its place and value, every enemy after j keeps its value and shifts down by one only when j was removed; the explosions are the impact, then the burst of a destroyed enemy |
| Collisions.Aim | components/game-play.tsx:469-484 | the reverse scan returns the target's index, or -1 exactly when there is none |
| Collisions.Shoot | components/game-play.tsx:469-508 | one turn of the bullet loop computes exactly the strike of the definition |
| Collisions.BulletPass | components/game-play.tsx:455-510 | the pass never adds bullets and destroys at most one enemy per bullet removed; it records a hit exactly when some bullet was removed |
| Collisions.ResolveBullets | components/game-play.tsx:455-510 | the reverse loop with `splice` on working copies computes exactly the bullet pass |
| Collisions.BulletPassCounts | components/game-play.tsx:460-508 | bullets are only removed; each kill removes one enemy; the hit flag is set exactly when some bullet was removed; one explosion per hit plus one per kill |
| Collisions.BulletPassQuiet | components/game-play.tsx:512-516 | when no bullet hits, bullets, enemies and explosions are left as they were |
| Collisions.BulletPassKeepsBulletOrder | components/game-play.tsx:489 | surviving bullets keep their relative order |
| Collisions.BulletPassKeepsEnemyOrder | components/game-play.tsx:486-497 | surviving enemies keep their order and differ from before at most in health |
| Collisions.BulletPassKeepsAlive | components/game-play.tsx:495-497 | if every enemy had health ≥ 1 before, every surviving enemy still does |
| Collisions.FindCrash | components/game-play.tsx:519-540 | the scan reports a crash exactly when some enemy's hitbox overlaps the player's |
| Collisions.Collect | components/game-play.tsx:543-576 | the filter never adds crates, and reports a pickup exactly when it removed one |
| Collisions.CollectQuiet | components/game-play.tsx:578-581 | a pass that picks nothing up keeps every crate |
| Collisions.CollectSupplies | components/game-play.tsx:543-576 | the filter loop computes exactly the supply pass |
| Collisions.CollectKeepsTheRest | components/game-play.tsx:544-576 | the crates kept are exactly those the player does not overlap, in order |
| Collisions.CollectScores | components/game-play.tsx:564-567 | the score grows by the points of every score crate taken |
| Collisions.CollectEquipsLast | components/game-play.tsx:568-570 | the weapon becomes that of the last weapon crate taken, or stays as it was |
| Collisions.CollectReportsPickup | components/game-play.tsx:559-560 | a pickup is reported exactly when some crate overlaps the player |
| Collisions.HealthCratesChangeNothing | components/game-play.tsx:564-571 | taking health crates changes neither the score nor the weapon |
| Progression.LevelFor | components/game-play.tsx:196 | the level is one more than the completed thousands: (level-1)·1000 ≤ score < level·1000, so it is at least 1 for a non-negative score |
| Progression.TokensFor | components/game-play.tsx:219 | the tokens are the completed thousands, one fewer than the level |
| Progression.ThousandsMonotone | components/game-play.tsx:196-219 | level and tokens never drop as the score grows |
| Progression.Advance | components/game-play.tsx:194-237 | level and tokens become the larger of old and derived values; a level-up shows the banner from zero and adds exactly 0.5 to the difficulty; otherwise the banner and difficulty are untouched |
| Progression.InitialIsSane | components/game-play.tsx:82-85 | the starting progression (level 1, no tokens, difficulty 1, no banner) is sane |
| Progression.AdvanceKeepsSane | components/game-play.tsx:194-237 | the score effect keeps the level ≥ 1, the tokens ≥ 0 and the difficulty between 1 and level/2 + 1/2 |
| Progression.AdvanceTracksScore | components/game-play.tsx:194-237 | once level and tokens match the score, a growing score keeps them matching |
| Progression.AdvanceIdempotent | components/game-play.tsx:194-237 | running the effect again on the same score changes nothing |
| Progression.LevelJumpLagsDifficulty | components/game-play.tsx:196-203 | from a difficulty matching the level, a score that skips one or more levels at once raises the difficulty by only 0.5, leaving it below what the new level would have reached one level at a time |
| Progression.Countdown | components/game-play.tsx:595-601 | a shown banner stays shown exactly while its clock plus the frame is at most 2000; level, tokens and difficulty are untouched |
| Progression.CountdownKeepsSane | components/game-play.tsx:595-601 | the countdown keeps the progression sane |
| Progression.BannerLastsTwoSeconds | components/game-play.tsx:595-601 | over any run of frames, the banner is still shown exactly when its clock plus the elapsed time is at most two seconds |
| Progression.HiddenStaysHidden | components/game-play.tsx:595 | a hidden banner is never shown again by the countdown |
| GamePlay.Start | components/game-play.tsx:242-251 | after measuring, the player is centred horizontally 20 above the bottom edge and lies within the field when it fits; basic gun, score 0, starting progression, game time and both spawn clocks at 0, nothing on the field, not paused |
| GamePlay.Fire | components/game-play.tsx:336-437 | the bullets already flying are kept as a prefix and the weapon's shots are appended after them; nothing else changes |
| GamePlay.SpawnEnemy | components/game-play.tsx:631-654 | past the interval the clock restarts at 0 and exactly one new enemy is appended; otherwise only the clock advances |
| GamePlay.SpawnSupply | components/game-play.tsx:656-703 | past 5000 ms the clock restarts at 0 and the crate drawn, if any, is appended; otherwise only the clock advances |
| GamePlay.Scored | components/game-play.tsx:492-516 | the bullet pass changes only bullets, enemies, explosions and score: after a hit the lists become the pass's, otherwise they stay; the pass's explosions are appended; the score rises by 5 per destroyed enemy |
| GamePlay.ShotWritesPass | components/game-play.tsx:512-516 | writing the lists back only after a hit is the same as always writing back the pass's lists |
| GamePlay.Move | components/game-play.tsx:705-733 | each list becomes its move-and-cull, so every entity is in the field afterwards; nothing else changes, and no list grows |
| GamePlay.Picked | components/game-play.tsx:543-581 | the supply pass changes only crates, score and weapon: the crates become exactly those the player does not overlap, the score rises by the points of the score crates taken, and the weapon becomes that of the last weapon crate taken |
| GamePlay.Collide | components/game-play.tsx:440-582 | the player, field size, progression and pause flag are untouched; the game ends exactly when an enemy that survived the bullets overlaps the player, and then reports the score and tokens the collisions started from |
| GamePlay.Clocked | components/game-play.tsx:603-606 | the game time grows by the frame's duration and nothing else changes |
| GamePlay.Trigger | components/game-play.tsx:609-629 | the fire test changes at most the bullets; bullets are added exactly when the fire test passes, and then the result is exactly `fireBullet`'s; otherwise nothing changes |
| GamePlay.Spawned | components/game-play.tsx:631-703 | the spawners change only the enemy and crate lists and their clocks; each list keeps its entities as a prefix and gains at most one |
| GamePlay.Advanced | components/game-play.tsx:603-733 | the frame up to the collisions leaves every entity in the field, adds the frame to the game time, and leaves the field, pause flag, player, weapon, score and progression alone |
| GamePlay.Play | components/game-play.tsx:603-737 | the unpaused frame leaves the player, field and pause flag alone; on game over it reports the score and tokens the frame started with; otherwise the progression is the score effect applied to the new score |
| GamePlay.Step | components/game-play.tsx:585-737 | a frame leaves the player, field and pause flag alone, and a paused frame never ends the game |
| GamePlay.Follow | components/game-play.tsx:262-274 | only the player's x may change; it changes exactly when there is a pointer, the game is not paused, the field is measured and the clamped position is more than 2 away, and then it becomes the clamped position |
| GamePlay.PlayerStaysInField | components/game-play.tsx:262-274 | a player lying within the field's width stays there after following the pointer and after any frame |
| GamePlay.StartIsValid | components/game-play.tsx:242-251 | the state after measuring the field is valid and in the field |
| GamePlay.MoveKeepsValid | components/game-play.tsx:705-733 | moving keeps every enemy alive and every score crate non-negative |
| GamePlay.TriggerKeepsValid | components/game-play.tsx:609-629 | firing keeps the state valid |
| GamePlay.SpawnsKeepValid | components/game-play.tsx:631-703 | spawning keeps the state valid (new enemies have health ≥ 1, new score crates 20 points) |
| GamePlay.AdvancedKeepsValid | components/game-play.tsx:603-733 | the frame up to the collisions keeps the state valid |
| GamePlay.ShotKeepsValid | components/game-play.tsx:460-516 | the bullet pass keeps the state valid and never lowers the score |
| GamePlay.CollectKeepsSound | components/game-play.tsx:543-581 | the supply pass keeps the crates sound and never lowers the score |
| GamePlay.CollideKeepsValid | components/game-play.tsx:440-582 | `checkCollisions` keeps the state valid and never lowers the score |
| GamePlay.StepKeepsValid | components/game-play.tsx:585-737 | every frame keeps the state valid; score, level and tokens never drop |
| GamePlay.PlayKeepsValid | components/game-play.tsx:603-737 | the unpaused part of a frame keeps the state valid; score, level and tokens never drop |
| GamePlay.BulletPassInField | components/game-play.tsx:460-516 | the bullet pass only removes bullets and wounds enemies, so what was in the field stays in it |
| GamePlay.ShotInField | components/game-play.tsx:512-516 | writing the bullet pass back keeps everything in the field |
| GamePlay.CollideInField | components/game-play.tsx:440-582 | the collisions keep everything in the field |
| GamePlay.StepInField | components/game-play.tsx:705-736 | after an unpaused frame no enemy or crate is at or below the bottom edge and no bullet lies wholly above the top |
| GamePlay.PausedFrameFreezes | components/game-play.tsx:595-603 | a paused frame only runs the banner countdown and never ends the game |
| GamePlay.AdvancedKeepsTally | components/game-play.tsx:603-733 | firing, spawning and moving leave the score, progression, player and weapon alone, and the game time grows by the frame's duration |
| GamePlay.GameOverReportsFrameStart | components/game-play.tsx:519-538 | the game ends only in an unpaused frame, exactly when an enemy that survived the bullets overlaps the player, and reports the score and tokens the frame started with |
| GamePlay.GameOverSkipsSupplies | components/game-play.tsx:537-538 | a frame that ends the game leaves crates and weapon untouched |
| GamePlay.CollideScores | components/game-play.tsx:503 | a frame that goes on scores 5 per destroyed enemy plus the points of every score crate taken, and leaves the weapon of the last weapon crate taken |
| GamePlay.StepKeepsSettled | components/game-play.tsx:194-237 | once level and tokens match the score, every frame that goes on keeps them matching |
| GamePlay.Game.constructor | components/game-play.tsx:242-251 | the object starts in the measured start state, which is consistent |
| GamePlay.Game.TogglePause | components/game-play.tsx:755-757 | the pause flag flips, nothing else changes, and the object stays consistent |
| GamePlay.Game.FollowPointer | components/game-play.tsx:262-274 | the in-place pointer effect produces the result of `Follow`, and the object stays consistent |
| GamePlay.Game.CountDownBanner | components/game-play.tsx:595-601 | the in-place countdown produces the result of `Countdown` |
| GamePlay.Game.FireBullet | components/game-play.tsx:336-437 | appending in place produces the result of `Fire` |
| GamePlay.Game.SpawnEnemies | components/game-play.tsx:631-654 | the in-place accumulator and append produce the result of `SpawnEnemy` |
| GamePlay.Game.SpawnSupplies | components/game-play.tsx:656-703 | the in-place accumulator and append produce the result of `SpawnSupply` |
| GamePlay.Game.MoveAll | components/game-play.tsx:705-733 | the three list updates produce the result of `Move` |
| GamePlay.Game.ShootEnemies | components/game-play.tsx:455-516 | the loop's result is the bullet pass, and the fields become the result of `Shot` |
| GamePlay.Game.PickUpSupplies | components/game-play.tsx:543-581 | the fields become the result of `Picked` |
| GamePlay.Game.CheckCollisions | components/game-play.tsx:440-582 | the fields and the reported tally are exactly those of `Collide` |
| GamePlay.Game.UpdateProgression | components/game-play.tsx:194-237 | the fields become the result of `Progressed` |
| GamePlay.Game.PlayFrame | components/game-play.tsx:603-734 | the unpaused stages run in place produce the result of `Advanced` |
| GamePlay.Game.Tick | components/game-play.tsx:585-737 | a whole frame run in place produces exactly the world and the game-over tally of `Step`, and keeps the object consistent |
| GameContainer.Screens | components/game-container.tsx:33-35 | exactly one screen is rendered, the one for the current state; the game-over screen gets the stored score and tokens |
| GameContainer.Session.constructor | components/game-container.tsx:11-13 | a session starts on the start screen with score and tokens 0 |
| GameContainer.Session.StartGame | components/game-container.tsx:15-19 | playing, with score and tokens reset to 0 |
| GameContainer.Session.EndGame | components/game-container.tsx:21-25 | game over, storing the final score and tokens, which the game-over screen shows |
| GameContainer.Session.RestartGame | components/game-container.tsx:27-29 | back to the start screen; the stored score and tokens are unchanged |
| GameOverScreen.GetMessage | components/game-over.tsx:17-22 | level ≤ 1 gives the first message, 2-3 the second, 4-5 the third, ≥ 6 the fourth, each in both directions |
| GameOverScreen.Summarize | components/game-over.tsx:14-22 | the level shown satisfies (level-1)·1000 ≤ score < level·1000, so it is at least 1 for a non-negative score; the message is the one for that level |
| GameOverScreen.MessageByScore | components/game-over.tsx:14-22 | whatever the tokens, by score: under 1000 the first message, under 3000 the second, under 5000 the third, from 5000 the fourth |
| GameOverScreen.ExactlyOneMessage | components/game-over.tsx:17-22 | the four messages differ, so every level selects exactly one of them |
| GameOverScreen.GameOverShowsReachedLevel | components/game-over.tsx:14 | for a game whose progression matches its score, the game-over screen shows the level the game had reached, and one token fewer than that |

## Left out

- Audio: the shot, explosion, level-up and token sounds are browser I/O and are not modelled.
- Explosion timers: explosions are appended with their position and size. The timer that removes each one 500 ms later is not modelled.
- Rendering: the render-only components draw entities and labels and have no behaviour. This covers the player, enemy, bullet, supply, explosion, weapon-info, token-display, game-start and background components.
- Touch capture: `hooks/use-touch.tsx` captures DOM events. Its result is the `touching` flag and the pointer parameter.
- World ID verification: the `app/` pages and API route are network calls and are not part of this model.
- React scheduling: the model runs one frame as one sequential step.
  - In the source, `checkCollisions` reads the entity lists through refs, which hold the values of the last render.
  - Its whole-list `setState` calls then replace the frame's queued moves and spawns.
  - The model instead resolves collisions on the lists as this frame left them.
- Randomness and clock: `Math.random()` and `Date.now()` are parameters.
  - The source consumes a variable number of draws per crate. The model gives each draw its own slot in `Draws`.
  - Ids are the clock reading (plus the shot's position in a volley). They are not claimed to be unique.
- Time: frame durations and clocks are whole milliseconds (`nat`), so the fire-rate `mod` is integer arithmetic. The browser's timestamps are fractional.
- Measurement: `GamePlay.Game.constructor` takes the measured field size. The source's first render with a 0 by 0 field is not modelled, except for the zero-width guard in `Follow`.
- Shared enemy objects: `enemy.health -= bullet.power` mutates an object that the previous state also holds. The model writes the wounded enemy into the working list as a new value. Because every hit writes both lists back, the resulting state is the same; the aliasing itself is not modelled.
- Debug and sound toggles: these are boolean flips that do not affect the simulation. The pause toggle is modelled as `GamePlay.Game.TogglePause`.
- Numbers: positions, sizes, speeds and the difficulty are JavaScript doubles in the source and `real` (exact) here, so floating-point rounding is not modelled.
- Game-over text: the screen's labels and layout are not modelled. Only the level and the message choice are.
