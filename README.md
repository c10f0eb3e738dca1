# Tower defense in Dafny

A model of a browser tower-defense game and proofs about it. The player places towers along a fixed
path of waypoints, and each wave sends enemies along that path. Towers shoot homing bullets at the
enemy furthest along the path within their range. A killed enemy pays 8 money. An enemy that
reaches the end costs a life. The game is over when the lives run out.

The model covers three parts of the game:

- **The simulation of `game.js`.** The modules are:
  - `PathModel`: where an enemy stands on the polyline.
  - `Combat`: one enemy update, target choice and the bullet hit test, as pure functions.
  - `Economy`: the tower table, upgrade rounding and sell refunds.
  - `Entities`: the `TowerDef`, `Enemy` and `Tower` objects and the targeting loop.
  - `Simulation`: the class `Sim` holding money, lives, wave and the tower, enemy and bullet lists.
  The handlers and one call of the animation loop are methods of `Sim`. So is one round of the
  80 ms firing interval.
- **The level editor of `editor.js`** (`WaveText`, `PathEditor`). `WaveText` is the wave
  tokeniser: trim, comma split, trim every piece, drop empty pieces. `PathEditor` holds the
  in-place edits of the drawn path, the wave being built and the saved waves.
- **The mobile canvas click of `ui.js`** (`TouchInput`). It has a running gate and a 250 ms
  double-click window that places a tower. Otherwise it selects the nearest tower within 20 pixels,
  and the earliest tower wins ties.

Shared objects stay objects. A `TowerDef` entry is shared by every tower of its kind, so one upgrade
changes them all. Enemies are objects that bullets keep chasing after the enemy list has dropped
them. A hit on such an enemy still costs hp, but no reward follows. Each loop over a mutable list is
a `while` loop. The loop is proved against a pure function of the state before the pass:
`Updates`, `FrameVolley`, `IntervalVolley`, `Flights` and `HitMask`.

Numbers are mathematical reals and integers. Range tests compare squared distances. Two places
need a square root: the bullet's move and hit test in the game loop, and the nearest-tower search
of the mobile click (ui.js:157). Both take `Math.hypot` as a parameter `hypot` with the contract
`IsHypot`: non-negative, and its square is the sum of squares.

Points of the code's behaviour that are easy to misread:

- **Leak and kill are independent.** The code checks `t >= 1` and `hp <= 0` separately
  (game.js:72-76). One update can both cost a life and pay the reward for the same enemy
  (`Combat.LeakAndKillInOneUpdate`).
- **hp may go negative.** A hit subtracts the bullet's damage without clamping (game.js:259), so
  hp is an `int` that can go below zero.
- **The interval firing round is ungated.** It fires regardless of `running` and `paused` and has
  its own integer tick counter (game.js:356-378). It is modelled as its own atomic step,
  `Sim.FireInterval`, beside the per-frame firing of `Tower.update`.
- **The editor shares the canvas.** The editor's click listener and wave builder run on the same
  page as the game (editor.js:39-53) and are modelled as the class `PathEditor.Editor`.

## Model

| member | source | states |
|---|---|---|
| Basics.Keep | game.js:244 | `filter` keeps exactly the flagged elements: every kept element comes from the input with its flag set, and every flagged element is kept |
| Basics.KeepDistinct | game.js:244 | filtering a list without repeats leaves a list without repeats |
| Basics.IndexOf | game.js:179 | `indexOf`: the index of the first occurrence, or -1 exactly when the element is absent |
| Basics.FloorDiv | game.js:177 | `Math.floor` of an integer divided by a positive integer is the integer quotient |
| PathModel.PointOnPath | game.js:48-57 | worldPointOnPath: (0,0) for fewer than two waypoints, the first waypoint at t = 0, the last at t = 1 |
| PathModel.SegmentIndex | game.js:53 | the segment index is between 0 and the last segment and never past t·segments |
| PathModel.LocalTInUnit | game.js:54 | for t in [0,1] the position within the segment is in [0,1] |
| PathModel.PointOnPathLiesOnSegment | game.js:53-56 | for t in [0,1] the point lies within the bounding box of its segment's two waypoints |
| PathModel.HypotCompare | game.js:102-103 | `hypot(dx,dy) <= r` and `< r` agree with the squared-distance tests used throughout |
| PathModel.SquareZero | game.js:255 | a distance is 0 exactly when its square is 0, which is when the hit test reads the distance as 1 |
| Combat.FrameDelta | game.js:225 | dt is never above 0.033, is non-negative for monotone timestamps, and is the elapsed seconds when those are below the cap |
| Combat.SlowFactor | game.js:68 | the movement factor is in (0, 1] and is below 1 exactly while the slow timer runs |
| Combat.EnemyStep | game.js:67-76 | t never decreases; the slow timer counts down to max(0, timer - dt), never goes negative and is untouched when not positive; leaked iff t ≥ 1; killed iff hp ≤ 0 |
| Combat.UnslowedAdvance | game.js:68-70 | without a running slow timer an enemy advances by exactly speed·dt |
| Combat.SlowHalvesAdvance | game.js:68-69 | an active slow halves the advance speed·dt |
| Combat.LeakAndKillInOneUpdate | game.js:72-76 | a single update can both leak and kill the same enemy |
| Combat.Pick | game.js:98-106 | the picked index is within the candidate list |
| Combat.PickIsFurthestFirst | game.js:98-106 | the pick is alive, in range, has maximal t among live in-range enemies, and every earlier one has strictly smaller t; with no pick, no live enemy is in range |
| Combat.HitTestAgrees | game.js:255-257 | the hit test on the distance, with 0 read as 1, is the squared-distance test `BulletHits` |
| Combat.BulletHits | game.js:255-257 | a hit needs a non-negative step, and a target within the step always counts as hit once the step is at least 1 |
| Economy.InitialDef | game.js:40-44 | the TOWER_DEFS entries have positive cost, range, rate and damage, and an upgrade cost of at least 10 |
| Economy.Round | game.js:171-172 | Math.round lands within half a unit of its argument |
| Economy.UpgradedRange | game.js:171 | the upgraded range is the integer (112·range + 50) div 100 |
| Economy.UpgradedDamage | game.js:172 | the upgraded damage is the integer (118·dmg + 50) div 100 |
| Economy.UpgradePrice | game.js:166 | the next upgrade of a tower of level 1 or more costs at least upgradeCost |
| Economy.Refund | game.js:177 | the refund is the integer cost div 2 plus 10 per level above 1 |
| Economy.UpgradeNeverWeakens | game.js:171-172 | the ×1.12 range and ×1.18 damage rounding never lowers a stat, and strictly raises range from 5 and damage from 3 |
| Economy.RefundWithinInvestment | game.js:166-177 | a sale refunds between 0 and what was paid for the tower and its upgrades |
| Entities.TowerDef.constructor | game.js:40-44 | a fresh entry holds the TOWER_DEFS stats of its kind |
| Entities.Enemy.constructor | game.js:61-65 | a new enemy starts at t = 0 with full hp, no slow and not dead |
| Entities.Enemy.Update | game.js:67-77 | t, slow timer, leaked and killed are EnemyStep of the old state; hp is unchanged; dead is set by a leak or a kill |
| Entities.Enemy.Pos | game.js:66 | with a usable path, an enemy at t = 0 stands on the first waypoint and one at t = 1 on the last; without one it stands at (0,0) |
| Entities.Candidates | game.js:99-101 | one candidate per enemy, in list order: whether it is dead, its position on the path and its t |
| Entities.FurthestInRange | game.js:98-106 | the targeting loop returns the enemy `Pick` chooses, or null when there is none |
| Entities.Cooled | game.js:95 | the frame cooldown never goes negative or rises, reaches 0 once dt·60 covers it, and is left alone when not positive |
| Entities.BulletSpeed | game.js:116 | `_bulletSpeed` is at least 8 |
| Entities.ShotAt | game.js:109 | a fired bullet starts at the tower, chases the target, carries the tower's damage and kind and the given ttl, and flies at `_bulletSpeed` |
| Entities.Tower.constructor | game.js:89-93 | a new tower stands at the click with the shared entry of its kind, level 1 and no cooldown |
| Entities.Tower.View | game.js:90 | what a tower reads from its shared entry: range, rate and damage of the def |
| Entities.Tower.Update | game.js:94-115 | the shot and new cooldown are FrameShot and FrameCooldown of the old state and the candidates |
| Entities.FrameShot | game.js:96-113 | a shot happens exactly when the cooldown has run out and `Pick` chooses an enemy; it is `ShotAt` that enemy with ttl 0.6, live and from the tower |
| Entities.FrameCooldown | game.js:95-111 | after a shot the cooldown is def.rate; without one it is only cooled, so it stays 0 when nobody is in range |
| Entities.Tower.IntervalFire | game.js:358-376 | the tick counts up and resets at def.rate; a reset fires a 1.2 s bullet at the `Pick` target when there is one; no bullet before the reset |
| Entities.NextTick | game.js:360-362 | the tick either resets to 0 or grows by one, and stays below def.rate |
| Entities.IntervalShot | game.js:361-376 | an interval shot happens exactly when the tick reaches def.rate and `Pick` chooses an enemy; it is `ShotAt` that enemy with ttl 1.2 |
| Entities.Hits | game.js:253-257 | a bullet hits exactly when its squared distance to the target passes `BulletHits` for step speed·dt·60 |
| Entities.Fly | game.js:257-267 | a flown bullet keeps target, speed, damage and kind, loses dt of ttl, is spent on a hit or when ttl runs out, and does not move on a hit |
| Simulation.SpawnSpeed | game.js:234 | spawn speed stays in [0.035, 0.085] and grows by 0.003 a wave up to wave 16 |
| Simulation.WaveSize | game.js:215 | every wave from wave 0 on has an even number of enemies, at least 6 |
| Simulation.SpawnHp | game.js:233 | spawn hp is exactly 30 + 10·wave, the floor never cutting anything off |
| Simulation.WavesGrowHarder | game.js:215-234 | later waves are larger, with more hp and no slower enemies |
| Simulation.Updates | game.js:243 | the enemy pass applies EnemyStep to every enemy's state before the pass |
| Simulation.LeakCount | game.js:72-73 | the lives lost in a pass are at most the number of enemies |
| Simulation.KillCount | game.js:76 | the rewards paid in a pass are at most the number of enemies |
| Simulation.Outlives | game.js:243-244 | an enemy survives the pass exactly when it neither leaked nor was killed; `Sim.EnemyPhase` keeps exactly these enemies |
| Simulation.HitMask | game.js:250-257 | each bullet's hit is decided against its target's position before the pass |
| Simulation.Flights | game.js:250-267 | the bullet pass flies every bullet with its hit flag |
| Simulation.NotDead | game.js:269 | a bullet survives the sweep exactly when it is not spent |
| Simulation.FrameVolley | game.js:247 | the towers' frame pass fires at most one bullet per tower, each live and chasing a listed enemy |
| Simulation.IntervalVolley | game.js:358-376 | one interval round fires at most one bullet per tower, each live and chasing a listed enemy |
| Simulation.Survivors | game.js:244 | the enemy filter keeps an enemy exactly when it is not dead, without repeats |
| Simulation.UpdateAll | game.js:243 | the enemy loop leaves each enemy in its EnemyStep state, and counts the leaks and kills of `Updates` |
| Simulation.FireFrame | game.js:247 | the tower loop collects FrameVolley and gives each tower its FrameCooldown |
| Simulation.FireRound | game.js:358-377 | the interval loop collects IntervalVolley and gives each tower its NextTick |
| Simulation.FlyAll | game.js:250-268 | the bullet loop yields `Flights`; each target loses the damage of its hits and is slowed to max(timer, 1.5) by a slow hit |
| Simulation.FlightStarts | game.js:250-253 | each bullet's flight is computed from its target's position before the pass |
| Simulation.FlightEnds | game.js:250-268 | after the pass every bullet has flown, and each target has taken exactly its hits |
| Simulation.FirstTowerWithin | game.js:156-158 | the click finds the first tower strictly within the radius, or none when no tower is that close |
| Simulation.RemoveKeepsDistinct | game.js:179 | splicing one tower out removes exactly that tower and keeps the others without repeats |
| Simulation.Sim.constructor | game.js:15-28 | a new game has 150 money, 10 lives, wave 0, empty lists, nothing running and the TOWER_DEFS entries |
| Simulation.Sim.Start | game.js:198-205 | start sets running and copies the endless checkbox |
| Simulation.Sim.TogglePause | game.js:207 | pause flips `paused` |
| Simulation.Sim.SelectType | game.js:130-136 | a type button selects its tower type |
| Simulation.Sim.Place | game.js:139-148 | placement succeeds exactly when a type is selected and money covers its cost; success takes exactly the cost and appends one new level-1 tower at the click with cooldown 0 and interval tick 0; failure changes nothing |
| Simulation.Sim.Select | game.js:151-161 | the selection is the first tower within 18 pixels, or null when none is |
| Simulation.Sim.Upgrade | game.js:164-174 | succeeds exactly when a tower is selected and money covers upgradeCost·level; takes exactly that, raises the level by 1, rewrites range and damage on the shared entry so every tower of the kind changes, leaves the selected tower's cooldown and tick alone and touches no other tower's level or cooldown |
| Simulation.Sim.Sell | game.js:175-181 | selling a selected tower pays floor(cost·0.5) + 10·(level-1), removes exactly that tower with the rest in order, and clears the selection |
| Simulation.Sim.StartWave | game.js:212-220 | a no-op while a wave runs; otherwise the wave number rises by 1, 6 + 2·wave enemies are due, the spawn timer is 0 and spawning and the wave are on |
| Simulation.Sim.SpawnPhase | game.js:229-240 | when the spawn timer runs out, exactly one new enemy of the wave's hp and speed, at t = 0, unslowed and alive, is appended and the timer resets to 0.6; otherwise only the timer runs; spawning stays on exactly while enemies are due |
| Simulation.Sim.AdvanceEnemies | game.js:243 | every enemy takes its EnemyStep; lives drop by the leaks and money rises by 8 per kill |
| Simulation.Sim.SweepDead | game.js:244 | the enemy list becomes its survivors |
| Simulation.Sim.EnemyPhase | game.js:242-244 | the enemy update and filter: lives and money move by the leak and kill counts, and the list keeps exactly the enemies that neither leaked nor were killed |
| Simulation.Sim.UpdateTowers | game.js:247 | the frame pass appends FrameVolley to the bullets and gives every tower its FrameCooldown |
| Simulation.Sim.AppendShots | game.js:110 | the shots are appended to the bullet list |
| Simulation.Sim.FlyBullets | game.js:250-268 | the bullets become their flights; every target, including ones already filtered out, loses its hits' damage and is slowed by slow hits |
| Simulation.Sim.SweepBullets | game.js:269 | the bullet list keeps exactly the bullets that are not spent |
| Simulation.Sim.CombatPhase | game.js:246-269 | the tower and bullet passes keep the game invariant |
| Simulation.Sim.Fight | game.js:242-269 | enemy, tower and bullet passes never raise lives or lower money |
| Simulation.Sim.Step | game.js:228-269 | a frame's spawn and combat never raise lives or lower money, and the number of enemies still due drops by at most one |
| Simulation.Sim.Frame | game.js:228-287 | a running frame: the wave ends exactly when spawning is over and no enemies are left, the next wave is scheduled exactly when an endless wave just ended, and the game keeps running exactly while lives remain |
| Simulation.Sim.Loop | game.js:224-291 | while stopped or paused only the timestamp changes: every field, tower and spawned enemy is as before; otherwise the wave-end, scheduling, game-over and monotonicity facts of Frame hold; pause, endless mode and the selection never change |
| Simulation.Sim.FireInterval | game.js:356-378 | the interval round appends IntervalVolley to the bullets and gives every tower its NextTick, whether or not the game runs |
| WaveText.TrimStart | editor.js:30 | dropping leading white space leaves a suffix starting with non-space, empty exactly for blank text |
| WaveText.IsSpace | editor.js:30 | the white space `trim` removes never includes the comma |
| WaveText.TrimEnd | editor.js:30 | dropping trailing white space leaves a prefix ending with non-space, empty exactly for blank text |
| WaveText.Trim | editor.js:30 | `trim` leaves a contiguous piece of the text with no white space at either end, empty exactly for blank text |
| WaveText.TrimKeepsOut | editor.js:32 | trimming never introduces a character, so a comma-free piece stays comma-free |
| WaveText.TrimTrimmed | editor.js:30 | trimming text without white space at its ends gives it back |
| WaveText.Split | editor.js:32 | `split(',')` yields at least one piece, none holding a comma, and joining the pieces with ',' gives the text back |
| WaveText.Join | editor.js:26 | the comma-join starts with the first piece |
| WaveText.JoinSeparators | editor.js:26 | joining n comma-free pieces puts exactly n - 1 commas into the text |
| WaveText.Tokens | editor.js:30-32 | the tokens saveWave stores are never empty, and blank text yields none |
| WaveText.SplitJoin | editor.js:26-32 | splitting a join of comma-free pieces gives the pieces back |
| WaveText.TrimAll | editor.js:32 | `map(s => s.trim())` trims every piece in place |
| WaveText.NonEmpty | editor.js:32 | `filter(Boolean)` keeps exactly the non-empty pieces: everything kept is a non-empty piece of the input, and every non-empty piece is kept |
| WaveText.TokensAreClean | editor.js:32 | every saved token is non-empty, comma-free and without white space at either end |
| WaveText.TokensCommaFree | editor.js:32 | no saved token holds a comma |
| WaveText.TokensTrimmed | editor.js:32 | no saved token has white space at either end |
| WaveText.TokensOfJoin | editor.js:26-32 | tokenising the comma-join of clean tokens gives exactly those tokens back |
| WaveText.JoinTrimmed | editor.js:26 | the comma-join of clean tokens has no white space at its ends |
| WaveText.TrimAllTrimmed | editor.js:32 | trimming clean tokens changes nothing |
| WaveText.JoinEnds | editor.js:26 | a join starts with the first token's first character and ends with the last token's last |
| WaveText.NoContentNoTokens | editor.js:30-32 | text made only of commas and white space yields no tokens |
| WaveText.SplitNoContent | editor.js:32 | splitting text without content leaves pieces without content |
| WaveText.NonEmptyOfEmpties | editor.js:32 | filtering only empty strings leaves nothing |
| WaveText.CommasOnlySaveEmptyWave | editor.js:30-33 | ", ," passes the blank check and yet saves an empty wave |
| PathEditor.Editor.constructor | editor.js:2-7 | the editor starts drawing, with an empty path, no wave being built and no saved waves |
| PathEditor.Editor.ToggleDraw | editor.js:9-12 | toggleDraw flips the drawing flag |
| PathEditor.Editor.ResetPath | editor.js:14-16 | resetPath empties the path |
| PathEditor.Editor.SavePath | editor.js:18-21 | savePath accepts exactly paths of at least 2 points and changes nothing |
| PathEditor.Editor.AddToWave | editor.js:23-27 | addToWave appends exactly the selected kind, and the preview is the wave joined with ',' |
| PathEditor.Editor.EditPreview | editor.js:30 | the text saveWave reads is whatever the preview box holds |
| PathEditor.Editor.SaveWave | editor.js:29-37 | blank text is refused with nothing changed; otherwise its tokens are appended as one new wave, earlier waves untouched, the box and the wave being built cleared; a preview addToWave wrote from clean kinds saves exactly that wave; saved waves stay clean |
| PathEditor.Editor.Commit | editor.js:33-35 | the wave is appended and the box and the wave being built are cleared |
| PathEditor.Editor.Click | editor.js:39-53 | nothing while the menu shows; in editor mode exactly one point is appended at the end, whatever the drawing flag; otherwise nothing |
| PathEditor.SavedWaveClean | editor.js:32-33 | appending the tokens of any text keeps every saved wave clean |
| PathEditor.SavedWaveRoundTrip | editor.js:26-32 | the preview of a clean non-empty wave is not blank and tokenises back to the wave |
| PathEditor.JoinedWaveNotBlank | editor.js:26-31 | the preview of a clean non-empty wave passes the blank check |
| TouchInput.NearestTower | ui.js:154-162 | the search answers IsNearest: a tower strictly within 20 that no tower is closer than and every earlier tower is farther than, or none when no tower is within 20 |
| TouchInput.NearestUnique | ui.js:154-162 | IsNearest allows at most one answer, so ties go to the earliest tower |
| TouchInput.Touch.constructor | ui.js:125 | the handler starts with lastClickTime 0, no preview, no selection and no placement |
| TouchInput.Touch.Click | ui.js:128-165 | a click is ignored, changing nothing, exactly when the game is not running; otherwise lastClickTime becomes now and the click is a double click iff less than 250 ms passed; a double click with a type requests one placement at the click and clears the preview, without a type it changes no selection; every other running click selects, moving the preview to the click when a type is set, and the selection is IsNearest (a tower or none) |

## Left out

- Rendering and the DOM: `draw`, `Enemy.draw`, `Tower.draw`, the grid, path strokes and bullet sprites. Also HUD text, `alert`/`prompt`, panel show and hide, button labels and `updateUI`. These only display state.
- Scheduling: `requestAnimationFrame`, `performance.now`, `setInterval` and `setTimeout`. Each callback is one atomic method. `Sim.Loop` takes the timestamp `now` as a parameter. `Sim.FireInterval` is one interval round. The endless-mode `setTimeout(startWave, 900)` is the result `nextWaveScheduled`, after which the caller calls `Sim.StartWave`. `Date.now()` in ui.js is the parameter `now`.
- Floating point: numbers are mathematical reals. `Math.floor` and `Math.round` are written with `.Floor`. `Math.hypot` is the parameter `hypot`, known only through `IsHypot`.
- The bullet's move `b.x += dx / dist * step`: its result is carried through `hypot`, but no property of the new position is proved beyond "unchanged on a hit".
- Canvas sizing and `pathPx` scaling: the path is taken in pixels.
- Bullets are plain objects that only the bullet list refers to, so they are values in a sequence that each pass reassigns. Enemies, towers and tower definitions, which are shared, are objects.
- The `linkDefs` prototype patching and the second `ui()` at game.js:380-395 have no effect on behaviour and are not modelled.
- `slow: 0.55` in the TOWER_DEFS table is never read. The slow factor is the hard-coded 0.5 of `SlowFactor`.
- engine.js is not part of this model: canvas fitting, its own run loop and user-agent checks.
- ui.js outside the mobile canvas click is not part of this model: the mobile buttons, the right-click sell and the `Game` methods it calls. `Game.placeTower` is not defined in any of the files, so a placement is a recorded `Placement` request. Towers are their positions, and the selected tower is an index into them.
- The `if (Game.running) {}` branch of the editor's canvas click is empty, so `PathEditor.Editor.Click` only reports that it appended nothing.
- The editor's canvas-click listener and the game's own listeners run side by side on the same canvas. Each is modelled as a separate method.
- Simulation.Sim.CombatPhase: states only that the game invariant is kept. What towers and bullets do is stated by `UpdateTowers`, `FlyBullets` and `SweepBullets`, which it calls in that order.
- Simulation.Sim.Fight: states the invariant and that lives never rise and money never falls. The per-enemy and per-bullet effects are stated by `EnemyPhase` and the members it and `CombatPhase` call.
- Simulation.Sim.Step: states the invariant, the monotonicity of lives and money and the spawn count. The spawn itself is stated by `SpawnPhase`.
- Simulation.Sim.Frame: states the wave-end, scheduling and game-over rules and the monotonicity of lives and money. It does not restate the per-entity effects of `Step`.
- Simulation.Sim.Loop: in the running case it states the same facts as `Frame`, not the full new state.
- PathModel.PointOnPath: requires t >= 0 once the path has two waypoints. On a negative t the code indexes the waypoint list at a negative segment and fails (game.js:53-55). Enemy progress starts at 0 and only grows, so the game never asks for such a point.
- Simulation.Sim.Loop: requires timestamps that do not go backwards while the game is running and unpaused. A negative frame time would move enemies back along the path, and enemy progress is a non-negative real here. While stopped or paused any timestamp is accepted.
- TouchInput.NearestUnique: Dafny proves it without further steps. It states that the selection rule admits a single answer.
