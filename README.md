# Orb Grower — Eternal Loop, modelled in Dafny

Orb Grower is a relaxing pygame toy. The player steers a glowing orb with the mouse, eats drifting food particles to grow, and avoids hazards that sting it smaller. Clicks send out ripples. A one-time achievement unlocks at radius 100. A small JSON save file records the best size, the session count and the achievements.

This project models the simulation and bookkeeping core of that program:

- `common.dfy` (module `Common`): 2-D vectors over the reals, an `Option` type and the square-free distance test. It also holds `Maths`, the record of transcendental functions the game calls: `exp`, `sin`, `cos`, and pygame's `distance_to`. They are taken as abstract functions obeying a few stated laws (`Lawful`).
- `easing.dfy` (module `Easing`): `smoothstep` and `damp`.
- `particle.dfy` (module `Particles`):
  - `Particle` is a value, because Python dataclasses compare by value. The eating loop's `ate` list holds the same objects as the food pool (game.py:110). This is harmless, because nothing mutates a particle while both lists hold it.
  - `Orb` is a class whose methods update its fields in place.
  - `OrbState` and the functions `Moved`, `Grown`, `Shrunk` and `PushTrail` specify the Orb's methods.
- `persistence.dfy` (module `Persistence`): `load_save` and `save_game` as a cell holding the last record written. A missing or unreadable file is an empty cell. Each save has one of three outcomes, chosen by the environment at each call (`Outcome`):
  - `Stored`: the record is written.
  - `Refused`: opening the file for writing fails, and the file keeps its contents.
  - `Truncated`: the open succeeds, which empties the file, and the dump then fails. The file no longer parses, so the next load returns the default record.
- `sound.dfy` (module `Sound`): the `enabled` flag of the sound manager.
- `filtering.dfy` (module `Filtering`): the list comprehension `[x for x in s if keep(x)]` and its laws.
- `game.dfy` (module `Game`): `GameCore`.
  - `CoreState` is its value.
  - `Step` is one frame of `update(dt)`, written as one function per phase in the source's order: `Advanced`, `Spawned`, `Drifted`, `Collided` (`Eaten`, then `Stung`), `Unlocked` and `Expanded`.
  - The class's methods are proved to follow these functions.
  - The lemmas state what a frame promises.
  - `Good` is the invariant every reachable state satisfies.
- `events.dfy` (module `Events`): events, scene names and the routing each scene's `handle_event` performs.
- `menu.dfy`, `gameplay.dfy` and `relax_mode.dfy` (modules `MenuMode`, `GameplayMode` and `RelaxMode`): the three scenes.
- `main.dfy` (module `Application`): `App`, which owns the core and the scenes. It covers the frame step clamp, event dispatch, scene switching and quitting.

Inputs the program draws from its environment are parameters:

- Random numbers are unit draws `u` in [0, 1). `random.uniform(a, b)` becomes `a + (b - a) * u`, and `randrange(0, w)` becomes an integer in [0, w).
- The mouse position is a vector.
- The clock reading `perf_counter()` is a real.
- The outcome of each `save_game` call is an `Outcome` parameter.

### Consequences of the code worth knowing

- **Food pool bound.** The code adds two food particles whenever fewer than 120 exist, so the pool reaches 121 (`SpawnBounds`).
- **A hazard can grow the orb past 240.** The code applies `shrink((hazard radius - pr) * 0.12)` whenever the hazard is within `hazard radius - 0.5 * pr`. So a hazard between half the orb's size and its full size passes a negative amount and grows the orb, and nothing caps the result at 240. `HazardCanGrowOrbPastCap` exhibits 239 becoming 243.68. The invariant `Good` therefore bounds the radius only from below.
- **Launch resets twice.** The application resets the core twice at launch: once in `GameCore.__init__` and again when it builds the relax scene. Each reset adds one session, so one launch counts two sessions when the first save is stored, and one when it is refused (`LaunchSessions`).

## Model

| member | source | states |
|---|---|---|
| `Common.DistanceIsWithin` | eternal_loop/src/core/game.py:109 | with lawful arithmetic, `a.distance_to(b) < reach` holds exactly when `0 < reach` and the squared distance is below `reach²` |
| `Common.DistanceOf` | eternal_loop/src/core/game.py:109 | a lawful distance is the unique non-negative root of the squared distance |
| `Easing.Smoothstep` | eternal_loop/src/core/easing.py:6-7 | the cubic ease t²(3 − 2t); what it promises is stated by `SmoothstepEnds`, `SmoothstepRange`, `SmoothstepMonotone` and `SmoothstepSymmetric` |
| `Easing.SmoothstepEnds` | eternal_loop/src/core/easing.py:6-7 | smoothstep(0) = 0 and smoothstep(1) = 1 |
| `Easing.SmoothstepRange` | eternal_loop/src/core/easing.py:6-7 | for t in [0, 1], smoothstep(t) lies in [0, 1] |
| `Easing.SmoothstepMonotone` | eternal_loop/src/core/easing.py:6-7 | smoothstep is non-decreasing on [0, 1] |
| `Easing.SmoothstepSymmetric` | eternal_loop/src/core/easing.py:6-7 | smoothstep(1 - t) = 1 - smoothstep(t) |
| `Easing.Damp` | eternal_loop/src/core/easing.py:9-11 | exponential approach current + (target − current)·(1 − exp(−smoothing·dt)); what it promises is stated by `DampNoTime`, `DampAtTarget` and `DampBetween` |
| `Easing.DampNoTime` | eternal_loop/src/core/easing.py:9-11 | damp with dt = 0 leaves the value where it is |
| `Easing.DampAtTarget` | eternal_loop/src/core/easing.py:9-11 | damping a value already at its target leaves it there |
| `Easing.DampBetween` | eternal_loop/src/core/easing.py:9-11 | for smoothing·dt ≥ 0, the damped value lies between current and target inclusive and moves towards the target |
| `Particles.Particle.Update` | eternal_loop/src/core/particle.py:18-24 | the particle step of the flow field; what it promises is stated by `UpdateNudge` and `UpdateKeepsSpeedBound` |
| `Particles.Flow` | eternal_loop/src/core/particle.py:21 | with lawful sin and cos, each flow component lies in [-12, 12] |
| `Particles.UpdateNudge` | eternal_loop/src/core/particle.py:18-24 | beyond the 0.995 decay, one update changes each velocity component by at most 2.388·dt (the flow's 12 · 0.2 · 0.995) in either direction, and keeps the radius |
| `Particles.UpdateKeepsSpeedBound` | eternal_loop/src/core/particle.py:18-24 | for 0 ≤ dt ≤ 1/30, a velocity within [-20, 20] per axis stays within it |
| `Particles.Grown` | eternal_loop/src/core/particle.py:57 | grow yields min(radius + amount, 240): never above 240 or above radius + amount, and equal to one of them |
| `Particles.Shrunk` | eternal_loop/src/core/particle.py:58 | shrink yields max(radius - amount, 6): never below 6 or below radius - amount, and equal to one of them |
| `Particles.GrowShrinkKeepBounds` | eternal_loop/src/core/particle.py:57-58 | for a non-negative amount, grow and shrink keep a radius in [6, 240] inside it, grow never lowers it and shrink never raises it |
| `Particles.PushTrail` | eternal_loop/src/core/particle.py:52-53 | below 32 entries the new position is appended and nothing is dropped; at 32 entries exactly the oldest entry is dropped (`trail[1..] + [p]`), so the trail never exceeds 32 and always ends at the new position |
| `Particles.Moved` | eternal_loop/src/core/particle.py:45-55 | the orb's state after `update(dt, cursor)`; what it promises is stated by `MovedTowardsCursor` and `MovedNoTime` |
| `Particles.MovedTowardsCursor` | eternal_loop/src/core/particle.py:45-55 | each axis of the orb moves towards the cursor without overshooting it; the trail stays bounded and ends at the new position; the radius is kept |
| `Particles.MovedNoTime` | eternal_loop/src/core/particle.py:45-55 | with no time elapsed the orb's position and breath phase stay the same |
| `Particles.NewOrb` | eternal_loop/src/core/particle.py:36-43 | the state of a new orb: at the given position, still, radius 16, no trail, breath 0; `Orb.constructor` is proved to produce it |
| `Particles.Orb.constructor` | eternal_loop/src/core/particle.py:36-43 | a new orb stands at the given position with radius 16, zero velocity, an empty trail and breath 0 |
| `Particles.Orb.Update` | eternal_loop/src/core/particle.py:45-55 | the orb's new state is `Moved` of its old state: damped position, smoothed velocity, bounded trail, breath + 0.6·dt |
| `Particles.Orb.Grow` | eternal_loop/src/core/particle.py:57 | only the radius changes, to `Grown(old radius, amount)` |
| `Particles.Orb.Shrink` | eternal_loop/src/core/particle.py:58 | only the radius changes, to `Shrunk(old radius, amount)` |
| `Persistence.Loaded` | eternal_loop/src/core/game.py:10-15 | what `load_save` returns for a file's contents, the default record for an unreadable file; its round trip with `Written` is `LoadAfterSave` |
| `Persistence.Written` | eternal_loop/src/core/game.py:17-22 | what the file holds after `save_game` with each outcome; its round trip with `Loaded` is `LoadAfterSave` |
| `Persistence.LoadAfterSave` | eternal_loop/src/core/game.py:10-22 | loading after a stored save gives back the record written; after a refused save, what the earlier load gave; after a truncated save, the default record |
| `Persistence.WrittenHoldsOldOrNew` | eternal_loop/src/core/game.py:17-22 | after a save the file holds the record written, its earlier contents, or nothing; only a stored save makes a missing file readable |
| `Persistence.SaveStore.Load` | eternal_loop/src/core/game.py:10-15 | returns the stored record, or the default record when there is none |
| `Persistence.SaveStore.Save` | eternal_loop/src/core/game.py:17-22 | the store afterwards is `Written(old contents, outcome, record)`, and no failure escapes |
| `Sound.SoundManager.constructor` | eternal_loop/src/core/sound.py:7-14 | sound is enabled exactly when the mixer initialised |
| `Sound.SoundManager.Toggle` | eternal_loop/src/core/sound.py:22-24 | flips the flag and returns its new value |
| `Filtering.Filter` | eternal_loop/src/core/game.py:114 | the filtered list is no longer than the input and holds only input elements that pass the test |
| `Filtering.FilterMembership` | eternal_loop/src/core/game.py:114 | an element is kept exactly when it occurs in the input and passes the test |
| `Filtering.FilterConcat` | eternal_loop/src/core/game.py:130 | filtering distributes over concatenation, so kept elements keep their order |
| `Filtering.FilterCount` | eternal_loop/src/core/game.py:114 | a kept value occurs as often as in the input; a rejected one not at all |
| `Filtering.FilterCongruent` | eternal_loop/src/core/game.py:114 | two tests that agree on every element give the same result |
| `Game.Uniform` | eternal_loop/src/core/game.py:64 | random.uniform(a, b) with a ≤ b lies in [a, b] |
| `Game.FoodParticle` | eternal_loop/src/core/game.py:63-68 | a food particle's radius lies in [3, max(5, 10 - 0.02·pr)] and each velocity component in [-20, 20] |
| `Game.HazardParticle` | eternal_loop/src/core/game.py:69-74 | a hazard's radius lies in [1.1·pr, 1.6·pr + 18] and each velocity component in [-10, 10] |
| `Game.FoodSpawned` | eternal_loop/src/core/game.py:62-68 | the food pool after `spawn_particles`: two particles appended while fewer than 120 exist, otherwise unchanged; `SpawnBounds` states its bounds |
| `Game.HazardSpawned` | eternal_loop/src/core/game.py:69-74 | the hazard pool after `spawn_particles`: one particle appended while fewer than 18 exist, otherwise unchanged; `SpawnBounds` states its bound |
| `Game.SpawnBounds` | eternal_loop/src/core/game.py:60-74 | spawning keeps food ≤ 121 and hazards ≤ 18; 119 food particles become 121; at 120 or more nothing is added |
| `Game.WrapAxis` | eternal_loop/src/core/game.py:76-80 | a wrapped coordinate lies in [-50, size + 50]; one already inside is unchanged; one below jumps to size + 50 and one above to -50 |
| `Game.Wrap` | eternal_loop/src/core/game.py:76-80 | a wrapped particle is inside the margin box, only its position changes, and a particle already inside is unchanged |
| `Game.WrapIdempotent` | eternal_loop/src/core/game.py:76-80 | wrapping twice is wrapping once |
| `Game.Drift` | eternal_loop/src/core/game.py:97-102 | a drifted pool has as many particles as before, each inside the margin box and keeping its radius |
| `Game.DriftKeepsSpeeds` | eternal_loop/src/core/game.py:97-102 | with a step in [0, 1/30] s, drifting keeps every speed within 20 per axis |
| `Game.Eats` | eternal_loop/src/core/game.py:109 | the food test `p.pos.distance_to(ppos) < p.radius + pr * 0.8`; `DistanceIsWithin` gives its square-free form |
| `Game.Stings` | eternal_loop/src/core/game.py:117 | the hazard test `p.pos.distance_to(ppos) < p.radius - pr * 0.5`; `HazardShrinkExample` and `HazardCanGrowOrbPastCap` exhibit a hit and a miss |
| `Game.Feed` | eternal_loop/src/core/game.py:108-113 | the food loop's radius and score; what it promises is stated by `FeedStep`, `FeedFacts`, `FeedKeepsFloor` and `EatExample` |
| `Game.FeedStep` | eternal_loop/src/core/game.py:108-113 | one more particle of the food loop grows the orb and lifts the score exactly when it is within reach |
| `Game.FeedFacts` | eternal_loop/src/core/game.py:104-114 | eating never lowers the score; after any eat the score is at least the radius; nothing changes when nothing is within reach; the radius only grows and stays ≤ 240 |
| `Game.FeedKeepsFloor` | eternal_loop/src/core/game.py:108-113 | eating from a radius of at least 6 never takes it below 6 |
| `Game.Sting` | eternal_loop/src/core/game.py:116-119 | the hazard loop's radius; what it promises is stated by `StingFacts`, `HazardCanGrowOrbPastCap` and `HazardShrinkExample` |
| `Game.StingFacts` | eternal_loop/src/core/game.py:116-120 | the hazard loop never takes the radius below 6, and never grows the orb when every hazard is at least the start-of-frame radius |
| `Game.HazardCanGrowOrbPastCap` | eternal_loop/src/core/game.py:116-119 | an orb of radius 239 five units from a hazard of radius 200 is hit and ends at 243.68, above 240 |
| `Game.HazardShrinkExample` | eternal_loop/src/core/game.py:116-119 | a hazard of radius 50 five units from an orb of radius 20 shrinks it to 16.4; at fifty units it misses |
| `Game.EatExample` | eternal_loop/src/core/game.py:108-112 | an orb of radius 95 eating a particle of radius 40 fifty units away grows to 101 and scores 101 |
| `Game.Swell` | eternal_loop/src/core/game.py:128-129 | every wave keeps its origin; for a non-negative step no wave shrinks; all waves grow alike, so the gaps between their radii are kept |
| `Game.Ended` | eternal_loop/src/core/game.py:168-170 | end_session raises the best size to the larger of itself and the radius and changes nothing else |
| `Game.WaveLimit` | eternal_loop/src/core/game.py:130 | the pruning radius 1.2·max(w, h); `StepWaves` states that a wave survives exactly while its radius is below it |
| `Game.RestartedGood` | eternal_loop/src/core/game.py:39-51 | a reset state satisfies the invariant |
| `Game.Restarted` | eternal_loop/src/core/game.py:39-51 | the state `reset` leaves; `RestartedGood` states that it satisfies the invariant |
| `Game.Advanced` | eternal_loop/src/core/game.py:85-90 | the clock section of a frame; `GameCore.Advance` follows it |
| `Game.Spawned` | eternal_loop/src/core/game.py:92-94 | the spawn section of a frame; `SpawnBounds` and `StepKeepsGood` state what it keeps |
| `Game.Drifted` | eternal_loop/src/core/game.py:96-102 | the two particle loops; `Drift` and `DriftKeepsSpeeds` state what they keep |
| `Game.Eaten` | eternal_loop/src/core/game.py:104-114 | the eating section; `CollidedRemovesExactlyEaten` and `FeedFacts` state its effect |
| `Game.Stung` | eternal_loop/src/core/game.py:116-120 | the hazard section; `StingFacts` states its effect |
| `Game.Collided` | eternal_loop/src/core/game.py:104-120 | eating then hazards, both against the start-of-frame radius and position; `CollidedRemovesExactlyEaten` states its effect on the food |
| `Game.Unlocked` | eternal_loop/src/core/game.py:122-125 | the achievement section; `StepGleamOnce` states its effect |
| `Game.Unlocks` | eternal_loop/src/core/game.py:123 | the unlock condition: radius at least 100 and 'Gleam 100' not yet recorded; `StepGleamOnce` states its effect |
| `Game.Expanded` | eternal_loop/src/core/game.py:127-130 | the wave section; `StepWaves` states its effect |
| `Game.Step` | eternal_loop/src/core/game.py:82-130 | one frame of `update(dt)`; what it promises is stated by `StepKeepsGood`, `StepKeepsSpeeds`, `PausedStepIsIdentity`, `StepScore`, `StepGleamOnce`, `RelaxStepHazards` and `StepWaves` |
| `Game.StepKeepsGood` | eternal_loop/src/core/game.py:82-130 | every frame keeps the invariant: trail ≤ 32, radius ≥ 6, food ≤ 121, hazards ≤ 18, food radius ≥ 3, particles in the margin box, waves below 1.2·max(w, h) |
| `Game.StepKeepsSpeeds` | eternal_loop/src/core/game.py:82-130 | with a step of at most 1/30 s, a frame keeps every particle's speed within 20 per axis |
| `Game.PausedStepIsIdentity` | eternal_loop/src/core/game.py:82-83 | a paused frame changes nothing |
| `Game.CollidedRemovesExactlyEaten` | eternal_loop/src/core/game.py:104-114 | the food removed is exactly the food within reach of the start-of-frame radius and position; what stays keeps its multiplicity and order |
| `Game.UneatenIsSpared` | eternal_loop/src/core/game.py:114 | `p not in ate`, under value equality, keeps exactly the particles not within reach |
| `Game.StepScore` | eternal_loop/src/core/game.py:104-114 | the session score never decreases in a frame |
| `Game.StepGleamOnce` | eternal_loop/src/core/game.py:122-125 | the count of 'Gleam 100' rises from 0 to 1 exactly when an unpaused frame ends with radius at least 100, and is unchanged otherwise; best size and sessions are unchanged |
| `Game.RelaxStepHazards` | eternal_loop/src/core/game.py:69-74 | a frame that starts with no hazards ends with at most one |
| `Game.StepWaves` | eternal_loop/src/core/game.py:127-130 | a wave survives a frame exactly when its grown radius is below 1.2·max(w, h); survivors keep their order |
| `Game.GameCore.constructor` | eternal_loop/src/core/game.py:25-37 | a new core has the sound flag of the mixer and the state of a reset, and the reset's save has the given outcome |
| `Game.GameCore.Reset` | eternal_loop/src/core/game.py:39-51 | clock, pools, waves, pause and score cleared; orb new at the centre; flow phase 10·random(); the loaded record with one more session, saved with the given outcome |
| `Game.GameCore.TogglePause` | eternal_loop/src/core/game.py:53-54 | only the pause flag flips |
| `Game.GameCore.EmitWave` | eternal_loop/src/core/game.py:56-57 | exactly one wave of radius 0 is appended at the position; nothing else changes |
| `Game.GameCore.SpawnParticles` | eternal_loop/src/core/game.py:60-74 | the pools become `FoodSpawned` and `HazardSpawned` of the old pools; nothing else changes |
| `Game.GameCore.SpawnWhenDue` | eternal_loop/src/core/game.py:92-94 | the new state is `Spawned` of the old one: spawning and a timer reset exactly when more than 0.15 s have accumulated |
| `Game.GameCore.DriftParticles` | eternal_loop/src/core/game.py:96-102 | food drifts with the flow phase and hazards with 0.7 of it; nothing else changes |
| `Game.GameCore.DriftPool` | eternal_loop/src/core/game.py:97-99 | the loop over one pool yields `Drift` of it |
| `Game.GameCore.Collide` | eternal_loop/src/core/game.py:104-120 | the new state is `Collided` of the old one, both loops using the start-of-frame radius and position |
| `Game.GameCore.EatFood` | eternal_loop/src/core/game.py:104-114 | the new state is `Eaten` of the old one |
| `Game.GameCore.FeedLoop` | eternal_loop/src/core/game.py:108-113 | the loop's radius and score are `Feed` of the food, and `ate` is exactly the food within reach, in order |
| `Game.GameCore.StingPlayer` | eternal_loop/src/core/game.py:116-120 | the hazard loop's effect is `Stung`: only the orb's radius changes |
| `Game.GameCore.UnlockAchievement` | eternal_loop/src/core/game.py:122-125 | the new state is `Unlocked`; the store is written, with the given outcome, only when the achievement is appended |
| `Game.GameCore.ExpandWaves` | eternal_loop/src/core/game.py:127-130 | the waves become the grown waves below 1.2·max(w, h), in order |
| `Game.GameCore.Advance` | eternal_loop/src/core/game.py:85-90 | clock, flow phase and spawn timer advance and the orb moves |
| `Game.GameCore.Update` | eternal_loop/src/core/game.py:82-130 | the new state is `Step` of the old one, the invariant is kept, a paused frame changes nothing, and the store is written, with the given outcome, exactly when the achievement unlocks |
| `Game.GameCore.EndSession` | eternal_loop/src/core/game.py:168-170 | the new state is `Ended` of the old one and the record is saved with the given outcome |
| `Events.MenuRoute` | src/scenes/menu.py:12-21 | 1, Enter and a left click lead to gameplay, 2 to relax mode, nothing to the menu itself |
| `Events.PlayRoute` | src/scenes/gameplay.py:10-23 | only Escape leaves the play scenes, and it leads to the menu |
| `Events.Route` | eternal_loop/src/main.py:45 | the route of the current scene's handler: the menu's for the menu, the play route for the two play scenes; `RoutesLeaveTheScene` states what it allows |
| `Events.RoutesLeaveTheScene` | src/scenes/relax_mode.py:13-21 | no scene routes to itself, play scenes lead only to the menu, and quit or unknown events route nowhere |
| `MenuMode.MenuScene.HandleEvent` | src/scenes/menu.py:12-21 | returns `MenuRoute` of the event and flips the sound flag exactly on M |
| `MenuMode.MenuScene.constructor` | src/scenes/menu.py:6-10 | a new menu shares the application's core and starts its animation clock at 0 |
| `MenuMode.MenuScene.Update` | src/scenes/menu.py:23-24 | the animation clock advances by exactly dt |
| `GameplayMode.RestartRecord` | src/scenes/gameplay.py:15-17 | after R, a stored save continues the ended record with one more session; a refused one restarts from the file's stale record; a truncated one restarts from the default record with one session |
| `GameplayMode.GameplayScene.constructor` | src/scenes/gameplay.py:6-8 | a new gameplay scene holds the application's core |
| `GameplayMode.GameplayScene.HandleEvent` | src/scenes/gameplay.py:10-23 | Escape ends the session and returns to the menu; R ends the session and resets; Space flips pause; M flips sound; a left click emits a wave at the mouse; nothing else changes anything |
| `GameplayMode.GameplayScene.Update` | src/scenes/gameplay.py:25-26 | one `Step` of the core |
| `RelaxMode.RelaxScene.constructor` | src/scenes/relax_mode.py:6-11 | the core is reset and its hazard list emptied |
| `RelaxMode.RelaxScene.HandleEvent` | src/scenes/relax_mode.py:13-21 | Escape ends the session and returns to the menu; M flips sound; a left click emits a wave; R, Space and everything else change nothing |
| `RelaxMode.RelaxScene.Update` | src/scenes/relax_mode.py:23-26 | one `Step` of the core from an empty hazard list, after which at most one hazard exists |
| `Application.ClampDt` | eternal_loop/src/main.py:35-39 | the frame step is at most 1/30, equals the elapsed time when that is smaller, and is never negative for a monotonic clock |
| `Application.Launched` | eternal_loop/src/main.py:16-25 | the core state after launch: two resets, the second re-reading what the first saved, then the hazards cleared; `LaunchSessions` states its record and the invariant |
| `Application.LaunchSessions` | eternal_loop/src/main.py:16-25 | launching counts two sessions when the first save is stored and one when it is refused, keeping best size and achievements; a truncated first save starts from the default record with one session; the invariant holds |
| `Application.FrameKeepsSpeeds` | eternal_loop/src/main.py:35-49 | with the clamped step, a play frame keeps particle speeds within 20 per axis |
| `Application.App.constructor` | eternal_loop/src/main.py:11-25 | the application starts on the menu with the core in its launch state, and the file is the result of the two resets' saves |
| `Application.App.Switch` | eternal_loop/src/main.py:27-30 | the scene name becomes the requested one; relax mode gets a fresh scene and a reset core with no hazards; menu and gameplay leave the core as it is |
| `Application.App.Dispatch` | eternal_loop/src/main.py:45 | the current scene's handler answers with that scene's route; the menu never changes the core |
| `Application.App.HandleEvents` | eternal_loop/src/main.py:41-47 | the loop stops exactly at the first quit event, which records the best size and saves it with that event's outcome first; other events are routed and may switch scenes |
| `Application.App.UpdateScene` | eternal_loop/src/main.py:49 | the current scene's update: the menu's clock, a core `Step`, or a relax `Step` leaving at most one hazard |
| `Application.App.Frame` | eternal_loop/src/main.py:34-49 | one loop iteration stores the clock reading and quits exactly when a quit event arrives |

## Left out

- Drawing: every `draw` method, the background, the HUD (eternal_loop/src/ui/hud.py) and the pause overlay. They only paint surfaces.
- Colours: of particles, the orb and waves (`random.choice(PALETTE)`). They only feed drawing. Particle equality in the model therefore ignores colour. This does not change which food the comprehension `p not in ate` drops, since particles equal up to colour are both eaten or both spared.
- Audio: synthesis, `loop_ambient` and `play`. Sound is the `enabled` flag only, and `play` has no effect on any modelled state.
- The JSON file and the filesystem: the save file is a cell holding a full record or nothing. A file that parses but is not such a record is not modelled. In the source:
  - a missing `sessions`, JSON that is not an object, or a `sessions` that is not a number raises in `reset` (game.py:50);
  - a missing `achievements` raises only in `update`, once the radius reaches 100 (game.py:123);
  - a missing `best_size` never raises, because it is always read with `.get('best_size', 0)` (game.py:165, 169).
- A partly written save file: a truncated save is modelled as a file that no longer parses. A partial dump that still parsed would need the JSON text, which is not modelled.
- Floating point: all quantities are Dafny reals, so IEEE rounding is not modelled. pygame's `Vector2` equality compares within a tolerance (1e-6 by default), not exactly. The model's `p not in ate` (`UneatenIsSpared`) uses exact equality, so the degenerate case of two particles with the same radius and phase whose positions and velocities differ by less than that tolerance is not modelled.
- Transcendental functions: `math.exp`, `math.sin`, `math.cos` and pygame's `distance_to` are abstract functions obeying the laws in `Lawful`.
- `ease_in_out_sine`: it is unused by the core and depends only on `cos`.
- The run loop's mechanics: `pygame.event.get`, `display.flip`, `clock.tick`, window creation and `sys.exit`. One iteration is `App.Frame`, and exiting is its `quit` result.
- Application.App.HandleEvents: the contract states the quit condition, the saved record on quit and the invariant. It does not state the core state after each routed event in a frame's sequence; each scene handler's own contract states that for one event.
- Application.App.Frame: the contract states the clock bookkeeping, the quit condition and the invariant. The core's change is stated per part, by `App.HandleEvents` and `App.UpdateScene`.
- Application.App.Dispatch: for the play scenes, the contract states the route only. The core's change is stated by the scene handlers' contracts.
- The scenes dictionary: it is three fields of `App`. Only the relax entry is ever replaced, and `Switch` does that.
- Mouse positions: these are integers in pygame and reals here.
