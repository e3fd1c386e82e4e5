# flappy-rs core in Dafny

This project models the game logic of flappy-rs, a terminal Flappy Bird.
- A camera scrolls east one column per simulation step.
- The player falls under gravity and flaps for power.
- One obstacle at a time must be passed through its opening.
- A sinusoidal ground strip scrolls with the camera.
- A course of power-ups refills the player's power.

The session controller is a three-state machine: Menu, Playing, End.

Modules: `Common` holds conventions shared by the others, and each other module models one source file.

- `Common` (`common.dfy`): the integer conventions of the source language.
  - Division and remainder truncate toward zero.
  - The `u32` range.
  - An `Option` for `checked_sub`.
- `GameCore` (`gamecore.dfy`): the `Camera` class and its visible window (`src/gamecore.rs`).
- `Players` (`player.dfy`): the `Player` class (`src/player.rs`).
- `Elements` (`element.dfy`): the display constants, the `Obstacle` and `PowerUp` values, the `Power` tiers, the `Terrain` class and the ground collision (`src/element.rs`).
- `Session` (`session.dfy`): the `State` class of `src/main.rs`.
  - Its constructor, `restart` and `init_power_up`.
  - The menu and end screens, the per-frame `play_state` logic and the `tick` dispatch.

The controller is imperative, as in the source. Each method changes the fields and the entities it names in `modifies`, in the source's order.

A ghost function `State.Snap()` reads the whole session as a `World` value. Each phase of a frame is proved to turn `Snap()` into a pure function of the old snapshot. The phases are:
- `Clocked`: timers and the simulation step;
- `Flapped`: the flag timeout and the flap;
- `Scored`: scoring;
- `Judged`: the death check;
- `Collected`: the power-up scan;
- `Replaced`: obstacle replacement.

`PlayFrame` composes these phases and `Frame` dispatches on the state. The game's properties are lemmas about those functions. The session invariant `Inv` is preserved by every frame and established by every restart. It holds:
- a fixed viewport;
- the player 15 columns left of the camera;
- a well-formed obstacle ahead of the camera's left bound;
- a course of power-ups sorted by x;
- `u32` headroom for every power-up still ahead.

Numbers follow the source with these representations:
- The player's `f32` velocity is an integer in tenths of a cell per step: gravity 2, cap 20, flap impulse 15. `velocity as i32` truncates, so the model uses `TruncDiv(velocity, 10)`.
- Frame timers are whole milliseconds.
- `i32` division and remainder (`width / 2`, `height / 2`, `player.x % len`) use `TruncDiv` / `TruncRem`.

Inputs from outside the core become parameters:
- the key pressed and the elapsed frame time, one per frame;
- the random draws: the gap of each new obstacle and, for each session, a `Course`;
- the terrain's height profile.

A `Course` holds the first obstacle's gap, the terrain profile, one draw per slot of each power-up group, and one row draw and one tier draw per group.

Behaviours of the code the model keeps, although a reader might expect otherwise:
- A restart does not reset `new_obstacle`, `last_flap` or `back_frame_time`; it keeps their old values.
- The velocity is not capped at 2.0. Gravity is only added while the velocity is below 2.0.
- The power-up cursor is not bounded by the course length; it can run past the end (`ScanOvershoots`). It can also skip a power-up that is still ahead of the camera and untouched, which no later scan then sees (`ScanSkipsLive`).

## Model

| member | source | states |
|---|---|---|
| Common.TruncDiv | src/gamecore.rs:36 | quotient truncated toward zero: remainder in [0, b) for a non-negative dividend, in (-b, 0] for a negative one |
| Common.TruncRem | src/element.rs:76 | the remainder of `TruncDiv` (`a == q * b + r`), with the dividend's sign; equal to the mathematical modulus for a non-negative dividend |
| GameCore.LeftBound | src/gamecore.rs:35-37 | the window is symmetric about the camera x and spans twice the truncated half-width; for a non-negative width the left bound is at most `width` left of x |
| GameCore.RightBound | src/gamecore.rs:40-42 | for a non-negative width, at or right of x and at most `width` away; for a negative width, at or left of x |
| GameCore.WindowHoldsCentre | src/gamecore.rs:35-42 | a non-negative-width window contains its centre and is `width` rounded down to even columns wide |
| GameCore.Camera.constructor | src/gamecore.rs:20-27 | stores position and size |
| GameCore.Camera.Update | src/gamecore.rs:30-32 | x advances by one, y is kept, and both bounds slide by one with the window size unchanged |
| Players.Accelerated | src/player.rs:28-30 | gravity is added only while the velocity is below the cap; at or above it the velocity is kept |
| Players.Fallen | src/player.rs:31-35 | the new height is never above row 0, and is the old height plus the truncated velocity unless that is negative, when it is 0 |
| Players.Player.constructor | src/player.rs:17-25 | position as given, velocity 0, power 20, not flapping |
| Players.Player.Update | src/player.rs:27-36 | the velocity is `Accelerated` of the old one, one column east, the height given by `Fallen`, power and flag kept |
| Players.Player.Flap | src/player.rs:38-46 | velocity always drops by the impulse and the flag is set; power drops by one answering `Some(rest)`, or the exhausted power answers `None` and stays 0 |
| Players.Player.PowerUp | src/player.rs:48-51 | power grows by exactly the amount and the new total is answered; the caller keeps the sum within `u32` |
| Elements.Obstacle.New | src/element.rs:17-24 | x and gap as given; the opening is `max(2, 20 - score)`, so at least 2 and at most 20 for a non-negative score |
| Elements.Obstacle.Collision | src/element.rs:26-30 | a hit only in the obstacle's column, and there exactly outside the rows `gap ± height/2`; the gap row is always safe |
| Elements.OpeningNonIncreasing | src/element.rs:22 | a higher score never gives a wider opening |
| Elements.FirstObstacleCollisions | src/element.rs:17-30 | the first obstacle's centre row is safe, the row past its opening is not, and another column never collides |
| Elements.Terrain.constructor | src/element.rs:62-65 | stores the profile with the cursor at 0, valid for a non-empty profile |
| Elements.Scrolled | src/element.rs:69-72 | one column on, wrapping to 0 exactly at the length; a cursor in range stays in range |
| Elements.Terrain.Update | src/element.rs:68-73 | the new cursor is `Scrolled` of the old one, so a valid terrain stays valid |
| Elements.GroundCollision | src/element.rs:75-78 | for a non-negative x, the player hits the ground exactly when at or below the top of the column `x mod length` |
| Elements.Terrain.RenderOrder | src/element.rs:83-85 | screen column k shows world column `(current + k) mod length`; the drawn columns are a permutation of the profile |
| Elements.Power.Stamina | src/element.rs:112-116 | 5, 10 or 15, a multiple of 5; Low is exactly 5 and High exactly 15 |
| Elements.PowerUp.Collision | src/element.rs:133-136 | the player touches a power-up exactly when within one cell of it on both axes |
| Session.FirstHitFrom | src/main.rs:70-81 | the first slot whose draw is below its threshold `i/10`: every earlier slot missed, and a hit always exists |
| Session.TierOf | src/main.rs:74-78 | draw 1 gives Low and only it, draw 2 gives Med and only it, anything else High |
| Session.PowerUpCourse | src/main.rs:64-85 | 45 power-ups, the g-th within group g's ten columns and rows [5, 30), sorted by x |
| Session.CourseOnePerGroup | src/main.rs:69-83 | group g's ten columns hold exactly one power-up of the course, the g-th |
| Session.InitPowerUp | src/main.rs:64-85 | the nested slot loops build exactly the course the draws describe |
| Session.ScanFrom | src/main.rs:145-153 | the cursor never goes back and grows by at least one per collection; at most the unscanned elements are collected, only from the resume point on; each gives at most 15 |
| Session.ScanGainsCollected | src/main.rs:149-150 | the stamina a scan adds is exactly that of the power-ups it collects |
| Session.ScanCollectsOnlyTouched | src/main.rs:149 | every collected power-up is one the player touches |
| Session.ScanCollectsInOrder | src/main.rs:145-153 | collections are in strictly increasing course order, so none is collected twice |
| Session.ScanCollectsEveryTouched | src/main.rs:145-153 | every touched power-up at or after the cursor is collected |
| Session.ScanCollectedBehindCursor | src/main.rs:147-151 | every collected power-up ends up behind the final cursor, so a later frame never sees it again |
| Session.ScanStepTouched | src/main.rs:149-151 | over a touched element the cursor advances by `idx + 1` after the behind-camera rule, and its stamina counts |
| Session.ScanStepMissed | src/main.rs:146-148 | over an untouched element only the behind-camera rule moves the cursor |
| Session.ScanBudget | src/main.rs:145-153 | collected stamina plus the most the remaining course could give never exceeds the most it could give before |
| Session.ScanOvershoots | src/main.rs:146-151 | two passed power-ups and one touched one leave the cursor at 5 over a course of 3 |
| Session.ScanSkipsLive | src/main.rs:146-151 | a touch at index 1 moves the cursor to 3, past a power-up at index 2 that is ahead of the left bound and untouched |
| Session.Scan | src/main.rs:145-153 | a whole scan from the cursor: the cursor ends at least one past the start per collection, collections come from the cursor on, at most the unscanned count, each worth at most 15 |
| Session.Gain | src/main.rs:149-150 | the stamina of a list of collected power-ups is at most 15 per power-up |
| Session.ScanUntouched | src/main.rs:145-153 | a scan over power-ups all ahead of the camera and out of reach collects nothing and leaves the cursor |
| Session.Clocked | src/main.rs:110-118 | every timer accumulates; without a step nothing else changes; a step resets the step clock, moves player and camera one column together, applies `Accelerated` and `Fallen` to the player and `Scrolled` to the terrain cursor |
| Session.Flapped | src/main.rs:120-131 | touches only velocity, flag, power, latch and flap timer, and never raises the power; a frame that does not flap changes at most the flag |
| Session.Scored | src/main.rs:133-136 | touches only score and the scoring latch; the score rises by at most one |
| Session.Judged | src/main.rs:138-143 | touches only the game state |
| Session.Collected | src/main.rs:145-153 | touches only the cursor and the power |
| Session.Replaced | src/main.rs:155-158 | touches only the obstacle and its latch |
| Session.Perishes | src/main.rs:138-140 | falling below the screen is always fatal; outside the obstacle's column, and on the gap row, the player dies exactly below the screen or on the ground of column `x mod length` |
| Session.Initial | src/main.rs:39-62 | the opening session satisfies the invariant and is in Menu with score, cursor and timers 0, power 20, both latches set and the drawn course |
| Session.Begin | src/main.rs:187-203 | a restart satisfies the invariant and is in Playing; it is the opening session except the state and the scoring latch and two timers, which carry over |
| Session.PlayFrame | src/main.rs:110-158 | a frame of play keeps the course, the terrain profile and the viewport, keeps the state or ends the session, never moves the cursor back and never lowers the score |
| Session.Frame | src/main.rs:207-219 | a menu or end screen either stays unchanged or becomes `Begin`; play stays in Playing or ends; a session in Menu afterwards is unchanged |
| Session.Quits | src/main.rs:99 | quitting is asked exactly on Q in the menu or the end screen, never during play |
| Session.PlayFramePreservesInv | src/main.rs:110-158 | every frame of play keeps the session invariant, including `u32` headroom for the power |
| Session.PlayFrameKeepsOffset | src/main.rs:113-118 | player and camera advance together, one column exactly when the step fires, and the step clock resets |
| Session.ScoresOncePerObstacle | src/main.rs:133-136 | at most one point per frame, exactly when the obstacle is armed and the stepped player is past it |
| Session.ObstacleLifecycle | src/main.rs:155-158 | the obstacle is replaced, re-armed, one viewport width on, exactly when the stepped left bound reaches it; otherwise it is kept |
| Session.FlagTimeout | src/main.rs:120-122 | in a frame without a flap the flag is cleared exactly when more than 150 ms have passed since the last flap |
| Session.PowerLatch | src/main.rs:124-131 | a cleared latch stays cleared; a frame that does not flap keeps the stepped velocity and lets the flap timer run; with the latch set Space flaps, resets the timer and clears the latch exactly when power was 0 |
| Session.PowerAccounting | src/main.rs:124-153 | the new power is the flap's remainder plus the scan's stamina, and the cursor is the scan's, never behind the old one |
| Session.DeathRule | src/main.rs:138-143 | play ends exactly when the stepped player is below the screen, in the obstacle's wall or in the ground |
| Session.FrameTransitions | src/main.rs:207-219 | the invariant holds after every frame; Menu leaves only on P and End only on R, into a fresh session; Playing never returns to Menu |
| Session.FlapThenStep | src/main.rs:110-131 | after a start, one flap then one step: velocity -1.5 then -1.3, power 19, the player one row up and one column on, still playing |
| Session.State.constructor | src/main.rs:39-62 | the opening session, in Menu, satisfying the invariant |
| Session.State.Restart | src/main.rs:187-203 | the new state is `Begin` of the old one and satisfies the invariant |
| Session.State.Install | src/main.rs:188-202 | the restart's assignments: new entities, Playing, zero clock, score and cursor, latch set, the other fields kept |
| Session.State.MenuState | src/main.rs:94-102 | P restarts, Q (and only Q) asks to quit, any other key changes nothing |
| Session.State.EndState | src/main.rs:176-184 | R restarts, Q (and only Q) asks to quit, any other key changes nothing |
| Session.State.AdvanceClock | src/main.rs:110-118 | the new snapshot is `Clocked` of the old |
| Session.State.FlapPhase | src/main.rs:120-131 | the new snapshot is `Flapped` of the old |
| Session.State.ScorePhase | src/main.rs:133-136 | the new snapshot is `Scored` of the old |
| Session.State.JudgePhase | src/main.rs:138-143 | the new snapshot is `Judged` of the old |
| Session.State.ScanPowerUps | src/main.rs:145-153 | the skip/enumerate loop leaves the cursor and power of one `Scan` from the cursor |
| Session.State.ReplacePhase | src/main.rs:155-158 | the new snapshot is `Replaced` of the old |
| Session.State.PlayState | src/main.rs:110-158 | the new snapshot is `PlayFrame` of the old, and the invariant is kept |
| Session.State.Tick | src/main.rs:207-219 | the new snapshot is `Frame` of the old, the invariant is kept, and quitting is asked exactly on Q outside play |

## Left out

- Rendering: every `render` body, `cls` and `print`, and the title screens' text are not modelled; bracket-lib's terminal is I/O. `Terrain.RenderOrder` keeps only the column order of the terrain's render.
- The `screen_x` wrap in the terrain's render is not modelled; it is drawing only.
- `main`, `BTermBuilder` and `main_loop` are I/O. `context.quitting = true` becomes the `quit` answer of `MenuState`, `EndState` and `Tick`.
- The elapsed frame time (`context.frame_time_ms`) and the key (`context.key`) are parameters of each frame. Keys other than P, Q, R and Space are all `Other`.
- Session.Clocked: timers are whole milliseconds rather than `f32`; sums are exact, with no float rounding.
- Players.Player.Update: the `f32` velocity is exact tenths, so repeated `+= 0.2` carries no float rounding error.
- `back_frame_time` is accumulated like the source but never read, as in the source.
- Session.Threshold: the `f32` thresholds `i as f32 / 10.0` are exact reals, and the `f32` slot draws are reals in [0, 1); float rounding is not modelled.
- Random draws: `rand::thread_rng` and bracket-lib's `RandomNumberGenerator` are parameters. These are the `gap` of each obstacle, the per-slot draws and the per-group row and tier draws of the power-up course.
- Session.InitPowerUp: the source draws a row and a tier only in the slot that hits. The model takes one row draw and one tier draw per group, which gives the same course for the same values.
- The terrain profile `6 + 5 sin(…)` truncated to `u8` (src/element.rs:54-61) is floating point. It is a parameter, required to be 60 heights in [1, 11]. The model has no lemma about its shape or periodicity.
- Elements.GroundCollision takes the terrain's profile and the player's position instead of `&self` and `&Player`. The terrain's cursor does not enter it, as in the source.
- Elements.GroundCollision: the source panics when the profile is empty (`% 0`) or when a negative x leaves a negative remainder as the index; the requires excludes those inputs instead of modelling the panic. The session invariant keeps x non-negative and the profile 60 wide, so play never reaches them.
- `PowerUp::new` is the datatype constructor `PowerUp(power, x, y)`.
- Overflow of `i32` x, score and gap arithmetic and of the `usize` cursor is not modelled: integers are unbounded. Overflow of the `u32` power is excluded. `Player.PowerUp` requires the sum to fit, and the session invariant keeps headroom for every power-up still ahead of the cursor.
- Session.State.Restart allocates the new player, terrain and camera before assigning the fields rather than in between. No other code can observe the order.
- Session.State.PlayState: the body of `play_state` is split into one method per phase. Each phase is stated as a function of the session's snapshot, so the frame is specified as their composition rather than by one flat contract.
