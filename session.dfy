/** The session controller: the Menu / Playing / End state machine, one game
    session's entities, power-up generation, and the per-frame simulation. */
module Session {
  import opened Common
  import opened GameCore
  import opened Players
  import opened Elements

  /** Simulation step length and flap-flag timeout, in milliseconds. */
  const FRAME_DURATION: nat := 75
  const FLAP_DURATION: nat := FRAME_DURATION * 2

  const PLAYER_START_X: int := 15
  const PLAYER_START_Y: int := DISPLAY_HEIGHT / 3
  const CAMERA_START_X: int := DISPLAY_WIDTH / 2
  const CAMERA_START_Y: int := DISPLAY_HEIGHT / 2

  /** Power-up course: one candidate group of `SLOTS` columns every
      `GROUP_SPACING` columns, the first slot of group `g` at `g * 30 + 18`. */
  const POWER_UP_GROUPS: nat := 45
  const GROUP_SPACING: int := 30
  const GROUP_OFFSET: int := 17
  const SLOTS: nat := 10
  /** Power-up rows are drawn from [Y_LOW, Y_HIGH). */
  const Y_LOW: int := 5
  const Y_HIGH: int := 30

  /** Range of the terrain's sinusoidal profile, 6 + 5 sin, truncated. */
  const TERRAIN_MIN: int := 1
  const TERRAIN_MAX: int := 11

  datatype GameState = Menu | Playing | End

  /** The keys the game reacts to; any other key is `Other`. */
  datatype Key = P | Q | R | Space | Other

  // ---------------------------------------------------------------------------
  // Power-up generation

  /** Probability threshold of slot `i` (1-based): 0.1, 0.2, ..., 1.0. */
  function Threshold(i: int): real
  {
    (i as real) / 10.0
  }

  /** The random draws a course of power-ups is built from: per group, one
      uniform draw in [0, 1) per slot, and the row and tier draws used by the
      one power-up the group places. */
  predicate ValidPowerUpDraws(rolls: seq<seq<real>>, ys: seq<int>, tiers: seq<int>)
  {
    && |rolls| == POWER_UP_GROUPS && |ys| == POWER_UP_GROUPS && |tiers| == POWER_UP_GROUPS
    && (forall g :: 0 <= g < |rolls| ==>
          |rolls[g]| == SLOTS && forall j :: 0 <= j < |rolls[g]| ==> 0.0 <= rolls[g][j] < 1.0)
    && (forall g :: 0 <= g < |ys| ==> Y_LOW <= ys[g] < Y_HIGH)
    && (forall g :: 0 <= g < |tiers| ==> 1 <= tiers[g] < 4)
  }

  /** The first slot from `i` on whose draw clears its threshold. The last
      threshold is 1.0, which every draw in [0, 1) clears, so there is one. */
  function FirstHitFrom(rolls: seq<real>, i: nat): (hit: nat)
    requires 1 <= i <= SLOTS && |rolls| == SLOTS && rolls[SLOTS - 1] < 1.0
    ensures i <= hit <= SLOTS
    ensures rolls[hit - 1] < Threshold(hit)
    ensures forall j :: i <= j < hit ==> rolls[j - 1] >= Threshold(j)
    decreases SLOTS - i
  {
    if i == SLOTS || rolls[i - 1] < Threshold(i) then i else FirstHitFrom(rolls, i + 1)
  }

  function FirstHit(rolls: seq<real>): nat
    requires |rolls| == SLOTS && rolls[SLOTS - 1] < 1.0
  {
    FirstHitFrom(rolls, 1)
  }

  /** The tier a draw from [1, 4) selects. */
  function TierOf(draw: int): (p: Power)
    ensures p == Low <==> draw == 1
    ensures p == Med <==> draw == 2
  {
    match draw
    case 1 => Low
    case 2 => Med
    case _ => High
  }

  function GroupStart(g: int): int
  {
    g * GROUP_SPACING + GROUP_OFFSET
  }

  ghost predicate IncreasingX(ups: seq<PowerUp>)
  {
    forall j, k :: 0 <= j < k < |ups| ==> ups[j].x < ups[k].x
  }

  /** The power-up course the draws describe: group `g` places exactly one
      power-up, in its first slot whose draw clears the threshold, at the row
      and tier drawn for the group. Every group places one, inside its own
      ten columns, so the course is sorted by x. */
  function PowerUpCourse(rolls: seq<seq<real>>, ys: seq<int>, tiers: seq<int>): (ups: seq<PowerUp>)
    requires ValidPowerUpDraws(rolls, ys, tiers)
    ensures |ups| == POWER_UP_GROUPS
    ensures forall g :: 0 <= g < |ups| ==>
      GroupStart(g) < ups[g].x <= GroupStart(g) + SLOTS && Y_LOW <= ups[g].y < Y_HIGH
    ensures IncreasingX(ups)
  {
    seq(POWER_UP_GROUPS, g requires 0 <= g < POWER_UP_GROUPS =>
      PowerUp(TierOf(tiers[g]), GroupStart(g) + FirstHit(rolls[g]), ys[g]))
  }

  /** Each group's ten columns hold exactly one power-up of the course: its own. */
  lemma CourseOnePerGroup(rolls: seq<seq<real>>, ys: seq<int>, tiers: seq<int>, g: int, k: int)
    requires ValidPowerUpDraws(rolls, ys, tiers)
    requires 0 <= g < POWER_UP_GROUPS && 0 <= k < POWER_UP_GROUPS
    ensures var ups := PowerUpCourse(rolls, ys, tiers);
      GroupStart(g) < ups[k].x <= GroupStart(g) + SLOTS <==> k == g
  {
    var ups := PowerUpCourse(rolls, ys, tiers);
    assert GroupStart(k) < ups[k].x <= GroupStart(k) + SLOTS;
    if k < g {
      assert GroupStart(k) + SLOTS < GroupStart(g);
    } else if k > g {
      assert GroupStart(g) + SLOTS < GroupStart(k);
    }
  }

  /** Builds the session's power-up course: for each group, sweep its slots
      with rising thresholds and place one power-up at the first slot whose
      draw clears it. */
  method InitPowerUp(rolls: seq<seq<real>>, ys: seq<int>, tiers: seq<int>) returns (ups: seq<PowerUp>)
    requires ValidPowerUpDraws(rolls, ys, tiers)
    ensures ups == PowerUpCourse(rolls, ys, tiers)
  {
    ghost var course := PowerUpCourse(rolls, ys, tiers);
    ups := [];
    var x := 0;
    while x < POWER_UP_GROUPS
      invariant 0 <= x <= POWER_UP_GROUPS && ups == course[..x]
    {
      var i := 1;
      while i <= SLOTS
        invariant 1 <= i <= SLOTS && ups == course[..x]
        invariant forall j :: 1 <= j < i ==> rolls[x][j - 1] >= Threshold(j)
      {
        if rolls[x][i - 1] < Threshold(i) {
          var y := ys[x];
          var power := TierOf(tiers[x]);
          assert FirstHit(rolls[x]) == i;
          ups := ups + [PowerUp(power, x * GROUP_SPACING + GROUP_OFFSET + i, y)];
          assert ups == course[..x + 1];
          break;
        }
        i := i + 1;
      }
      x := x + 1;
    }
  }

  // ---------------------------------------------------------------------------
  // The power-up scan

  /** What a scan does: the cursor it leaves, the stamina it collects, and the
      indices of the power-ups it collects, in order. */
  datatype ScanOutcome = ScanOutcome(cursor: nat, gained: nat, collected: seq<nat>)

  /** Total stamina of the power-ups at the given indices. */
  function Gain(ups: seq<PowerUp>, picks: seq<nat>): (total: nat)
    requires forall j :: 0 <= j < |picks| ==> picks[j] < |ups|
    ensures total <= MAX_STAMINA * |picks|
  {
    if picks == [] then 0 else ups[picks[0]].power.Stamina() + Gain(ups, picks[1..])
  }

  /** Number of power-ups at or after `cursor`. */
  function Unscanned(ups: seq<PowerUp>, cursor: nat): nat
  {
    if cursor < |ups| then |ups| - cursor else 0
  }

  /** The scan from `start`, resumed at element `start + idx` with the cursor at
      `cursor`. An element behind the camera's left bound advances the cursor by
      one; an element the player touches is collected and the cursor moves on
      by `idx + 1` from wherever it is. The cursor never goes back and grows by
      at least one per collection, only elements from `start + idx` on are
      collected, and each gives at most `MAX_STAMINA`. */
  function ScanFrom(ups: seq<PowerUp>, start: nat, idx: nat, cursor: nat, left: int, px: int, py: int): (r: ScanOutcome)
    ensures r.cursor >= cursor + |r.collected|
    ensures |r.collected| <= Unscanned(ups, start + idx)
    ensures forall j :: 0 <= j < |r.collected| ==> start + idx <= r.collected[j] < |ups|
    ensures r.gained <= MAX_STAMINA * |r.collected|
    decreases |ups| - (start + idx)
  {
    if start + idx >= |ups| then ScanOutcome(cursor, 0, [])
    else
      var p := ups[start + idx];
      var behind := if p.x < left then cursor + 1 else cursor;
      if p.Collision(px, py) then
        var rest := ScanFrom(ups, start, idx + 1, behind + idx + 1, left, px, py);
        ScanOutcome(rest.cursor, p.power.Stamina() + rest.gained, [start + idx] + rest.collected)
      else
        ScanFrom(ups, start, idx + 1, behind, left, px, py)
  }

  /** The stamina a scan gains is exactly that of the power-ups it collects. */
  lemma {:induction false} ScanGainsCollected(ups: seq<PowerUp>, start: nat, idx: nat, cursor: nat, left: int, px: int, py: int, r: ScanOutcome)
    requires r == ScanFrom(ups, start, idx, cursor, left, px, py)
    ensures r.gained == Gain(ups, r.collected)
    decreases |ups| - (start + idx)
  {
    if start + idx < |ups| {
      var p := ups[start + idx];
      var behind := if p.x < left then cursor + 1 else cursor;
      if p.Collision(px, py) {
        var rest := ScanFrom(ups, start, idx + 1, behind + idx + 1, left, px, py);
        ScanGainsCollected(ups, start, idx + 1, behind + idx + 1, left, px, py, rest);
        assert r.collected[1..] == rest.collected;
      } else {
        ScanGainsCollected(ups, start, idx + 1, behind, left, px, py, r);
      }
    }
  }

  /** A scan collects only elements the player touches. */
  lemma {:induction false} ScanCollectsOnlyTouched(ups: seq<PowerUp>, start: nat, idx: nat, cursor: nat, left: int, px: int, py: int, r: ScanOutcome)
    requires r == ScanFrom(ups, start, idx, cursor, left, px, py)
    ensures forall j :: 0 <= j < |r.collected| ==> ups[r.collected[j]].Collision(px, py)
    decreases |ups| - (start + idx)
  {
    if start + idx < |ups| {
      var p := ups[start + idx];
      var behind := if p.x < left then cursor + 1 else cursor;
      if p.Collision(px, py) {
        var rest := ScanFrom(ups, start, idx + 1, behind + idx + 1, left, px, py);
        ScanCollectsOnlyTouched(ups, start, idx + 1, behind + idx + 1, left, px, py, rest);
        assert r.collected == [start + idx] + rest.collected;
      } else {
        ScanCollectsOnlyTouched(ups, start, idx + 1, behind, left, px, py, r);
      }
    }
  }

  /** A scan collects in course order, each element at most once. */
  lemma {:induction false} ScanCollectsInOrder(ups: seq<PowerUp>, start: nat, idx: nat, cursor: nat, left: int, px: int, py: int, r: ScanOutcome)
    requires r == ScanFrom(ups, start, idx, cursor, left, px, py)
    ensures forall j :: 0 < j < |r.collected| ==> r.collected[j - 1] < r.collected[j]
    decreases |ups| - (start + idx)
  {
    if start + idx < |ups| {
      var p := ups[start + idx];
      var behind := if p.x < left then cursor + 1 else cursor;
      if p.Collision(px, py) {
        var rest := ScanFrom(ups, start, idx + 1, behind + idx + 1, left, px, py);
        ScanCollectsInOrder(ups, start, idx + 1, behind + idx + 1, left, px, py, rest);
        assert r.collected == [start + idx] + rest.collected;
      } else {
        ScanCollectsInOrder(ups, start, idx + 1, behind, left, px, py, r);
      }
    }
  }

  /** A scan misses no element the player touches. */
  lemma {:induction false} ScanCollectsEveryTouched(ups: seq<PowerUp>, start: nat, idx: nat, cursor: nat, left: int, px: int, py: int, k: nat)
    requires start + idx <= k < |ups| && ups[k].Collision(px, py)
    ensures k in ScanFrom(ups, start, idx, cursor, left, px, py).collected
    decreases |ups| - (start + idx)
  {
    var p := ups[start + idx];
    var behind := if p.x < left then cursor + 1 else cursor;
    if k > start + idx {
      if p.Collision(px, py) {
        ScanCollectsEveryTouched(ups, start, idx + 1, behind + idx + 1, left, px, py, k);
      } else {
        ScanCollectsEveryTouched(ups, start, idx + 1, behind, left, px, py, k);
      }
    }
  }

  /** Once the cursor is at or past `start`, every element a scan collects ends
      up behind the final cursor, so no later scan looks at it again. */
  lemma {:induction false} ScanCollectedBehindCursor(ups: seq<PowerUp>, start: nat, idx: nat, cursor: nat, left: int, px: int, py: int, r: ScanOutcome)
    requires cursor >= start
    requires r == ScanFrom(ups, start, idx, cursor, left, px, py)
    ensures forall j :: 0 <= j < |r.collected| ==> r.collected[j] < r.cursor
    decreases |ups| - (start + idx)
  {
    if start + idx < |ups| {
      var p := ups[start + idx];
      var behind := if p.x < left then cursor + 1 else cursor;
      if p.Collision(px, py) {
        var rest := ScanFrom(ups, start, idx + 1, behind + idx + 1, left, px, py);
        ScanCollectedBehindCursor(ups, start, idx + 1, behind + idx + 1, left, px, py, rest);
        assert r.collected == [start + idx] + rest.collected;
      } else {
        ScanCollectedBehindCursor(ups, start, idx + 1, behind, left, px, py, r);
      }
    }
  }

  /** One step of a scan over an element the player touches: the cursor moves
      past it by `idx + 1` and its stamina counts. */
  lemma ScanStepTouched(ups: seq<PowerUp>, start: nat, idx: nat, cursor: nat, next: nat, left: int, px: int, py: int)
    requires start + idx < |ups| && ups[start + idx].Collision(px, py)
    requires next == (if ups[start + idx].x < left then cursor + 1 else cursor) + idx + 1
    ensures ScanFrom(ups, start, idx, cursor, left, px, py).cursor == ScanFrom(ups, start, idx + 1, next, left, px, py).cursor
    ensures ScanFrom(ups, start, idx, cursor, left, px, py).gained
      == ups[start + idx].power.Stamina() + ScanFrom(ups, start, idx + 1, next, left, px, py).gained
  {
  }

  /** One step of a scan over an element the player does not touch: only the
      behind-the-camera rule moves the cursor. */
  lemma ScanStepMissed(ups: seq<PowerUp>, start: nat, idx: nat, cursor: nat, next: nat, left: int, px: int, py: int)
    requires start + idx < |ups| && !ups[start + idx].Collision(px, py)
    requires next == if ups[start + idx].x < left then cursor + 1 else cursor
    ensures ScanFrom(ups, start, idx, cursor, left, px, py) == ScanFrom(ups, start, idx + 1, next, left, px, py)
  {
  }

  /** A whole scan from the cursor `start`. */
  function Scan(ups: seq<PowerUp>, start: nat, left: int, px: int, py: int): (r: ScanOutcome)
    ensures r.cursor >= start + |r.collected|
    ensures |r.collected| <= Unscanned(ups, start)
    ensures forall j :: 0 <= j < |r.collected| ==> start <= r.collected[j] < |ups|
    ensures r.gained <= MAX_STAMINA * |r.collected|
  {
    ScanFrom(ups, start, 0, start, left, px, py)
  }

  /** What a scan collects is paid for by the power-ups it leaves behind the
      cursor: collected stamina plus the most the rest could give never exceeds
      the most the course from `start` could give. */
  lemma ScanBudget(ups: seq<PowerUp>, start: nat, left: int, px: int, py: int)
    ensures var r := Scan(ups, start, left, px, py);
      r.gained + MAX_STAMINA * Unscanned(ups, r.cursor) <= MAX_STAMINA * Unscanned(ups, start)
  {
    var r := Scan(ups, start, left, px, py);
    var c := |r.collected|;
    assert r.gained <= MAX_STAMINA * c;
    if start < |ups| {
      assert Unscanned(ups, r.cursor) <= |ups| - start - c;
    } else {
      assert c == 0 && Unscanned(ups, r.cursor) == 0;
    }
  }

  /** The cursor can overshoot: two power-ups already behind the camera and one
      the player touches leave the cursor at 5 over a course of 3, because the
      collection adds `idx + 1` to a cursor the first two had advanced. */
  lemma ScanOvershoots()
    ensures var ups := [PowerUp(Low, 0, 0), PowerUp(Low, 1, 0), PowerUp(Med, 20, 10)];
      var r := Scan(ups, 0, 5, 20, 10);
      r.cursor == 5 > |ups| && r.collected == [2] && r.gained == 10
  {
    var ups := [PowerUp(Low, 0, 0), PowerUp(Low, 1, 0), PowerUp(Med, 20, 10)];
    assert ScanFrom(ups, 0, 3, 5, 5, 20, 10) == ScanOutcome(5, 0, []);
    assert ScanFrom(ups, 0, 2, 2, 5, 20, 10) == ScanOutcome(5, 10, [2]);
    assert ScanFrom(ups, 0, 1, 1, 5, 20, 10) == ScanOutcome(5, 10, [2]);
  }

  /** The cursor can skip a live power-up: a touch at index 1 moves the cursor
      to 3, past index 2, which is ahead of the left bound and untouched, so no
      later scan looks at it. */
  lemma ScanSkipsLive()
    ensures var ups := [PowerUp(Low, 0, 0), PowerUp(Low, 20, 10), PowerUp(Low, 40, 10)];
      var r := Scan(ups, 0, 5, 20, 10);
      && r.cursor == 3 && r.collected == [1]
      && ups[2].x >= 5 && !ups[2].Collision(20, 10)
  {
    var ups := [PowerUp(Low, 0, 0), PowerUp(Low, 20, 10), PowerUp(Low, 40, 10)];
    assert ScanFrom(ups, 0, 3, 3, 5, 20, 10) == ScanOutcome(3, 0, []);
    assert ScanFrom(ups, 0, 2, 3, 5, 20, 10) == ScanOutcome(3, 0, []);
    assert ScanFrom(ups, 0, 1, 1, 5, 20, 10) == ScanOutcome(3, 5, [1]);
  }

  /** Every power-up from `start + idx` on lies at or right of the left bound
      and out of the player's reach: the scan then collects nothing and leaves
      the cursor where it is. */
  lemma {:induction false} ScanUntouched(ups: seq<PowerUp>, start: nat, idx: nat, cursor: nat, left: int, px: int, py: int)
    requires forall k :: start + idx <= k < |ups| ==> ups[k].x >= left && !ups[k].Collision(px, py)
    ensures ScanFrom(ups, start, idx, cursor, left, px, py) == ScanOutcome(cursor, 0, [])
    decreases |ups| - (start + idx)
  {
    if start + idx < |ups| {
      ScanUntouched(ups, start, idx + 1, cursor, left, px, py);
    }
  }

  // ---------------------------------------------------------------------------
  // The session as a value

  /** Everything a fresh session takes from outside the core: the first
      obstacle's gap draw, the terrain profile, and the power-up draws. */
  datatype Course = Course(gap: int, profile: seq<int>, rolls: seq<seq<real>>, ys: seq<int>, tiers: seq<int>)

  predicate ValidCourse(c: Course)
  {
    && GAP_LOW <= c.gap < GAP_HIGH
    && |c.profile| == DISPLAY_WIDTH
    && (forall k :: 0 <= k < |c.profile| ==> TERRAIN_MIN <= c.profile[k] <= TERRAIN_MAX)
    && ValidPowerUpDraws(c.rolls, c.ys, c.tiers)
  }

  /** A snapshot of a session: the camera, the player, the live obstacle, the
      terrain profile and cursor, and the session's own counters. Timers are
      in milliseconds, velocity in tenths of a cell per step. */
  datatype World = World(
    cameraX: int, cameraY: int, width: int,
    playerX: int, playerY: int, velocity: int, power: nat, flap: bool,
    obstacle: Obstacle, profile: seq<int>, terrainCurrent: nat,
    newObstacle: bool, frameTime: nat, backFrameTime: nat, state: GameState,
    score: int, lastFlap: nat, powerUps: seq<PowerUp>, powerUpIdx: nat, powerRemaining: bool)

  /** The camera's left bound. */
  function ViewLeft(w: World): int
  {
    LeftBound(w.cameraX, w.width)
  }

  /** Whether this frame's elapsed time completes a simulation step. */
  predicate StepFires(frameTime: nat, elapsed: nat)
  {
    frameTime + elapsed > FRAME_DURATION
  }

  /** Whether this frame flaps: Space while power is still reported remaining. */
  predicate Flaps(key: Option<Key>, powerRemaining: bool)
  {
    key == Some(Space) && powerRemaining
  }

  /** Whether the player at (px, py) dies against obstacle `o` and the ground
      `profile`: below the screen, in the obstacle's wall, or in the ground. */
  function Perishes(o: Obstacle, profile: seq<int>, px: int, py: int): (r: bool)
    requires |profile| > 0 && px >= 0
    ensures py > DISPLAY_HEIGHT ==> r
    ensures px != o.x ==> (r <==> py > DISPLAY_HEIGHT || py >= DISPLAY_HEIGHT - profile[px % |profile|])
    ensures o.height >= 0 && py == o.gap ==> (r <==> py > DISPLAY_HEIGHT || py >= DISPLAY_HEIGHT - profile[px % |profile|])
  {
    py > DISPLAY_HEIGHT || o.Collision(px, py) || GroundCollision(profile, px, py)
  }

  /** The session invariant: fixed viewport and terrain width, the player a
      constant 15 columns left of the camera and never above row 0, the one
      live obstacle well-formed and ahead of the left bound by at most a
      viewport width, a course sorted by x, and enough headroom that
      collecting every remaining power-up cannot overflow the `u32` power. */
  ghost predicate Inv(w: World)
  {
    && w.width == DISPLAY_WIDTH
    && w.playerX - w.cameraX == PLAYER_START_X - CAMERA_START_X
    && w.playerX >= PLAYER_START_X && w.playerY >= 0
    && |w.profile| == DISPLAY_WIDTH && w.terrainCurrent < |w.profile|
    && GAP_LOW <= w.obstacle.gap < GAP_HIGH && w.obstacle.height >= MIN_OPENING
    && ViewLeft(w) < w.obstacle.x <= ViewLeft(w) + DISPLAY_WIDTH
    && w.score >= 0
    && |w.powerUps| == POWER_UP_GROUPS && IncreasingX(w.powerUps)
    && w.power + MAX_STAMINA * Unscanned(w.powerUps, w.powerUpIdx) <= U32_MAX
  }

  /** The session the game opens with: in the menu, every counter and timer at
      0, the scoring and power latches set, the course the draws describe, and
      the session invariant holding. */
  function Initial(course: Course): (w: World)
    requires ValidCourse(course)
    ensures Inv(w)
    ensures w.state == Menu && w.score == 0 && w.powerUpIdx == 0 && w.power == PLAYER_INIT_POWER
    ensures w.frameTime == 0 && w.lastFlap == 0 && w.backFrameTime == 0
    ensures w.newObstacle && w.powerRemaining
    ensures w.powerUps == PowerUpCourse(course.rolls, course.ys, course.tiers)
  {
    assert Unscanned(PowerUpCourse(course.rolls, course.ys, course.tiers), 0) == POWER_UP_GROUPS;
    World(CAMERA_START_X, CAMERA_START_Y, DISPLAY_WIDTH,
          PLAYER_START_X, PLAYER_START_Y, 0, PLAYER_INIT_POWER, false,
          Obstacle.New(DISPLAY_WIDTH, 0, course.gap), course.profile, 0,
          true, 0, 0, Menu,
          0, 0, PowerUpCourse(course.rolls, course.ys, course.tiers), 0, true)
  }

  /** A restart: a new player, camera, obstacle, terrain and power-up course,
      score, cursor, frame clock and power latch, in `Playing`; the scoring
      latch and the flap and background timers carry over from `w`. */
  function Begin(w: World, course: Course): (b: World)
    requires ValidCourse(course)
    ensures Inv(b) && b.state == Playing
    ensures b.(state := Menu, newObstacle := true, lastFlap := 0, backFrameTime := 0) == Initial(course)
    ensures b.newObstacle == w.newObstacle && b.lastFlap == w.lastFlap && b.backFrameTime == w.backFrameTime
  {
    Initial(course).(state := Playing, newObstacle := w.newObstacle,
                     lastFlap := w.lastFlap, backFrameTime := w.backFrameTime)
  }

  /** The clock phase of a frame: every timer accumulates the elapsed time;
      once the frame clock passes `FRAME_DURATION` it is reset and the
      player, camera and terrain each take one step. */
  function Clocked(w: World, elapsed: nat): (r: World)
    ensures r.(frameTime := w.frameTime, backFrameTime := w.backFrameTime, lastFlap := w.lastFlap,
               playerX := w.playerX, playerY := w.playerY, velocity := w.velocity,
               cameraX := w.cameraX, terrainCurrent := w.terrainCurrent) == w
    ensures r.backFrameTime == w.backFrameTime + elapsed && r.lastFlap == w.lastFlap + elapsed
    ensures r.playerX == w.playerX + (if StepFires(w.frameTime, elapsed) then 1 else 0)
    ensures r.playerX - r.cameraX == w.playerX - w.cameraX
    ensures ViewLeft(r) == ViewLeft(w) + (if StepFires(w.frameTime, elapsed) then 1 else 0)
    ensures w.playerY >= 0 ==> r.playerY >= 0
    ensures w.terrainCurrent < |w.profile| ==> r.terrainCurrent < |w.profile|
    ensures !StepFires(w.frameTime, elapsed) ==>
      r == w.(frameTime := w.frameTime + elapsed, backFrameTime := r.backFrameTime, lastFlap := r.lastFlap)
    ensures StepFires(w.frameTime, elapsed) ==>
      && r.frameTime == 0 && r.velocity == Accelerated(w.velocity)
      && r.playerY == Fallen(w.playerY, r.velocity)
      && r.terrainCurrent == Scrolled(w.terrainCurrent, |w.profile|)
  {
    var w1 := w.(frameTime := w.frameTime + elapsed, backFrameTime := w.backFrameTime + elapsed,
                 lastFlap := w.lastFlap + elapsed);
    if !StepFires(w.frameTime, elapsed) then w1
    else
      var v := Accelerated(w.velocity);
      w1.(frameTime := 0,
          playerX := w.playerX + 1, playerY := Fallen(w.playerY, v), velocity := v,
          cameraX := w.cameraX + 1,
          terrainCurrent := Scrolled(w.terrainCurrent, |w.profile|))
  }

  /** The flap phase: the flag times out once `FLAP_DURATION` has passed since
      the last flap; then Space flaps while power is reported remaining,
      restarting the flap timer, and the first flap that finds the power
      exhausted clears the latch. */
  function Flapped(w: World, key: Option<Key>): (r: World)
    ensures r.(velocity := w.velocity, flap := w.flap, power := w.power,
               powerRemaining := w.powerRemaining, lastFlap := w.lastFlap) == w
    ensures r.power <= w.power
    ensures !Flaps(key, w.powerRemaining) ==> r == w.(flap := r.flap)
  {
    var w1 := if w.lastFlap > FLAP_DURATION && w.flap then w.(flap := false) else w;
    if !Flaps(key, w1.powerRemaining) then w1
    else
      w1.(velocity := w1.velocity - FLAP_IMPULSE, flap := true,
          power := if w1.power > 0 then w1.power - 1 else 0,
          powerRemaining := w1.power > 0, lastFlap := 0)
  }

  /** The scoring phase: passing the armed obstacle scores once and disarms it. */
  function Scored(w: World): (r: World)
    ensures r.(score := w.score, newObstacle := w.newObstacle) == w
    ensures r.score == w.score || r.score == w.score + 1
  {
    if w.playerX > w.obstacle.x && w.newObstacle then w.(score := w.score + 1, newObstacle := false)
    else w
  }

  /** The death check against the current obstacle and the ground. */
  function Judged(w: World): (r: World)
    requires |w.profile| > 0 && w.playerX >= 0
    ensures r.(state := w.state) == w
  {
    if Perishes(w.obstacle, w.profile, w.playerX, w.playerY) then w.(state := End) else w
  }

  /** The power-up phase: one scan from the cursor. */
  function Collected(w: World): (r: World)
    ensures r.(powerUpIdx := w.powerUpIdx, power := w.power) == w
  {
    var r := Scan(w.powerUps, w.powerUpIdx, ViewLeft(w), w.playerX, w.playerY);
    w.(powerUpIdx := r.cursor, power := w.power + r.gained)
  }

  /** The obstacle phase: an obstacle at or left of the left bound is replaced
      one viewport width further on, with the opening the score now gives. */
  function Replaced(w: World, gap: int): (r: World)
    requires GAP_LOW <= gap < GAP_HIGH
    ensures r.(obstacle := w.obstacle, newObstacle := w.newObstacle) == w
  {
    if w.obstacle.x <= ViewLeft(w) then
      w.(obstacle := Obstacle.New(w.obstacle.x + w.width, w.score, gap), newObstacle := true)
    else w
  }

  /** One frame while playing, phase by phase. */
  function PlayFrame(w: World, key: Option<Key>, elapsed: nat, gap: int): (r: World)
    requires |w.profile| > 0 && w.playerX >= 0 && GAP_LOW <= gap < GAP_HIGH
    ensures r.powerUps == w.powerUps && r.profile == w.profile
    ensures r.width == w.width && r.cameraY == w.cameraY
    ensures r.state == w.state || r.state == End
    ensures r.powerUpIdx >= w.powerUpIdx && r.score >= w.score
  {
    Replaced(Collected(Judged(Scored(Flapped(Clocked(w, elapsed), key)))), gap)
  }

  /** One frame of the state machine: P in the menu and R on the end screen
      begin a session, every other key leaves them as they are. */
  function Frame(w: World, key: Option<Key>, elapsed: nat, gap: int, course: Course): (r: World)
    requires ValidCourse(course) && GAP_LOW <= gap < GAP_HIGH
    requires w.state == Playing ==> |w.profile| > 0 && w.playerX >= 0
    ensures r.state == Menu ==> r == w
    ensures w.state != Playing ==> r == w || r == Begin(w, course)
    ensures w.state == Playing ==> r.state == Playing || r.state == End
  {
    match w.state
    case Menu => if key == Some(P) then Begin(w, course) else w
    case Playing => PlayFrame(w, key, elapsed, gap)
    case End => if key == Some(R) then Begin(w, course) else w
  }

  /** Q asks to quit in the menu and on the end screen. */
  function Quits(state: GameState, key: Option<Key>): (q: bool)
    ensures q ==> key == Some(Q)
    ensures state == Playing ==> !q
    ensures key == Some(Q) && (state == Menu || state == End) ==> q
  {
    state != Playing && key == Some(Q)
  }

  // ---------------------------------------------------------------------------
  // Properties of a session

  /** A frame of play keeps the session invariant. The obstacle stays ahead of
      the left bound because it is replaced as soon as the camera reaches it,
      and the collected stamina is paid for by the headroom the passed
      power-ups leave. */
  lemma PlayFramePreservesInv(w: World, key: Option<Key>, elapsed: nat, gap: int)
    requires Inv(w) && GAP_LOW <= gap < GAP_HIGH
    ensures Inv(PlayFrame(w, key, elapsed, gap))
  {
    var c := Clocked(w, elapsed);
    var j := Judged(Scored(Flapped(c, key)));
    assert ViewLeft(c) == ViewLeft(w) + (if StepFires(w.frameTime, elapsed) then 1 else 0);
    ScanBudget(j.powerUps, j.powerUpIdx, ViewLeft(j), j.playerX, j.playerY);
  }

  /** The player and the camera advance together: one column when the step
      fires, none otherwise, so their offset never changes. */
  lemma PlayFrameKeepsOffset(w: World, key: Option<Key>, elapsed: nat, gap: int)
    requires |w.profile| > 0 && w.playerX >= 0 && GAP_LOW <= gap < GAP_HIGH
    ensures var r := PlayFrame(w, key, elapsed, gap);
      && r.playerX == w.playerX + (if StepFires(w.frameTime, elapsed) then 1 else 0)
      && r.playerX - r.cameraX == w.playerX - w.cameraX
      && r.frameTime == (if StepFires(w.frameTime, elapsed) then 0 else w.frameTime + elapsed)
  {
  }

  /** A frame scores at most one point, only when the obstacle is armed and the
      stepped player is past it, so a disarmed obstacle never scores. */
  lemma ScoresOncePerObstacle(w: World, key: Option<Key>, elapsed: nat, gap: int)
    requires |w.profile| > 0 && w.playerX >= 0 && GAP_LOW <= gap < GAP_HIGH
    ensures var r := PlayFrame(w, key, elapsed, gap);
      && (r.score == w.score || r.score == w.score + 1)
      && (r.score == w.score + 1 <==> w.newObstacle && Clocked(w, elapsed).playerX > w.obstacle.x)
      && (!w.newObstacle ==> r.score == w.score)
  {
    var c := Clocked(w, elapsed);
    var f := Flapped(c, key);
    assert f.playerX == c.playerX && f.obstacle == w.obstacle && f.newObstacle == w.newObstacle;
  }

  /** The obstacle is replaced exactly when the stepped camera's left bound has
      reached it: the new one is a viewport width further on and armed;
      otherwise the obstacle is kept and stays armed only if it did not score. */
  lemma ObstacleLifecycle(w: World, key: Option<Key>, elapsed: nat, gap: int)
    requires |w.profile| > 0 && w.playerX >= 0 && GAP_LOW <= gap < GAP_HIGH
    ensures var r := PlayFrame(w, key, elapsed, gap);
      var left := ViewLeft(Clocked(w, elapsed));
      && (w.obstacle.x <= left ==>
            r.obstacle == Obstacle.New(w.obstacle.x + w.width, r.score, gap) && r.newObstacle)
      && (w.obstacle.x > left ==>
            r.obstacle == w.obstacle && (r.newObstacle <==> w.newObstacle && r.score == w.score))
  {
    var c := Clocked(w, elapsed);
    var f := Flapped(c, key);
    assert ViewLeft(f) == ViewLeft(c) && f.obstacle == w.obstacle && f.newObstacle == w.newObstacle;
  }

  /** In a frame that does not flap, the flapping flag is cleared once more
      than `FLAP_DURATION` has passed since the last flap, and only then. */
  lemma FlagTimeout(w: World, key: Option<Key>, elapsed: nat, gap: int)
    requires |w.profile| > 0 && w.playerX >= 0 && GAP_LOW <= gap < GAP_HIGH
    requires !Flaps(key, w.powerRemaining)
    ensures PlayFrame(w, key, elapsed, gap).flap == (w.flap && w.lastFlap + elapsed <= FLAP_DURATION)
  {
  }

  /** Once the power latch is clear it stays clear. A frame that does not
      flap (no Space, or the latch clear) leaves the velocity as the step set
      it and lets the flap timer keep running. While the latch is set, Space
      flaps, restarts the timer and clears the latch exactly when the power
      was already 0. */
  lemma PowerLatch(w: World, key: Option<Key>, elapsed: nat, gap: int)
    requires |w.profile| > 0 && w.playerX >= 0 && GAP_LOW <= gap < GAP_HIGH
    ensures var r := PlayFrame(w, key, elapsed, gap);
      var c := Clocked(w, elapsed);
      && (!w.powerRemaining ==> !r.powerRemaining)
      && (!Flaps(key, w.powerRemaining) ==> r.velocity == c.velocity && r.lastFlap == w.lastFlap + elapsed)
      && (w.powerRemaining && key == Some(Space) ==>
            r.velocity == c.velocity - FLAP_IMPULSE && r.flap && r.lastFlap == 0
            && r.powerRemaining == (w.power > 0))
      && (key != Some(Space) ==> r.powerRemaining == w.powerRemaining)
  {
  }

  /** The power after a frame is the power left by the flap plus the stamina
      of what the scan collected, and the cursor is where the scan left it,
      never behind where it was. */
  lemma PowerAccounting(w: World, key: Option<Key>, elapsed: nat, gap: int)
    requires |w.profile| > 0 && w.playerX >= 0 && GAP_LOW <= gap < GAP_HIGH
    ensures var r := PlayFrame(w, key, elapsed, gap);
      var c := Clocked(w, elapsed);
      var s := Scan(w.powerUps, w.powerUpIdx, ViewLeft(c), c.playerX, c.playerY);
      && r.power == (if Flaps(key, w.powerRemaining) && w.power > 0 then w.power - 1 else w.power) + s.gained
      && r.powerUpIdx == s.cursor && r.powerUpIdx >= w.powerUpIdx
  {
    var c := Clocked(w, elapsed);
    var f := Flapped(c, key);
    assert ViewLeft(f) == ViewLeft(c) && f.playerX == c.playerX && f.playerY == c.playerY;
  }

  /** A frame of play ends the session exactly when the stepped player is
      below the screen, in the obstacle's wall, or in the ground. */
  lemma DeathRule(w: World, key: Option<Key>, elapsed: nat, gap: int)
    requires |w.profile| > 0 && w.playerX >= 0 && GAP_LOW <= gap < GAP_HIGH
    ensures var r := PlayFrame(w, key, elapsed, gap);
      var c := Clocked(w, elapsed);
      r.state == if Perishes(w.obstacle, w.profile, c.playerX, c.playerY) then End else w.state
  {
    var c := Clocked(w, elapsed);
    var s := Scored(Flapped(c, key));
    assert s.obstacle == w.obstacle && s.profile == w.profile && s.playerX == c.playerX && s.playerY == c.playerY;
  }

  /** The state machine: the menu and the end screen leave on their own key
      only, into a fresh session; play leaves only for the end screen. */
  lemma FrameTransitions(w: World, key: Option<Key>, elapsed: nat, gap: int, course: Course)
    requires Inv(w) && ValidCourse(course) && GAP_LOW <= gap < GAP_HIGH
    ensures var r := Frame(w, key, elapsed, gap, course);
      && Inv(r)
      && (w.state == Menu ==> if key == Some(P) then r == Begin(w, course) else r == w)
      && (w.state == End ==> if key == Some(R) then r == Begin(w, course) else r == w)
      && (w.state == Playing ==> r.state != Menu)
  {
    if w.state == Playing {
      PlayFramePreservesInv(w, key, elapsed, gap);
      DeathRule(w, key, elapsed, gap);
    }
  }

  /** A session started from the menu, flapping once and then taking one
      simulation step: velocity 0 becomes -1.5 and then -1.3 cells per step,
      power drops from 20 to 19, and the player rises one row and moves one
      column on, still playing. */
  lemma FlapThenStep(course: Course, gap: int)
    requires ValidCourse(course) && GAP_LOW <= gap < GAP_HIGH
    ensures var w0 := Begin(Initial(course), course);
      var w1 := PlayFrame(w0, Some(Space), 0, gap);
      var w2 := PlayFrame(w1, None, FRAME_DURATION + 1, gap);
      && w1.velocity == -FLAP_IMPULSE && w1.power == PLAYER_INIT_POWER - 1
      && w2.velocity == -13 && w2.power == PLAYER_INIT_POWER - 1
      && w2.playerY == w0.playerY - 1 && w2.playerX == w0.playerX + 1
      && w2.state == Playing
  {
    var w0 := Begin(Initial(course), course);
    var ups := w0.powerUps;
    forall k | 0 <= k < |ups|
      ensures ups[k].x >= 1 && !ups[k].Collision(15, PLAYER_START_Y)
      ensures !ups[k].Collision(16, PLAYER_START_Y - 1)
    {
      assert ups[k].x > GroupStart(k) >= GROUP_OFFSET;
    }
    ScanUntouched(ups, 0, 0, 0, ViewLeft(Clocked(w0, 0)), 15, PLAYER_START_Y);
    var w1 := PlayFrame(w0, Some(Space), 0, gap);
    assert w1.powerUps == ups && w1.powerUpIdx == 0 && w1.playerX == 15 && w1.playerY == PLAYER_START_Y;
    var c := Clocked(w1, FRAME_DURATION + 1);
    assert c.playerX == 16 && c.playerY == PLAYER_START_Y - 1;
    ScanUntouched(ups, 0, 0, 0, ViewLeft(c), 16, PLAYER_START_Y - 1);
  }

  // ---------------------------------------------------------------------------
  // The session controller

  class State {
    var camera: Camera
    var player: Player
    var obstacle: Obstacle
    var terrain: Terrain
    /** Armed while the current obstacle has not been scored yet. */
    var newObstacle: bool
    /** Milliseconds accumulated toward the next simulation step. */
    var frameTime: nat
    /** Milliseconds accumulated and never read. */
    var backFrameTime: nat
    var state: GameState
    var score: int
    /** Milliseconds since the last flap. */
    var lastFlap: nat
    var powerUps: seq<PowerUp>
    /** Cursor into `powerUps` where the next scan starts. It can run ahead of
        power-ups that were neither collected nor passed (see `ScanSkipsLive`). */
    var powerUpIdx: nat
    /** Cleared the first time a flap finds the power exhausted. */
    var powerRemaining: bool

    /** The session this state holds, as a value. */
    ghost function Snap(): World
      reads this, camera, player, terrain
    {
      World(camera.x, camera.y, camera.width,
            player.x, player.y, player.velocity, player.power, player.flap,
            obstacle, terrain.data, terrain.current,
            newObstacle, frameTime, backFrameTime, state,
            score, lastFlap, powerUps, powerUpIdx, powerRemaining)
    }

    ghost predicate Valid()
      reads this, camera, player, terrain
    {
      camera.height == DISPLAY_HEIGHT && Inv(Snap())
    }

    constructor (course: Course)
      requires ValidCourse(course)
      ensures Valid() && Snap() == Initial(course)
      ensures fresh(camera) && fresh(player) && fresh(terrain)
    {
      var ups := InitPowerUp(course.rolls, course.ys, course.tiers);
      camera := new Camera(CAMERA_START_X, CAMERA_START_Y, DISPLAY_WIDTH, DISPLAY_HEIGHT);
      player := new Player(PLAYER_START_X, PLAYER_START_Y);
      obstacle := Obstacle.New(DISPLAY_WIDTH, 0, course.gap);
      terrain := new Terrain(course.profile);
      newObstacle := true;
      frameTime := 0;
      backFrameTime := 0;
      state := Menu;
      score := 0;
      lastFlap := 0;
      powerUps := ups;
      powerUpIdx := 0;
      powerRemaining := true;
      new;
    }

    /** Begins a new session in `Playing`: builds a new player, terrain,
        power-up course and camera, then installs them. */
    method Restart(course: Course)
      requires ValidCourse(course)
      modifies this
      ensures Valid() && Snap() == Begin(old(Snap()), course)
    {
      ghost var before := Snap();
      var ups := InitPowerUp(course.rolls, course.ys, course.tiers);
      var p := new Player(PLAYER_START_X, PLAYER_START_Y);
      var t := new Terrain(course.profile);
      var c := new Camera(CAMERA_START_X, CAMERA_START_Y, DISPLAY_WIDTH, DISPLAY_HEIGHT);
      ghost var target := Begin(before, course);
      assert target == World(c.x, c.y, c.width, p.x, p.y, p.velocity, p.power, p.flap,
        Obstacle.New(DISPLAY_WIDTH, 0, course.gap), t.data, t.current, before.newObstacle, 0, before.backFrameTime,
        Playing, 0, before.lastFlap, ups, 0, true);
      Install(p, t, c, ups, course.gap);
    }

    /** The assignments of a restart, in the order of the source. */
    method Install(p: Player, t: Terrain, c: Camera, ups: seq<PowerUp>, gap: int)
      requires GAP_LOW <= gap < GAP_HIGH
      modifies this
      ensures player == p && terrain == t && camera == c && powerUps == ups
      ensures state == Playing && frameTime == 0 && score == 0 && obstacle == Obstacle.New(DISPLAY_WIDTH, 0, gap)
      ensures powerUpIdx == 0 && powerRemaining
      ensures newObstacle == old(newObstacle) && lastFlap == old(lastFlap) && backFrameTime == old(backFrameTime)
    {
      player := p;
      state := Playing;
      frameTime := 0;
      score := 0;
      obstacle := Obstacle.New(DISPLAY_WIDTH, score, gap);
      terrain := t;
      powerUps := ups;
      powerUpIdx := 0;
      powerRemaining := true;
      camera := c;
    }

    /** The menu: P starts a session, Q asks to quit, anything else is ignored. */
    method MenuState(key: Option<Key>, course: Course) returns (quit: bool)
      requires ValidCourse(course)
      modifies this
      ensures quit <==> key == Some(Q)
      ensures key == Some(P) ==> Valid() && Snap() == Begin(old(Snap()), course)
      ensures key != Some(P) ==> unchanged(this)
    {
      quit := false;
      match key {
        case Some(P) => Restart(course);
        case Some(Q) => quit := true;
        case _ =>
      }
    }

    /** The end screen: R starts a new session, Q asks to quit. */
    method EndState(key: Option<Key>, course: Course) returns (quit: bool)
      requires ValidCourse(course)
      modifies this
      ensures quit <==> key == Some(Q)
      ensures key == Some(R) ==> Valid() && Snap() == Begin(old(Snap()), course)
      ensures key != Some(R) ==> unchanged(this)
    {
      quit := false;
      match key {
        case Some(R) => Restart(course);
        case Some(Q) => quit := true;
        case _ =>
      }
    }

    /** The clock phase of a frame (see `Clocked`). */
    method AdvanceClock(elapsed: nat)
      modifies this`frameTime, this`backFrameTime, this`lastFlap, camera, player, terrain
      ensures Snap() == Clocked(old(Snap()), elapsed)
    {
      frameTime := frameTime + elapsed;
      backFrameTime := backFrameTime + elapsed;
      lastFlap := lastFlap + elapsed;
      if frameTime > FRAME_DURATION {
        frameTime := 0;
        player.Update();
        camera.Update();
        terrain.Update();
      }
    }

    /** The flap phase of a frame (see `Flapped`). */
    method FlapPhase(key: Option<Key>)
      modifies this`lastFlap, this`powerRemaining, player
      ensures Snap() == Flapped(old(Snap()), key)
    {
      if lastFlap > FLAP_DURATION && player.flap {
        player.flap := false;
      }

      if key == Some(Space) {
        if powerRemaining {
          var remaining := player.Flap();
          if remaining.None? {
            powerRemaining := false;
          }
          lastFlap := 0;
        }
      }
    }

    /** Collects the power-ups the player touches, scanning from the cursor to
        the end of the course (see `ScanFrom`). */
    method ScanPowerUps()
      requires player.power + MAX_STAMINA * Unscanned(powerUps, powerUpIdx) <= U32_MAX
      modifies this`powerUpIdx, player
      ensures Snap() == Collected(old(Snap()))
    {
      var start := powerUpIdx;
      var idx := 0;
      ghost var ups, left, px, py := powerUps, camera.Left(), player.x, player.y;
      ghost var outcome := Scan(ups, start, left, px, py);
      ghost var rest := outcome;
      while start + idx < |powerUps|
        invariant powerUps == ups && camera.Left() == left
        invariant player.x == px && player.y == py
        invariant player.velocity == old(player.velocity) && player.flap == old(player.flap)
        invariant rest == ScanFrom(ups, start, idx, powerUpIdx, left, px, py)
        invariant rest.cursor == outcome.cursor
        invariant player.power + rest.gained == old(player.power) + outcome.gained
        invariant player.power + MAX_STAMINA * Unscanned(ups, start + idx) <= U32_MAX
        decreases |powerUps| - (start + idx)
      {
        ghost var cursor := powerUpIdx;
        var power := powerUps[start + idx];
        if power.x < camera.Left() {
          powerUpIdx := powerUpIdx + 1;
        }
        if power.Collision(player.x, player.y) {
          var _ := player.PowerUp(power.power.Stamina());
          powerUpIdx := powerUpIdx + idx + 1;
          ScanStepTouched(ups, start, idx, cursor, powerUpIdx, left, px, py);
        } else {
          ScanStepMissed(ups, start, idx, cursor, powerUpIdx, left, px, py);
        }
        rest := ScanFrom(ups, start, idx + 1, powerUpIdx, left, px, py);
        idx := idx + 1;
      }
    }

    /** The scoring phase of a frame (see `Scored`). */
    method ScorePhase()
      modifies this`score, this`newObstacle
      ensures Snap() == Scored(old(Snap()))
    {
      if player.x > obstacle.x && newObstacle {
        score := score + 1;
        newObstacle := false;
      }
    }

    /** The death check of a frame (see `Judged`). */
    method JudgePhase()
      requires |terrain.data| > 0 && player.x >= 0
      modifies this`state
      ensures Snap() == Judged(old(Snap()))
    {
      if player.y > DISPLAY_HEIGHT
        || obstacle.Collision(player.x, player.y)
        || GroundCollision(terrain.data, player.x, player.y)
      {
        state := End;
      }
    }

    /** The obstacle phase of a frame (see `Replaced`). */
    method ReplacePhase(gap: int)
      requires GAP_LOW <= gap < GAP_HIGH
      modifies this`obstacle, this`newObstacle
      ensures Snap() == Replaced(old(Snap()), gap)
    {
      if obstacle.x <= camera.Left() {
        obstacle := Obstacle.New(obstacle.x + camera.width, score, gap);
        newObstacle := true;
      }
    }

    /** One frame while playing, phase by phase in the order of the source
        (see `PlayFrame`). `gap` is the random draw for a replacement obstacle. */
    method PlayState(key: Option<Key>, elapsed: nat, gap: int)
      requires Valid() && GAP_LOW <= gap < GAP_HIGH
      modifies this, camera, player, terrain
      ensures camera == old(camera) && player == old(player) && terrain == old(terrain)
      ensures Valid() && Snap() == PlayFrame(old(Snap()), key, elapsed, gap)
    {
      ghost var w := Snap();
      AdvanceClock(elapsed);
      FlapPhase(key);
      ScorePhase();
      JudgePhase();
      ghost var j := Snap();
      assert j == Judged(Scored(Flapped(Clocked(w, elapsed), key)));
      ScanPowerUps();
      ReplacePhase(gap);
      assert Snap() == PlayFrame(w, key, elapsed, gap);
      PlayFramePreservesInv(w, key, elapsed, gap);
    }

    /** One frame: dispatch on the game state. `gap` is the draw for a
        replacement obstacle, `course` the draws for a session started now.
        Answers whether the player asked to quit. */
    method Tick(key: Option<Key>, elapsed: nat, gap: int, course: Course) returns (quit: bool)
      requires Valid() && GAP_LOW <= gap < GAP_HIGH && ValidCourse(course)
      modifies this, camera, player, terrain
      ensures Valid() && Snap() == Frame(old(Snap()), key, elapsed, gap, course)
      ensures quit == Quits(old(state), key)
    {
      quit := false;
      match state {
        case Menu => quit := MenuState(key, course);
        case Playing => PlayState(key, elapsed, gap);
        case End => quit := EndState(key, course);
      }
    }
  }
}
