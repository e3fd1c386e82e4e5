/** The player's sprite: position, vertical velocity, flight power and the
    transient "flapping" flag. Velocity is kept in tenths of a cell per step. */
module Players {
  import opened Common

  /** Power a new player starts with. */
  const PLAYER_INIT_POWER: nat := 20

  /** Gravity added per step while falling slower than the cap (0.2 cells/step). */
  const GRAVITY: int := 2
  /** Gravity is only added while velocity is below this (2.0 cells/step). */
  const VELOCITY_CAP: int := 20
  /** Upward impulse of one flap (1.5 cells/step). */
  const FLAP_IMPULSE: int := 15

  /** Velocity after one step of gravity: `GRAVITY` is added only below the cap. */
  function Accelerated(velocity: int): (v: int)
    ensures velocity < VELOCITY_CAP ==> v == velocity + GRAVITY
    ensures velocity >= VELOCITY_CAP ==> v == velocity
  {
    if velocity < VELOCITY_CAP then velocity + GRAVITY else velocity
  }

  /** Height after moving by the truncated velocity, clamped at the top row. */
  function Fallen(y: int, velocity: int): (r: int)
    ensures r >= 0
    ensures r == y + TruncDiv(velocity, 10) || (r == 0 && y + TruncDiv(velocity, 10) < 0)
  {
    var moved := y + TruncDiv(velocity, 10);
    if moved < 0 then 0 else moved
  }

  class Player {
    var x: int
    var y: int
    /** Vertical velocity in tenths of a cell per step (positive is downward). */
    var velocity: int
    var power: nat
    var flap: bool

    constructor (x: int, y: int)
      ensures this.x == x && this.y == y
      ensures velocity == 0 && power == PLAYER_INIT_POWER && !flap
    {
      this.x := x;
      this.y := y;
      velocity := 0;
      power := PLAYER_INIT_POWER;
      flap := false;
    }

    /** One simulation step: gravity (only below the cap), move by the truncated
        velocity, advance one column, and never rise above row 0. */
    method Update()
      modifies this
      ensures x == old(x) + 1
      ensures y >= 0
      ensures velocity == Accelerated(old(velocity))
      ensures y == Fallen(old(y), velocity)
      ensures power == old(power) && flap == old(flap)
    {
      if velocity < VELOCITY_CAP {
        velocity := velocity + GRAVITY;
      }
      y := y + TruncDiv(velocity, 10);
      x := x + 1;
      if y < 0 {
        y := 0;
      }
    }

    /** A flap always pushes the player up and raises the flag; it then spends one
        unit of power, answering the power left, or `None` once power is exhausted. */
    method Flap() returns (remaining: Option<nat>)
      modifies this
      ensures velocity == old(velocity) - FLAP_IMPULSE && flap
      ensures old(power) > 0 ==> power == old(power) - 1 && remaining == Some(power)
      ensures old(power) == 0 ==> power == 0 && remaining == None
      ensures x == old(x) && y == old(y)
    {
      velocity := velocity - FLAP_IMPULSE;
      flap := true;
      if power >= 1 {
        power := power - 1;
        return Some(power);
      }
      remaining := None;
    }

    /** Collecting a power-up adds its stamina without any cap and answers the new
        total; the sum must stay within `u32`. */
    method PowerUp(amount: nat) returns (total: nat)
      requires power + amount <= U32_MAX
      modifies this
      ensures power == old(power) + amount && total == power
      ensures x == old(x) && y == old(y) && velocity == old(velocity) && flap == old(flap)
    {
      power := power + amount;
      total := power;
    }
  }
}
