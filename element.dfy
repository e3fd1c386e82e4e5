/** The world's entities other than the player: obstacles, the terrain strip and
    power-ups, each with its collision test against the player's position. */
module Elements {
  import opened Common

  const DISPLAY_WIDTH: int := 60
  const DISPLAY_HEIGHT: int := 50

  /** Narrowest opening an obstacle ever has. */
  const MIN_OPENING: int := 2
  /** Opening of the first obstacle; each point of score narrows it by one. */
  const START_OPENING: int := 20
  /** The gap centre is drawn from [GAP_LOW, GAP_HIGH). */
  const GAP_LOW: int := 10
  const GAP_HIGH: int := 40

  /** A wall at column `x` with an opening of `height` rows centred on `gap`. */
  datatype Obstacle = Obstacle(x: int, gap: int, height: int)
  {
    /** A new obstacle: the opening narrows with the score but never below
        `MIN_OPENING`; `gap` is the random draw of its centre. */
    static function New(x: int, score: int, gap: int): (o: Obstacle)
      requires GAP_LOW <= gap < GAP_HIGH
      ensures o.x == x && o.gap == gap
      ensures o.height >= MIN_OPENING && o.height >= START_OPENING - score
      ensures o.height == MIN_OPENING || o.height == START_OPENING - score
      ensures score >= 0 ==> o.height <= START_OPENING
    {
      Obstacle(x, gap, if START_OPENING - score > MIN_OPENING then START_OPENING - score else MIN_OPENING)
    }

    /** The player hits the wall only in the wall's own column, and there only
        outside the closed range of rows from `gap - height/2` to `gap + height/2`. */
    function Collision(px: int, py: int): (r: bool)
      ensures px != x ==> !r
      ensures height >= 0 && px == x ==> (r <==> !(gap - height / 2 <= py <= gap + height / 2))
      ensures height >= 0 && py == gap ==> !r
    {
      var halfHeight := TruncDiv(height, 2);
      x == px && (py > gap + halfHeight || py < gap - halfHeight)
    }
  }

  /** A higher score never gives a wider opening. */
  lemma OpeningNonIncreasing(x: int, gap: int, score1: int, score2: int)
    requires GAP_LOW <= gap < GAP_HIGH
    requires score1 <= score2
    ensures Obstacle.New(x, score2, gap).height <= Obstacle.New(x, score1, gap).height
  {
  }

  /** The first obstacle of a session (score 0) at column 30: the centre row is
      safe, the row just past the opening is not, and the next column is clear. */
  lemma FirstObstacleCollisions(gap: int, py: int)
    requires GAP_LOW <= gap < GAP_HIGH
    ensures var o := Obstacle.New(30, 0, gap);
      !o.Collision(30, gap) && o.Collision(30, gap + o.height / 2 + 1) && !o.Collision(29, py)
  {
  }

  /** The ground: one height per column, shown rotated by a cursor that scrolls. */
  class Terrain {
    /** Ground height per column; fixed once the terrain exists. */
    const data: seq<int>
    /** Rotation cursor for drawing. */
    var current: nat

    ghost predicate Valid()
      reads this
    {
      current < |data|
    }

    /** The height profile is computed by the caller (see README). */
    constructor (data: seq<int>)
      ensures this.data == data && current == 0
      ensures |data| > 0 ==> Valid()
    {
      this.data := data;
      current := 0;
    }

    /** Scrolls the drawing by one column (see `Scrolled`). */
    method Update()
      modifies this
      ensures current == Scrolled(old(current), |data|)
      ensures old(Valid()) ==> Valid()
    {
      current := current + 1;
      if current == |data| {
        current := 0;
      }
    }

    /** The order in which the columns are drawn: from the cursor to the end,
        then from the start up to the cursor, so screen column `k` shows world
        column `current + k` wrapped, and every height is drawn exactly once. */
    function RenderOrder(): (cols: seq<int>)
      reads this
      requires current <= |data|
      ensures |cols| == |data|
      ensures forall k :: 0 <= k < |cols| ==> cols[k] == data[(current + k) % |data|]
      ensures multiset(cols) == multiset(data)
    {
      var right := data[..current];
      var left := data[current..];
      assert data == right + left;
      forall k | 0 <= k < |data|
        ensures (left + right)[k] == data[(current + k) % |data|]
      {
        if current + k < |data| {
          ModBelow(current + k, |data|);
        } else {
          ModWrapOnce(current + k, |data|);
        }
      }
      left + right
    }
  }

  /** The terrain cursor after one scroll: one column on, wrapping to 0
      exactly when it reaches the length, so a cursor in range stays in range. */
  function Scrolled(current: nat, len: nat): (r: nat)
    ensures current + 1 == len ==> r == 0
    ensures current + 1 != len ==> r == current + 1
    ensures current < len ==> r < len
  {
    if current + 1 == len then 0 else current + 1
  }

  /** The player touches the ground when at or below the ground's top row in
      the column under it. The column is world `x` modulo the profile's
      length, whatever the terrain's rotation cursor; the index is a truncated
      remainder, so it is out of range for a negative remainder or an empty
      profile. */
  function GroundCollision(data: seq<int>, px: int, py: int): (r: bool)
    requires |data| > 0 && TruncRem(px, |data|) >= 0
    ensures px >= 0 ==> (r <==> py >= DISPLAY_HEIGHT - data[px % |data|])
  {
    py >= DISPLAY_HEIGHT - data[TruncRem(px, |data|)]
  }

  lemma ModBelow(a: int, n: int)
    requires 0 <= a < n
    ensures a % n == a
  {
  }

  lemma ModWrapOnce(a: int, n: int)
    requires 0 < n <= a < 2 * n
    ensures a % n == a - n
  {
  }

  /** Power tier of a power-up. */
  datatype Power = Low | Med | High
  {
    /** Stamina a power-up of this tier gives: 5, 10 or 15. */
    function Stamina(): (amount: nat)
      ensures amount % 5 == 0 && 5 <= amount <= MAX_STAMINA
      ensures Low? <==> amount == 5
      ensures High? <==> amount == MAX_STAMINA
    {
      match this
      case Low => 5
      case Med => 10
      case High => 15
    }
  }

  /** Largest stamina of any tier. */
  const MAX_STAMINA: nat := 15

  /** A collectible at (x, y); its box covers the 3 x 3 cells around it. */
  datatype PowerUp = PowerUp(power: Power, x: int, y: int)
  {
    function Collision(px: int, py: int): (r: bool)
      ensures r <==> Abs(px - x) <= 1 && Abs(py - y) <= 1
    {
      py >= y - 1 && px >= x - 1 && py <= y + 1 && px <= x + 1
    }
  }
}
