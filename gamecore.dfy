/** The camera: the viewport that scrolls one world column per simulation step. */
module GameCore {
  import opened Common

  /** Leftmost visible world column of a viewport centred on `x`. The window
      is symmetric about `x`, spans twice the truncated half-width, and (for a
      non-negative width) lies at or left of `x`. */
  function LeftBound(x: int, width: int): (r: int)
    ensures r + RightBound(x, width) == 2 * x
    ensures RightBound(x, width) - r == 2 * TruncDiv(width, 2)
    ensures width >= 0 ==> r <= x && x - r <= width
  {
    x - TruncDiv(width, 2)
  }

  /** Rightmost visible world column; at or right of `x` for a non-negative width. */
  function RightBound(x: int, width: int): (r: int)
    ensures width >= 0 ==> x <= r && r - x <= width
    ensures width < 0 ==> r <= x
  {
    x + TruncDiv(width, 2)
  }

  /** For a non-negative width the window holds its centre and is `width`
      columns wide, rounded down to an even number. */
  lemma WindowHoldsCentre(x: int, width: int)
    requires width >= 0
    ensures LeftBound(x, width) <= x <= RightBound(x, width)
    ensures RightBound(x, width) - LeftBound(x, width) == width - width % 2
  {
  }

  class Camera {
    /** World column the viewport is centred on. */
    var x: int
    var y: int
    /** Viewport size in cells; fixed for the camera's lifetime. */
    const width: int
    const height: int

    constructor (x: int, y: int, width: int, height: int)
      ensures this.x == x && this.y == y
      ensures this.width == width && this.height == height
    {
      this.x := x;
      this.y := y;
      this.width := width;
      this.height := height;
    }

    /** Advances the camera one column; the visible window slides with it and
        keeps its size. */
    method Update()
      modifies this
      ensures x == old(x) + 1 && y == old(y)
      ensures Left() == old(Left()) + 1 && Right() == old(Right()) + 1
      ensures Right() - Left() == old(Right() - Left())
    {
      x := x + 1;
    }

    function Left(): int
      reads this
    {
      LeftBound(x, width)
    }

    function Right(): int
      reads this
    {
      RightBound(x, width)
    }
  }
}
