/**
 * The parts of the XNA `Rectangle` and of C# integer arithmetic that the
 * sprite-geometry code relies on.
 */
module Geometry {

  /** C#'s `n / 2` on `int`: the quotient truncated toward zero. */
  function Half(n: int): (h: int)
    ensures n >= 0 ==> 0 <= h && 2 * h <= n < 2 * h + 2
    ensures n < 0 ==> h <= 0 && 2 * h - 2 < n <= 2 * h
    ensures n % 2 == 0 ==> 2 * h == n
  {
    if n >= 0 then n / 2 else -((-n) / 2)
  }

  /** An XNA `Rectangle`: top-left corner, width and height in pixels. */
  datatype Rect = Rect(x: int, y: int, width: int, height: int)
  {
    /** `Rectangle.Center.X`. */
    function CenterX(): (cx: int) { x + Half(width) }

    /** `Rectangle.Bottom`. */
    function Bottom(): (b: int) { y + height }

    /** `Rectangle.Contains(int, int)`: the half-open box [x, x+width) by [y, y+height). */
    predicate Contains(px: int, py: int)
    {
      x <= px && px < x + width && y <= py && py < y + height
    }

    /** Every pixel of `this` lies in `outer`. */
    predicate Inside(outer: Rect)
    {
      outer.x <= x && x + width <= outer.x + outer.width &&
      outer.y <= y && y + height <= outer.y + outer.height
    }
  }

  lemma InsideContains(inner: Rect, outer: Rect, px: int, py: int)
    requires inner.Inside(outer) && inner.Contains(px, py)
    ensures outer.Contains(px, py)
  {
  }
}
