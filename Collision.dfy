/** The player's hitbox and the axis-aligned overlap test against an obstacle. */
module Collision {

  /** A rectangle as a geometry query reports it: its corner and its size. */
  datatype Rect = Rect(left: real, top: real, width: real, height: real) {
    function Right(): real { left + width }
    function Bottom(): real { top + height }
  }

  /** A box given by its four edges. */
  datatype Box = Box(left: real, right: real, top: real, bottom: real)

  const HitboxWidth: real := 85.0
  const HitboxHeight: real := 55.0

  /**
   * The hitbox: the player rectangle shrunk by half the surplus on each side,
   * which leaves an 85 by 55 box centred in it.
   */
  function Hitbox(p: Rect): (h: Box)
    ensures h.right - h.left == HitboxWidth && h.bottom - h.top == HitboxHeight
    ensures h.left - p.left == p.Right() - h.right
    ensures h.top - p.top == p.Bottom() - h.bottom
    ensures p.width >= HitboxWidth ==> p.left <= h.left && h.right <= p.Right()
    ensures p.height >= HitboxHeight ==> p.top <= h.top && h.bottom <= p.Bottom()
  {
    Box(
      p.left + (p.width - HitboxWidth) / 2.0,
      p.Right() - (p.width - HitboxWidth) / 2.0,
      p.top + (p.height - HitboxHeight) / 2.0,
      p.Bottom() - (p.height - HitboxHeight) / 2.0)
  }

  /** The collision test: all four edge comparisons hold strictly. */
  predicate Overlaps(h: Box, o: Rect) {
    && h.left < o.Right()
    && h.right > o.left
    && h.top < o.Bottom()
    && h.bottom > o.top
  }

  predicate InBox(h: Box, x: real, y: real) {
    h.left < x < h.right && h.top < y < h.bottom
  }

  predicate InRect(o: Rect, x: real, y: real) {
    o.left < x < o.Right() && o.top < y < o.Bottom()
  }

  function Max(a: real, b: real): real { if a < b then b else a }
  function Min(a: real, b: real): real { if a < b then a else b }

  /**
   * For an obstacle of positive size, the test reports a collision exactly when the
   * interiors of the hitbox and the obstacle share a point.
   */
  lemma OverlapsIffSharedPoint(p: Rect, o: Rect)
    requires o.width > 0.0 && o.height > 0.0
    ensures Overlaps(Hitbox(p), o) <==> exists x: real, y: real :: InBox(Hitbox(p), x, y) && InRect(o, x, y)
  {
    var h := Hitbox(p);
    if Overlaps(h, o) {
      var x := (Max(h.left, o.left) + Min(h.right, o.Right())) / 2.0;
      var y := (Max(h.top, o.top) + Min(h.bottom, o.Bottom())) / 2.0;
      assert InBox(h, x, y) && InRect(o, x, y);
    }
  }

  /** Rectangles that only touch along an edge do not collide. */
  lemma TouchingIsNoCollision(p: Rect, o: Rect)
    requires var h := Hitbox(p);
      h.right == o.left || h.left == o.Right() || h.bottom == o.top || h.top == o.Bottom()
    ensures !Overlaps(Hitbox(p), o)
  {
  }

  /** The hitbox is forgiving: a hitbox collision is also an overlap of the full player rectangle. */
  lemma HitboxInsidePlayer(p: Rect, o: Rect)
    requires p.width >= HitboxWidth && p.height >= HitboxHeight
    requires Overlaps(Hitbox(p), o)
    ensures p.left < o.Right() && p.Right() > o.left && p.top < o.Bottom() && p.Bottom() > o.top
  {
  }

  /** A box and an obstacle that overlap, and two that are apart. */
  lemma OverlapExamples()
    ensures Overlaps(Box(10.0, 95.0, 10.0, 65.0), Rect(50.0, 20.0, 50.0, 40.0))
    ensures !Overlaps(Box(0.0, 50.0, 0.0, 50.0), Rect(60.0, 60.0, 50.0, 50.0))
  {
  }
}
