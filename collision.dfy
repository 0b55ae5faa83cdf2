/** The circle-overlap test behind every collision (GameManager.isPointOnDot):
    a dot of diameter d.size at (d.x, d.y) touches a circle of diameter s at
    (px, py) when the distance of the centres is at most the sum of the
    radii. The source compares squares so that no square root is taken. */
module Collision {
  import opened Dots

  /** The squared distance between two points. */
  function SquaredDistance(x1: real, y1: real, x2: real, y2: real): (r: real)
    ensures r >= 0.0
    ensures x1 == x2 && y1 == y2 ==> r == 0.0
  {
    (x1 - x2) * (x1 - x2) + (y1 - y2) * (y1 - y2)
  }

  function IsPointOnDot(d: Dot, px: real, py: real, s: real): (r: bool)
    ensures r <==> 4.0 * SquaredDistance(d.x, d.y, px, py) <= (GetSize(d) + s) * (GetSize(d) + s)
  {
    var dx := d.x - px;
    var dy := d.y - py;
    dx * dx + dy * dy - (GetSize(d) + s) * (GetSize(d) + s) / 4.0 <= 0.0
  }

  /** Which circle is the dot and which the point does not matter. */
  lemma OverlapSymmetric(a: Dot, b: Dot)
    ensures IsPointOnDot(a, b.x, b.y, GetSize(b)) == IsPointOnDot(b, a.x, a.y, GetSize(a))
  {
    assert (a.x - b.x) * (a.x - b.x) == (b.x - a.x) * (b.x - a.x);
    assert (a.y - b.y) * (a.y - b.y) == (b.y - a.y) * (b.y - a.y);
  }

  /** Circles with the same centre always touch. */
  lemma SameCentreTouches(d: Dot, s: real)
    ensures IsPointOnDot(d, d.x, d.y, s)
  {
    SquareNonNegative(GetSize(d) + s);
  }

  /** Circles whose centres are further apart on one axis than the sum of
      the radii do not touch. */
  lemma FarApartMisses(d: Dot, px: real, py: real, s: real)
    requires GetSize(d) + s >= 0.0
    requires d.x - px > (GetSize(d) + s) / 2.0 || px - d.x > (GetSize(d) + s) / 2.0
    ensures !IsPointOnDot(d, px, py, s)
  {
    var h := (GetSize(d) + s) / 2.0;
    var a := if d.x - px > h then d.x - px else px - d.x;
    assert a * a == (d.x - px) * (d.x - px);
    SquareGrows(h, a);
    assert 4.0 * (h * h) == (GetSize(d) + s) * (GetSize(d) + s);
  }

  lemma SquareGrows(h: real, a: real)
    requires 0.0 <= h < a
    ensures h * h < a * a
  {
    var p, q, r := h * h, h * a, a * a;
    assert p <= q;
    assert q < r;
  }

  lemma SquareNonNegative(x: real)
    ensures 0.0 <= x * x
  {
    if x < 0.0 {
      assert x * x == (-x) * (-x);
    }
  }
}
