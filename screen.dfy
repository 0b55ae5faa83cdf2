/** The on-screen test shared by the player's clamp and the bounce of the
    other dots (GameManager.isPositionOnScreen). The screen is
    [0, w] x [0, h]; a dot of diameter `size` at (x, y) occupies the box
    [x - size/2, x + size/2] x [y - size/2, y + size/2]. */
module ScreenBounds {

  /** The renderer's screen size in pixels. */
  datatype Screen = Screen(w: int, h: int)

  /** The five flags of isPositionOnScreen, in the source's order. */
  datatype ScreenFlags = ScreenFlags(
    outLeft: bool, outTop: bool, outRight: bool, outBottom: bool, onScreen: bool)

  /** The box of a dot lies within the screen horizontally. */
  predicate InsideX(s: Screen, x: real, size: real) {
    0.0 <= x - size / 2.0 && x + size / 2.0 <= s.w as real
  }

  /** The box of a dot lies within the screen vertically. */
  predicate InsideY(s: Screen, y: real, size: real) {
    0.0 <= y - size / 2.0 && y + size / 2.0 <= s.h as real
  }

  function IsPositionOnScreen(s: Screen, x: real, y: real, size: real): (f: ScreenFlags)
    ensures (f.outLeft || f.outRight) <==> !InsideX(s, x, size)
    ensures (f.outTop || f.outBottom) <==> !InsideY(s, y, size)
    ensures f.onScreen <==> InsideX(s, x, size) && InsideY(s, y, size)
  {
    var left := x - size / 2.0 < 0.0;
    var top := y - size / 2.0 < 0.0;
    var right := x + size / 2.0 > s.w as real;
    var bottom := y + size / 2.0 > s.h as real;
    ScreenFlags(left, top, right, bottom, !(left || top || right || bottom))
  }
}
