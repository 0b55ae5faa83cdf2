/** The spawn scheduler's pure rules (GameManager): the palette, the
    difficulty-scaled wait between small dots, where a small dot enters and
    in which direction, the colour switch on a bonus pickup, and where a
    bonus dot may be placed. Random draws are parameters, with the ranges
    the source's Random calls give them. */
module Spawning {
  import opened Rules

  /** colorAlt: #E91E63, #2196F3, #8BC34A (RGB; the opaque alpha is dropped). */
  const Palette: seq<int> := [0xE91E63, 0x2196F3, 0x8BC34A]

  function Red(c: int): int { (c / 0x10000) % 0x100 }
  function Green(c: int): int { (c / 0x100) % 0x100 }
  function Blue(c: int): int { c % 0x100 }

  /** The palette's three colours are distinct. */
  lemma PaletteDistinct()
    ensures Palette[0] != Palette[1] && Palette[1] != Palette[2] && Palette[0] != Palette[2]
  {
  }

  /** getSpawnWaitTime: the fixed interval in kiosk mode; otherwise the
      interval shrinks linearly with the tick and is 0 from the difficulty
      ceiling on. */
  function SpawnWaitTime(t: int, kiosk: bool): (r: real)
    ensures kiosk ==> r == SmallDotCreateInterval as real
    ensures t >= 0 ==> 0.0 <= r <= SmallDotCreateInterval as real
    ensures !kiosk && t >= MaxTimeDifficulty ==> r == 0.0
    ensures !kiosk && 0 <= t <= MaxTimeDifficulty ==>
              r * MaxTimeDifficulty as real == (SmallDotCreateInterval * (MaxTimeDifficulty - t)) as real
  {
    if kiosk then SmallDotCreateInterval as real
    else
      var percent := t as real / MaxTimeDifficulty as real;
      var capped := if percent > 1.0 then 1.0 else percent;
      SmallDotCreateInterval as real * (1.0 - capped)
  }

  /** The wait never grows as the game goes on. */
  lemma SpawnWaitNonIncreasing(t1: int, t2: int, kiosk: bool)
    requires t1 <= t2
    ensures SpawnWaitTime(t2, kiosk) <= SpawnWaitTime(t1, kiosk)
  {
  }

  /** The edge a small dot enters from (RANDOM.nextInt(4)). */
  datatype Edge = Left | Right | Top | Bottom

  function EdgeOf(side: int): Edge
    requires 0 <= side < 4
  {
    if side == 0 then Left else if side == 1 then Right else if side == 2 then Top else Bottom
  }

  function Ceil(x: real): real { -((-x).Floor as real) }
  function Floor(x: real): real { x.Floor as real }
  function Abs(x: real): real { if x < 0.0 then -x else x }

  /** Where a small dot enters and its direction before normalisation. */
  datatype Placement = Placement(x: real, y: real, vx: real, vy: real)

  /** The geometric part of createRandomDot for a screen of w x h, with the
      two nextFloat draws f1 and f2 in [0, 1). A dot starts on the chosen
      edge, and the component across the edge points into the screen. */
  function PlaceRandomDot(size: real, w: int, h: int, edge: Edge, f1: real, f2: real): (p: Placement)
    requires w > 0 && h > 0
    ensures edge == Left ==> p.x == Ceil(size / 2.0) && p.vx >= 0.0
    ensures edge == Right ==> p.x == Floor(w as real - size / 2.0) && p.vx <= 0.0
    ensures edge == Top ==> p.y == Ceil(size / 2.0) && p.vy >= 0.0
    ensures edge == Bottom ==> p.y == Floor(h as real - size / 2.0) && p.vy <= 0.0
    ensures 0.0 <= f1 < 1.0 && size < h as real && (edge == Left || edge == Right) ==>
              size <= p.y < h as real
    ensures 0.0 <= f1 < 1.0 && size < w as real && (edge == Top || edge == Bottom) ==>
              size <= p.x < w as real
  {
    var maxX := w as real - size;
    var maxY := h as real - size;
    var c := Ceil(size / 2.0);
    var halfY := maxY / 2.0 + size / 2.0;
    var halfX := maxX / 2.0 + size / 2.0;
    match edge
    case Left =>
      var y := AlongEdge(f1, maxY, size);
      var k := y / halfY - 1.0;
      Placement(c, y, Abs(k), f2 - k)
    case Right =>
      var y := AlongEdge(f1, maxY, size);
      var k := y / halfY - 1.0;
      Placement(Floor(maxX + size / 2.0), y, -Abs(k), f2 - k)
    case Top =>
      var x := AlongEdge(f1, maxX, size);
      var k := x / halfX - 1.0;
      Placement(x, c, f2 - k, Abs(k))
    case Bottom =>
      var x := AlongEdge(f1, maxX, size);
      var k := x / halfX - 1.0;
      Placement(x, Floor(maxY + size / 2.0), f2 - k, -Abs(k))
  }

  /** The coordinate along the entry edge: RANDOM.nextFloat() * max + size. */
  function AlongEdge(f: real, max: real, size: real): (v: real)
    ensures 0.0 <= f < 1.0 && 0.0 <= max ==> size <= v <= max + size
    ensures 0.0 <= f < 1.0 && 0.0 < max ==> v < max + size
  {
    if 0.0 <= f < 1.0 && 0.0 <= max then
      assert 0.0 <= f * max && 0.0 <= (1.0 - f) * max;
      assert 0.0 < max ==> 0.0 < (1.0 - f) * max;
      f * max + size
    else
      f * max + size
  }

  /** The normalised direction, with sqrt standing for Math.sqrt. A zero
      norm (a NaN direction in the source) leaves the vector as it is. */
  function Normalize(vx: real, vy: real, sqrt: real -> real): (r: (real, real))
    ensures sqrt(vx * vx + vy * vy) > 0.0 ==>
              (vx >= 0.0 <==> r.0 >= 0.0) && (vy >= 0.0 <==> r.1 >= 0.0)
    ensures var n := sqrt(vx * vx + vy * vy);
            if n == 0.0 then r == (vx, vy) else r.0 * n == vx && r.1 * n == vy
  {
    var n := sqrt(vx * vx + vy * vy);
    if n == 0.0 then (vx, vy) else (vx / n, vy / n)
  }

  /** switchColorOnDot: the retry loop keeps drawing until the palette
      colour differs from the player's; `pick` says which of the two other
      colours the accepted draw was. The player's colour is always a
      palette colour. */
  function SwitchColor(current: int, pick: bool): (c: int)
    requires current in Palette
    ensures c in Palette && c != current
  {
    var others := if current == Palette[0] then [Palette[1], Palette[2]]
                  else if current == Palette[1] then [Palette[0], Palette[2]]
                  else [Palette[0], Palette[1]];
    if pick then others[0] else others[1]
  }

  /** Every palette colour other than the current one can be the new colour. */
  lemma SwitchColorReachesEveryOther(current: int, c: int)
    requires current in Palette && c in Palette && c != current
    ensures exists pick :: SwitchColor(current, pick) == c
  {
    if SwitchColor(current, true) != c {
      assert SwitchColor(current, false) == c;
    }
  }

  /** The bound of spawnPointDot's nextInt on one axis: (int) size * 2 is
      the truncated size, doubled. */
  function PointDrawBound(extent: int, size: real): int
    requires size >= 0.0
  {
    extent - size.Floor * 2
  }
}
