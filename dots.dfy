/** The entity model: the moving Dot, the sensor-steered PlayerDot and the
    bonus PointDot. The class hierarchy becomes one datatype whose `kind`
    holds what each subclass adds; each method that changes a dot in place
    is a function from the old dot to the new one. */
module Dots {
  import opened Rules
  import opened Animations
  import opened ScreenBounds

  datatype Kind =
    | Ordinary
      /** The pending sensor displacement (mSensorPoint). */
    | Player(sensorX: real, sensorY: real)
      /** Score value, creation tick, zoom animation and pulse animation. */
    | Point(value: int, createStep: int, sizeAnim: Animation, pulseAnim: Animation)

  datatype Dot = Dot(
    id: int,
    x: real, y: real,       // position (the PointF the dot extends)
    vx: real, vy: real,     // direction
    color: int,
    size: real,
    velocity: real,         // speed scalar
    remove: bool,           // the base removal flag
    kind: Kind)

  /* ----- Dot ----- */

  /** The Dot constructor, given the id the static counter hands out. */
  function NewDot(id: int, x: real, y: real, dx: real, dy: real,
                  color: int, size: real, velocity: real): (d: Dot)
    ensures d.id == id && d.x == x && d.y == y && d.vx == dx && d.vy == dy
    ensures d.color == color && d.size == size && d.velocity == velocity
    ensures d.kind.Ordinary? && !IsFlaggedForRemoval(d)
  {
    Dot(id, x, y, dx, dy, color, size, velocity, false, Ordinary)
  }

  /** Dot.update: one step of velocity along the direction; the tick is not
      read and nothing else changes. */
  function Move(d: Dot): (r: Dot)
    ensures r.x - d.x == d.vx * d.velocity && r.y - d.y == d.vy * d.velocity
    ensures r.(x := d.x, y := d.y) == d
  {
    d.(x := d.x + d.vx * d.velocity, y := d.y + d.vy * d.velocity)
  }

  /** Dot.setSize. */
  function SetSize(d: Dot, size: real): (r: Dot)
    ensures GetSize(r) == size
    ensures r.(size := d.size) == d
  {
    d.(size := size)
  }

  /** Dot.getSize. */
  function GetSize(d: Dot): real {
    d.size
  }

  /** isFlaggedForRemoval: the base flag, except that a point dot is held
      back while its size animation runs. The pulse plays no part. */
  predicate IsFlaggedForRemoval(d: Dot) {
    if d.kind.Point? then d.remove && !d.kind.sizeAnim.animating else d.remove
  }

  /** Invariants every point dot keeps: the zoom animation has its fixed
      length and the handler that starts the pulse; the pulse has its fixed
      speed and no handler. */
  predicate PointWellFormed(d: Dot) {
    && d.kind.Point?
    && d.kind.sizeAnim.interp.SizeInterp?
    && d.kind.sizeAnim.length == PointDotSizeAnimationTime
    && d.kind.sizeAnim.hasHandler
    && d.kind.pulseAnim.interp.PulseInterp?
    && d.kind.pulseAnim.interp.speed == PointDotPulseSpeed as real
    && !d.kind.pulseAnim.hasHandler
  }

  /** flagForRemoval, for every kind. A point dot stops its pulse (which has
      no handler to notify), starts a zoom-out from its current size to 0
      unless a size animation already runs, and sets the base flag. */
  function FlagForRemoval(d: Dot, t: int): (r: Dot)
    requires d.kind.Point? ==> PointWellFormed(d)
    ensures r.remove
    ensures !d.kind.Point? ==> r == d.(remove := true) && IsFlaggedForRemoval(r)
    ensures d.kind.Point? ==>
      && PointWellFormed(r)
      && r == d.(remove := true, kind := r.kind)
      && r.kind.value == d.kind.value && r.kind.createStep == d.kind.createStep
      && !r.kind.pulseAnim.animating
      && r.kind.pulseAnim.(animating := d.kind.pulseAnim.animating) == d.kind.pulseAnim
      && (d.kind.sizeAnim.animating ==> r.kind.sizeAnim == d.kind.sizeAnim)
      && (!d.kind.sizeAnim.animating ==>
            r.kind.sizeAnim == StartAnimation(d.kind.sizeAnim, t, PointDotSizeAnimationTime, d.size, 0.0))
      && !IsFlaggedForRemoval(r)
  {
    match d.kind
    case Point(value, createStep, sa, pa) =>
      var pa' := if pa.animating then Stop(pa).anim else pa;
      var sa' := if !sa.animating then StartAnimation(sa, t, PointDotSizeAnimationTime, d.size, 0.0) else sa;
      d.(remove := true, kind := Point(value, createStep, sa', pa'))
    case _ =>
      d.(remove := true)
  }

  /** PointDot.flagForForceRemoval: only the base flag; nothing is started
      or stopped. Removable at once unless the zoom animation still runs. */
  function FlagForForceRemoval(d: Dot): (r: Dot)
    ensures r.remove && r.(remove := d.remove) == d
    ensures d.kind.Point? ==> (IsFlaggedForRemoval(r) <==> !d.kind.sizeAnim.animating)
  {
    d.(remove := true)
  }

  /** Flagging twice is flagging once. */
  lemma FlagForRemovalIdempotent(d: Dot, t: int)
    requires d.kind.Point? ==> PointWellFormed(d)
    ensures FlagForRemoval(FlagForRemoval(d, t), t) == FlagForRemoval(d, t)
  {
  }

  /* ----- PlayerDot ----- */

  /** The PlayerDot constructor: direction (0, 0), no pending displacement. */
  function NewPlayerDot(id: int, x: real, y: real, color: int, size: real, speed: real): (d: Dot)
    ensures d.id == id && d.x == x && d.y == y && d.color == color
    ensures d.size == size && d.velocity == speed
    ensures d.vx == 0.0 && d.vy == 0.0 && !d.remove
    ensures d.kind == Player(0.0, 0.0)
  {
    NewDot(id, x, y, 0.0, 0.0, color, size, speed).(kind := Player(0.0, 0.0))
  }

  /** updateOrientation: stores the sensor reading scaled by the speed as
      the pending displacement. */
  function UpdateOrientation(d: Dot, sx: real, sy: real): (r: Dot)
    requires d.kind.Player?
    ensures r.kind == Player(sx * d.velocity, sy * d.velocity)
    ensures r.(kind := d.kind) == d
  {
    d.(kind := Player(sx * d.velocity, sy * d.velocity))
  }

  /** PlayerDot.update: moves by the pending displacement, except that an
      axis on which the moved box would leave the screen is zeroed (in the
      pending displacement too) and does not move. */
  function PlayerStep(d: Dot, screen: Screen): (r: Dot)
    requires d.kind.Player?
    ensures r.kind.Player?
    ensures InsideX(screen, d.x + d.kind.sensorX, d.size) ==>
              r.x == d.x + d.kind.sensorX && r.kind.sensorX == d.kind.sensorX
    ensures !InsideX(screen, d.x + d.kind.sensorX, d.size) ==>
              r.x == d.x && r.kind.sensorX == 0.0
    ensures InsideY(screen, d.y + d.kind.sensorY, d.size) ==>
              r.y == d.y + d.kind.sensorY && r.kind.sensorY == d.kind.sensorY
    ensures !InsideY(screen, d.y + d.kind.sensorY, d.size) ==>
              r.y == d.y && r.kind.sensorY == 0.0
    ensures r.(x := d.x, y := d.y, kind := d.kind) == d
  {
    var f := IsPositionOnScreen(screen, d.x + d.kind.sensorX, d.y + d.kind.sensorY, d.size);
    var sx := if f.outLeft || f.outRight then 0.0 else d.kind.sensorX;
    var sy := if f.outTop || f.outBottom then 0.0 else d.kind.sensorY;
    d.(x := d.x + sx, y := d.y + sy, kind := Player(sx, sy))
  }

  /** A player whose box is on screen stays on screen. */
  lemma PlayerStaysOnScreen(d: Dot, screen: Screen)
    requires d.kind.Player?
    requires InsideX(screen, d.x, d.size) && InsideY(screen, d.y, d.size)
    ensures InsideX(screen, PlayerStep(d, screen).x, d.size)
    ensures InsideY(screen, PlayerStep(d, screen).y, d.size)
  {
  }

  /** A zeroed axis stays zeroed and still on later ticks, until the next
      updateOrientation. */
  lemma ZeroedAxisStaysStill(d: Dot, screen: Screen)
    requires d.kind.Player?
    ensures d.kind.sensorX == 0.0 ==>
              PlayerStep(d, screen).x == d.x && PlayerStep(d, screen).kind.sensorX == 0.0
    ensures d.kind.sensorY == 0.0 ==>
              PlayerStep(d, screen).y == d.y && PlayerStep(d, screen).kind.sensorY == 0.0
  {
  }

  /* ----- PointDot ----- */

  /** The PointDot constructor: a still dot of size 0 whose zoom-in to
      `size` starts at the creation tick, with the pulse-starting handler. */
  function NewPointDot(id: int, t: int, x: real, y: real, color: int, size: real, value: int): (d: Dot)
    ensures d.id == id && d.x == x && d.y == y && d.color == color
    ensures d.size == 0.0 && d.vx == 0.0 && d.vy == 0.0 && d.velocity == 0.0
    ensures PointWellFormed(d)
    ensures d.kind.value == value && d.kind.createStep == t
    ensures d.kind.sizeAnim.animating && d.kind.sizeAnim.start == t
    ensures From(d.kind.sizeAnim.interp) == 0.0 && To(d.kind.sizeAnim.interp) == size
    ensures !d.kind.pulseAnim.animating
    ensures !IsFlaggedForRemoval(d)
  {
    var sa := SetCompletionHandler(StartAnimation(NewSizeAnimation(), t, PointDotSizeAnimationTime, 0.0, size));
    var pa := NewPulseAnimation(PointDotPulseSpeed as real);
    NewDot(id, x, y, 0.0, 0.0, color, 0.0, 0.0).(kind := Point(value, t, sa, pa))
  }

  /** The first half of PointDot.update: advance the size animation if it
      runs, otherwise the pulse if that runs, never both. When the size
      animation completes, its handler starts the pulse from the size the dot
      has before the final size is set, towards 85% of it; then the final
      size is set. */
  function PointAnimate(d: Dot, t: int, sinPi: real -> real): (r: Dot)
    requires PointWellFormed(d)
    ensures PointWellFormed(r)
    ensures r == d.(size := r.size, kind := r.kind)
    ensures r.kind.value == d.kind.value && r.kind.createStep == d.kind.createStep
    ensures d.kind.sizeAnim.animating ==>
      var u := UpdateSize(d.kind.sizeAnim, t);
      && r.size == u.size && r.kind.sizeAnim == u.anim
      && (u.notified ==> r.kind.pulseAnim == StartLooping(d.kind.pulseAnim, t, d.size, 0.85 * d.size))
      && (!u.notified ==> r.kind.pulseAnim == d.kind.pulseAnim)
    ensures !d.kind.sizeAnim.animating && d.kind.pulseAnim.animating ==>
      && r.size == UpdatePulse(d.kind.pulseAnim, t, sinPi)
      && r.kind.sizeAnim == d.kind.sizeAnim && r.kind.pulseAnim == d.kind.pulseAnim
    ensures !d.kind.sizeAnim.animating && !d.kind.pulseAnim.animating ==> r == d
  {
    match d.kind
    case Point(value, createStep, sa, pa) =>
      if sa.animating then
        var u := UpdateSize(sa, t);
        var pa' := if u.notified then StartLooping(pa, t, d.size, 0.85 * d.size) else pa;
        d.(size := u.size, kind := Point(value, createStep, u.anim, pa'))
      else if pa.animating then
        d.(size := UpdatePulse(pa, t, sinPi))
      else
        d
  }

  /** PointDot.update: animate, then, once the fade time has passed since
      creation and the dot is not yet removable, flag it for removal. */
  function PointUpdate(d: Dot, t: int, sinPi: real -> real): (r: Dot)
    requires PointWellFormed(d)
    ensures PointWellFormed(r)
    ensures var a := PointAnimate(d, t, sinPi);
      if t - d.kind.createStep >= PointDotFadeTime && !IsFlaggedForRemoval(a)
      then r == FlagForRemoval(a, t) else r == a
  {
    var a := PointAnimate(d, t, sinPi);
    if t - d.kind.createStep >= PointDotFadeTime && !IsFlaggedForRemoval(a) then FlagForRemoval(a, t) else a
  }

  /** The virtual update: dispatch on the kind of dot. */
  function Update(d: Dot, t: int, screen: Screen, sinPi: real -> real): (r: Dot)
    requires d.kind.Point? ==> PointWellFormed(d)
    ensures r.id == d.id && r.color == d.color
    ensures r.kind.Ordinary? == d.kind.Ordinary? && r.kind.Player? == d.kind.Player?
    ensures d.kind.Point? ==> PointWellFormed(r)
    ensures d.remove ==> r.remove
    ensures !d.kind.Point? ==> r.remove == d.remove && r.size == d.size
  {
    match d.kind
    case Ordinary => Move(d)
    case Player(_, _) => PlayerStep(d, screen)
    case Point(_, _, _, _) => PointUpdate(d, t, sinPi)
  }

  /** On the tick the zoom animation completes (zoom-in or zoom-out), the
      dot takes the goal size and the pulse starts from the size it had just
      before, towards 85% of it. */
  lemma CompletionStartsPulse(d: Dot, t: int, sinPi: real -> real)
    requires PointWellFormed(d) && d.kind.sizeAnim.animating
    requires t >= d.kind.sizeAnim.start + d.kind.sizeAnim.length
    ensures PointAnimate(d, t, sinPi).size == To(d.kind.sizeAnim.interp)
    ensures !PointAnimate(d, t, sinPi).kind.sizeAnim.animating
    ensures var p := PointAnimate(d, t, sinPi).kind.pulseAnim;
      p.animating && p.length == Indefinite &&
      p.interp.from == d.size && p.interp.to == 0.85 * d.size
  {
  }

  /** The sizes a point dot can take are never negative. */
  predicate PointSane(d: Dot) {
    && PointWellFormed(d)
    && d.size >= 0.0
    && From(d.kind.sizeAnim.interp) >= 0.0 && To(d.kind.sizeAnim.interp) >= 0.0
    && d.kind.pulseAnim.interp.from >= 0.0 && d.kind.pulseAnim.interp.to >= 0.0
  }

  lemma NewPointDotSane(id: int, t: int, x: real, y: real, color: int, size: real, value: int)
    requires size >= 0.0
    ensures PointSane(NewPointDot(id, t, x, y, color, size, value))
  {
  }

  lemma FlagKeepsSane(d: Dot, t: int)
    requires PointSane(d)
    ensures PointSane(FlagForRemoval(d, t)) && PointSane(FlagForForceRemoval(d))
  {
  }

  /** With a constructed size of at least 0 and a sine within [-1, 1], an
      update leaves every size the dot can take non-negative. */
  lemma UpdateKeepsSane(d: Dot, t: int, sinPi: real -> real)
    requires PointSane(d)
    requires -1.0 <= sinPi(PulsePhase(t, PointDotPulseSpeed as real)) <= 1.0
    ensures PointSane(PointUpdate(d, t, sinPi))
  {
    var a := PointAnimate(d, t, sinPi);
    assert PointSane(a);
  }
}
