/** The animation engine: a time-driven scalar interpolator with a running
    flag and an optional completion handler (Animation), its bounded linear
    form (SizeAnimation) and its indefinite sine-driven form (PulseAnimation).
    An animation is a value; every operation that changes it in place
    returns the new value, and "the handler was notified" is returned as a
    flag so that the owner can run its own reaction in the source's order. */
module Animations {

  /** The length recorded by the start form without a length: an animation
      that runs until it is stopped. */
  const Indefinite: int := -1

  /** What the two concrete animations keep besides the common fields. */
  datatype Interpolation =
    | SizeInterp(startSize: real, goalDelta: real)   // SizeAnimation: from, and to - from
    | PulseInterp(speed: real, from: real, to: real) // PulseAnimation

  datatype Animation = Animation(
    start: int,          // tick the animation was started at
    length: int,         // length in ticks, or Indefinite
    animating: bool,
    hasHandler: bool,    // a completion handler is set
    interp: Interpolation)

  /** The new state after a stop, and whether a handler was notified. */
  datatype Stopped = Stopped(anim: Animation, notified: bool)

  /** The new state after reading the percentage, the percentage, and whether
      reading it stopped the animation with a handler set. */
  datatype Progress = Progress(anim: Animation, percent: real, notified: bool)

  /** The new state after one size-animation update and the size it reports. */
  datatype SizeStep = SizeStep(anim: Animation, size: real, notified: bool)

  /** v lies between a and b, in either order. */
  predicate Between(v: real, a: real, b: real) {
    (a <= v <= b) || (b <= v <= a)
  }

  /** The value the interpolation starts from. */
  function From(i: Interpolation): real {
    match i
    case SizeInterp(s, _) => s
    case PulseInterp(_, f, _) => f
  }

  /** The value the interpolation aims for. */
  function To(i: Interpolation): real {
    match i
    case SizeInterp(s, d) => s + d
    case PulseInterp(_, _, t) => t
  }

  /** A size animation as constructed: not running, no handler. */
  function NewSizeAnimation(): (a: Animation)
    ensures !a.animating && !a.hasHandler && a.interp.SizeInterp?
  {
    Animation(0, 0, false, false, SizeInterp(0.0, 0.0))
  }

  /** A pulse animation as constructed with the given speed. */
  function NewPulseAnimation(speed: real): (a: Animation)
    ensures !a.animating && !a.hasHandler
    ensures a.interp.PulseInterp? && a.interp.speed == speed
  {
    Animation(0, 0, false, false, PulseInterp(speed, 0.0, 0.0))
  }

  /** setFromToValues of either animation: afterwards the interpolation runs
      from `from` to `to`; a pulse keeps its speed. */
  function SetFromToValues(i: Interpolation, from: real, to: real): (r: Interpolation)
    ensures r.SizeInterp? == i.SizeInterp?
    ensures From(r) == from && To(r) == to
    ensures r.PulseInterp? ==> r.speed == i.speed
  {
    match i
    case SizeInterp(_, _) => SizeInterp(from, to - from)
    case PulseInterp(speed, _, _) => PulseInterp(speed, from, to)
  }

  /** The four-argument startAnimation. */
  function StartAnimation(a: Animation, t: int, length: int, from: real, to: real): (r: Animation)
    ensures r.start == t && r.length == length && r.animating
    ensures r.hasHandler == a.hasHandler
    ensures r.interp.SizeInterp? == a.interp.SizeInterp?
    ensures From(r.interp) == from && To(r.interp) == to
    ensures r.interp.PulseInterp? ==> r.interp.speed == a.interp.speed
  {
    Animation(t, length, true, a.hasHandler, SetFromToValues(a.interp, from, to))
  }

  /** The three-argument startAnimation: the same with the indefinite length. */
  function StartLooping(a: Animation, t: int, from: real, to: real): (r: Animation)
    ensures r == StartAnimation(a, t, Indefinite, from, to)
    ensures r.length == Indefinite && r.animating
  {
    StartAnimation(a, t, Indefinite, from, to)
  }

  /** stopAnimation: clears the running flag and notifies the handler, if
      one is set, whether or not the animation was running. */
  function Stop(a: Animation): (s: Stopped)
    ensures !s.anim.animating
    ensures s.notified == a.hasHandler
    ensures s.anim.(animating := a.animating) == a
  {
    Stopped(a.(animating := false), a.hasHandler)
  }

  /** setCompletionHandler: a handler is set; nothing else changes. */
  function SetCompletionHandler(a: Animation): (r: Animation)
    ensures r.hasHandler
    ensures r.(hasHandler := a.hasHandler) == a
  {
    a.(hasHandler := true)
  }

  function Clamp01(x: real): real {
    if x > 1.0 then 1.0 else if x < 0.0 then 0.0 else x
  }

  /** getPercentage: 0 for an indefinite animation; otherwise the elapsed
      fraction clamped to [0, 1]; reaching 1 stops the animation. A length of
      0 (a NaN in the source) is excluded. */
  function Percentage(a: Animation, t: int): (p: Progress)
    requires a.length != 0
    ensures 0.0 <= p.percent <= 1.0
    ensures a.length == Indefinite ==> p == Progress(a, 0.0, false)
    ensures a.length > 0 ==> (p.percent == 1.0 <==> t >= a.start + a.length)
    ensures a.length > 0 ==> (p.percent == 0.0 <==> t <= a.start)
    ensures a.length > 0 && a.start <= t <= a.start + a.length ==>
              p.percent * (a.length as real) == (t - a.start) as real
    ensures p.percent == 1.0 ==> Stopped(p.anim, p.notified) == Stop(a)
    ensures p.percent < 1.0 ==> p.anim == a && !p.notified
  {
    if a.length == Indefinite then Progress(a, 0.0, false)
    else
      var raw := (t - a.start) as real / (a.length as real);
      FractionFacts((t - a.start) as real, a.length as real);
      var percent := Clamp01(raw);
      if percent >= 1.0 then
        var s := Stop(a);
        Progress(s.anim, percent, s.notified)
      else
        Progress(a, percent, false)
  }

  /** n / d for a positive d: at least 1 exactly when n >= d, at most 0
      exactly when n <= 0, and d times it is n. */
  lemma FractionFacts(n: real, d: real)
    requires d != 0.0
    ensures d > 0.0 ==> (n / d >= 1.0 <==> n >= d)
    ensures d > 0.0 ==> (n / d <= 0.0 <==> n <= 0.0)
    ensures n / d * d == n
  {
    var q := n / d;
    assert q * d == n;
    if d > 0.0 {
      var above := (q - 1.0) * d;
      assert above == n - d;
      if q >= 1.0 { assert above >= 0.0; }
      if q < 1.0 { assert above < 0.0; }
      var prod := q * d;
      if q <= 0.0 { assert prod <= 0.0; }
      if q > 0.0 { assert prod > 0.0; }
    }
  }

  /** The size a size animation reports at a given percentage. */
  function SizeAt(i: Interpolation, p: real): (v: real)
    requires i.SizeInterp?
    ensures p == 0.0 ==> v == From(i)
    ensures p == 1.0 ==> v == To(i)
    ensures 0.0 <= p <= 1.0 ==> Between(v, From(i), To(i))
  {
    i.startSize + Scale(i.goalDelta, p)
  }

  /** The fraction p of d: between 0 and d when p is in [0, 1]. */
  function Scale(d: real, p: real): (r: real)
    ensures p == 0.0 ==> r == 0.0
    ensures p == 1.0 ==> r == d
    ensures 0.0 <= p <= 1.0 ==> Between(r, 0.0, d)
  {
    if 0.0 <= p <= 1.0 then ScaledBetween(d, p); d * p else d * p
  }

  /** A fraction p in [0, 1] of d lies between 0 and d. */
  lemma ScaledBetween(d: real, p: real)
    requires 0.0 <= p <= 1.0
    ensures Between(d * p, 0.0, d)
  {
    if d >= 0.0 {
      assert 0.0 <= d * (1.0 - p);
    } else {
      assert 0.0 <= (-d) * (1.0 - p);
      assert 0.0 <= (-d) * p;
    }
  }

  /** SizeAnimation.updateAnimation: reads the percentage (which may stop the
      animation and notify the handler) and reports the interpolated size. */
  function UpdateSize(a: Animation, t: int): (s: SizeStep)
    requires a.interp.SizeInterp? && a.length != 0
    ensures Between(s.size, From(a.interp), To(a.interp))
    ensures s.notified ==> s.size == To(a.interp)
    ensures s.anim.interp == a.interp && s.anim.start == a.start && s.anim.length == a.length
    ensures s.anim.hasHandler == a.hasHandler
    ensures a.length == Indefinite ==> s == SizeStep(a, From(a.interp), false)
    ensures a.length > 0 && t <= a.start ==> s.size == From(a.interp)
    ensures a.length > 0 && t < a.start + a.length ==> s.anim == a && !s.notified
    ensures a.length > 0 && t >= a.start + a.length ==>
              s.size == To(a.interp) && !s.anim.animating && s.notified == a.hasHandler
  {
    var p := Percentage(a, t);
    SizeStep(p.anim, SizeAt(a.interp, p.percent), p.notified)
  }

  /** Toward zero, as a cast from double to long does. */
  function Trunc(x: real): int {
    if x >= 0.0 then x.Floor else -((-x).Floor)
  }

  /** The argument of the sine in the pulse, in half-turns: the source takes
      sin(((t / speed) % 2) * pi), with Java's floating remainder, which keeps
      the sign of the dividend. */
  function PulsePhase(t: int, speed: real): (x: real)
    requires speed != 0.0
    ensures t as real / speed >= 0.0 ==> 0.0 <= x < 2.0
    ensures t as real / speed < 0.0 ==> -2.0 < x <= 0.0
  {
    var q := t as real / speed;
    q - 2.0 * Trunc(q / 2.0) as real
  }

  /** The value a pulse reports for a sine value s. */
  function PulseValue(from: real, to: real, s: real): (v: real)
    ensures s == -1.0 ==> v == from
    ensures s == 1.0 ==> v == to
    ensures -1.0 <= s <= 1.0 ==> Between(v, from, to)
  {
    from + Scale(to - from, (s + 1.0) / 2.0)
  }

  /** PulseAnimation.updateAnimation, with sinPi(x) standing for sin(pi * x).
      It never reads the percentage, so it never stops the animation: it
      returns only the size. */
  function UpdatePulse(a: Animation, t: int, sinPi: real -> real): (v: real)
    requires a.interp.PulseInterp? && a.interp.speed != 0.0
    ensures -1.0 <= sinPi(PulsePhase(t, a.interp.speed)) <= 1.0 ==>
              Between(v, a.interp.from, a.interp.to)
  {
    PulseValue(a.interp.from, a.interp.to, sinPi(PulsePhase(t, a.interp.speed)))
  }

  /** Completing a size animation twice: a further update after completion
      reports the goal again and notifies the handler again. */
  lemma CompletionRepeats(a: Animation, t1: int, t2: int)
    requires a.interp.SizeInterp? && a.length > 0
    requires t1 >= a.start + a.length && t2 >= a.start + a.length
    ensures UpdateSize(UpdateSize(a, t1).anim, t2).size == To(a.interp)
    ensures UpdateSize(UpdateSize(a, t1).anim, t2).notified == a.hasHandler
  {
  }

  /** A pulse's output depends only on the tick, its speed and its from/to
      values: start, length, running flag and handler are never read. */
  lemma PulseIgnoresTiming(a: Animation, b: Animation, t: int, sinPi: real -> real)
    requires a.interp.PulseInterp? && a.interp.speed != 0.0
    requires b.interp == a.interp
    ensures UpdatePulse(a, t, sinPi) == UpdatePulse(b, t, sinPi)
  {
  }
}
