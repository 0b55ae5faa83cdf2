/** The GameManager: the draw list, the render arrays and the session state,
    updated in place by the spawn rules, one tick of updateGame, and the
    state transitions around the game loop. Dots live in `dots`, keyed by
    their unique id; the draw list, the player and the current bonus dot
    refer to them by id. */
module Game {
  import opened Wrappers
  import opened Rules
  import opened Animations
  import opened ScreenBounds
  import opened Dots
  import opened Spawning
  import opened Collision
  import opened Tick

  /* ----- The render arrays ----- */

  /** The positions array after a pass: slot s holds the x, y of the s-th
      listed dot when that dot was drawn and keeps its old value otherwise. */
  function PaintPositions(pos: seq<real>, drawn: seq<Option<Attrs>>): (r: seq<real>)
    requires 2 * |drawn| <= |pos|
    ensures |r| == |pos|
    decreases |drawn|
  {
    if drawn == [] then pos
    else
      var s := |drawn| - 1;
      var r := PaintPositions(pos, drawn[..s]);
      match drawn[s]
      case None => r
      case Some(a) => r[2 * s := a.x][2 * s + 1 := a.y]
  }

  /** Red, green and blue of a colour, scaled to [0, 1]. */
  function Channel(c: int, k: int): (v: real)
    requires 0 <= k < 3
    ensures 0.0 <= v <= 1.0
  {
    (if k == 0 then Red(c) else if k == 1 then Green(c) else Blue(c)) as real / 255.0
  }

  /** The colours array after a pass, three channels per slot. */
  function PaintColors(col: seq<real>, drawn: seq<Option<Attrs>>): (r: seq<real>)
    requires 3 * |drawn| <= |col|
    ensures |r| == |col|
    decreases |drawn|
  {
    if drawn == [] then col
    else
      var s := |drawn| - 1;
      var r := PaintColors(col, drawn[..s]);
      match drawn[s]
      case None => r
      case Some(a) =>
        r[3 * s := Channel(a.color, 0)][3 * s + 1 := Channel(a.color, 1)][3 * s + 2 := Channel(a.color, 2)]
  }

  /** The sizes array after a pass, one entry per slot. */
  function PaintSizes(sz: seq<real>, drawn: seq<Option<Attrs>>): (r: seq<real>)
    requires |drawn| <= |sz|
    ensures |r| == |sz|
    decreases |drawn|
  {
    if drawn == [] then sz
    else
      var s := |drawn| - 1;
      var r := PaintSizes(sz, drawn[..s]);
      match drawn[s]
      case None => r
      case Some(a) => r[s := a.size]
  }

  /** The positions array after a pass: slot s holds the x, y of the s-th
      listed dot when that dot was drawn and keeps its old value otherwise;
      the slots past the list keep theirs. */
  lemma {:induction false} PaintPositionsSlots(pos: seq<real>, drawn: seq<Option<Attrs>>)
    requires 2 * |drawn| <= |pos|
    ensures var r := PaintPositions(pos, drawn);
      && (forall s :: 0 <= s < |drawn| && drawn[s].Some? ==>
            r[2 * s] == drawn[s].value.x && r[2 * s + 1] == drawn[s].value.y)
      && (forall s :: 0 <= s < |drawn| && drawn[s].None? ==>
            r[2 * s] == pos[2 * s] && r[2 * s + 1] == pos[2 * s + 1])
      && (forall k :: 2 * |drawn| <= k < |pos| ==> r[k] == pos[k])
    decreases |drawn|
  {
    if drawn != [] {
      var init := drawn[..|drawn| - 1];
      PaintPositionsSlots(pos, init);
      assert forall s :: 0 <= s < |init| ==> init[s] == drawn[s];
    }
  }

  /** The colours array after a pass, three channels per slot. */
  lemma {:induction false} PaintColorsSlots(col: seq<real>, drawn: seq<Option<Attrs>>)
    requires 3 * |drawn| <= |col|
    ensures var r := PaintColors(col, drawn);
      && (forall s :: 0 <= s < |drawn| && drawn[s].Some? ==>
            && r[3 * s] == Channel(drawn[s].value.color, 0)
            && r[3 * s + 1] == Channel(drawn[s].value.color, 1)
            && r[3 * s + 2] == Channel(drawn[s].value.color, 2))
      && (forall s :: 0 <= s < |drawn| && drawn[s].None? ==>
            r[3 * s] == col[3 * s] && r[3 * s + 1] == col[3 * s + 1] && r[3 * s + 2] == col[3 * s + 2])
      && (forall k :: 3 * |drawn| <= k < |col| ==> r[k] == col[k])
    decreases |drawn|
  {
    if drawn != [] {
      var init := drawn[..|drawn| - 1];
      PaintColorsSlots(col, init);
      assert forall s :: 0 <= s < |init| ==> init[s] == drawn[s];
    }
  }

  /** The sizes array after a pass, one entry per slot. */
  lemma {:induction false} PaintSizesSlots(sz: seq<real>, drawn: seq<Option<Attrs>>)
    requires |drawn| <= |sz|
    ensures var r := PaintSizes(sz, drawn);
      && (forall s :: 0 <= s < |drawn| && drawn[s].Some? ==> r[s] == drawn[s].value.size)
      && (forall s :: 0 <= s < |drawn| && drawn[s].None? ==> r[s] == sz[s])
      && (forall k :: |drawn| <= k < |sz| ==> r[k] == sz[k])
    decreases |drawn|
  {
    if drawn != [] {
      var init := drawn[..|drawn| - 1];
      PaintSizesSlots(sz, init);
      assert forall s :: 0 <= s < |init| ==> init[s] == drawn[s];
    }
  }

  /** Painting one more slot, in each of the three arrays. */
  lemma PaintPositionsStep(pos: seq<real>, drawn: seq<Option<Attrs>>, a: Option<Attrs>)
    requires 2 * (|drawn| + 1) <= |pos|
    ensures PaintPositions(pos, drawn + [a]) ==
              if a.None? then PaintPositions(pos, drawn)
              else PaintPositions(pos, drawn)[2 * |drawn| := a.value.x][2 * |drawn| + 1 := a.value.y]
  {
    var d := drawn + [a];
    assert d[..|d| - 1] == drawn && d[|d| - 1] == a;
  }

  lemma PaintColorsStep(col: seq<real>, drawn: seq<Option<Attrs>>, a: Option<Attrs>)
    requires 3 * (|drawn| + 1) <= |col|
    ensures PaintColors(col, drawn + [a]) ==
              if a.None? then PaintColors(col, drawn)
              else PaintColors(col, drawn)[3 * |drawn| := Channel(a.value.color, 0)]
                                          [3 * |drawn| + 1 := Channel(a.value.color, 1)]
                                          [3 * |drawn| + 2 := Channel(a.value.color, 2)]
  {
    var d := drawn + [a];
    assert d[..|d| - 1] == drawn && d[|d| - 1] == a;
  }

  lemma PaintSizesStep(sz: seq<real>, drawn: seq<Option<Attrs>>, a: Option<Attrs>)
    requires |drawn| + 1 <= |sz|
    ensures PaintSizes(sz, drawn + [a]) ==
              if a.None? then PaintSizes(sz, drawn) else PaintSizes(sz, drawn)[|drawn| := a.value.size]
  {
    var d := drawn + [a];
    assert d[..|d| - 1] == drawn && d[|d| - 1] == a;
  }

  /** Taking the next entry of the list off its unvisited part. */
  lemma ListAdvance(kept: seq<int>, orig: seq<int>, j: int)
    requires 0 <= j < |orig|
    ensures var l := kept + Rest(orig, j);
            && l[|kept|] == orig[j]
            && l == (kept + [orig[j]]) + Rest(orig, j + 1)
            && l[..|kept|] + l[|kept| + 1..] == kept + Rest(orig, j + 1)
  {
    var r := Rest(orig, j + 1);
    var l := kept + Rest(orig, j);
    assert Rest(orig, j) == [orig[j]] + r;
    assert l == (kept + [orig[j]]) + r;
    assert l[..|kept|] == kept;
    assert l[|kept| + 1..] == r;
  }

  /* ----- The fixed-step loop ----- */

  /** TIME_BETWEEN_UPDATES: 30 updates a second, in nanoseconds. */
  const TimeBetweenUpdates: real := 1000000000.0 / 30.0

  /** The loop is more than one update behind after k catch-up ticks. */
  predicate Behind(now: real, last: real, k: int) {
    now - (last + k as real * TimeBetweenUpdates) > TimeBetweenUpdates
  }

  /** The catch-up part of one game-loop iteration: tick while the loop is
      more than one update behind, at most MAX_UPDATES_BEFORE_RENDER times,
      then, if still behind, forget the backlog. `count` is the number of
      ticks to run; `newLast` the new mLastUpdateTime. */
  method CatchUp(now: real, last: real) returns (count: int, newLast: real)
    ensures 0 <= count <= MaxUpdatesBeforeRender
    ensures forall k :: 0 <= k < count ==> Behind(now, last, k)
    ensures count < MaxUpdatesBeforeRender ==> !Behind(now, last, count)
    ensures newLast == if Behind(now, last, count)
                       then now - TimeBetweenUpdates
                       else last + count as real * TimeBetweenUpdates
    ensures now - newLast <= TimeBetweenUpdates
  {
    var current := last;
    count := 0;
    while now - current > TimeBetweenUpdates && count < MaxUpdatesBeforeRender
      invariant 0 <= count <= MaxUpdatesBeforeRender
      invariant current == last + count as real * TimeBetweenUpdates
      invariant forall k :: 0 <= k < count ==> Behind(now, last, k)
      decreases MaxUpdatesBeforeRender - count
    {
      current := current + TimeBetweenUpdates;
      count := count + 1;
    }
    newLast := current;
    if now - current > TimeBetweenUpdates {
      newLast := now - TimeBetweenUpdates;
    }
  }

  /** addDotToDrawList's effect on the list: a full list (DOT_LIMIT
      entries) takes no more. */
  function Listed(list: seq<int>, id: int): (r: seq<int>)
    ensures |list| < DotLimit ==> r == list + [id]
    ensures |list| >= DotLimit ==> r == list
  {
    if |list| < DotLimit then list + [id] else list
  }

  /** The part of the manager's state the two spawn rules of updateGame
      read and write: the dots, the player, the draw list, Dot.ID, the
      colour counter, the two spawn timers, the current bonus dot and the
      mode. */
  datatype SpawnState = SpawnState(
    dots: map<int, Dot>, playerId: int, list: seq<int>, nextId: int, colorCounter: int,
    createStep: int, pointDot: Option<int>, pointStep: real, kiosk: bool)

  /** What the spawn rules rely on: the player and the current bonus dot
      exist, and every id is below Dot.ID. */
  predicate SpawnOk(s: SpawnState) {
    && s.playerId in s.dots
    && (s.pointDot.Some? ==> s.pointDot.value in s.dots)
    && (forall k :: k in s.dots ==> k < s.nextId)
  }

  class GameManager {
    const screen: Screen
    /** OpenGLActivity.screenDensity: every size and speed scales with it. */
    const density: real
    const positions: array<real>
    const colors: array<real>
    const sizes: array<real>

    var drawList: seq<int>
    var dots: map<int, Dot>
    /** Dot.ID: the id the next constructed dot receives. */
    var nextId: int
    var playerId: int
    var pointDot: Option<int>
    var running: bool
    var paused: bool
    var kioskMode: bool
    var loopStarted: bool
    var pointStep: real
    var dotCreateStep: int
    var score: int
    var gameState: State
    var colorCounter: int
    var events: seq<Event>

    /** The part of the state a pass of updateGame reads and writes. */
    function Snapshot(): World
      reads this
    {
      World(dots, playerId, score, gameState, running, paused, loopStarted, events)
    }

    /** The fields a pass of updateGame leaves alone. */
    function Settings(): (int, Option<int>, real, int, int, bool)
      reads this
    {
      (nextId, pointDot, pointStep, dotCreateStep, colorCounter, kioskMode)
    }

    predicate Valid()
      reads this
    {
      && screen.w > 0 && screen.h > 0
      && positions.Length == 2 * DotLimit && colors.Length == 3 * DotLimit && sizes.Length == DotLimit
      && positions != colors && positions != sizes && colors != sizes
      && |drawList| <= DotLimit
      && Distinct(drawList)
      && (forall i :: 0 <= i < |drawList| ==> drawList[i] in dots)
      && DotsOk(dots, playerId)
      && (forall k :: k in dots ==> k < nextId)
      && (pointDot.Some? ==> pointDot.value in dots)
      && colorCounter >= 0
    }

    /** The field initialisers and the constructor: the colour counter
      starts at a random palette index, then the player dot is created at
      the centre of the screen in a random palette colour and listed.
      `firstId` is the value of Dot.ID at this point and `nanoTime` the
      clock reading that mPointStep starts from. */
    constructor (screen: Screen, density: real, playerSpeed: real, firstId: int, nanoTime: real,
                 counterDraw: int, colorDraw: int)
      requires screen.w > 0 && screen.h > 0
      requires 0 <= counterDraw < 3 && 0 <= colorDraw < 3
      ensures Valid()
      ensures this.screen == screen && this.density == density
      ensures dots == map[firstId := NewPlayerDot(firstId, screen.w as real / 2.0, screen.h as real / 2.0,
                                                  Palette[colorDraw], PlayerDotSizeRatio * density, playerSpeed)]
      ensures playerId == firstId && nextId == firstId + 1 && drawList == [firstId]
      ensures pointDot == None && !running && !paused && !kioskMode && !loopStarted
      ensures pointStep == nanoTime && score == 0 && gameState == KioskMode
      ensures colorCounter == counterDraw && events == []
      ensures fresh(positions) && fresh(colors) && fresh(sizes)
    {
      this.screen := screen;
      this.density := density;
      positions := new real[2 * DotLimit](_ => 0.0);
      colors := new real[3 * DotLimit](_ => 0.0);
      sizes := new real[DotLimit](_ => 0.0);
      running := false;
      paused := false;
      kioskMode := false;
      loopStarted := false;
      pointStep := nanoTime;
      dotCreateStep := 0;
      score := 0;
      gameState := KioskMode;
      colorCounter := counterDraw;
      events := [];
      pointDot := None;
      var player := NewPlayerDot(firstId, screen.w as real / 2.0, screen.h as real / 2.0,
                                 Palette[colorDraw], PlayerDotSizeRatio * density, playerSpeed);
      dots := map[firstId := player];
      playerId := firstId;
      nextId := firstId + 1;
      drawList := [firstId];
    }

    /** addDotToDrawList: a full list (DOT_LIMIT entries) takes no more. */
    method AddDotToDrawList(id: int)
      requires Valid() && id in dots && id !in drawList
      modifies this
      ensures Valid()
      ensures drawList == Listed(old(drawList), id)
      ensures Snapshot() == old(Snapshot()) && Settings() == old(Settings())
    {
      if |drawList| < DotLimit {
        drawList := drawList + [id];
      }
    }

    /** setGameState. */
    method SetGameState(s: State)
      requires Valid()
      modifies this
      ensures Valid()
      ensures Snapshot() == Tick.SetGameState(old(Snapshot()), s)
      ensures drawList == old(drawList) && Settings() == old(Settings())
    {
      gameState := s;
      events := events + [StateChanged(s)];
    }

    /** gameOver: destroy, then the GAME_OVER state. */
    method GameOver()
      requires Valid()
      modifies this
      ensures Valid()
      ensures Snapshot() == EndGame(old(Snapshot()))
      ensures drawList == old(drawList) && Settings() == old(Settings())
    {
      Destroy();
      SetGameState(State.GameOver);
    }

    /** destroy: a started loop is told to stop and no longer paused. */
    method Destroy()
      requires Valid()
      modifies this
      ensures Valid()
      ensures running == (old(running) && !loopStarted) && paused == (old(paused) && !loopStarted)
      ensures Snapshot() == old(Snapshot()).(running := running, paused := paused)
      ensures drawList == old(drawList) && Settings() == old(Settings())
    {
      if loopStarted {
        running := false;
        paused := false;
      }
    }

    /** pause: a started loop is paused; the state becomes PAUSED. */
    method Pause()
      requires Valid()
      modifies this
      ensures Valid()
      ensures paused == (old(paused) || loopStarted)
      ensures gameState == Paused && events == old(events) + [StateChanged(Paused)]
      ensures Snapshot() == old(Snapshot()).(paused := paused, state := Paused, events := events)
      ensures drawList == old(drawList) && Settings() == old(Settings())
    {
      if loopStarted {
        paused := true;
      }
      SetGameState(Paused);
    }

    /** unPause: a paused, started loop resumes; the state becomes
      KIOSK_MODE or RUNNING as the mode says. */
    method UnPause()
      requires Valid()
      modifies this
      ensures Valid()
      ensures paused == (old(paused) && !loopStarted)
      ensures gameState == (if kioskMode then KioskMode else Running)
      ensures events == old(events) + [StateChanged(gameState)]
      ensures Snapshot() == old(Snapshot()).(paused := paused, state := gameState, events := events)
      ensures drawList == old(drawList) && Settings() == old(Settings())
    {
      if paused && loopStarted {
        paused := false;
      }
      SetGameState(if kioskMode then KioskMode else Running);
    }

    /** startNewGame: the mode is saved and the game loop started, which
      first runs the reset of gameLoop. `loopAlive` says whether a loop
      thread is still alive; such a loop is destroyed first, which also
      clears the pause. */
    method StartNewGame(kiosk: bool, loopAlive: bool)
      requires Valid() && (loopAlive ==> loopStarted)
      modifies this
      ensures Valid()
      ensures var state := if kiosk then KioskMode else Running;
        var p := old(dots)[old(playerId)];
        var centred := p.(x := screen.w as real / 2.0, y := screen.h as real / 2.0,
                          size := PlayerDotSizeRatio * density);
        Snapshot() == World(if kiosk then old(dots) else old(dots)[old(playerId) := centred], old(playerId),
                            0, state, true, !loopAlive && old(paused), true, old(events) + [StateChanged(state)])
      ensures drawList == if kiosk then [] else [playerId]
      ensures Settings() == (old(nextId), None, old(pointStep), 0, old(colorCounter), kiosk)
    {
      if loopAlive {
        Destroy();
      }
      kioskMode := kiosk;
      loopStarted := true;
      GameLoopReset(kiosk);
    }

    /** The reset at the top of gameLoop: the player (outside kiosk mode),
      the state for the mode, and a fresh round. */
    method GameLoopReset(kiosk: bool)
      requires Valid()
      modifies this
      ensures Valid()
      ensures var state := if kiosk then KioskMode else Running;
        var p := old(dots)[old(playerId)];
        var centred := p.(x := screen.w as real / 2.0, y := screen.h as real / 2.0,
                          size := PlayerDotSizeRatio * density);
        Snapshot() == World(if kiosk then old(dots) else old(dots)[old(playerId) := centred], old(playerId),
                            0, state, true, old(paused), old(loopStarted), old(events) + [StateChanged(state)])
      ensures drawList == if kiosk then [] else [playerId]
      ensures Settings() == old(Settings()).(1 := None, 3 := 0)
    {
      ResetPlayer(kiosk);
      SetGameState(if kiosk then KioskMode else Running);
      ResetRound();
    }

    /** The top of gameLoop: the list is cleared; outside kiosk mode it
      holds just the player, re-centred at its original size. */
    method ResetPlayer(kiosk: bool)
      requires Valid()
      modifies this
      ensures Valid()
      ensures var p := old(dots)[old(playerId)];
        var centred := p.(x := screen.w as real / 2.0, y := screen.h as real / 2.0,
                          size := PlayerDotSizeRatio * density);
        Snapshot() == old(Snapshot()).(dots := if kiosk then old(dots) else old(dots)[old(playerId) := centred])
      ensures drawList == if kiosk then [] else [playerId]
      ensures Settings() == old(Settings())
    {
      if kiosk {
        drawList := [];
      } else {
        var p := dots[playerId];
        dots := dots[playerId := SetSize(p.(x := screen.w as real / 2.0, y := screen.h as real / 2.0),
                                         PlayerDotSizeRatio * density)];
        drawList := [playerId];
      }
    }

    /** The rest of the reset: no bonus dot, the score and the small-dot
      timer back to 0, and the loop running. */
    method ResetRound()
      requires Valid()
      modifies this
      ensures Valid()
      ensures Snapshot() == old(Snapshot()).(score := 0, running := true)
      ensures drawList == old(drawList)
      ensures Settings() == old(Settings()).(1 := None, 3 := 0)
    {
      pointDot := None;
      score := 0;
      dotCreateStep := 0;
      running := true;
    }

    /** The orientation listener: the sensor reading becomes the player's
      pending displacement. */
    method OnOrientationUpdate(sx: real, sy: real)
      requires Valid()
      modifies this
      ensures Valid()
      ensures playerId == old(playerId)
      ensures dots == old(dots)[playerId := UpdateOrientation(old(dots)[old(playerId)], sx, sy)]
      ensures drawList == old(drawList) && Settings() == old(Settings())
      ensures Snapshot() == old(Snapshot()).(dots := dots)
    {
      dots := dots[playerId := UpdateOrientation(dots[playerId], sx, sy)];
    }

    /** createRandomDot: a small dot enters from edge `side` (nextInt(4)),
      placed and aimed by the draws f1 and f2 (nextFloat), its direction
      normalised, coloured by the next palette entry in turn. */
    method CreateRandomDot(size: real, side: int, f1: real, f2: real, sqrt: real -> real)
      requires Valid() && 0 <= side < 4
      modifies this
      ensures Valid()
      ensures var p := PlaceRandomDot(size, screen.w, screen.h, EdgeOf(side), f1, f2);
              var v := Normalize(p.vx, p.vy, sqrt);
              dots == old(dots)[old(nextId) := NewDot(old(nextId), p.x, p.y, v.0, v.1,
                        Palette[old(colorCounter) % 3], size, SmallDotSpeedRatio * density)]
      ensures nextId == old(nextId) + 1 && colorCounter == old(colorCounter) + 1
      ensures drawList == Listed(old(drawList), old(nextId))
      ensures Snapshot() == old(Snapshot()).(dots := dots)
      ensures pointDot == old(pointDot) && pointStep == old(pointStep)
      ensures dotCreateStep == old(dotCreateStep) && kioskMode == old(kioskMode)
    {
      var p := PlaceRandomDot(size, screen.w, screen.h, EdgeOf(side), f1, f2);
      var v := Normalize(p.vx, p.vy, sqrt);
      var color := Palette[colorCounter % 3];
      colorCounter := colorCounter + 1;
      var id := nextId;
      nextId := nextId + 1;
      dots := dots[id := NewDot(id, p.x, p.y, v.0, v.1, color, size, SmallDotSpeedRatio * density)];
      AddDotToDrawList(id);
    }

    /** The spawn rules' view of the manager. */
    function View(): SpawnState
      reads this
    {
      SpawnState(dots, playerId, drawList, nextId, colorCounter, dotCreateStep, pointDot, pointStep, kioskMode)
    }

    /** Whether spawnRandomDot creates a small dot at tick t: once more
      ticks than the wait have passed since the last one, and in kiosk mode
      only while fewer than 10 dots are listed. */
    predicate SmallDotDue(s: SpawnState, t: int) {
      (t - s.createStep) as real > SpawnWaitTime(t, s.kiosk)
      && (!s.kiosk || |s.list| < KioskDotLimit)
    }

    /** The small dot createRandomDot makes with the draws side, f1 and f2:
      it gets the next id and the next palette colour in turn. */
    function RandomDot(s: SpawnState, side: int, f1: real, f2: real, sqrt: real -> real): Dot
      requires screen.w > 0 && screen.h > 0 && 0 <= side < 4
    {
      var size := SmallDotSizeRatio * density;
      var p := PlaceRandomDot(size, screen.w, screen.h, EdgeOf(side), f1, f2);
      var v := Normalize(p.vx, p.vy, sqrt);
      NewDot(s.nextId, p.x, p.y, v.0, v.1, Palette[s.colorCounter % 3], size, SmallDotSpeedRatio * density)
    }

    /** spawnRandomDot as a function of the spawn state. When a small dot is
      due, the timer restarts at t (even when the full list takes no new
      dot), an ordinary dot in the next palette colour gets a fresh id, and
      it is listed when the list has room; no dot that existed changes.
      Otherwise nothing changes. */
    function SmallSpawn(s: SpawnState, t: int, side: int, f1: real, f2: real, sqrt: real -> real): (r: SpawnState)
      requires screen.w > 0 && screen.h > 0 && 0 <= side < 4 && SpawnOk(s)
      ensures SpawnOk(r)
      ensures SmallDotDue(s, t) ==>
                && r.nextId == s.nextId + 1 && r.colorCounter == s.colorCounter + 1 && r.createStep == t
                && s.nextId !in s.dots && r.dots.Keys == s.dots.Keys + {s.nextId}
                && r.dots[s.nextId] == RandomDot(s, side, f1, f2, sqrt)
                && r.dots[s.nextId].kind.Ordinary? && r.dots[s.nextId].color == Palette[s.colorCounter % 3]
                && r.list == Listed(s.list, s.nextId)
      ensures !SmallDotDue(s, t) ==> r == s
      ensures forall k :: k in s.dots ==> k in r.dots && r.dots[k] == s.dots[k]
      ensures r.playerId == s.playerId && r.pointDot == s.pointDot && r.pointStep == s.pointStep
      ensures r.kiosk == s.kiosk
    {
      if SmallDotDue(s, t) then
        s.(dots := s.dots[s.nextId := RandomDot(s, side, f1, f2, sqrt)], list := Listed(s.list, s.nextId),
           nextId := s.nextId + 1, colorCounter := s.colorCounter + 1, createStep := t)
      else s
    }

    /** spawnRandomDot, proved against SmallSpawn. */
    method SpawnRandomDot(t: int, side: int, f1: real, f2: real, sqrt: real -> real)
      requires Valid() && 0 <= side < 4
      modifies this
      ensures Valid()
      ensures View() == SmallSpawn(old(View()), t, side, f1, f2, sqrt)
      ensures Snapshot() == old(Snapshot()).(dots := dots)
    {
      var wait := SpawnWaitTime(t, kioskMode);
      if (t - dotCreateStep) as real > wait && (!kioskMode || |drawList| < KioskDotLimit) {
        dotCreateStep := t;
        CreateRandomDot(SmallDotSizeRatio * density, side, f1, f2, sqrt);
      }
    }

    /** The size of a bonus dot on this screen. */
    function PointSize(): real {
      PointDotSizeRatio * density
    }

    /** spawnPointDot's draw (px, py) from nextInt(W - 2 (int) size) and
      nextInt(H - 2 (int) size) was accepted: it is in range, and the dot
      there is clear of the player by twice its size. The source draws
      again until this holds. */
    predicate AcceptedDraw(s: SpawnState, px: int, py: int)
      requires s.playerId in s.dots
    {
      && PointSize() >= 0.0
      && 0 <= px < PointDrawBound(screen.w, PointSize())
      && 0 <= py < PointDrawBound(screen.h, PointSize())
      && !IsPointOnDot(s.dots[s.playerId], px as real + PointSize(), py as real + PointSize(), PointSize() * 2.0)
    }

    /** The bonus dot spawnPointDot makes at tick t from the draw (px, py):
      it gets the next id, the player's colour, and its centre offset by its
      size. */
    function PointDotAt(s: SpawnState, t: int, px: int, py: int): Dot
      requires s.playerId in s.dots
    {
      var size := PointSize();
      NewPointDot(s.nextId, t, px as real + size, py as real + size, s.dots[s.playerId].color, size, PointDotValue)
    }

    /** spawnPointDot: a bonus dot in the player's colour at the accepted
      draw, listed when the list has room. */
    method SpawnPointDot(t: int, px: int, py: int) returns (id: int)
      requires Valid() && AcceptedDraw(View(), px, py)
      modifies this
      ensures Valid()
      ensures id == old(nextId) && nextId == id + 1
      ensures var d := old(PointDotAt(View(), t, px, py));
              dots == old(dots)[id := d]
                && !IsPointOnDot(old(dots)[old(playerId)], d.x, d.y, 2.0 * PointSize())
      ensures drawList == Listed(old(drawList), id)
      ensures Snapshot() == old(Snapshot()).(dots := dots)
      ensures pointDot == old(pointDot) && pointStep == old(pointStep) && kioskMode == old(kioskMode)
      ensures dotCreateStep == old(dotCreateStep) && colorCounter == old(colorCounter)
    {
      var size := PointSize();
      id := nextId;
      nextId := nextId + 1;
      var d := NewPointDot(id, t, px as real + size, py as real + size, dots[playerId].color, size, PointDotValue);
      dots := dots[id := d];
      AddDotToDrawList(id);
    }

    /** Whether spawnBigPoint creates a bonus dot at tick t with the wait
      `interval` + 150: when there is none yet and t is past the wait, or
      when the current one is removable and the wait has passed since it
      became so. */
    predicate PointSpawnDue(s: SpawnState, t: int, interval: int)
      requires s.pointDot.Some? ==> s.pointDot.value in s.dots
    {
      var wait := interval + PointDotTimeBetween / 2;
      match s.pointDot
      case None => t > wait
      case Some(p) => IsFlaggedForRemoval(s.dots[p]) && t as real - s.pointStep > wait as real
    }

    /** spawnBigPoint as a function of the spawn state, with `interval` the
      draw nextInt(300) it makes on every tick. When a bonus dot is due, a
      bonus dot in the player's colour gets a fresh id, becomes the current
      one, is listed when the list has room, and its timer starts at t; an
      accepted draw keeps it clear of the player. Otherwise only the timer
      can change: it follows the tick while the current bonus dot is not
      removable. No dot that existed changes. */
    function BigSpawn(s: SpawnState, t: int, interval: int, px: int, py: int): (r: SpawnState)
      requires SpawnOk(s)
      ensures SpawnOk(r)
      ensures PointSpawnDue(s, t, interval) ==>
                && r.nextId == s.nextId + 1 && r.pointDot == Some(s.nextId) && r.pointStep == t as real
                && s.nextId !in s.dots && r.dots.Keys == s.dots.Keys + {s.nextId}
                && r.dots[s.nextId] == PointDotAt(s, t, px, py)
                && r.dots[s.nextId].kind.Point? && r.dots[s.nextId].color == s.dots[s.playerId].color
                && r.list == Listed(s.list, s.nextId)
      ensures PointSpawnDue(s, t, interval) && AcceptedDraw(s, px, py) ==>
                !IsPointOnDot(s.dots[s.playerId], r.dots[s.nextId].x, r.dots[s.nextId].y, 2.0 * PointSize())
      ensures !PointSpawnDue(s, t, interval) ==>
                r == s.(pointStep := if s.pointDot.Some? && !IsFlaggedForRemoval(s.dots[s.pointDot.value])
                                     then t as real else s.pointStep)
      ensures forall k :: k in s.dots ==> k in r.dots && r.dots[k] == s.dots[k]
      ensures r.playerId == s.playerId && r.colorCounter == s.colorCounter && r.createStep == s.createStep
      ensures r.kiosk == s.kiosk
    {
      if PointSpawnDue(s, t, interval) then
        s.(dots := s.dots[s.nextId := PointDotAt(s, t, px, py)], list := Listed(s.list, s.nextId),
           nextId := s.nextId + 1, pointDot := Some(s.nextId), pointStep := t as real)
      else if s.pointDot.Some? && !IsFlaggedForRemoval(s.dots[s.pointDot.value]) then
        s.(pointStep := t as real)
      else s
    }

    /** The small-dot rule never decides for the bonus-dot rule: after it,
      a bonus dot is due exactly when it was before, and a draw is accepted
      exactly when it was before. */
    lemma SmallSpawnKeepsPointRule(s: SpawnState, t: int, side: int, f1: real, f2: real, sqrt: real -> real,
                                   interval: int, px: int, py: int)
      requires screen.w > 0 && screen.h > 0 && 0 <= side < 4 && SpawnOk(s)
      ensures var r := SmallSpawn(s, t, side, f1, f2, sqrt);
        && PointSpawnDue(r, t, interval) == PointSpawnDue(s, t, interval)
        && AcceptedDraw(r, px, py) == AcceptedDraw(s, px, py)
    {
      var r := SmallSpawn(s, t, side, f1, f2, sqrt);
      assert r.dots[s.playerId] == s.dots[s.playerId];
      if s.pointDot.Some? {
        assert r.dots[s.pointDot.value] == s.dots[s.pointDot.value];
      }
    }

    /** When both rules fire on one tick and the list has room for two, the
      small dot is listed first and the bonus dot, with the next id, after
      it. */
    lemma BothSpawnsListed(s: SpawnState, t: int, side: int, f1: real, f2: real, sqrt: real -> real,
                           interval: int, px: int, py: int)
      requires screen.w > 0 && screen.h > 0 && 0 <= side < 4 && SpawnOk(s)
      requires SmallDotDue(s, t) && PointSpawnDue(s, t, interval) && |s.list| + 2 <= DotLimit
      ensures var r := BigSpawn(SmallSpawn(s, t, side, f1, f2, sqrt), t, interval, px, py);
        && r.list == s.list + [s.nextId, s.nextId + 1]
        && r.dots[s.nextId].kind.Ordinary? && r.dots[s.nextId + 1].kind.Point?
        && r.pointDot == Some(s.nextId + 1) && r.nextId == s.nextId + 2
    {
      SmallSpawnKeepsPointRule(s, t, side, f1, f2, sqrt, interval, px, py);
      var r1 := SmallSpawn(s, t, side, f1, f2, sqrt);
      assert r1.list == s.list + [s.nextId];
      assert s.list + [s.nextId] + [s.nextId + 1] == s.list + [s.nextId, s.nextId + 1];
    }

    /** spawnBigPoint, proved against BigSpawn. */
    method SpawnBigPoint(t: int, interval: int, px: int, py: int)
      requires Valid() && 0 <= interval < PointDotTimeBetween
      requires PointSpawnDue(View(), t, interval) ==> AcceptedDraw(View(), px, py)
      modifies this
      ensures Valid()
      ensures View() == BigSpawn(old(View()), t, interval, px, py)
      ensures Snapshot() == old(Snapshot()).(dots := dots)
    {
      var wait := interval + PointDotTimeBetween / 2;
      if pointDot.Some? {
        if IsFlaggedForRemoval(dots[pointDot.value]) {
          if t as real - pointStep > wait as real {
            SpawnCurrentPoint(t, px, py);
          }
        } else {
          pointStep := t as real;
        }
      } else if t > wait {
        SpawnCurrentPoint(t, px, py);
      }
    }

    /** The spawning branch of spawnBigPoint: the new bonus dot becomes the
      current one and its timer starts at t. */
    method SpawnCurrentPoint(t: int, px: int, py: int)
      requires Valid() && AcceptedDraw(View(), px, py)
      modifies this
      ensures Valid()
      ensures View() == old(View()).(dots := old(dots)[old(nextId) := old(PointDotAt(View(), t, px, py))],
                                     list := Listed(old(drawList), old(nextId)), nextId := old(nextId) + 1,
                                     pointDot := Some(old(nextId)), pointStep := t as real)
      ensures Snapshot() == old(Snapshot()).(dots := dots)
    {
      var id := SpawnPointDot(t, px, py);
      pointDot := Some(id);
      pointStep := t as real;
    }

    /** Commits the visit of the entry at index i of the draw list: the new
      dots and session state, and, for a drawn dot, its position, colour
      channels and size in slot i. */
    method ApplyVisit(i: int, w: World, a: Option<Attrs>)
      requires 0 <= i < DotLimit
      requires positions.Length == 2 * DotLimit && colors.Length == 3 * DotLimit && sizes.Length == DotLimit
      requires positions != colors && positions != sizes && colors != sizes
      requires w.playerId == playerId && w.loopStarted == loopStarted
      modifies this, positions, colors, sizes
      ensures Snapshot() == w
      ensures drawList == old(drawList) && Settings() == old(Settings())
      ensures positions[..] == if a.None? then old(positions[..])
                               else old(positions[..])[2 * i := a.value.x][2 * i + 1 := a.value.y]
      ensures colors[..] == if a.None? then old(colors[..])
                            else old(colors[..])[3 * i := Channel(a.value.color, 0)]
                                                [3 * i + 1 := Channel(a.value.color, 1)]
                                                [3 * i + 2 := Channel(a.value.color, 2)]
      ensures sizes[..] == if a.None? then old(sizes[..]) else old(sizes[..])[i := a.value.size]
    {
      SetWorld(w);
      if a.Some? {
        WriteSlot(i, a.value);
      }
    }

    /** Commits the world a visit produced: the dots and the session state. */
    method SetWorld(w: World)
      requires w.playerId == playerId && w.loopStarted == loopStarted
      modifies this
      ensures Snapshot() == w
      ensures drawList == old(drawList) && Settings() == old(Settings())
    {
      dots := w.dots;
      score := w.score;
      gameState := w.state;
      running := w.running;
      paused := w.paused;
      events := w.events;
    }

    /** The render-array writes for slot i. */
    method WriteSlot(i: int, at: Attrs)
      requires 0 <= i < DotLimit
      requires positions.Length == 2 * DotLimit && colors.Length == 3 * DotLimit && sizes.Length == DotLimit
      requires positions != colors && positions != sizes && colors != sizes
      modifies positions, colors, sizes
      ensures positions[..] == old(positions[..])[2 * i := at.x][2 * i + 1 := at.y]
      ensures colors[..] == old(colors[..])[3 * i := Channel(at.color, 0)][3 * i + 1 := Channel(at.color, 1)]
                                           [3 * i + 2 := Channel(at.color, 2)]
      ensures sizes[..] == old(sizes[..])[i := at.size]
    {
      positions[2 * i] := at.x;
      positions[2 * i + 1] := at.y;
      colors[3 * i] := Channel(at.color, 0);
      colors[3 * i + 1] := Channel(at.color, 1);
      colors[3 * i + 2] := Channel(at.color, 2);
      sizes[i] := at.size;
    }

    /** How far the loop of updateGame has got: the first j entries of the
      original list `orig` have been walked, which gives the world, the
      list and the render arrays the specification prescribes. */
    ghost predicate Tracks(env: Env, w0: World, orig: seq<int>, j: int, pass: Pass,
                           pos0: seq<real>, col0: seq<real>, sz0: seq<real>)
      reads this, positions, colors, sizes
    {
      && WorldOk(w0) && (forall k :: 0 <= k < |orig| ==> orig[k] in w0.dots) && |orig| <= DotLimit
      && positions.Length == 2 * DotLimit && colors.Length == 3 * DotLimit && sizes.Length == DotLimit
      && positions != colors && positions != sizes && colors != sizes
      && |pos0| == 2 * DotLimit && |col0| == 3 * DotLimit && |sz0| == DotLimit
      && 0 <= j <= |orig| && pass == ProcessPrefix(env, w0, orig[..j])
      && drawList == pass.kept + Rest(orig, j) && Snapshot() == pass.w
      && positions[..] == PaintPositions(pos0, pass.drawn)
      && colors[..] == PaintColors(col0, pass.drawn)
      && sizes[..] == PaintSizes(sz0, pass.drawn)
    }

    /** One entry of the loop: the entry at index i is orig[j]. A flagged
      dot is removed from the list; any other is visited and its slot is
      painted. */
    method Advance(env: Env, i: int, ghost w0: World, ghost orig: seq<int>, ghost j: int, ghost pass: Pass,
                   ghost pos0: seq<real>, ghost col0: seq<real>, ghost sz0: seq<real>)
      returns (i': int, ghost next: Pass)
      requires Tracks(env, w0, orig, j, pass, pos0, col0, sz0) && j < |orig| && i == |pass.kept|
      modifies this, positions, colors, sizes
      ensures Tracks(env, w0, orig, j + 1, next, pos0, col0, sz0) && i' == |next.kept|
      ensures Settings() == old(Settings())
    {
      ListAdvance(pass.kept, orig, j);
      PrefixStep(env, w0, orig, j);
      var id := drawList[i];
      next := Step(env, pass, id);
      if IsFlaggedForRemoval(dots[id]) {
        RemoveAt(i);
        i' := i;
      } else {
        var (w, a) := VisitDot(env, Snapshot(), id);
        PaintPositionsStep(pos0, pass.drawn, a);
        PaintColorsStep(col0, pass.drawn, a);
        PaintSizesStep(sz0, pass.drawn, a);
        ApplyVisit(i, w, a);
        i' := i + 1;
      }
    }

    /** removeDot: the entry at index i leaves the draw list. */
    method RemoveAt(i: int)
      requires 0 <= i < |drawList|
      modifies this
      ensures drawList == old(drawList[..i] + drawList[i + 1..])
      ensures Snapshot() == old(Snapshot()) && Settings() == old(Settings())
    {
      drawList := drawList[..i] + drawList[i + 1..];
    }

    /** The loop of updateGame over the draw list. An entry found flagged is
      removed in place and the same index examined again; every other dot
      is visited (updated, bounced, tested against the player) and, unless
      it touched the player, written into the render arrays at its index. */
    method ProcessDrawList(t: int, sinPi: real -> real, pick: bool)
      requires Valid()
      modifies this, positions, colors, sizes
      ensures Valid()
      ensures var p := ProcessPrefix(Env(t, screen, sinPi, kioskMode, pick), old(Snapshot()), old(drawList));
        && Snapshot() == p.w
        && drawList == p.kept
        && positions[..] == PaintPositions(old(positions[..]), p.drawn)
        && colors[..] == PaintColors(old(colors[..]), p.drawn)
        && sizes[..] == PaintSizes(old(sizes[..]), p.drawn)
      ensures drawList == Survivors(old(dots), old(drawList))
      ensures Settings() == old(Settings())
    {
      var env := Env(t, screen, sinPi, kioskMode, pick);
      ghost var w0 := Snapshot();
      ghost var orig := drawList;
      ghost var j := 0;
      ghost var pass := ProcessPrefix(env, w0, orig[..j]);
      RestOfAll(orig);
      var i := 0;
      while i < |drawList|
        invariant Tracks(env, w0, orig, j, pass, old(positions[..]), old(colors[..]), old(sizes[..]))
        invariant i == |pass.kept|
        invariant Settings() == old(Settings())
        decreases |orig| - j
      {
        i, pass := Advance(env, i, w0, orig, j, pass, old(positions[..]), old(colors[..]), old(sizes[..]));
        j := j + 1;
      }
      PassComplete(env, w0, orig, j, pass, drawList);
      assert dots == pass.w.dots && playerId == w0.playerId && dots.Keys == old(dots).Keys;
    }

    /** The spawn rules at the top of updateGame: first a small dot when
      one is due, then a bonus dot when one is due, the bonus dot taking the
      id after the small dot's. */
    method SpawnDots(t: int, side: int, f1: real, f2: real, sqrt: real -> real,
                     interval: int, px: int, py: int)
      requires Valid() && 0 <= side < 4 && 0 <= interval < PointDotTimeBetween
      requires PointSpawnDue(View(), t, interval) ==> AcceptedDraw(View(), px, py)
      modifies this
      ensures Valid()
      ensures View() == BigSpawn(SmallSpawn(old(View()), t, side, f1, f2, sqrt), t, interval, px, py)
      ensures Snapshot() == old(Snapshot()).(dots := dots)
    {
      SpawnRandomDot(t, side, f1, f2, sqrt);
      SmallSpawnKeepsPointRule(old(View()), t, side, f1, f2, sqrt, interval, px, py);
      SpawnBigPoint(t, interval, px, py);
    }

    /** updateGame(t): the two spawn rules, then the pass over the list.
      The draws are those of one tick: the small dot's edge and floats, the
      bonus dot's wait and accepted position, and the colour switch. `w0`
      and `ids` are the world and the draw list the pass starts from, once
      the spawn rules have run. */
    method UpdateGame(t: int, side: int, f1: real, f2: real, sqrt: real -> real,
                      interval: int, px: int, py: int, sinPi: real -> real, pick: bool)
      returns (ghost w0: World, ghost ids: seq<int>)
      requires Valid() && 0 <= side < 4 && 0 <= interval < PointDotTimeBetween
      requires PointSpawnDue(View(), t, interval) ==> AcceptedDraw(View(), px, py)
      modifies this, positions, colors, sizes
      ensures Valid()
      ensures var sp := BigSpawn(SmallSpawn(old(View()), t, side, f1, f2, sqrt), t, interval, px, py);
        && w0 == old(Snapshot()).(dots := sp.dots) && ids == sp.list
        && nextId == sp.nextId && colorCounter == sp.colorCounter && dotCreateStep == sp.createStep
        && pointDot == sp.pointDot && pointStep == sp.pointStep
      ensures WorldOk(w0) && (forall i :: 0 <= i < |ids| ==> ids[i] in w0.dots)
      ensures var p := ProcessPrefix(Env(t, screen, sinPi, kioskMode, pick), w0, ids);
        && Snapshot() == p.w
        && drawList == p.kept
        && positions[..] == PaintPositions(old(positions[..]), p.drawn)
        && colors[..] == PaintColors(old(colors[..]), p.drawn)
        && sizes[..] == PaintSizes(old(sizes[..]), p.drawn)
      ensures drawList == Survivors(w0.dots, ids)
      ensures score >= old(score)
      ensures old(events) <= events
      ensures kioskMode ==> score == old(score) && gameState == old(gameState) && events == old(events)
      ensures kioskMode == old(kioskMode)
    {
      SpawnDots(t, side, f1, f2, sqrt, interval, px, py);
      w0 := Snapshot();
      ids := drawList;
      ghost var env := Env(t, screen, sinPi, kioskMode, pick);
      ProcessDrawList(t, sinPi, pick);
      ScoreNeverDecreases(env, w0, ids);
      EventsOnlyGrow(env, w0, ids);
      if kioskMode {
        KioskPassIsQuiet(env, w0, ids);
      }
    }
  }
}
