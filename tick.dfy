/** One pass of GameManager.updateGame over the draw list, as functions on
    the part of the manager's state the pass reads and writes. The dots are
    values kept in a map from their unique id (the objects the draw list,
    mPlayerDot and mPointDot refer to); the listener calls of performAction
    are an appended log of events. The manager class runs the same pass as
    an in-place loop and is proved against ProcessPrefix. */
module Tick {
  import opened Wrappers
  import opened Animations
  import opened ScreenBounds
  import opened Dots
  import opened Spawning
  import opened Collision

  /** The game states, STATE_RUNNING .. STATE_PAUSED. */
  datatype State = Running | GameOver | NewGame | KioskMode | Paused

  /** The listener's view of the game: ACTION_SCORE_CHANGED with the new
      score, ACTION_STATE_CHANGED with the new state. */
  datatype Event = ScoreChanged(score: int) | StateChanged(state: State)

  /** The state codes the listener receives. */
  function StateCode(s: State): (c: int)
    ensures 11 <= c <= 15
    ensures s == Running <==> c == 11
    ensures s == GameOver <==> c == 12
    ensures s == KioskMode <==> c == 14
  {
    match s
    case Running => 11
    case GameOver => 12
    case NewGame => 13
    case KioskMode => 14
    case Paused => 15
  }

  /** What a pass reads and writes besides the draw list and the arrays.
      `loopStarted` is whether a game-loop thread exists (gameLoop != null). */
  datatype World = World(
    dots: map<int, Dot>,
    playerId: int,
    score: int,
    state: State,
    running: bool,
    paused: bool,
    loopStarted: bool,
    events: seq<Event>)

  /** What does not change during a tick: the tick, the screen, sin (as
      sin(pi * x)), kiosk mode and the colour-switch draw. */
  datatype Env = Env(t: int, screen: Screen, sinPi: real -> real, kiosk: bool, pick: bool)

  /** What updateGame writes into the render arrays for one dot. */
  datatype Attrs = Attrs(x: real, y: real, color: int, size: real)

  /** Every dot is stored under its own id, every bonus dot is well formed,
      and the player is a player dot in a palette colour that is never
      flagged. */
  predicate DotsOk(dots: map<int, Dot>, playerId: int) {
    && playerId in dots
    && dots[playerId].kind.Player?
    && dots[playerId].color in Palette
    && !dots[playerId].remove
    && (forall k :: k in dots ==> dots[k].id == k)
    && (forall k :: k in dots && dots[k].kind.Point? ==> PointWellFormed(dots[k]))
  }

  predicate WorldOk(w: World) {
    DotsOk(w.dots, w.playerId)
  }

  /** setGameState: the state changes and the listener hears of it. */
  function SetGameState(w: World, s: State): (r: World)
    ensures r.state == s && r.events == w.events + [StateChanged(s)]
    ensures r.(state := w.state, events := w.events) == w
  {
    w.(state := s, events := w.events + [StateChanged(s)])
  }

  /** gameOver: destroy stops a started loop (running and paused become
      false), then the state becomes GAME_OVER. */
  function EndGame(w: World): (r: World)
    ensures r.state == GameOver && r.events == w.events + [StateChanged(GameOver)]
    ensures w.loopStarted ==> !r.running && !r.paused
    ensures !w.loopStarted ==> r.running == w.running && r.paused == w.paused
    ensures r.dots == w.dots && r.score == w.score && r.playerId == w.playerId
    ensures r.loopStarted == w.loopStarted
  {
    var stopped := if w.loopStarted then w.(running := false, paused := false) else w;
    SetGameState(stopped, GameOver)
  }

  /** The bounce of updateGame: a direction component flips exactly when
      the moved dot is off-screen on that axis. */
  function Bounce(s: Screen, d: Dot): (r: Dot)
    ensures r == d.(vx := r.vx, vy := r.vy)
    ensures r.vx == if InsideX(s, d.x, GetSize(d)) then d.vx else -d.vx
    ensures r.vy == if InsideY(s, d.y, GetSize(d)) then d.vy else -d.vy
  {
    var f := IsPositionOnScreen(s, d.x, d.y, GetSize(d));
    var vx := if f.outLeft || f.outRight then -d.vx else d.vx;
    var vy := if f.outTop || f.outBottom then -d.vy else d.vy;
    d.(vx := vx, vy := vy)
  }

  /** didCollide(player, dots[id]). Returns whether the player touched the
      dot and the world after the one effect of the touch: a bonus dot adds
      5 and switches the player's colour, a dot of the player's colour adds
      1, any other dot ends the game. */
  function Collide(env: Env, w: World, id: int): (res: (bool, World))
    requires WorldOk(w) && id in w.dots
    ensures var (hit, r) := res;
      && WorldOk(r)
      && r.dots.Keys == w.dots.Keys && r.playerId == w.playerId
      && r.loopStarted == w.loopStarted
      && (forall k :: k in w.dots && k != w.playerId ==> r.dots[k] == w.dots[k])
      && (!hit ==> r == w)
      && (env.kiosk || id == w.playerId ==> !hit)
      && (!env.kiosk && id != w.playerId ==>
            (hit <==> IsPointOnDot(w.dots[w.playerId], w.dots[id].x, w.dots[id].y, GetSize(w.dots[id]))))
    ensures var (hit, r) := res; var p := w.dots[w.playerId]; var d := w.dots[id];
      && (hit && d.kind.Point? ==>
            && r.score == w.score + 5 && r.events == w.events + [ScoreChanged(r.score)]
            && r.dots[w.playerId] == p.(color := SwitchColor(p.color, env.pick))
            && r.state == w.state && r.running == w.running && r.paused == w.paused)
      && (hit && !d.kind.Point? && d.color == p.color ==>
            r == w.(score := w.score + 1, events := w.events + [ScoreChanged(w.score + 1)]))
      && (hit && !d.kind.Point? && d.color != p.color ==> r == EndGame(w))
  {
    if env.kiosk || w.playerId == id then (false, w)
    else
      var p := w.dots[w.playerId];
      var d := w.dots[id];
      if !IsPointOnDot(p, d.x, d.y, GetSize(d)) then (false, w)
      else if d.kind.Point? then
        var s := w.score + 5;
        (true, w.(score := s, events := w.events + [ScoreChanged(s)],
                  dots := w.dots[w.playerId := p.(color := SwitchColor(p.color, env.pick))]))
      else if p.color == d.color then
        var s := w.score + 1;
        (true, w.(score := s, events := w.events + [ScoreChanged(s)]))
      else
        (true, EndGame(w))
  }

  /** A touch changes the score by 5, 1 or not at all, and the score only
      stays put when the game ends. */
  lemma CollideScoreDelta(env: Env, w: World, id: int)
    requires WorldOk(w) && id in w.dots
    ensures var (hit, r) := Collide(env, w, id);
      && (r.score == w.score || r.score == w.score + 1 || r.score == w.score + 5)
      && (hit ==> (r.score == w.score <==> r.events == w.events + [StateChanged(GameOver)]))
  {
    var (hit, r) := Collide(env, w, id);
    if hit && r.score != w.score {
      var e := w.events + [StateChanged(GameOver)];
      assert r.events[|w.events|] != e[|w.events|];
    }
  }

  /** The visit of one dot that is not flagged: update it, bounce it, test
      it against the player, flag it when touched (force removal for a
      bonus dot), and otherwise report what to draw. */
  function VisitDot(env: Env, w: World, id: int): (res: (World, Option<Attrs>))
    requires WorldOk(w) && id in w.dots
    ensures WorldOk(res.0)
    ensures res.0.dots.Keys == w.dots.Keys && res.0.playerId == w.playerId
    ensures res.0.loopStarted == w.loopStarted
    ensures forall k :: k in w.dots && k != id && k != w.playerId ==> res.0.dots[k] == w.dots[k]
  {
    var u := Bounce(env.screen, Update(w.dots[id], env.t, env.screen, env.sinPi));
    var w1 := w.(dots := w.dots[id := u]);
    var (hit, w2) := Collide(env, w1, id);
    if hit then
      var flagged := if u.kind.Point? then FlagForForceRemoval(u) else FlagForRemoval(u, env.t);
      (w2.(dots := w2.dots[id := flagged]), None)
    else
      (w2, Some(Attrs(u.x, u.y, u.color, GetSize(u))))
  }

  /** What a visit does: the dot is updated and bounced; when it touched the
      player it is flagged (force removal for a bonus dot), nothing is drawn
      and the touch's effect applies; otherwise it is drawn as it now is. */
  lemma VisitDotOutcome(env: Env, w: World, id: int)
    requires WorldOk(w) && id in w.dots
    ensures var (r, drawn) := VisitDot(env, w, id);
      var u := Bounce(env.screen, Update(w.dots[id], env.t, env.screen, env.sinPi));
      var (hit, c) := Collide(env, w.(dots := w.dots[id := u]), id);
      && (hit ==> drawn == None && r.score >= w.score)
      && (hit && u.kind.Point? ==> r == c.(dots := c.dots[id := FlagForForceRemoval(u)]))
      && (hit && !u.kind.Point? ==> r == c.(dots := c.dots[id := FlagForRemoval(u, env.t)]))
      && (!hit ==> r == w.(dots := w.dots[id := u]) && drawn == Some(Attrs(u.x, u.y, u.color, GetSize(u))))
  {
  }

  /** The result of walking a prefix of the draw list: the world, the ids
      still listed, and for each of them what was drawn in its slot. */
  datatype Pass = Pass(w: World, kept: seq<int>, drawn: seq<Option<Attrs>>)

  /** No id is listed twice. */
  predicate Distinct(ids: seq<int>) {
    forall x :: x in multiset(ids) ==> multiset(ids)[x] == 1
  }

  /** updateGame's walk over the first |ids| entries of the draw list: an
      entry found flagged when its turn comes is dropped, every other one is
      visited and keeps its place. */
  function ProcessPrefix(env: Env, w0: World, ids: seq<int>): (p: Pass)
    requires WorldOk(w0)
    requires forall i :: 0 <= i < |ids| ==> ids[i] in w0.dots
    ensures WorldOk(p.w)
    ensures p.w.dots.Keys == w0.dots.Keys && p.w.playerId == w0.playerId
    ensures |p.kept| == |p.drawn| <= |ids|
    decreases |ids|
  {
    if ids == [] then Pass(w0, [], [])
    else Step(env, ProcessPrefix(env, w0, ids[..|ids| - 1]), ids[|ids| - 1])
  }

  /** One turn of the walk: a flagged entry is dropped, any other visited. */
  function Step(env: Env, p: Pass, id: int): (r: Pass)
    requires WorldOk(p.w) && id in p.w.dots
    ensures IsFlaggedForRemoval(p.w.dots[id]) ==> r == p
    ensures !IsFlaggedForRemoval(p.w.dots[id]) ==>
              r == Pass(VisitDot(env, p.w, id).0, p.kept + [id], p.drawn + [VisitDot(env, p.w, id).1])
  {
    if IsFlaggedForRemoval(p.w.dots[id]) then p
    else
      var (w, a) := VisitDot(env, p.w, id);
      Pass(w, p.kept + [id], p.drawn + [a])
  }

  /** The walk over one more entry is one more step. */
  lemma PrefixStep(env: Env, w0: World, ids: seq<int>, j: int)
    requires WorldOk(w0)
    requires forall i :: 0 <= i < |ids| ==> ids[i] in w0.dots
    requires 0 <= j < |ids|
    ensures ids[j] in ProcessPrefix(env, w0, ids[..j]).w.dots
    ensures ProcessPrefix(env, w0, ids[..j + 1]) == Step(env, ProcessPrefix(env, w0, ids[..j]), ids[j])
  {
    assert ids[..j + 1][..j] == ids[..j];
  }

  /** The ids of `ids` from index j on (ids[j..]), taken one at a time. */
  ghost function Rest(ids: seq<int>, j: int): (r: seq<int>)
    requires 0 <= j <= |ids|
    ensures |r| == |ids| - j
    decreases |ids| - j
  {
    if j == |ids| then [] else [ids[j]] + Rest(ids, j + 1)
  }

  lemma {:induction false} RestIsSuffix(ids: seq<int>, j: int)
    requires 0 <= j <= |ids|
    ensures Rest(ids, j) == ids[j..]
    decreases |ids| - j
  {
    if j < |ids| {
      RestIsSuffix(ids, j + 1);
      assert ids[j..] == [ids[j]] + ids[j + 1..];
    }
  }

  /** The whole list is its own rest. */
  lemma RestOfAll(ids: seq<int>)
    ensures Rest(ids, 0) == ids
  {
    RestIsSuffix(ids, 0);
  }

  /** Dropping the last id of a list without repeats leaves one without
      repeats that does not hold that id. */
  lemma DistinctInit(ids: seq<int>)
    requires Distinct(ids) && ids != []
    ensures Distinct(ids[..|ids| - 1]) && ids[|ids| - 1] !in ids[..|ids| - 1]
  {
    var init := ids[..|ids| - 1];
    var last := ids[|ids| - 1];
    assert ids == init + [last];
    assert multiset(ids) == multiset(init) + multiset{last};
    forall x | x in multiset(init)
      ensures multiset(init)[x] == 1
    {
      assert x in multiset(ids);
    }
    assert last in multiset(ids);
    assert multiset(init)[last] == 0;
  }

  /** The ids of `ids` whose dots are not flagged in `dots`, in order. */
  function Survivors(dots: map<int, Dot>, ids: seq<int>): (r: seq<int>)
    requires forall i :: 0 <= i < |ids| ==> ids[i] in dots
    ensures |r| <= |ids|
    ensures forall i :: 0 <= i < |r| ==> r[i] in ids
    ensures multiset(r) <= multiset(ids)
    ensures Distinct(ids) ==> Distinct(r)
  {
    if ids == [] then []
    else
      var init := ids[..|ids| - 1];
      var id := ids[|ids| - 1];
      assert ids == init + [id];
      var rest := Survivors(dots, init);
      if IsFlaggedForRemoval(dots[id]) then rest else rest + [id]
  }

  /** A pass touches no dot outside the list other than the player. */
  lemma {:induction false} PrefixFrame(env: Env, w0: World, ids: seq<int>)
    requires WorldOk(w0)
    requires forall i :: 0 <= i < |ids| ==> ids[i] in w0.dots
    ensures var p := ProcessPrefix(env, w0, ids);
            forall k :: k in w0.dots && k !in ids && k != w0.playerId ==> p.w.dots[k] == w0.dots[k]
    decreases |ids|
  {
    if ids != [] {
      var init := ids[..|ids| - 1];
      PrefixFrame(env, w0, init);
      forall k | k in w0.dots && k !in ids
        ensures k !in init
      {
        assert forall i :: 0 <= i < |init| ==> init[i] == ids[i];
      }
    }
  }

  /** The dots dropped by a pass are exactly those flagged at its start, and
      the survivors keep their relative order: each dot is visited once,
      and the only dot touched on another's visit is the player, which is
      never flagged. */
  lemma {:induction false} KeptIsFilter(env: Env, w0: World, ids: seq<int>)
    requires WorldOk(w0)
    requires forall i :: 0 <= i < |ids| ==> ids[i] in w0.dots
    requires Distinct(ids)
    ensures ProcessPrefix(env, w0, ids).kept == Survivors(w0.dots, ids)
    decreases |ids|
  {
    if ids != [] {
      var init := ids[..|ids| - 1];
      var id := ids[|ids| - 1];
      DistinctInit(ids);
      KeptIsFilter(env, w0, init);
      PrefixFrame(env, w0, init);
      var p := ProcessPrefix(env, w0, init);
      assert id !in init;
      assert IsFlaggedForRemoval(p.w.dots[id]) == IsFlaggedForRemoval(w0.dots[id]);
    }
  }

  /** A walk that has reached the end of the list: the list left behind
      is the filtered one, so it is distinct, no longer than before, and
      names only dots of the new world. */
  lemma PassComplete(env: Env, w0: World, ids: seq<int>, j: int, pass: Pass, left: seq<int>)
    requires WorldOk(w0)
    requires forall i :: 0 <= i < |ids| ==> ids[i] in w0.dots
    requires Distinct(ids)
    requires 0 <= j <= |ids| && pass == ProcessPrefix(env, w0, ids[..j])
    requires left == pass.kept + Rest(ids, j) && |left| <= |pass.kept|
    ensures pass == ProcessPrefix(env, w0, ids)
    ensures left == pass.kept == Survivors(w0.dots, ids)
    ensures Distinct(left) && |left| <= |ids|
    ensures forall i :: 0 <= i < |left| ==> left[i] in pass.w.dots
  {
    assert ids[..j] == ids;
    KeptIsFilter(env, w0, ids);
  }

  /** The score never goes down during a pass. */
  lemma {:induction false} ScoreNeverDecreases(env: Env, w0: World, ids: seq<int>)
    requires WorldOk(w0)
    requires forall i :: 0 <= i < |ids| ==> ids[i] in w0.dots
    ensures ProcessPrefix(env, w0, ids).w.score >= w0.score
    decreases |ids|
  {
    if ids != [] {
      ScoreNeverDecreases(env, w0, ids[..|ids| - 1]);
    }
  }

  /** In kiosk mode nothing collides: a pass changes neither the score, the
      state, the loop flags nor the event log. */
  lemma {:induction false} KioskPassIsQuiet(env: Env, w0: World, ids: seq<int>)
    requires WorldOk(w0) && env.kiosk
    requires forall i :: 0 <= i < |ids| ==> ids[i] in w0.dots
    ensures var w := ProcessPrefix(env, w0, ids).w;
      w.score == w0.score && w.state == w0.state && w.running == w0.running
      && w.paused == w0.paused && w.events == w0.events
    ensures forall i :: 0 <= i < |ProcessPrefix(env, w0, ids).drawn| ==>
              ProcessPrefix(env, w0, ids).drawn[i].Some?
    decreases |ids|
  {
    if ids != [] {
      var init := ids[..|ids| - 1];
      KioskPassIsQuiet(env, w0, init);
      var p := ProcessPrefix(env, w0, init);
      var id := ids[|ids| - 1];
      if !IsFlaggedForRemoval(p.w.dots[id]) {
        KioskVisitIsQuiet(env, p.w, id);
      }
    }
  }

  /** The event log only grows. */
  lemma {:induction false} EventsOnlyGrow(env: Env, w0: World, ids: seq<int>)
    requires WorldOk(w0)
    requires forall i :: 0 <= i < |ids| ==> ids[i] in w0.dots
    ensures w0.events <= ProcessPrefix(env, w0, ids).w.events
    decreases |ids|
  {
    if ids != [] {
      var init := ids[..|ids| - 1];
      EventsOnlyGrow(env, w0, init);
      var p := ProcessPrefix(env, w0, init);
      var id := ids[|ids| - 1];
      if !IsFlaggedForRemoval(p.w.dots[id]) {
        VisitExtendsEvents(env, p.w, id);
      }
    }
  }

  lemma KioskVisitIsQuiet(env: Env, w: World, id: int)
    requires WorldOk(w) && id in w.dots && env.kiosk
    ensures var (r, drawn) := VisitDot(env, w, id);
      r.score == w.score && r.state == w.state && r.running == w.running
      && r.paused == w.paused && r.events == w.events && drawn.Some?
  {
  }

  lemma VisitExtendsEvents(env: Env, w: World, id: int)
    requires WorldOk(w) && id in w.dots
    ensures w.events <= VisitDot(env, w, id).0.events
  {
  }
}
