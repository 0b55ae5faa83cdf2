# United Colors: the game model and the score guard

This project models the core of the Android game "United Colors". It is a Dafny
model with proofs.

The game runs on an integer tick. On every tick the `GameManager` does the
following, in order:

- It may spawn a small coloured dot. The dot enters from a random screen edge,
  and the wait between spawns shrinks with the tick.
- It may spawn a bonus ("point") dot in the player's colour, away from the player.
- It walks its draw list:
  - a dot found flagged for removal is dropped in place;
  - every other dot is moved and bounced off the screen edges, then tested
    against the player;
  - a dot that touched nobody is written into three fixed-size render arrays at
    its list index.

A touch has one of three effects:

- a dot of the player's colour scores 1;
- a bonus dot scores 5 and switches the player to another palette colour;
- any other dot ends the game.

The player is steered by a pending sensor displacement. An axis on which the
player would leave the screen is zeroed instead of moved. A bonus dot zooms in,
then pulses, and zooms out once it is flagged. While a zoom runs, the dot
cannot be removed.

Animations are time-driven interpolators. A size animation stops itself at
100% and notifies its completion handler. A pulse animation never reads its
percentage, so it runs until it is stopped.

The `ScoreGuard` stores the high score in the preferences store as
`checksum ":" key hex(score * prime)`. It reads the score back only when the
shape, the checksum (an MD5 digest, RFC 1321, in hexadecimal) and the key all
match.

The files:

| file | module | models |
|---|---|---|
| wrappers.dfy | `Wrappers` | `Option` and `Result` |
| rules.dfy | `Rules` | the constants of `GameRules` and of `GameManager` |
| animation.dfy | `Animations` | `Animation`, `SizeAnimation` and `PulseAnimation` as values |
| screen.dfy | `ScreenBounds` | `isPositionOnScreen` |
| dots.dfy | `Dots` | `Dot`, `PlayerDot` and `PointDot` as one datatype with a `kind` |
| spawning.dfy | `Spawning` | the palette, the spawn wait, the placement of a new dot, and the colour switch |
| collision.dfy | `Collision` | `isPointOnDot` |
| tick.dfy | `Tick` | the pass of `updateGame` over the draw list, as functions: the specification |
| game.dfy | `Game` | the `GameManager` class: the in-place pass, the spawn rules, the state transitions and the catch-up loop |
| score_guard.dfy | `ScoreGuard` | the encoding, the decoding, and the `Guard` singleton |

Modelling choices:

- Dots are values. They live in the manager's map `dots`, keyed by their unique
  id (`Dot.ID`).
- The draw list, the player and the current bonus dot refer to dots by id.
  This is how the model keeps the aliasing of `drawList`, `mPlayerDot` and
  `mPointDot`.
- The listener calls of `performAction` are an appended event log.
- Random draws, `Math.sqrt` and `Math.sin` are parameters. `sinPi(x)` stands
  for sin(pi x).
- Float fields are reals.

The two spawn rules are functions on `SpawnState`, the part of the manager
they read and write: `SmallSpawn` for `spawnRandomDot` and `BigSpawn` for
`spawnBigPoint`. The methods are proved against them.

The in-place loop `GameManager.ProcessDrawList` is proved against the
function `Tick.ProcessPrefix`. Its ensures says three things:

- The new list is the list of dots that were not flagged when the pass
  started, in their old order (`Tick.Survivors`).
- The world is the one the specification computes.
- Each render array is the specified painting of the old array.

## Model

All source paths below are under `app/src/main/java/com/fredrikux/unitedcolors/`.

| member | source | states |
|---|---|---|
| Animations.NewSizeAnimation | app/src/main/java/com/fredrikux/unitedcolors/utils/Animation.java:12-15 | a new size animation is not running and has no completion handler |
| Animations.NewPulseAnimation | app/src/main/java/com/fredrikux/unitedcolors/models/PulseAnimation.java:19-21 | a new pulse keeps the given speed, is not running and has no handler |
| Animations.SetFromToValues | app/src/main/java/com/fredrikux/unitedcolors/models/SizeAnimation.java:16-19 | afterwards the animation starts at `from` and aims at `to` (a size animation keeps to - from); the kind and a pulse's speed are kept |
| Animations.StartAnimation | app/src/main/java/com/fredrikux/unitedcolors/utils/Animation.java:38-43 | the start, the length and the running flag are set, from/to are forwarded, and the handler is kept |
| Animations.StartLooping | app/src/main/java/com/fredrikux/unitedcolors/utils/Animation.java:27-29 | the three-argument start is the four-argument start with length -1 |
| Animations.Stop | app/src/main/java/com/fredrikux/unitedcolors/utils/Animation.java:48-67 | stopping clears the running flag and notifies the handler exactly when one is set, whether or not the animation was running; nothing else changes |
| Animations.SetCompletionHandler | app/src/main/java/com/fredrikux/unitedcolors/utils/Animation.java:73-75 | a handler is set and nothing else changes |
| Animations.Percentage | app/src/main/java/com/fredrikux/unitedcolors/utils/Animation.java:92-112 | the percentage lies in [0, 1]; for length -1 it is 0 and nothing changes; otherwise it is 1 exactly from start + length on, 0 exactly up to the start, and elapsed/length in between; reaching 1 is a Stop, below 1 nothing changes |
| Animations.SizeAt | app/src/main/java/com/fredrikux/unitedcolors/models/SizeAnimation.java:27 | the interpolated size is `from` at 0, `to` at 1, and between the two for every percentage in [0, 1] |
| Animations.UpdateSize | app/src/main/java/com/fredrikux/unitedcolors/models/SizeAnimation.java:22-30 | the reported size lies between from and to; it is `from` up to the start; the animation is unchanged before the end; from the end on the size is `to`, the animation is stopped and the handler is notified (so the notification comes with the final size) |
| Animations.PulsePhase | app/src/main/java/com/fredrikux/unitedcolors/models/PulseAnimation.java:41 | (t / speed) % 2 with Java's floating remainder lies in [0, 2) for a non-negative quotient and in (-2, 0] for a negative one |
| Animations.PulseValue | app/src/main/java/com/fredrikux/unitedcolors/models/PulseAnimation.java:43-47 | the pulse is `from` at sine -1, `to` at sine 1, and between the two for every sine in [-1, 1] |
| Animations.UpdatePulse | app/src/main/java/com/fredrikux/unitedcolors/models/PulseAnimation.java:39-48 | whenever the sine is in [-1, 1] the pulse's size lies between from and to |
| Animations.CompletionRepeats | app/src/main/java/com/fredrikux/unitedcolors/models/SizeAnimation.java:22-30 | an update after completion reports `to` again and notifies the handler again |
| Animations.PulseIgnoresTiming | app/src/main/java/com/fredrikux/unitedcolors/models/PulseAnimation.java:39-48 | a pulse's output depends only on the tick, the speed and from/to: start, length, running flag and handler are never read |
| Dots.NewDot | app/src/main/java/com/fredrikux/unitedcolors/models/Dot.java:37-45 | the constructor copies position, direction, colour, size and velocity, and the dot is not flagged |
| Dots.Move | app/src/main/java/com/fredrikux/unitedcolors/models/Dot.java:94-99 | the dot moves by (vx·velocity, vy·velocity), ignores the tick, and nothing else changes |
| Dots.SetSize | app/src/main/java/com/fredrikux/unitedcolors/models/Dot.java:106-118 | getSize after setSize returns the value set, and nothing else changes |
| Dots.FlagForRemoval | app/src/main/java/com/fredrikux/unitedcolors/models/PointDot.java:140-155 | the base flag is set; an ordinary or player dot becomes removable; a bonus dot stops its pulse and starts a zoom-out from its size to 0 only when no zoom runs (a running zoom is not restarted), so it is not yet removable |
| Dots.FlagForForceRemoval | app/src/main/java/com/fredrikux/unitedcolors/models/PointDot.java:162-166 | only the base flag changes; a bonus dot is then removable exactly when no zoom runs |
| Dots.FlagForRemovalIdempotent | app/src/main/java/com/fredrikux/unitedcolors/models/Dot.java:125-136 | flagging twice is flagging once |
| Dots.NewPlayerDot | app/src/main/java/com/fredrikux/unitedcolors/models/PlayerDot.java:33-36 | a player dot starts with direction (0, 0), no pending displacement and the flag clear |
| Dots.UpdateOrientation | app/src/main/java/com/fredrikux/unitedcolors/models/PlayerDot.java:125-133 | the pending displacement becomes the reading times the velocity, and nothing else changes |
| Dots.PlayerStep | app/src/main/java/com/fredrikux/unitedcolors/models/PlayerDot.java:85-116 | each axis moves by the pending displacement when the moved box stays on screen on that axis, and otherwise does not move and its displacement is zeroed; size, colour, direction and flag never change |
| Dots.PlayerStaysOnScreen | app/src/main/java/com/fredrikux/unitedcolors/models/PlayerDot.java:85-116 | a player whose box is on screen is still on screen after an update |
| Dots.ZeroedAxisStaysStill | app/src/main/java/com/fredrikux/unitedcolors/models/PlayerDot.java:99-110 | a zeroed axis stays zeroed and still on later updates |
| Dots.NewPointDot | app/src/main/java/com/fredrikux/unitedcolors/models/PointDot.java:61-73 | a bonus dot starts still at size 0, with a zoom-in 0 to size of length 10 running from the creation tick and the pulse-starting handler set, and is not removable |
| Dots.PointAnimate | app/src/main/java/com/fredrikux/unitedcolors/models/PointDot.java:112-122 | the zoom is advanced if it runs, otherwise the pulse if that runs, never both; when the zoom completes, the handler starts the pulse from the size before the final size towards 85% of it |
| Dots.PointUpdate | app/src/main/java/com/fredrikux/unitedcolors/models/PointDot.java:112-133 | after animating, a dot at least 150 ticks old that is not yet removable is flagged for removal |
| Dots.Update | app/src/main/java/com/fredrikux/unitedcolors/models/Dot.java:94-136 | an update keeps the id, the colour and the kind, never clears the removal flag, and changes the size only of a bonus dot |
| Dots.CompletionStartsPulse | app/src/main/java/com/fredrikux/unitedcolors/models/PointDot.java:39-50 | every completion of a zoom, in or out, sets the goal size and starts an indefinite pulse from the prior size s towards 0.85·s |
| Dots.NewPointDotSane | app/src/main/java/com/fredrikux/unitedcolors/models/PointDot.java:61-73 | with a size of at least 0, every size a new bonus dot can take is non-negative |
| Dots.FlagKeepsSane | app/src/main/java/com/fredrikux/unitedcolors/models/PointDot.java:140-166 | flagging keeps every size non-negative |
| Dots.UpdateKeepsSane | app/src/main/java/com/fredrikux/unitedcolors/models/PointDot.java:112-133 | with a sine in [-1, 1], an update keeps every size non-negative |
| ScreenBounds.IsPositionOnScreen | app/src/main/java/com/fredrikux/unitedcolors/models/GameManager.java:702-714 | the left or right flag is set exactly when the box leaves [0, W], the top or bottom flag exactly when it leaves [0, H], and the on-screen flag exactly when it does neither |
| Spawning.PaletteDistinct | app/src/main/java/com/fredrikux/unitedcolors/models/GameManager.java:43-47 | the three palette colours are distinct |
| Spawning.SpawnWaitTime | app/src/main/java/com/fredrikux/unitedcolors/models/GameManager.java:777-793 | 120 in kiosk mode; otherwise in [0, 120] for t >= 0, exactly 120·(7200 - t)/7200 up to 7200, and 0 from 7200 on |
| Spawning.SpawnWaitNonIncreasing | app/src/main/java/com/fredrikux/unitedcolors/models/GameManager.java:777-793 | the wait never grows as the tick grows |
| Spawning.PlaceRandomDot | app/src/main/java/com/fredrikux/unitedcolors/models/GameManager.java:404-451 | a new small dot starts on the chosen edge with the across-edge direction pointing into the screen (left vx >= 0, right vx <= 0, top vy >= 0, bottom vy <= 0), and the along-edge coordinate lies in [size, extent) |
| Spawning.AlongEdge | app/src/main/java/com/fredrikux/unitedcolors/models/GameManager.java:420 | nextFloat()·max + size lies in [size, max + size) |
| Spawning.Normalize | app/src/main/java/com/fredrikux/unitedcolors/models/GameManager.java:457-461 | normalising keeps the sign of each component, and the result times the norm is the input |
| Spawning.SwitchColor | app/src/main/java/com/fredrikux/unitedcolors/models/GameManager.java:675-682 | for a current colour from the palette (an invariant of the world: the player is created in a palette colour and only this function recolours it) the new colour is a palette colour other than the current one |
| Spawning.SwitchColorReachesEveryOther | app/src/main/java/com/fredrikux/unitedcolors/models/GameManager.java:675-682 | every other palette colour can be the result of the retry loop |
| Collision.IsPointOnDot | app/src/main/java/com/fredrikux/unitedcolors/models/GameManager.java:528-544 | the circles touch exactly when 4·distance² <= (size + s)² |
| Collision.OverlapSymmetric | app/src/main/java/com/fredrikux/unitedcolors/models/GameManager.java:528-544 | the test is symmetric in the two circles |
| Collision.SameCentreTouches | app/src/main/java/com/fredrikux/unitedcolors/models/GameManager.java:528-544 | circles with the same centre always touch |
| Collision.FarApartMisses | app/src/main/java/com/fredrikux/unitedcolors/models/GameManager.java:528-544 | circles further apart on one axis than the sum of the radii do not touch |
| Tick.StateCode | app/src/main/java/com/fredrikux/unitedcolors/models/GameManager.java:53-58 | the states are coded 11 to 15, with RUNNING 11, GAME_OVER 12 and KIOSK_MODE 14 |
| Tick.SetGameState | app/src/main/java/com/fredrikux/unitedcolors/models/GameManager.java:724-727 | the state is set, the listener hears of it, and nothing else changes |
| Tick.EndGame | app/src/main/java/com/fredrikux/unitedcolors/models/GameManager.java:871-874 | game over stops a started loop (running and paused false), sets GAME_OVER with its event, and keeps dots and score |
| Tick.Bounce | app/src/main/java/com/fredrikux/unitedcolors/models/GameManager.java:570-582 | a direction component is negated exactly when the moved dot is off screen on that axis |
| Tick.Collide | app/src/main/java/com/fredrikux/unitedcolors/models/GameManager.java:627-672 | no touch in kiosk mode or with the player itself; otherwise a touch exactly when the circles overlap, with exactly one effect: a bonus dot scores 5 and switches the player's colour, a same-coloured dot scores 1, any other dot ends the game; without a touch nothing changes |
| Tick.CollideScoreDelta | app/src/main/java/com/fredrikux/unitedcolors/models/GameManager.java:627-672 | a touch changes the score by 0, 1 or 5, and by 0 exactly when the game ends |
| Tick.VisitDot | app/src/main/java/com/fredrikux/unitedcolors/models/GameManager.java:565-606 | a visit keeps the world well formed and changes no dot other than the visited one and the player |
| Tick.VisitDotOutcome | app/src/main/java/com/fredrikux/unitedcolors/models/GameManager.java:565-606 | the dot is updated and bounced; on a touch it is flagged (force removal for a bonus dot), nothing is drawn and the score does not fall; otherwise it is drawn with its new position, colour and size |
| Tick.ProcessPrefix | app/src/main/java/com/fredrikux/unitedcolors/models/GameManager.java:557-608 | a pass keeps the world well formed, the set of dots and the player, and keeps one drawn entry per kept id |
| Tick.Survivors | app/src/main/java/com/fredrikux/unitedcolors/models/GameManager.java:557-564 | the unflagged ids, in order: no more than before, all from the list, and without repeats when the list has none |
| Tick.PrefixFrame | app/src/main/java/com/fredrikux/unitedcolors/models/GameManager.java:557-608 | a pass changes no dot outside the list other than the player |
| Tick.KeptIsFilter | app/src/main/java/com/fredrikux/unitedcolors/models/GameManager.java:557-564 | the ids a pass keeps are exactly the ids not flagged at its start, in their old order |
| Tick.ScoreNeverDecreases | app/src/main/java/com/fredrikux/unitedcolors/models/GameManager.java:551-610 | the score never goes down during a pass |
| Tick.KioskPassIsQuiet | app/src/main/java/com/fredrikux/unitedcolors/models/GameManager.java:633-635 | in kiosk mode a pass changes neither score, state, loop flags nor the event log, and draws every visited dot |
| Tick.EventsOnlyGrow | app/src/main/java/com/fredrikux/unitedcolors/models/GameManager.java:860-866 | a pass only appends to the event log |
| Game.Channel | app/src/main/java/com/fredrikux/unitedcolors/models/GameManager.java:601-603 | each colour channel divided by 255 lies in [0, 1] |
| Game.PaintPositionsSlots | app/src/main/java/com/fredrikux/unitedcolors/models/GameManager.java:598-599 | slot i of the positions holds the x, y of the i-th kept dot when it was drawn, and keeps its old value otherwise and past the list |
| Game.PaintColorsSlots | app/src/main/java/com/fredrikux/unitedcolors/models/GameManager.java:601-603 | slot i of the colours holds the three channels of the i-th kept dot when it was drawn, and keeps its old value otherwise and past the list |
| Game.PaintSizesSlots | app/src/main/java/com/fredrikux/unitedcolors/models/GameManager.java:605 | slot i of the sizes holds the size of the i-th kept dot when it was drawn, and keeps its old value otherwise and past the list |
| Game.CatchUp | app/src/main/java/com/fredrikux/unitedcolors/models/GameManager.java:248-264 | at most 5 catch-up ticks, each taken while more than one update behind; fewer than 5 only when no longer behind; afterwards the loop is at most one update behind |
| Game.GameManager.constructor | app/src/main/java/com/fredrikux/unitedcolors/models/GameManager.java:95-115 | the player dot is created at the screen's centre in the drawn palette colour and is the only listed dot; the state is KIOSK_MODE, score 0, no bonus dot, no loop |
| Game.GameManager.AddDotToDrawList | app/src/main/java/com/fredrikux/unitedcolors/models/GameManager.java:716-722 | the id is appended only while fewer than 200 are listed, so the list never exceeds DOT_LIMIT |
| Game.GameManager.SetGameState | app/src/main/java/com/fredrikux/unitedcolors/models/GameManager.java:724-727 | the manager's state follows Tick.SetGameState |
| Game.GameManager.GameOver | app/src/main/java/com/fredrikux/unitedcolors/models/GameManager.java:871-874 | the manager's state follows Tick.EndGame |
| Game.GameManager.Destroy | app/src/main/java/com/fredrikux/unitedcolors/models/GameManager.java:921-929 | a started loop stops running and is no longer paused; nothing else changes |
| Game.GameManager.Pause | app/src/main/java/com/fredrikux/unitedcolors/models/GameManager.java:879-890 | a started loop is paused, and the state becomes PAUSED with its event |
| Game.GameManager.UnPause | app/src/main/java/com/fredrikux/unitedcolors/models/GameManager.java:895-908 | a paused, started loop resumes, and the state becomes KIOSK_MODE or RUNNING as the mode says |
| Game.GameManager.StartNewGame | app/src/main/java/com/fredrikux/unitedcolors/models/GameManager.java:143-224 | a live loop is destroyed first; then the reset: in kiosk mode an empty list and KIOSK_MODE, otherwise the list [player] with the player re-centred at its original size and RUNNING; no bonus dot, score 0, small-dot timer 0, running |
| Game.GameManager.GameLoopReset | app/src/main/java/com/fredrikux/unitedcolors/models/GameManager.java:188-224 | the reset at the top of the loop: the list and player as ResetPlayer says, the state for the mode with its event, no bonus dot, score 0, small-dot timer 0, running |
| Game.GameManager.ResetPlayer | app/src/main/java/com/fredrikux/unitedcolors/models/GameManager.java:190-202 | the list is cleared; outside kiosk mode it holds just the player, re-centred at its original size |
| Game.GameManager.ResetRound | app/src/main/java/com/fredrikux/unitedcolors/models/GameManager.java:213-224 | no bonus dot, score 0, small-dot timer 0, and running |
| Game.GameManager.OnOrientationUpdate | app/src/main/java/com/fredrikux/unitedcolors/models/GameManager.java:76-79 | the sensor reading becomes the player's pending displacement, and nothing else changes |
| Game.GameManager.CreateRandomDot | app/src/main/java/com/fredrikux/unitedcolors/models/GameManager.java:404-473 | a new dot with the next id, placed by PlaceRandomDot, normalised, in colour palette[counter mod 3]; the counter grows by 1; it is listed when the list has room |
| Game.Listed | app/src/main/java/com/fredrikux/unitedcolors/models/GameManager.java:716-722 | the id is appended exactly when fewer than DOT_LIMIT ids are listed; otherwise the list is unchanged |
| Game.GameManager.SmallSpawn | app/src/main/java/com/fredrikux/unitedcolors/models/GameManager.java:371-394 | a small dot is due exactly when t - last > wait and (not kiosk or fewer than 10 listed); then the timer becomes t even if the full list takes no dot, and an ordinary dot in colour palette[counter mod 3] gets a fresh id and is listed when there is room; no existing dot changes; when it is not due nothing changes |
| Game.GameManager.SpawnRandomDot | app/src/main/java/com/fredrikux/unitedcolors/models/GameManager.java:371-394 | the manager's spawn state afterwards is SmallSpawn of its spawn state before: the exact new dot, its listing and the timer, or nothing when no dot is due |
| Game.GameManager.SpawnPointDot | app/src/main/java/com/fredrikux/unitedcolors/models/GameManager.java:319-340 | the bonus dot PointDotAt describes, in the player's colour at the accepted draw and clear of the player by twice its size, is added under the next id and listed when the list has room |
| Game.GameManager.BigSpawn | app/src/main/java/com/fredrikux/unitedcolors/models/GameManager.java:475-517 | a bonus dot is due exactly when there is none and t > wait, or the current one is removable and t - pointStep > wait; then a bonus dot in the player's colour gets a fresh id, is listed when there is room, becomes the current one with its timer at t, and an accepted draw keeps it clear of the player; otherwise only the timer can change, following the tick while the current one is not removable; no existing dot changes |
| Game.GameManager.SmallSpawnKeepsPointRule | app/src/main/java/com/fredrikux/unitedcolors/models/GameManager.java:553-554 | the small-dot rule does not change whether a bonus dot is due or whether a draw is accepted |
| Game.GameManager.BothSpawnsListed | app/src/main/java/com/fredrikux/unitedcolors/models/GameManager.java:553-554 | when both rules fire on one tick and there is room, the list gains the small dot and then the bonus dot with the next id, which becomes the current one |
| Game.GameManager.SpawnBigPoint | app/src/main/java/com/fredrikux/unitedcolors/models/GameManager.java:475-517 | the manager's spawn state afterwards is BigSpawn of its spawn state before: the exact new bonus dot, its listing, the current bonus dot and its timer |
| Game.GameManager.SpawnCurrentPoint | app/src/main/java/com/fredrikux/unitedcolors/models/GameManager.java:488-496 | the bonus dot PointDotAt describes is added under the next id and listed when there is room; it becomes the current one and its timer starts at t |
| Game.GameManager.ApplyVisit | app/src/main/java/com/fredrikux/unitedcolors/models/GameManager.java:595-606 | the visited world is committed, and a drawn dot's x, y, channels and size land in slot i of the three arrays |
| Game.GameManager.WriteSlot | app/src/main/java/com/fredrikux/unitedcolors/models/GameManager.java:598-605 | the six writes of slot i, in bounds, and no other array entry changes |
| Game.GameManager.Advance | app/src/main/java/com/fredrikux/unitedcolors/models/GameManager.java:557-607 | one turn of the loop keeps the list, the world and the arrays in step with one more entry of the specification |
| Game.GameManager.RemoveAt | app/src/main/java/com/fredrikux/unitedcolors/models/GameManager.java:616-618 | the entry at i leaves the list; nothing else changes |
| Game.GameManager.ProcessDrawList | app/src/main/java/com/fredrikux/unitedcolors/models/GameManager.java:556-608 | the in-place loop yields the world, list and arrays of Tick.ProcessPrefix; the new list is the unflagged dots in their old order; every array write is in bounds; the manager stays valid |
| Game.GameManager.SpawnDots | app/src/main/java/com/fredrikux/unitedcolors/models/GameManager.java:553-554 | the spawn state after both rules is BigSpawn of SmallSpawn of the spawn state before; the rest of the world only gains the new dots |
| Game.GameManager.UpdateGame | app/src/main/java/com/fredrikux/unitedcolors/models/GameManager.java:551-610 | a tick runs the small-dot rule, then the bonus-dot rule, then the pass: the timers, counter, Dot.ID and current bonus dot are those of the two spawn rules; the world, the list and the three arrays are those of Tick.ProcessPrefix from the spawned world and list; the list is the unflagged survivors in order; the score never drops, events are only appended, and kiosk mode changes neither score, state nor events |
| ScoreGuard.WrapLong | app/src/main/java/com/fredrikux/unitedcolors/models/ScoreGuard.java:66 | a long product is the exact product wrapped to 64 bits: a long congruent to it, and equal to it when it fits |
| ScoreGuard.WrapInt | app/src/main/java/com/fredrikux/unitedcolors/models/ScoreGuard.java:129 | the (int) cast keeps the low 32 bits: an int congruent to the long, and equal to it when it fits |
| ScoreGuard.Unsigned | app/src/main/java/com/fredrikux/unitedcolors/models/ScoreGuard.java:67 | toHexString reads a long as unsigned: below 2^64, congruent to it, and above Long.MAX_VALUE exactly for a negative long |
| ScoreGuard.HexChar | app/src/main/java/com/fredrikux/unitedcolors/models/ScoreGuard.java:67 | the digit written for d is a lower-case hex digit whose value is d |
| ScoreGuard.ToHex | app/src/main/java/com/fredrikux/unitedcolors/models/ScoreGuard.java:67 | hex of a number is non-empty lower-case hex with no colon or sign, "0" exactly for 0, and without a leading zero otherwise |
| ScoreGuard.HexRoundTrip | app/src/main/java/com/fredrikux/unitedcolors/models/ScoreGuard.java:128 | reading back the hex digits gives the number |
| ScoreGuard.ParseLongHex | app/src/main/java/com/fredrikux/unitedcolors/models/ScoreGuard.java:128 | parseLong(s, 16) throws NumberFormatException on an empty string; on digits alone it succeeds exactly when the value fits in a long, and then gives that value |
| ScoreGuard.LowerAscii | app/src/main/java/com/fredrikux/unitedcolors/models/ScoreGuard.java:121 | lower-casing keeps the length, leaves no upper-case letter, and changes nothing in a string without one |
| ScoreGuard.JoinPieces | app/src/main/java/com/fredrikux/unitedcolors/models/ScoreGuard.java:110 | the pieces between colons, glued back with colons, give the string |
| ScoreGuard.DropTrailingEmpty | app/src/main/java/com/fredrikux/unitedcolors/models/ScoreGuard.java:110 | split keeps a prefix of the pieces that does not end in an empty piece and drops only empty ones |
| ScoreGuard.SplitColon | app/src/main/java/com/fredrikux/unitedcolors/models/ScoreGuard.java:110 | split(":") yields colon-free parts, the whole string when it has no colon, and no empty part at the end |
| ScoreGuard.SplitTwo | app/src/main/java/com/fredrikux/unitedcolors/models/ScoreGuard.java:110-116 | two colon-free parts joined by a colon split back into exactly the two, when the second is not empty |
| ScoreGuard.Checksum | app/src/main/java/com/fredrikux/unitedcolors/models/ScoreGuard.java:83-94 | the checksum is non-empty hex without a colon |
| ScoreGuard.ScoreValue | app/src/main/java/com/fredrikux/unitedcolors/models/ScoreGuard.java:66-68 | the value starts with the key, is longer than it, and has no colon when the key has none |
| ScoreGuard.Encode | app/src/main/java/com/fredrikux/unitedcolors/models/ScoreGuard.java:63-71 | the stored string contains the colon separator |
| ScoreGuard.Decode | app/src/main/java/com/fredrikux/unitedcolors/models/ScoreGuard.java:100-133 | nothing stored, or "default", reads as 0; an accepted value split into exactly two parts whose checksum matches and whose value starts with the key (ignoring case); a result is an int; a wrong split throws "Wrong score key." |
| ScoreGuard.ReadScore | app/src/main/java/com/fredrikux/unitedcolors/models/ScoreGuard.java:126-132 | a parse failure throws NumberFormatException, a zero prime throws ArithmeticException, and a result is an int |
| ScoreGuard.EncodeParts | app/src/main/java/com/fredrikux/unitedcolors/models/ScoreGuard.java:63-126 | the stored string is not "default", splits into the checksum and the value, and the value splits into the key and the hex digits |
| ScoreGuard.DecodeStored | app/src/main/java/com/fredrikux/unitedcolors/models/ScoreGuard.java:100-133 | a value saveScore wrote with a plain key passes the default, split, checksum and key checks, so reading it is reading its hex digits |
| ScoreGuard.RoundTrip | app/src/main/java/com/fredrikux/unitedcolors/models/ScoreGuard.java:63-133 | reading back what was saved gives the score, when 0 <= score, score·prime fits in a long, the prime is positive and the key is lower-case without a colon |
| ScoreGuard.NegativeProductUnreadable | app/src/main/java/com/fredrikux/unitedcolors/models/ScoreGuard.java:66-128 | when score·prime wraps to a negative long, its unsigned hex is too large for parseLong, so reading it back throws |
| ScoreGuard.UpperCaseKeyRejects | app/src/main/java/com/fredrikux/unitedcolors/models/ScoreGuard.java:121-124 | with an upper-case letter in the key, no stored value other than "default" is accepted |
| ScoreGuard.Guard.constructor | app/src/main/java/com/fredrikux/unitedcolors/models/ScoreGuard.java:20-30 | the shared guard starts uninitialised |
| ScoreGuard.Guard.Init | app/src/main/java/com/fredrikux/unitedcolors/models/ScoreGuard.java:44-56 | a second init fails with "already initiated" and changes nothing; the first takes the store, the keys and the prime |
| ScoreGuard.Guard.SaveScore | app/src/main/java/com/fredrikux/unitedcolors/models/ScoreGuard.java:63-75 | before init it throws and stores nothing; afterwards it stores the encoding under the saved-score key, which reads back as the score under the round trip's conditions |
| ScoreGuard.Guard.GetScore | app/src/main/java/com/fredrikux/unitedcolors/models/ScoreGuard.java:100-142 | before init it throws; afterwards it is the decoding of what is stored: 0 when nothing is, and an int on success |

## Left out

- Threads are not modelled: the game-loop thread, its `wait`/`notify` on pause, the render rendezvous on `lock`/`condition`, `destroy`'s `join`, the yield/sleep pacing and the `synchronized` blocks. One tick is a sequential method. The loop body's catch-up arithmetic is `Game.CatchUp`.
- Game.GameManager.StartNewGame: whether a loop thread is still alive is a parameter. The thread start itself is not modelled, and neither is the `RuntimeException` thrown when a destroyed loop stays alive.
- Wall-clock time is not modelled. `System.nanoTime()` is a parameter of the constructor, and the catch-up takes the clock reading as an argument.
- Dots.PointAnimate: the pulse's start is recorded as the tick rather than `System.nanoTime()`. A pulse never reads its start (`Animations.PulseIgnoresTiming`), so nothing observable differs.
- OpenGL rendering, the activities, the sensor listeners, `setUpSensor`, sound, and Parcelable save/restore are not modelled.
- The older `collordotts` package is not modelled.
- Floating point is modelled as reals. Rounding of float and double is not modelled.
- A NaN is not modelled; where the source produces one, the model excludes or separates the case:
  - Animations.Percentage and Animations.UpdateSize exclude a length of 0, where the source divides by zero.
  - Spawning.Normalize returns a zero direction unchanged, where the source yields NaN.
- Spawning.Normalize: the unit length of the result is not stated. Only the signs and "result times norm equals input" are stated.
- `Math.sqrt` and `Math.sin` are function parameters. `Animations.UpdatePulse` states its bound under the assumption that the sine lies in [-1, 1].
- Random draws are parameters with their stated ranges:
  - The spawnPointDot rejection recursion is a precondition that the draw was accepted (`AcceptedDraw`).
  - The switchColorOnDot retry loop is a boolean choosing one of the two other colours.
- Game.GameManager.RemoveAt: removal is by the visited index. `ArrayList.remove(Object)` uses `PointF` equality, which is not part of this model, so two dots at the same coordinates are not distinguished the way the source might.
- Java's 32-bit `int` is not modelled for the game's counters:
  - The score, `Dot.ID` and `mColorCounter` are unbounded.
  - An overflow of `mColorCounter` after 2^31 spawns would make the palette index negative in the source.
- The palette colours are RGB integers. `Color.parseColor` and the alpha channel are not modelled.
- `PLAYER_DOT_SPEED_RATIO` and the screen density are parameters. The screen size `GLRenderer.screenW/H` is a constant of the manager.
- ScoreGuard.Guard.Init:
  - The prime is given as a long, and `Long.parseLong` of the `big_prime` resource is not modelled.
  - The Android `Context` and resource strings are parameters.
  - `SharedPreferences` is a map from keys to strings. A stored non-string value (`ClassCastException`) is not modelled.
- The MD5 digest is a function parameter from the string to its non-negative value. The `getBytes` charset and the byte count `str.length()` passed to `update` are inside that parameter.
- `toLowerCase` is modelled on ASCII letters only. `Character.digit` is modelled on ASCII hex digits only; other Unicode digits are rejected by the model's parser.
- JavaDiv: only the case of a non-negative dividend and a positive divisor is stated. The division toward zero for negative operands is in the body but not proved.
- The singleton accessor `sharedInstance` is a constructed `Guard`.
- Animations.UpdatePulse returns the size only. `updateSize` is a callback, and the owner (`Dots.PointAnimate`) sets it.
