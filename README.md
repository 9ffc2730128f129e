# Gophette's Adventures: hero tick and host loop, in Dafny

This project models two small pieces of the game logic of *Gophette's
Adventures*, a 2D platformer written in Go on top of SDL:

- **The hero's per-tick state machine** (`hero.go`). Module `Character`
  holds class `Hero`, with the integer fields `Direction`, `X`, `Y`,
  `SpeedX`, `SpeedY`, `runFrameIndex` and `nextRunFrame`. Its `Update`
  method changes them in place, one tick at a time. The pure function
  `Tick` specifies one tick, and `Run` applies `n` ticks. The lemmas state
  the multi-tick laws: facing, reset at rest, cursor bounds, and the
  0,1,0,2 gait of the run animation. `VisibleFrame` is the cursor-to-image
  remap from `Hero.Render`. `Render` returns what it would draw instead of
  drawing it.
- **The host loop** (`main.go`). Module `Input` turns raw platform events
  (key press with its repeat count, key release, window event, OS quit)
  into zero or one `InputEvent`. Module `MainLoop` holds class `HostLoop`
  with the loop-local state: the `fullscreen` flag, the time of the last
  update, and the camera size. Its methods handle one event, drain a batch
  of events, run the fixed-tick update gate, and run whole loop iterations.
  Time is an integer count of nanoseconds. The update interval is
  `1_000_000_000 / 65 = 15384615` ns.

The direction indices are declared outside hero.go and main.go. The order of
the jump images (left, then right) fixes them as Left = 0, Right = 1 and
DirectionCount = 2.

Go's `%` truncates toward zero, while Dafny's `%` does not. `GoRem` models
Go's operator, and `Tick` uses it for the cursor advance `(i + 1) % 4`.

## Model

| member | source | states |
|---|---|---|
| Character.Tick | hero.go:57-77 | one tick: facing is Left if SpeedX < 0, Right if > 0, unchanged if 0; at rest the cursor becomes 0/0; while moving the frame advances mod 4 and the countdown reloads to 4 exactly when the decremented countdown is <= 0, otherwise the frame stays and the countdown drops by 1; the cursor stays in 0..3; X grows by SpeedX; Y, SpeedX, SpeedY unchanged |
| Character.GoRem | hero.go:71 | Go's truncating remainder: a == b * q + r for the truncated quotient q, with r in [0, b) (the Euclidean remainder) for non-negative a and in (-b, 0] for negative a, which fixes r |
| Character.Hero.Update | hero.go:57-77 | the in-place update leaves the fields equal to `Tick` of the old fields and keeps the hero valid (direction index and cursor in range) |
| Character.Hero.constructor | hero.go:23-42 | a new hero has all integer fields at zero and is valid |
| Character.VisibleFrame | hero.go:45-52 | cursors 0,1,2,3 show run images 0,1,0,2; the image index is in 0..2; the standing image 0 is shown exactly on even phases; other values pass through |
| Character.Hero.Render | hero.go:44-55 | draws run image `VisibleFrame(runFrameIndex)` (an index below 3) of the current direction at (X, Y) |
| Character.RunIntegratesX | hero.go:76 | after n ticks X has grown by n * SpeedX, and Y, SpeedX, SpeedY are unchanged |
| Character.RestIsIdempotent | hero.go:65-67 | any number (>= 1) of resting ticks leaves the cursor at 0/0 and keeps the facing |
| Character.RunKeepsCursorInRange | hero.go:71 | a cursor in 0..3 stays in 0..3 over any number of ticks |
| Character.RunKeepsDirectionValid | hero.go:58-63 | the direction stays a valid index over any number of ticks |
| Character.SteadyGait | hero.go:68-73 | with constant nonzero speed and countdown k in 1..4, after n ticks the cursor has advanced (n + 4 - k) / 4 times mod 4 and the countdown is 4 - (n + 4 - k) mod 4 |
| Character.FourTicksAdvanceOnePhase | hero.go:68-73 | while running steadily, every 4 ticks advance the cursor by exactly one phase and return the countdown to its value |
| Character.GaitFromRest | hero.go:65-73 | from rest with constant nonzero speed, the first tick shows phase 1 and then the phase advances every 4 ticks: after n >= 1 ticks the cursor is (1 + (n-1)/4) mod 4, the countdown 4 - (n-1) mod 4, and the visible image follows 0,1,0,2 |
| Character.GaitPattern | hero.go:45-52 | cursor values 0..3,0..3 render as 0,1,0,2,0,1,0,2 |
| Input.KeyAction | main.go:105-134 | reference key table: Left -> GoLeft, Right -> GoRight, Up/Space/LCtrl -> Jump, Escape -> QuitGame, F11 and all other keys -> none (both directions of each case) |
| Input.Translate | main.go:100-145 | an event is produced exactly for a non-repeat press or a release of a bound key, or an OS quit; its kind is the key's action, `pressed` is true on press and false on release, quit gives a QuitGame press, and it carries the current charIndex; window events produce none |
| Input.TranslateAll | main.go:100-145 | draining a batch yields no more events than there are raw events, each tagged with the charIndex |
| Input.TranslateAllAppend | main.go:99-145 | translation is per event: the events of two batches in turn are those of the joined batch, so splitting events across loop iterations does not change what the game receives |
| Input.JumpKeysAlias | main.go:110-124 | Up, Space and LCtrl give identical Jump presses and identical Jump releases |
| Input.F11IsNoGameEvent | main.go:125-131 | neither an F11 press nor an F11 release reaches the game |
| Input.HeldKeyPressesOnce | main.go:103-115 | a bound key held down (one fresh press followed by any number of repeats) yields exactly one press event |
| Input.JumpReleasedWhileAliasHeld | main.go:110-124 | pressing Up, pressing Space, then releasing Space yields press, press, release of Jump: releasing one alias releases Jump while another is held |
| MainLoop.ApplyEvent | main.go:117-141 | fullscreen flips exactly on an F11 release; a size-change event sets the camera to (Data1, Data2); otherwise the camera keeps its size; events never touch the last update time |
| MainLoop.FullscreenParity | main.go:125-131 | after a batch, fullscreen is flipped exactly when the batch held an odd number of F11 releases |
| MainLoop.DoubleF11Restores | main.go:125-131 | two F11 releases restore the whole loop state |
| MainLoop.CameraFollowsLastResize | main.go:137-141 | after a batch, the camera has the size of the batch's last size-change event |
| MainLoop.EventsKeepCamera | main.go:137-141 | a batch without a size change leaves the camera size alone |
| MainLoop.EventsKeepClock | main.go:100-145 | handling events never moves the last update time |
| MainLoop.FrameTimeValue | main.go:96 | the update interval is 15384615 ns |
| MainLoop.FirstIterationUpdates | main.go:96-152 | with the last update one interval before the start, the first gate fires exactly when the clock has advanced past the start |
| MainLoop.UpdatesAreSpaced | main.go:147-152 | over any run of iterations, updates are at most one per iteration; the first comes more than one interval after the last update; consecutive updates are more than one interval apart; k updates span more than k intervals |
| MainLoop.HostLoop.constructor | main.go:51-97 | the loop starts in fullscreen, with the window's size, and with the last update one interval before the start time |
| MainLoop.HostLoop.HandleEvent | main.go:101-144 | hands the game `Translate` of the event for charIndex 0, and applies the event's loop-local effect (`ApplyEvent`) |
| MainLoop.HostLoop.PollEvents | main.go:100-145 | draining a batch hands the game the batch's translations in order and leaves the state at `ApplyEvents` of the batch |
| MainLoop.HostLoop.UpdateGate | main.go:147-152 | fires exactly when now - lastUpdate > interval (strict); the last update time becomes now exactly when it fires and nothing else changes |
| MainLoop.HostLoop.Iterate | main.go:99-157 | one iteration drains the batch and then runs the gate; the gate sees the last update time from before the batch |
| MainLoop.ApplyEventsAppend | main.go:99-145 | handling two batches in turn leaves the same loop state as handling their concatenation |
| MainLoop.ApplyEventsIgnoreClock | main.go:117-141 | the effect of events on fullscreen and camera size does not depend on the last update time |
| MainLoop.BatchAfterBatches | main.go:99-152 | a batch handled after earlier batches and a gate continues the state of the joined events, whatever last update time the gate left |
| MainLoop.UpdateTimesStep | main.go:147-152 | one gate, peeled off the front of the remaining iterations: it contributes the current clock value exactly when it fires, and the later gates start from that clock value if it fired |
| MainLoop.IterationStep | main.go:99-152 | one loop iteration (pump a batch, then the gate) extends what the game received by the batch's translations, extends the update times by the clock value exactly when the gate fires, and keeps the loop state equal to the joined batches' effect |
| MainLoop.HostLoop.RunLoop | main.go:99-158 | over iterations pumping `batches` and reading clock values `nows`: the game receives `TranslateAll` of all batches joined, in order; it is updated at exactly the times `UpdateTimes` lists; the last update time ends as the last of those (or unchanged if none); fullscreen and camera size end as `ApplyEvents` of all batches joined |

## Left out

- Hero.Render: requires a valid direction index and cursor, so the index-out-of-range panic of hero.go:54 on an invalid hero is not modelled; every hero the model builds is valid (the constructor establishes it and `Update` keeps it).
- SDL, mixer and image initialisation, window creation, the vsync hint, the cursor and OS-thread locking (main.go:20-51): platform setup.
- The fullscreen calls on the window (main.go:126-130): only the flag they keep in step is modelled.
- The asset loader, the texture atlas, images, sounds, music and their release (main.go:82-94, 167-319, hero.go:23-42): resources of unseen libraries. `Hero.Render` returns the image it would draw instead of calling `DrawAt`.
- Screen clearing, `Game.Render` and presenting (main.go:154-157): rendering side effects.
- `Game`, `NewGame`, `HandleInput`, `Running`, `Update` and the window camera are not part of this model. Input events are returned to the caller, and the gate reports whether `Game.Update` would be called. `RunLoop` takes the iterations that happen while the game runs as given.
- The AI-recording switch and its globals (main.go:60-73): the switch is off, so the controlled character is always index 0.
- The wall clock: clock readings are integer inputs in nanoseconds. Go's `Duration` saturation on overflow is not modelled.
- 64-bit integer width: `X += SpeedX` and the countdown are unbounded integers here, so overflow of `X` after very many ticks is not modelled.
- Acceleration, deceleration, maximum speed and jump images: the constants are declared, but the modelled code never uses them.
- Vertical motion: `Update` never changes `Y` or `SpeedY`.
