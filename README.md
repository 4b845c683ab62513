# Pong game-state engine in Dafny

A model of the gameplay logic of a two-player Pong game written with pygame
(`pypong.py`): the `boundscheck` clamp, the keyboard-to-intent mapping
(`keytoggle`, `updateInput` and the `forPlayer` lookup), the `Paddle` entity and
the `Ball` entity. Everything else in that file draws on the screen or runs the
window loop.

Files and modules:

- `config.dfy`, module `Config`: the 800x600 resolution, the player ids
  `Player1 = 1` and `Player2 = 2`, `BoundsCheck` and `Abs`.
- `input.dfy`, module `Input`: the global `input` dictionary as the class
  `InputState` (fields `player1`, `player2`, `quit`), with `KeyToggle` and
  `UpdateInput` as methods that change it in place. Each method is proved
  against a function on the dictionary's value (`Toggle`, `ApplyEvents`).
  `ForPlayer` is the `forPlayer` lookup.
- `paddle.dfy`, module `Paddles`: the class `Paddle`. Fields the program never
  reassigns after construction are `const`. `speed`, `y` and `rectTop` are `var`.
  `Update` is proved against `Direction`, `NextSpeed` and `NextY`.
- `ball.dfy`, module `Balls`: the class `Ball`. `Setup` and `Update` are proved
  against `Reseed` and `Step`. `Step` is built from `WallBounce`, `OutOfBoundsX` and
  `Rebound`.

Positions, speeds and elapsed time are `real`, so there is no rounding.
`resY / 100` is 6 and `resX / 100` is 8. The random numbers drawn by `Ball.setup`
are a `SetupDraw` parameter, and `ValidDraw` gives their ranges. The outcome of the
sprite collision test is a `Collision` parameter: none, player 1's paddle or
player 2's paddle.

What the code does:

- `Paddle.update` only accelerates, clamps and integrates; the paddle never
  affects the ball except through the collision sign rule.
- A ball leaving the field sideways is only reseeded: the score increment is
  commented out at `pypong.py:44`.
- The ball has one signed velocity per axis.
- The wall "reflection" `abs(posy - (posy - y))` equals `|y|`. An overshoot of the
  top wall is mirrored. An overshoot of the bottom wall is not clamped: the ball is
  left below the limit with its vertical velocity reversed (`BottomOvershootEscapes`).
  So the ball's `y` is not kept within `[0, resY - height]`.

## Model

| member | source | states |
|---|---|---|
| `Config.BoundsCheck` | pypong.py:11-13 | the result is never below `lower`; with `lower <= upper`, it lies in `[lower, upper]`, a value already inside is returned unchanged and a value beyond a bound gives that bound; with inverted bounds the result is `lower` |
| `Config.BoundsCheckIdempotent` | pypong.py:11-13 | clamping an already clamped value changes nothing |
| `Input.Set` | pypong.py:148 | `input[key1][key2] = isPressed` sets that entry, leaves the three other entries and `quit` unchanged |
| `Input.Lookup` | pypong.py:139-142 | the `lookup` table: exactly the four keys UP, DOWN, w and s are mapped; the arrows go to player 1's entry and w/s to player 2's; UP and w go to the `up` field, DOWN and s to `down` |
| `Input.LookupInjective` | pypong.py:139-142 | two mapped keys that reach the same entry are the same key |
| `Input.Toggle` | pypong.py:138-148 | `keytoggle`: an unmapped key leaves `input` unchanged; a mapped key sets its own entry to `isPressed` and no other entry, and `quit` is untouched |
| `Input.ApplyEvent` | pypong.py:151-157 | one event: QUIT raises `quit` and only QUIT changes it; KEYDOWN of a mapped key writes true and KEYUP false into that key's entry; every other entry keeps its value |
| `Input.ApplyEvents` | pypong.py:150-157 | the events applied in order: a raised `quit` is never lowered, and events of other types leave `input` unchanged |
| `Input.ApplyEventsLastWriteWins` | pypong.py:150-157 | after `updateInput`, each entry holds the value written by the last KEYDOWN (true) or KEYUP (false) for its key, or its old value when no event wrote it |
| `Input.ApplyEventsQuit` | pypong.py:150-153 | after `updateInput`, `quit` is true exactly when it was already true or one of the events is QUIT |
| `Input.ApplyEventsAppend` | pypong.py:150-157 | handling a list of events in two batches gives the same `input` as handling it at once |
| `Input.InputState.constructor` | pypong.py:116-120 | `input` starts with nothing pressed and no quit request |
| `Input.InputState.KeyToggle` | pypong.py:138-148 | the dictionary's new value is `Toggle` of its old value |
| `Input.InputState.UpdateInput` | pypong.py:150-157 | the loop leaves the dictionary at `ApplyEvents` of its old value, the events applied in order |
| `Paddles.Direction` | pypong.py:75 | -1 exactly when up alone is pressed, +1 exactly when down alone is pressed, 0 exactly when both or neither are pressed |
| `Input.ForPlayer` | pypong.py:119 | the `forPlayer` lambda gives the 'player1' entry when `paddle.player == PLAYER1` and the 'player2' entry otherwise |
| `Paddles.OwnKeysOnly` | pypong.py:119 | the `forPlayer` lookup gives player 1's entry to the paddle of `PLAYER1` and player 2's entry to any other, and is unaffected by the other player's entry |
| `Paddles.KeysSteerTheirPaddle` | pypong.py:139-142 | from any `input`: pressing UP (or w) while the same player's down key is released gives that player's paddle direction -1, pressing DOWN (or s) while the up key is released gives +1, and pressing either while the opposite key is held gives 0 |
| `Paddles.KeysLeaveOtherPaddle` | pypong.py:139-142 | from any `input`, pressing or releasing w or s leaves what player 1's paddle reads unchanged, and UP or DOWN leaves what player 2's paddle reads unchanged |
| `Paddles.NextSpeed` | pypong.py:77-79 | the new speed lies in `[-maxspeed, maxspeed]` whatever the old speed; it is unchanged when no time passes or no key pushes an in-range speed (no friction); pushing down never lowers it and pushing up never raises it, short of the limit |
| `Paddles.NextY` | pypong.py:81-82 | the new top edge lies in `[0, resY - paddlelength]`; it is unchanged when no time passes or the speed is zero and it was in range; it moves in the direction of the speed or stops at a wall |
| `Paddles.Paddle.constructor` | pypong.py:59-69 | a new paddle belongs to the given player, sits 10 pixels from its own side, is vertically centred and at rest |
| `Paddles.Paddle.Update` | pypong.py:72-84 | only `speed`, `y` and `rect.top` change: the speed is `NextSpeed` under the player's own direction, `y` is `NextY` under the new speed and `rect.top == y`; afterwards the speed is within its limit and the paddle is on the screen; with `time == 0` a valid paddle is unchanged |
| `Balls.Reseed` | pypong.py:22-28 | `setup` puts the ball at `x` in `[350, 450]` and `y` in `[250, 350]` with `abs(velocity[X])` in `[15, 30]`, signed by the drawn sign, and `velocity[Y]` in `[-15, 15]` |
| `Balls.WallBounce` | pypong.py:35-39 | inside `[0, resY - height]` the edge and vertical velocity are unchanged; a top overshoot to `-d` lands at `d` and a bottom overshoot keeps its `y`, and both negate the vertical velocity once |
| `Balls.Rebound` | pypong.py:47-49 | with no collision `velocity[X]` is unchanged; a hit keeps its magnitude and makes it non-negative for player 1's paddle, non-positive for player 2's |
| `Balls.Step` | pypong.py:33-53 | one `update`, with the edge test of pypong.py:43 as `OutOfBoundsX`: afterwards the ball is strictly inside the field horizontally (`0 < x < resX - width`) and never above the top wall (`0 <= y`); a ball that stays in the field moves by its velocity, bounces as `WallBounce` says and keeps `abs(velocity[X])`; one that leaves it sideways takes the position and `velocity[Y]` of a `setup` ball, in its ranges, with `abs(velocity[X])` the drawn speed; with no collision `velocity[X]` is the old or freshly drawn one, a hit on player 1's paddle makes it non-negative and on player 2's non-positive |
| `Balls.StepTopWall` | pypong.py:35-39 | a ball integrated to `-depth` above the top wall ends at `depth` with its vertical velocity reversed |
| `Balls.StepNoWall` | pypong.py:35-39 | without a wall contact `y` is the integrated value and `velocity[Y]` is unchanged |
| `Balls.StepCollision` | pypong.py:46-49 | a collision changes only the sign of `velocity[X]`, pointing it away from the paddle hit, and is applied after any reseed |
| `Balls.BottomOvershootEscapes` | pypong.py:36-38 | a ball 5 pixels above the bottom limit moving down ends 1 pixel past the limit with its vertical velocity reversed |
| `Balls.Ball.constructor` | pypong.py:18-20 | a new ball is a freshly set-up one |
| `Balls.Ball.Setup` | pypong.py:22-31 | the ball's new position and velocity are `Reseed` of the drawn numbers, and its rectangle is at the new position |
| `Balls.Ball.Update` | pypong.py:33-53 | the ball's new position and velocity are `Step` of the old ones, and its rectangle is at the new position |

## Left out

- Window, display, fonts, `drawText`, `updateScreen`, `updateGame`, `gameloop` and
  `main` (pypong.py:122-181): rendering and the frame loop. The order in which the
  sprite group updates the three entities is not modelled.
- `pygame.sprite.spritecollide`: a foreign library call. Its outcome is the
  `Collision` parameter of `Ball.Update`. The real test uses the ball's rectangle,
  which `update` only moves at its end, so it reflects the previous tick's position
  or the position just set by `setup`. A reseed puts the ball near the centre, far
  from both paddles, so in the program a hit never follows a reseed in the same tick.
  The model accepts any `Collision` there; this over-approximation only allows more
  behaviours, and every property stated here holds for all of them.
- `pygame.rect.Rect` truncates coordinates to integers. `rectTop` and `rectLeft` are
  reals equal to `y` and `x`. The constant width and height of each rectangle are not
  modelled.
- The sprite images and their colours: drawing only.
- `random.randint` and `random.choice`: replaced by the `SetupDraw` parameter and
  `ValidDraw`. `Ball.Update` takes a draw on every call and uses it only when the
  ball is reseeded.
- Floating-point rounding: every quantity is a `real`.
- `Ball.setup` also assigns `width`, `height` and `max_acceleration`. It always assigns
  10, so they are the constants `BallWidth`, `BallHeight` and `MaxAcceleration`.
  `max_acceleration` is never read.
- The velocity list is two fields `vx` and `vy`. The list is never shared, so no
  aliasing is lost.
- The unused `time` argument of `updateInput` is dropped.
- `utilities.py` (`Struct`, `enum`): nothing in the game uses it.
