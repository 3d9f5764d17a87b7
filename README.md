# Pong: one frame of the game, verified

A model of the simulation step of a two-player Pong game written with the pyxel engine
(`pong.py`). Each frame, the game's `update` hook reads the keys and does the following, in order:

1. R held restarts the match (`setup`).
2. A release of P flips between running and paused.
3. If the game is running:
   - both bats move, then the ball moves and bounces off the top and bottom walls;
   - the ball is tested against player one's bat, and otherwise against player two's;
   - a hit reverses the ball's horizontal direction and speeds it up by 1.1;
   - a ball that has left the playfield scores a point for the player on the other side and is
     served again from the centre.

The model has two modules:

- `PongGame` (`pong.dfy`). It holds the constants, the value types, and the ball's and bats'
  tests as functions. It specifies each phase of a frame as a function on values (`MoveBall`,
  `MoveBat`, `Collide`, `AwardPoint`, `Controls`, `Advance`, `Tick`). It also has the three
  classes of the program. `Ball`, `Bat` and `Pong` update their fields in place, and each
  method's postcondition ties the new state to the specification function of the old state.
- `PongRuns` (`runs.dfy`). It covers what holds over many frames, as the engine's run loop
  calls `update` once per frame (`Run`). It also covers what repeated paddle hits do, and the
  collision tests as they are written.

Modelling choices:

- The playfield is fixed at 256 by 192.
- Coordinates and velocities are exact reals. The factor 1.1 is `11/10`.
- Because the arithmetic is exact, 256 × 0.05 − 5 is exactly 7.8, so player one's bat starts at
  x = 7.8.
- The two `random.choice([-1, 1])` draws of a serve are a `Serve` parameter. Its components have
  the type `Sign`, which is {-1, 1}. `Pong.Update` takes two serves: one used if R restarts the
  match, and one used if a point is scored.
- Sounds are returned as `Play(channel, sound)` events, in the order the game plays them.
  `Ball.Move` reports the wall bounce, and `Pong.Update` returns the whole frame's list.
- The code is modelled as written, including these quirks:
  - The paddle tests accept a ball up to 40 below the bat's top, though a bat is 20 high.
  - Player two's bat is tested at its x minus its width, 3 units in front of its face.
  - Reset runs before the pause toggle, so R together with a release of P leaves a fresh match
    paused.
- `valid_position` excludes both ends, 0 < y < 172, so a bat never touches the top or bottom
  edge.

## Model

| member | source | states |
|---|---|---|
| `PongGame.CheckWallCollision` | pong.py:35-38 | For a ball of the given radius: true exactly when its disc reaches above the top wall (y - radius < 0) or onto the bottom wall (y + radius >= height). |
| `PongGame.CheckIfScored` | pong.py:41-44 | True exactly when x <= 0 or x >= width: the ball has left on either side. |
| `PongGame.CheckPlayerOneCollision` | pong.py:47-59 | True exactly when x <= the given edge and bat y <= y <= bat y + 40: the ball is at or left of the bat's front edge, within a band twice the bat's height. |
| `PongGame.CheckPlayerTwoCollision` | pong.py:62-74 | True exactly when the ball is at or right of the given edge and in the same 40-high band. It is the mirror image of player one's test (x and edge negated). |
| `PongGame.ValidPosition` | pong.py:105-106 | True exactly when the bat lies strictly inside the screen: top > 0 and bottom (y + 20) < height, both ends excluded. |
| `PongGame.ServeBall` | pong.py:16-20 | The served ball is at the screen centre (width/2, height/2) with \|vx\| = \|vy\| = 1, in the serve's direction. |
| `PongGame.MoveBall` | pong.py:23-38 | The position always becomes position + velocity and vx never changes. vy is negated exactly when the new y is < radius or >= height - radius, and is unchanged otherwise. The bounce flag (the wall sound) is that same condition. |
| `PongGame.MoveBat` | pong.py:90-106 | With no key the bat stays. With one key it moves by exactly 3 that way if the result is valid, and stays otherwise (a rollback, not a clamp). With both keys a valid bat stays, except at the top, where only the down step survives. The result is always y - 3, y or y + 3, and a valid position stays valid. |
| `PongGame.Rebound` | pong.py:163-168 | A paddle response keeps the position, sets vx to -1.1 times vx and sets vy to 1.1 times vy. |
| `PongGame.Collide` | pong.py:157-179 | A hit happens exactly when player one's test (at bat x + width) or player two's test (at bat x - width) succeeds. On a hit the ball gets exactly one rebound, even when both tests succeed. Otherwise it is unchanged. |
| `PongGame.AwardPoint` | pong.py:181-196 | A ball still in play changes nothing. A ball that left on the right (x >= width) raises player one's score by 1. One that left on the left (x <= 0) raises player two's by 1. The other score, the bats and the mode are kept, and the ball is served from the centre. |
| `PongGame.Initial` | pong.py:122-128 | After setup the game is running, both scores are 0, the bats are at (7.8, 76) and (243.2, 76), both bats are in range and the ball is served from the centre. |
| `PongGame.Controls` | pong.py:137-146 | R gives a fresh match, which is paused if P was released in the same frame and running otherwise. Without R, a release of P flips the mode and changes nothing else, and no key changes nothing. |
| `PongGame.Advance` | pong.py:148-196 | A running frame keeps the mode and moves each bat exactly as `MoveBat` does in its own column. No score goes down and at most one point is scored. Bats in range stay in range, and at most three sounds play. |
| `PongGame.Tick` | pong.py:131-196 | If the game is paused after the R/P handling, the frame returns that state unchanged and plays no sound. The mode is the one the controls set. Without R no score goes down and the total rises by at most 1; after R the total is at most 1. Bats in range stay in range. |
| `PongGame.Ball.constructor` | pong.py:7-9 | A new ball has radius 2 and is served from the centre. |
| `PongGame.Ball.StartingPosition` | pong.py:16-20 | The ball's new state is exactly the served ball. |
| `PongGame.Ball.Move` | pong.py:23-38 | The in-place step tests the walls with the ball's own radius field. It gives exactly `MoveBall` of the old state, and returns whether the wall sound plays. |
| `PongGame.Bat.constructor` | pong.py:79-83 | A new bat is 20 high and 3 wide and stands at the given (x, y). |
| `PongGame.Bat.Move` | pong.py:90-102 | The in-place up-then-down steps with rollback leave y at exactly `MoveBat` of the old y. x never changes. |
| `PongGame.Pong.constructor` | pong.py:118-128 | A new game is in the match-start state with two distinct bats. |
| `PongGame.Pong.Setup` | pong.py:122-128 | The match restarts from any state: the state becomes `Initial`, with freshly created bats and ball. |
| `PongGame.Pong.Update` | pong.py:131-196 | One in-place frame gives exactly `Tick` of the old state, and the sounds it returns are the ones `Tick` lists. |
| `PongGame.Pong.PlayFrame` | pong.py:149-196 | The running part of a frame gives exactly `Advance` of the state it starts from. |
| `PongGame.Pong.Deflect` | pong.py:157-179 | The in-place paddle tests and response give exactly `Collide` of the ball and the bats' current positions. |
| `PongGame.Pong.Score` | pong.py:181-196 | The in-place scoring gives exactly `AwardPoint` of the old state, and reports whether the score sound plays. |
| `PongRuns.PausedGameIsFrozen` | pong.py:141-149 | A paused game stays exactly the same (bats, ball, scores) over any number of frames in which R is not held and P is not released. |
| `PongRuns.ScoresNeverDecrease` | pong.py:181-196 | Over any frames without R, neither score decreases, and together they rise by at most one per frame. |
| `PongRuns.BatsStayInRange` | pong.py:90-106 | Bats that start strictly inside the screen stay there for every frame, resets included. |
| `PongRuns.MatchKeepsBatsInRange` | pong.py:122-128 | From a fresh match, both bats are in range after any sequence of frames. |
| `PongRuns.ResetRestartsMatch` | pong.py:137-146 | With R held, the frame's mode is paused exactly when P was also released. With P, the frame is the fresh match, paused and silent. Without P, at most one point has been scored since the reset. |
| `PongRuns.Growth` | pong.py:167-168 | The speed factor after n hits, 1.1^n, is at least 1. |
| `PongRuns.ReboundsCompound` | pong.py:163-168 | After n hits in a row the position is unchanged, vy is 1.1^n times vy, and vx is 1.1^n times vx, reversed for odd n. |
| `PongRuns.ReboundsSpeed` | pong.py:163-168 | After n hits in a row the speed along each axis is 1.1^n times the old one, with no cap. |
| `PongRuns.MoveBallKeepsSpeed` | pong.py:23-33 | A step of the ball keeps its speed along each axis, so the 1.1^n growth also holds for hits separated by ball steps. |
| `PongRuns.TwoHitsScaleBy121` | pong.py:163-168 | Two hits multiply the speed along each axis by 1.21. |
| `PongRuns.HitBandReachesBelowBat` | pong.py:54-57 | A ball 10 below the bottom of a 20-high bat still counts as a hit, and one 41 below its top does not. |
| `PongRuns.PlayerTwoHitsBeforeReachingBat` | pong.py:170-175 | Player two's starting bat is at x = 243.2. A ball at x = 240.2, 3 short of the bat's face, already counts as a hit against it. |
| `PongRuns.BallStepExamples` | pong.py:23-38 | A ball served at (128, 96) with velocity (1, 1) is at (129, 97) after a step, with no bounce and no score. A ball at y = 50 moving up stays unbounced. A ball at y = 1 moving up reaches y = 0 and bounces to vy = +1. |

## Left out

- Drawing (`draw`, `display_score`, `display_pause`, `Ball.draw`, `Bat.draw`): these only render through the engine.
- Engine start-up (`pyxel.init`, `pyxel.load` of the sound bank, `pyxel.run`): the playfield size is a constant, and the run loop appears only as `Run`, the repeated frame used to state properties.
- Q quits the process: this is not a state change, so `Keys` has no quit key.
- `pyxel.play` is not called: the sounds are returned as events.
- `random.choice` is not modelled as a generator: its results are the `Serve` parameters.
- Floating-point rounding of `* 0.05`, `* 0.95`, `* 0.5` and `*= 1.1`: the arithmetic is exact, so for example player one's bat starts at exactly 7.8, where the program computes 7.800000000000001.
- Python's int/float distinction: the velocities start as ints and turn into floats after a hit. All numbers here are reals.
- `Pong.__init__` calls `setup`. `Pong.constructor` performs the same assignments directly, because a constructor cannot call a method before its fields are set.
