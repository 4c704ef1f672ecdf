# FlappyBird game panel, modelled in Dafny

This project models the game logic of `GamePanel` in the FlappyBird
repository. A bird falls under gravity and jumps when space is pressed.
Pairs of pipes scroll in from the right. Every pipe the bird clears is
worth half a point. The game ends when the bird overlaps a pipe or falls
below the board. The panel moves between three states: the menu, play,
and game over.

The project has three modules:

- `Entities` (`entities.dfy`) holds the board and sprite constants, the
  `Bird` and `Pipe` records, the rectangle overlap test `Collision`, and
  the placement of a new pair's top edge from a random draw (`RandomPipeY`).
- `Simulation` (`simulation.dfy`) holds one value, `Session`, for the whole
  simulation state. It defines each panel operation as a pure function of
  that value: `Move`, `PlacePipes`, `StartGame`, `ActionPerformed`,
  `KeyPressed` and `IncreaseGameSpeed`. A tick in play is built from three
  stages: `Fall` (gravity and the top clamp), `ScrollPipes` (the pipe loop)
  and `HitGround`. The module also defines the invariant `Inv` that every
  reachable state keeps, and proves the lemmas listed below.
- `Panel` (`game_panel.dfy`) holds the class `GamePanel`, whose fields are
  the panel's fields. Its methods update those fields in place. Each method
  is proved to leave exactly the state its `Simulation` function gives
  (`Abs() == Simulation.Op(old(Abs()))`), and to keep the invariant
  (`old(Valid()) ==> Valid()`). The pipe loop in `move()` is the method
  `ScrollPipeList`, with loop invariants. It is proved to compute the moved
  list, the number of pipes scored and the number of pipes hit, all as
  the specification functions `Scrolled`, `NewlyPassed` and `HitCount`
  define them.

Modelling choices:

- The score, a `double` that only grows by 0.5 and is reset to 0, is a
  `nat` counting half-points. The threshold of 1000 points is 2000
  half-points.
- `Math.random()` is a `real` parameter `random` with the precondition
  `0.0 <= random < 1.0`. The `(int)` cast truncates toward zero
  (`TruncateToInt`).
- The two Swing timers are reduced to whether each one runs, plus the game
  loop's delay (`1000 / 60` = 16 ms, or `1000 / 75` = 13 ms once sped up).
- Playing a sound is reduced to a counter per sound: `scoreSounds` and
  `dieSounds`. In the class these are ghost fields.
- Two behaviours of the code look unintended; the model keeps both as
  written: starting or restarting a game does not reset the pipe speed
  or the loop delay (`StartGameResets`). Once the score is 1000 or more,
  every tick in play speeds the pipes up by 2 again
  (`SpeedUpRepeatsEveryTick`), so pipe speed grows without bound for the
  rest of the game.

## Model

| member | source | states |
|---|---|---|
| Entities.Bird.Reset | src/GamePanel.java:35-38 | reset puts the bird at (50, 320) and keeps its width and height |
| Entities.NewBird | src/GamePanel.java:24-28 | a new bird is 34x24 and already in its reset state, at the start position |
| Entities.NewPipe | src/GamePanel.java:47-58 | a new pipe is 64x512 at the spawn column x = 360, y = 0, not yet passed |
| Entities.Collision | src/GamePanel.java:291-296 | the overlap test is the four strict comparisons; boxes can overlap only when their combined width and combined height are positive. CollisionIffCommonPoint gives its independent characterisation |
| Entities.CollisionIffCommonPoint | src/GamePanel.java:291-296 | for boxes of positive size, the overlap test holds exactly when the two half-open boxes share an integer point |
| Entities.EdgeContactIsNoCollision | src/GamePanel.java:291-296 | boxes that only touch along an edge do not collide, since all four comparisons are strict |
| Entities.TruncateToInt | src/GamePanel.java:167 | the int cast rounds toward zero: to the floor for non-negative values, to the ceiling for negative ones |
| Entities.RandomPipeY | src/GamePanel.java:167 | a new top edge is -128 minus the whole part of random * 256, so it lies in [-383, -128] |
| Simulation.PassedCountScrolled | src/GamePanel.java:254-262 | after the pipe loop, the number of passed pipes is the old number plus the number scored in this tick |
| Simulation.ScrolledAt | src/GamePanel.java:254-262 | pipe j of the moved list is pipe j of the old list, moved and then marked passed if the bird is past it |
| Simulation.PassedCountBound | src/GamePanel.java:258-260 | each pipe counts for at most one passing |
| Simulation.NewlyPassedBound | src/GamePanel.java:258-260 | a pipe already passed never scores again, so passed plus newly scored pipes never exceed the list length |
| Simulation.HitCountPositive | src/GamePanel.java:264-269 | the loop reports a hit exactly when the bird overlaps some pipe of the moved list |
| Simulation.ScrolledKeepsOrder | src/GamePanel.java:254-255 | moving every pipe by the same amount keeps their left-to-right order |
| Simulation.ScrolledStaysLeft | src/GamePanel.java:254-255 | with a pipe speed of 0 or less, no pipe moves right of the spawn column |
| Simulation.ScrolledKeepsPairs | src/GamePanel.java:254-262 | the loop keeps every spawned pair in the same column, with the same gap, passed together |
| Simulation.PairedPassedCountEven | src/GamePanel.java:166-177 | in a list of pairs, pipes are passed two at a time, so the half-point score is a whole number of points |
| Simulation.MoveOutsidePlaying | src/GamePanel.java:244-245 | outside play a tick changes nothing at all |
| Simulation.MoveWhilePlaying | src/GamePanel.java:244-270 | in play: velocityY grows by gravity, the bird falls and is clamped at the top, and its x and size stay. Every pipe moves by the old speed and keeps y and size. A pipe is passed afterwards iff it was passed before or the bird is past its right edge. The score and score sounds grow by the number newly passed. The timers are untouched |
| Simulation.MoveEndsGameIff | src/GamePanel.java:264-277 | in play, a tick ends the game iff the fallen bird overlaps a moved pipe or is below the board, and otherwise play goes on. The flag after the tick is the old flag or game over, so from a state with the flag clear it is set iff the state is game over. One "die" sound plays per pipe hit, plus one for the fall |
| Simulation.MoveSpeedUp | src/GamePanel.java:279-289 | after a tick in play with the score at 1000 or more, the pipes are 2 faster and the delay is 13 ms. Below 1000 neither changes |
| Simulation.SpeedUpRepeatsEveryTick | src/GamePanel.java:279-289 | past the threshold, two ticks in play make the pipes 4 faster: the speed-up is applied again on every tick |
| Simulation.PlacePipesAppendsPair | src/GamePanel.java:166-177 | a spawn appends exactly two unpassed 64x512 pipes at x = 360, with the top edge in [-383, -128] and the bottom pipe 672 lower. The older pipes and all other state are unchanged |
| Simulation.StartGameResets | src/GamePanel.java:150-164 | start puts the panel in play with the bird at (50, 320), velocityY 0, no pipes, score 0 and no game over, and starts both timers. The pipe speed and the loop delay are not reset |
| Simulation.KeyPressedCases | src/GamePanel.java:309-319 | space in play only sets velocityY to -9, and space in the menu starts the game. Space after game over, or any other key, changes nothing |
| Simulation.ActionPerformedStopsTimers | src/GamePanel.java:298-306 | the game-loop action is a tick, then both timers stop exactly when the game-over flag is set. Nothing else differs from the tick |
| Simulation.InitialSatisfiesInv | src/GamePanel.java:86-127 | the constructed panel satisfies the invariant |
| Simulation.FallPreservesInv | src/GamePanel.java:246-251 | gravity and the top clamp keep the invariant, and the bird stays at y >= 0 |
| Simulation.ScrollPipesPreservesInv | src/GamePanel.java:253-270 | the pipe loop keeps the invariant: score equals passed pipes, the pairs, the order, the spawn bound, and the game-over flag matching the state |
| Simulation.HitGroundPreservesInv | src/GamePanel.java:272-277 | the ground check keeps the invariant |
| Simulation.IncreaseGameSpeedPreservesInv | src/GamePanel.java:286-289 | the speed-up keeps the invariant: the speed stays at -4 or less and the delay is 16 or 13 ms |
| Simulation.MovePreservesInv | src/GamePanel.java:244-284 | a tick keeps the invariant |
| Simulation.AppendPairKeepsShape | src/GamePanel.java:166-177 | appending a well-formed pair at the spawn column keeps a list of pairs in left-to-right order within the spawn column |
| Simulation.AppendPairKeepsPassedCount | src/GamePanel.java:170-176 | two unpassed pipes add nothing to the passed count |
| Simulation.PlacePipesPreservesInv | src/GamePanel.java:166-177 | a spawn keeps the invariant |
| Simulation.StartGamePreservesInv | src/GamePanel.java:150-164 | start keeps the invariant |
| Simulation.KeyPressedPreservesInv | src/GamePanel.java:309-319 | a key press keeps the invariant |
| Simulation.ActionPerformedPreservesInv | src/GamePanel.java:298-306 | the game-loop action keeps the invariant. After it, a game that is over has both timers stopped |
| Simulation.InvConsequences | src/GamePanel.java:62-76 | in every reachable state the score is at most one half-point per pipe and a whole number of points, and pipes are in left-to-right order |
| Panel.ScrollPipeList | src/GamePanel.java:254-270 | the loop over the pipe list computes the moved list, the number of pipes newly passed and the number of pipes hit, each as the specification functions define them |
| Panel.GamePanel.constructor | src/GamePanel.java:86-127 | the new panel is in the menu with the bird at its start, no pipes, score 0, speed -4, a 16 ms delay and both timers stopped. It satisfies the invariant |
| Panel.GamePanel.StartGame | src/GamePanel.java:150-164 | the fields become the state given by the start function, and the invariant is kept |
| Panel.GamePanel.PlacePipes | src/GamePanel.java:166-177 | the two new pipes are appended in place, and the invariant is kept |
| Panel.GamePanel.Move | src/GamePanel.java:244-284 | the fields become the state of one tick, and the invariant is kept |
| Panel.GamePanel.MovePipes | src/GamePanel.java:253-270 | the pipe loop's results are written to the fields: the new list, the added score, and the game-over state on any hit. The invariant is kept |
| Panel.GamePanel.IncreaseGameSpeed | src/GamePanel.java:286-289 | the pipe speed drops by 2 and the delay becomes 13 ms, and nothing else changes. The invariant is kept |
| Panel.GamePanel.ActionPerformed | src/GamePanel.java:298-306 | a tick, then both timers stop if the game is over. The invariant is kept, and a game that is over has both timers stopped |
| Panel.GamePanel.KeyPressed | src/GamePanel.java:309-319 | space jumps in play and starts the game from the menu, and the invariant is kept |

## Left out

- Rendering: `paintComponent`, `draw`, `drawMenu`, `drawGameOver` and `repaint` only draw the state. The images and fonts are left out too.
- The buttons' layout and visibility, and the quit button, which calls `System.exit`.
- Loading images and sounds. Audio playback is reduced to a request counter per sound. Background music is left out.
- The `(int) score` shown on screen is rendering only.
- Swing timer scheduling is left out: when `actionPerformed` and `placePipes` fire, and how they interleave with key events. Each timer is a running flag, and the game loop's delay is kept as a number. Which callback runs next is up to the caller.
- `Math.random()` is a parameter and not a random source. `keyTyped` and `keyReleased` do nothing and are left out. `src/App.java` (the window) is not part of this model.
- Entities.RandomPipeY: this computes on exact reals. Java rounds `-128.0 - random * 256.0` to a double first. For the largest double below 1.0, that rounds to `-384.0`, so the true range is [-384, -128]. The model's range is [-383, -128].
- Java's 32-bit `int` overflow is not modelled; all arithmetic is unbounded. It matters within minutes of the speed-up: past 1000 points `velocityX` drops by 2 on every tick and pipes are never removed, so the oldest pipe's `x` (about -375,000 at the threshold) falls by about t² in t ticks and wraps after roughly 46,000 ticks, about 10 minutes at 13 ms. A wrapped pipe can come back into the bird's column and end the game through `collision` in Java; the unbounded model cannot produce that ending.
- Panel.ScrollPipeList: Java moves the `Pipe` objects in place inside the `ArrayList`, and sets `gameOver` and `currentState` inside the loop. The model's loop updates a local copy of the list and counts the hits. `GamePanel.MovePipes` then writes the list, the score and the game-over state back. The result is the same, but aliasing of `Pipe` objects is not modelled. `Pipe` and `Bird` are values.
- Panel.GamePanel.Move: Java's `move()` is split here into the fall, the pipe loop (`MovePipes`) and the ground check. `GamePanel.Move` still runs them in the source's order.
