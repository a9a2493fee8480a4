# Worm game engine, modelled in Dafny

The repository is a snake-like game for a touch screen. A worm moves on a grid
`WIDTH` = 14 cells across. Each move is one cell in the heading at the front of
a queue of requested headings. The tail follows the head and is at most `size`
cells long. Apples are scattered at random cells. Eating one lengthens the worm
by 3 and scores 100 points. Eating the last one of a level scores 1000 more and
starts the next level: the worm moves 7 ms faster, the background changes
colour, and `5 * (level + 1)` new apples appear. After level 10 the game is won.
Leaving the grid or running into the tail ends the game. Swipes turn the worm.

The model has five modules:

- `Cells`: the `Cell` coordinates and the four headings, with the unit `Step`
  a heading makes. It also holds the `find` and `filter` searches over lists of
  cells (`Find`, `Without`).
- `Worms`: the class `Worm` with `head`, `tail`, `directions` and `size`. Its
  methods change these fields in place. Each method is specified by the value
  functions `Request`, `Advance` and `Trim`.
- `Grids`: the class `Grid` and its list of apples. `Seed` is the counted loop
  that appends apples. `Math.random()` is replaced by caller-supplied `Draw`s.
- `Games`: the class `Game`, whose fields are the configuration, the score,
  the running flag and the move deadline. `Snapshot()` views the game and its
  worm and grid as one `State` value. Each method is proved to change that
  value as a function over `State` says (`Tick`, `Settled`, `LevelledUp`,
  `TouchEnded`). Lemmas about those functions state what a frame, a level-up
  and a swipe do.
- `Scenarios`: short games followed through the contracts.
  - A fresh worm moves.
  - A reversing request is dropped.
  - Five apples on the first cell are eaten at once, which levels up.
  - A frame before the deadline waits.
  - A swipe up leads the worm out of the grid.

## Model

| member | source | states |
|---|---|---|
| `Cells.Step` | src/game/index.ts:115-124 | the next cell is a unit step: the vertical axis moves exactly for Up and Down, and the coordinate grows exactly for Right and Down |
| `Cells.StepReversible` | src/game/index.ts:115-124 | a step followed by the opposite step returns to the start; different headings lead to different cells |
| `Cells.Find` | src/game/index.ts:186-188 | `find` by coordinates succeeds exactly when an equal cell is in the list, and returns that cell |
| `Cells.Without` | src/game/index.ts:245-247 | the filtered list no longer holds the cell; every other cell keeps its number of occurrences; the length drops by the occurrences removed |
| `Cells.WithoutAppend` | src/game/index.ts:245-247 | filtering distributes over concatenation, so the kept apples stay in their order |
| `Cells.WithoutIdempotent` | src/game/index.ts:245-247 | eating the same cell twice is eating it once |
| `Cells.WithoutAbsent` | src/game/index.ts:245-247 | filtering out a cell that is not there changes nothing |
| `Cells.WithoutOnly` | src/game/index.ts:245-251 | filtering out the only cell present (however often it occurs) leaves the grid done |
| `Worms.Worm.constructor` | src/game/index.ts:65-76 | a new worm is at (1, 1) heading Right, with an empty tail and size 3; its queue holds exactly one heading |
| `Worms.Worm.SetDirection` | src/game/index.ts:78-93 | the queue becomes `Request(old queue, d)`, and head, tail and size are unchanged |
| `Worms.RequestEffect` | src/game/index.ts:78-93 | a request leaves the queue unchanged exactly when `d` equals or reverses the last queued heading; otherwise it appends exactly `d`; the queue stays non-empty |
| `Worms.RequestThenReverse` | src/game/index.ts:78-93 | asking for `d` and then for its opposite queues `d` only |
| `Worms.Worm.GetNext` | src/game/index.ts:108-125 | returns the step from the head in the front heading; the front is dequeued only when another heading waits |
| `Worms.AdvanceKeepsOne` | src/game/index.ts:108-114 | dequeuing never empties the queue and keeps a lone heading |
| `Worms.Worm.Move` | src/game/index.ts:95-106 | the new head is a unit step in the front heading; the old head is appended to the tail, and the oldest cell is dropped when the tail exceeds `size`; a tail within `size` stays within it |
| `Worms.TrimBounded` | src/game/index.ts:97-106 | appending then trimming keeps the tail within `size`: it grows until it reaches `size`, then loses its oldest cell at each move |
| `Worms.Worm.Grow` | src/game/index.ts:174-176 | size grows by `qty` (3 by default); nothing else changes; a non-negative growth keeps the tail bound |
| `Worms.Worm.Shrink` | src/game/index.ts:178-180 | size shrinks by `qty` (3 by default); nothing else changes |
| `Worms.Worm.IsWorm` | src/game/index.ts:186-188 | true exactly when the cell is a tail cell; the head is not compared |
| `Grids.Scale` | src/game/index.ts:206-207 | `Math.floor(r * n)` for `r` in [0, 1) lies in [0, n) |
| `Grids.ScaleBelow` | src/game/index.ts:206-207 | `r * n` lies in [0, n) for `r` in [0, 1) |
| `Grids.Place` | src/game/index.ts:206-208 | the apple one pair of draws places is inside the grid |
| `Grids.Placed` | src/game/index.ts:204-209 | a run of draws places one apple per draw, in draw order, all inside the grid |
| `Grids.Grid.constructor` | src/game/index.ts:196-200 | a new grid holds exactly the apples seeded for its level |
| `Grids.Grid.Seed` | src/game/index.ts:202-210 | appends exactly `APPLES * (level + 1)` apples, each inside the grid, after the apples already there |
| `Grids.Grid.IsApple` | src/game/index.ts:241-243 | true exactly when an apple is on the cell |
| `Grids.Grid.Eat` | src/game/index.ts:245-247 | the apples become the filtered list, and afterwards no apple is on the cell |
| `Grids.Grid.IsDone` | src/game/index.ts:249-251 | true exactly when no cell holds an apple |
| `Games.Initial` | src/game/index.ts:277-289 | a new game is stopped at level 0 with score 0, a non-empty queue, a bounded tail and 5 apples inside the grid |
| `Games.Game.constructor` | src/game/index.ts:258-290 | a new game object is the `Initial` state, with a fresh worm and a fresh grid |
| `Games.Game.Start` | src/game/index.ts:297-301 | sets `running` and makes the next frame due at once; nothing else changes |
| `Games.Game.Stop` | src/game/index.ts:303-305 | clears `running`; nothing else changes |
| `Games.Game.Win` | src/game/index.ts:403-406 | stops the game; nothing else changes |
| `Games.Game.Die` | src/game/index.ts:408-411 | stops the game; nothing else changes |
| `Games.Game.IsOutside` | src/game/index.ts:413-416 | true exactly when the cell is outside [0, nbCellsX) × [0, nbCellsY) |
| `Games.Game.CheckState` | src/game/index.ts:373-389 | -1 exactly when the head is outside the grid or on a tail cell; 1 exactly when it is inside, not on the tail and on an apple; 0 otherwise |
| `Games.Game.LevelUp` | src/game/index.ts:391-401 | the game changes as `LevelledUp` says |
| `Games.LevelledUpEffect` | src/game/index.ts:391-401 | adds 1000 points and 1 level. Below level 10: the interval drops by 7 ms, the colour follows the level, and `APPLES * (level + 1)` in-grid apples are appended after the kept ones. At level 10: only `running` is cleared |
| `Games.Settled` | src/game/index.ts:325-339 | the outcome switch keeps the game invariant and never lowers the score |
| `Games.Tick` | src/game/index.ts:311-339 | a frame keeps the game invariant (non-empty queue, bounded tail, apples inside the grid) and never lowers the score |
| `Games.Game.Loop` | src/game/index.ts:311-342 | the game changes as `Tick` says; a new frame is requested exactly when the game was running; the frame is painted exactly when the move was due and not fatal |
| `Games.Game.Play` | src/game/index.ts:317-339 | a due frame changes the game as `Tick` says, and is painted exactly when the move is not fatal |
| `Games.Game.Settle` | src/game/index.ts:325-339 | the game changes as `Settled` says; `paint` is reached exactly when the outcome is not -1 (case 1 falls through, case -1 breaks) |
| `Games.IdleTickChangesNothing` | src/game/index.ts:313-317 | a frame changes nothing when the game is stopped or the move is not yet due |
| `Games.DueTickMovesOnce` | src/game/index.ts:317-322 | a due frame moves once, one unit step in the front heading, and sets the deadline to `time + speed` |
| `Games.TickScore` | src/game/index.ts:325-339 | the score grows by 0, 100 or 1100. A fatal move stops the game and changes neither score, apples nor size. An empty cell changes none of them either, and the game keeps running |
| `Games.TickEats` | src/game/index.ts:329-334 | eating a non-last apple adds 3 to the size and 100 to the score; it removes the apples on the head cell and keeps the others in order; it does not level up |
| `Games.TickLevelsUp` | src/game/index.ts:329-336 | eating the last apple adds 1100 points and 1 level. Below level 10, the game runs on 7 ms faster with `APPLES * (level + 1)` new apples. At level 10 it stops with its speed unchanged |
| `Games.Swipe` | src/game/index.ts:432-438 | Left/Right exactly when the horizontal displacement is at least 100 (by sign). Otherwise Up/Down exactly when the vertical one is at least 100. Otherwise no heading |
| `Games.Game.OnTouchStart` | src/game/index.ts:418-420 | records the touch point; nothing else changes |
| `Games.Game.OnTouchEnd` | src/game/index.ts:425-444 | the game changes as `TouchEnded` says |
| `Games.TouchEndedRequests` | src/game/index.ts:425-444 | a touch end changes at most the heading queue, and only by the request the swipe asks for; without a recorded start it changes nothing |
| `Scenarios.EatingTheLastAppleLevelsUp` | src/game/index.ts:311-339 | five apples on (2, 1) are all eaten by the first move, which levels up. The result is 1100 points, level 1, a 93 ms interval, size 6 and 10 new apples |
| `Scenarios.SwipeUpTurnsAfterOneMove` | src/game/index.ts:425-444 | a swipe up queues Up behind Right; the first frame still moves right, then only Up is left |
| `Scenarios.LeavingTheGridEndsTheGame` | src/game/index.ts:325-328 | the worm leaves the grid at (2, -1); the game stops without a repaint or points, and later frames change nothing |

## Left out

- Drawing is not modelled: `Worm.draw`, `Grid.draw`, `Game.paint` and the canvas sizing. `Game.Loop` only reports whether `paint` would be called.
- `HEIGHT` is a float computed from the screen size. The model takes the number of rows as a positive integer `nbCellsY`. For integer cells, `y < HEIGHT` and `y < ceil(HEIGHT)` agree. The row an apple's draw lands on, however, is computed from the integer.
- `Math.random()` is replaced by caller-supplied `Draw` pairs of reals in [0, 1). `Game.Loop` and `Game.LevelUp` require at least `APPLES * MAX_LEVEL` draws, which covers any reseed.
- Floating point: timestamps, `nextMove` and touch coordinates are exact reals. The first deadline is 0.0, where the source leaves `nextMove` undefined until `start`.
- `requestAnimationFrame` is not modelled as scheduling. `Game.Loop` returns whether it would be called; `Game.Start` does not.
- The `wx.onTouch*` registration is not modelled. The empty `onTouchMove` handler is not modelled either.
- `console.log` in `win` and `die` is not modelled.
- A touch event is modelled as its first changed touch, a `Point`.
- `Game.OnTouchEnd` without an earlier touch start changes nothing. In the source, reading the missing start throws before anything changes.
- `Worm` and `Grid` do not hold a reference back to the game. `Grid.Seed` takes the grid size and level as parameters instead.
- `Worms.Worm.Shrink`: it does not keep the tail bound, because the source puts no floor on `size`.
- `Worms.Worm.GetHead` has no contract; it returns the head.
- `COLORS` is kept as the list of ten colour strings. Every index used is below 10.
