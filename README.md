# Snake: the per-tick simulation

A Dafny model of the game logic of a grid snake game written in Go with the
ebiten engine (`cmd/snake/main.go`). The board is 20 × 20 cells
(`screenWidth / gridSize` in both directions). The engine calls `Game.Update`
once per frame. Each call does the following:

1. If the game is over, it does nothing.
2. It steers from the arrow keys with an else-if chain in the order Up, Down,
   Left, Right. A key that would reverse the current direction is refused.
3. It counts the tick. The snake moves only when the new tick is a multiple
   of 5.
4. It moves the head one cell in the current direction and then either:
   - ends the game on a wall or self collision;
   - grows the snake and places new food;
   - or drops the tail.

Food is placed by rejection sampling (`Game.spawnFood`): random cells are
drawn until one misses the snake. A session starts with the snake at (5, 5)
heading right, score 0, and a first food placement.

Files:

- `snake.dfy`, module `Snake`:
  - the value model: `Point`, `Keys`, `State`;
  - the specification of one call: `Steer` for the key chain, `Advance` and
    `Move`, combined in `Step`;
  - food placement: `Sample` and `Spawn`;
  - the snake invariant `Inv` and the lemmas about one step;
  - class `Game`, holding the same six fields as the Go struct. Its
    `Update`, `Turn` and `SpawnFood` methods are imperative code that mirrors
    the Go statements, and each is proved to follow its specification
    function.
- `scenarios.dfy`, module `SnakeRuns`: the host calling `Update` once per
  frame (`Run`), with its own keys and draws on every call, and lemmas about
  several calls in a row.

Modelling decisions:

- The keyboard is four boolean inputs.
- The random source is a stream of board cells, `draws: seq<Cell>`, supplied
  by the caller. Each cell stands for the pair of `rand.Intn(20)` calls that
  makes one candidate. `Cell` is the subset type of in-grid points, so the
  range of `rand.Intn` is part of the type. A placement takes the first draw
  that is not on the snake (`Sample`, `Spawn`).
- The reversal tests in the source compare a single coordinate, for example
  `direction.Y != 1` for Up. `Steer` keeps those exact tests.
  `SteerIsFirstAllowed` proves that they amount to "not the exact opposite" of
  the current direction when that direction is a unit vector, and the
  invariant keeps it one.
- The direction can change on a call that does not move. So over two calls
  the snake can turn back onto its neck. `NeckTurn` shows this, and it shows
  the self-collision check catching it.
- `tick` and `score` are `nat`. They start at 0 and only ever increase, so
  Go's truncating `%` agrees with Dafny's `%` here.
- `Game.Turn` is the else-if chain of `cmd/snake/main.go:39-47` as a method of
  its own, with its own contract. `Update` runs it first, before the tick, as
  the Go code does.

## Model

| member | source | states |
|---|---|---|
| Snake.Steer | cmd/snake/main.go:39-47 | the else-if chain with the source's single-coordinate reversal tests; the new direction is either the old one or one of the held keys |
| Snake.Initial | cmd/snake/main.go:141-146 | the state `main` builds: snake [(5,5)], heading (1,0), score 0, tick 0, playing, food from the first placement; one segment, food on the board and off the snake |
| Snake.Advance | cmd/snake/main.go:38-52 | the part of a call before the cadence test: steer, then count the tick; the tick rises, and a unit direction stays a unit direction that is not the reverse of the old one |
| Snake.Move | cmd/snake/main.go:54-81 | the move once the cadence test has passed: wall or self collision sets the flag, a head on the food grows the snake, otherwise the tail is dropped; the snake never shrinks, it grows exactly when the score rises, direction and tick are untouched, and unless the game ends the new head is the old head plus the direction |
| Snake.Step | cmd/snake/main.go:33-84 | one call of `Update`: frozen when over, otherwise advance and move on every fifth tick; the game-over flag never resets, snake length and score never fall, and length minus score is constant |
| Snake.SteerIsFirstAllowed | cmd/snake/main.go:39-47 | for a unit direction, the new direction is the first held key (Up, Down, Left, Right order) that is not the exact opposite of the current one; with no such key the direction is unchanged |
| Snake.SteerKeepsUnit | cmd/snake/main.go:39-47 | steering keeps the direction one of the four unit vectors and never picks the reverse of the current direction |
| Snake.Sample | cmd/snake/main.go:116-131 | the number of rejected draws never exceeds the number of draws available |
| Snake.SampleIsFirstFree | cmd/snake/main.go:116-131 | sampling stops at a draw off the body, every earlier draw is on the body, and it stops inside the stream exactly when some draw is free |
| Snake.SampleUnique | cmd/snake/main.go:116-131 | an index whose draw is free and whose earlier draws are all rejected is the index where sampling stops |
| Snake.Spawn | cmd/snake/main.go:115-132 | the placed food is off the body and is the first draw not on the body |
| Snake.InitialInv | cmd/snake/main.go:141-146 | the initial state (snake [(5,5)], heading (1,0), score 0, tick 0, food placed) satisfies the snake invariant and is playing |
| Snake.StepFrozenWhenOver | cmd/snake/main.go:33-36 | once the game is over a call changes nothing: not the tick, the direction, the snake, the food or the score |
| Snake.StepSteersAndTicks | cmd/snake/main.go:38-49 | while playing, a call sets the direction from the key chain and increases the tick by exactly one |
| Snake.StepBetweenMoves | cmd/snake/main.go:49-52 | when the new tick is not a multiple of 5 only the direction and the tick change |
| Snake.StepEndsGameIffCollides | cmd/snake/main.go:58-70 | while playing, a call ends the game if and only if it moves and the new head is off the board or on a current segment (the tail included) |
| Snake.StepCollision | cmd/snake/main.go:58-70 | on a wall or self collision the game ends and the snake, food and score stay as they were |
| Snake.StepSlide | cmd/snake/main.go:72-81 | a move that does not eat makes the snake the new head followed by the old snake without its last cell; length, score and food unchanged, game still on |
| Snake.StepEat | cmd/snake/main.go:72-78 | a move onto the food makes the snake the new head followed by the whole old snake; length and score rise by one; the new food is the first draw off the grown snake, on the board and off the snake |
| Snake.StepPreservesInv | cmd/snake/main.go:55-81 | every call keeps the snake invariant: length at least 1, all segments on the board and pairwise distinct, food on the board and off the snake, a unit direction, score equal to length minus one |
| Snake.Game.constructor | cmd/snake/main.go:141-146 | the fields after construction and the first placement are the initial state, which satisfies the invariant |
| Snake.Game.SpawnFood | cmd/snake/main.go:115-132 | the loop puts the food on the first draw that misses the snake, which is on the board and off the snake; only the food field changes |
| Snake.Game.Turn | cmd/snake/main.go:39-47 | the else-if chain over the keys sets the direction to what the steering rule gives; only the direction changes |
| Snake.Game.Update | cmd/snake/main.go:33-84 | the fields after the call are the specified step applied to the fields before it, and the snake invariant is preserved |
| SnakeRuns.RunFrozen | cmd/snake/main.go:34-36 | a finished game stays exactly the same over any sequence of further calls, whatever keys and draws each call brings |
| SnakeRuns.RunPreservesInv | cmd/snake/main.go:55-81 | the snake invariant holds after any sequence of calls, with different keys held on each call |
| SnakeRuns.IdleTicks | cmd/snake/main.go:49-52 | with no key held, calls whose new tick is not a multiple of 5 change only the tick and none is cut short |
| SnakeRuns.FifthCallMoves | cmd/snake/main.go:49-56 | from a tick that is a multiple of 5, with no key held, four calls leave the snake in place and the fifth makes the move with its own draws |
| SnakeRuns.OpeningMeal | cmd/snake/main.go:141-146 | from snake [(5,5)] heading right with food at (8,5), fifteen calls reach the food: two segments, score 1, new food off the snake |
| SnakeRuns.NeckTurn | cmd/snake/main.go:39-70 | Left is refused while heading right, but Up on a non-moving call then Left on the moving call turns the head onto the neck and ends the game |

## Left out

- `Game.Draw` (rendering with float pixel coordinates and colours) and `Game.Layout`
  (the host's canvas-size query) are user interface, not simulation.
- `itoa` only wraps `fmt.Sprintf`.
- The window setup, `ebiten.RunGame` and `log.Fatal` in `main` are host glue.
  Only the initial field values of `main` are modelled.
- The seeding of the random source from the clock is left out. The source itself is an
  explicit stream of candidate cells, so the model does not capture how often a cell
  is drawn or any uniformity.
- Snake.Game.SpawnFood: requires that some draw in the stream misses the snake. The
  source loops forever when the snake covers the board, and the model does not model
  a non-terminating placement.
- Snake.Game.Update: requires a free draw for the grown snake only on a call that
  eats. The board-full case has the same reason as for SpawnFood. It also requires a
  non-empty snake, which the source indexes without checking and the invariant
  guarantees.
- Go's 64-bit `int` overflow of `tick` and `score` is not modelled. Both are unbounded
  `nat`s. Overflow would need about 2^63 calls.
- SnakeRuns.Run stops at a call whose food placement that call's draws cannot
  satisfy. That is a limit of the driver model, not behaviour of the game.
  `Completes` says that no call of a run was cut short.
