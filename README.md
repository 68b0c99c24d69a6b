# snakeai — a Dafny model of the Snake bookkeeping and the REINFORCE transcript

This project models the deterministic core of a small reinforcement-learning
Snake testbed:

- **the snake** (`snake.dfy`, module `SnakeModel`): a body of integer cells, head
  first, and a heading. The reversal guard `check_move_direction` is a function.
  `move` and `add_to_tail` update the body and heading in place and are methods
  of the class `Snake`. The `from_starting_length` factory validates the initial
  length and lays out a horizontal body heading right.
- **the grid** (`grid.dfy`, module `GridModel`): an immutable value. Its `n × n`
  cells are laid out row by row by the nested comprehension (`Layout`). Each cell has a pixel
  rectangle, modelled as a 4-tuple `Rect`. The module also gives the grid's
  geometry and the random cell draw.
- **the agent's bookkeeping** (`agent.dfy`, module `Agent`):
  - the direction ↔ action-index encoding;
  - the per-episode transcript (log-probabilities and rewards) kept by the class
    `ReinforceAgent`;
  - the discounted return-to-go computed at the start of `train_step`.
- **episode statistics** (`stats.dfy`, module `Stats`): an append-only log whose
  indices run 1, 2, 3, ….
- **the snack** (`snack.dfy`, module `SnackModel`): a mutable coordinate holder
  whose setters are the properties `set_x` / `set_y`.

Supporting modules:
- `directions.dfy` (module `Directions`): the four-valued `Direction` with unit
  deltas. `MoveDirection` is imported by the source but is not defined in
  constants.py, so the model defines its own. Up is taken as `dy = -1`; nothing
  proved depends on that sign.
- `random_draws.dfy` (module `RandomDraws`): `random.randint(lo, hi)` with the
  draw supplied by the caller. The draw is constrained only when the range is
  non-empty; an empty range is the `ValueError` the source raises.
- `wrappers.dfy`: `Option` and `Result`.

Notes on how the model reads the code:

- Python's `//` with a positive divisor agrees with Dafny's `/` on every `int`
  (both round toward minus infinity there), so `n // 2`, `n // 3` and
  `2 * n // 3` are modelled exactly.
- `from_starting_length` rejects `length > n // 2` explicitly. For
  `length == n // 2` the guard passes, but `randint(length + 1, n // 2)` has an
  empty range and raises. `StartingCells` models both failures, as
  `InitialLengthTooLarge` and `EmptyRandomRange`.
- `move` and `add_to_tail` on an empty body raise `IndexError`; the methods return
  `ok == false` then. `move` assigns the resolved heading before it reads the
  head, so the new heading survives the failure; `Snake.Move` keeps it too.
- `train_step` raises before clearing when there is no loss term, that is when
  no reward or no log-probability was recorded (concatenating an empty list
  fails). `TrainStep` reports this as `Failure(EmptyLoss)` and changes nothing.
- `Snake.Length` models `__len__`. The `cells` properties of `Snake` and `Grid`
  are the fields themselves.
- Invariants proved beyond the source's own statements:
  - every snake built by `from_starting_length` is connected (consecutive cells
    share a side) and its head leads in the heading, and `move` and `add_to_tail`
    keep both (`Snake.Valid`);
  - while the head leads, the reversal guard keeps the new head off the second
    body cell (`GuardAvoidsNeck`).

## Model

| member | source | states |
|---|---|---|
| `SnakeModel.CheckMoveDirection` | snake.py:28-38 | The result is the current heading or the requested direction. No request, or the current heading, keeps the heading. The exact reverse is refused, with no condition on length. Any other (perpendicular) request is adopted. The result is never the reverse of the current heading. |
| `SnakeModel.Moved` | snake.py:44-48 | The body after a move has the same length. Its head is the old head plus the heading's delta, and cell i (i ≥ 1) is the old cell i − 1. |
| `SnakeModel.Grown` | snake.py:20-26 | The grown body is one cell longer. The old cells are unchanged, and the new last cell is the old last cell minus the heading's delta. |
| `SnakeModel.StartingCells` | snake.py:56-71 | `length > n // 2` fails with the explicit error. `length == n // 2` fails with randint's empty range. It succeeds exactly when `length < n // 2` and the y range is non-empty. The body then has `length` cells (none for a negative length), and cell i is `(startX − i, startY)`. |
| `SnakeModel.StartingCellsDistinct` | snake.py:68-71 | The initial body has no repeated cell. |
| `SnakeModel.StartingCellsShape` | snake.py:63-71 | The initial body is connected and its head leads to the right. |
| `SnakeModel.StartingCellsBounds` | snake.py:63-71 | With the draws in their ranges, every initial x lies in [2, n // 2] and every y in [n // 3, 2n // 3]. |
| `SnakeModel.MovedKeepsShape` | snake.py:40-48 | A move keeps a connected body connected, and the new head leads in the resolved heading. |
| `SnakeModel.GrownKeepsShape` | snake.py:20-26 | Growing keeps a valid body connected and leaves the head and its lead untouched. |
| `SnakeModel.GuardAvoidsNeck` | snake.py:32-36 | While the head leads in the heading, no request moves the new head onto the old second cell. |
| `SnakeModel.Snake.constructor` | snake.py:9-11 | A new snake holds the given cells and heads right. |
| `SnakeModel.Snake.AddToTail` | snake.py:20-26 | The body becomes `Grown(old body, heading)`, one cell longer, and the heading is unchanged. An empty body fails and nothing changes. Validity is kept. |
| `SnakeModel.Snake.Move` | snake.py:40-48 | The heading becomes the result of the guard. The body becomes `Moved(old body, new heading)`, with the same length. An empty body fails after the heading update. Validity is kept, and a valid snake of length ≥ 2 never moves its head onto its old second cell. |
| `SnakeModel.Snake.Length` | snake.py:17-18 | `len(snake)` is the number of body cells. `Move` keeps it, and `AddToTail` increases it by one. |
| `SnakeModel.Snake.FromCoordinates` | snake.py:76-83 | A fresh snake over exactly the given cells, heading right. |
| `SnakeModel.Snake.FromStartingLength` | snake.py:50-74 | The initial length defaults to 4. It fails exactly when `StartingCells` fails, with the same error. Otherwise it returns a fresh snake over that body, heading right and valid. |
| `RandomDraws.RandInt` | snake.py:63-67 | It is defined exactly when `lo ≤ hi`, and then returns the draw, which lies in [lo, hi]. |
| `GridModel.Row` | grid.py:25-33 | The inner loop yields n cells; cell j is the cell for (i, j). |
| `GridModel.Layout` | grid.py:25-33 | The outer loop over the first `rows` values of i, each contributing one row, yields `rows · n` cells. |
| `GridModel.LayoutAt` | grid.py:25-33 | The outer loop variable is i: the cell for (i, j) sits at position `i · n + j`. |
| `GridModel.NewGrid` | grid.py:21-33 | The grid keeps `num_cells` and `cell_size` and has exactly `num_cells²` cells (none for a negative count). |
| `GridModel.CellAt` | grid.py:25-33 | Position `i · n + j` holds x = i, y = j and the rectangle `(i(s+1), j(s+1), s, s)`. |
| `GridModel.CellCoordinates` | grid.py:25-33 | Every cell has coordinates in [0, n), sits at position `x · n + y` and carries its layout rectangle. |
| `GridModel.CellsUnique` | grid.py:25-33 | Two cells have the same coordinates only if they are the same position: every pair appears once. |
| `GridModel.CellRectsInside` | grid.py:50-56 | For a non-negative cell size, every cell's rectangle lies inside the `width × height` surface. |
| `GridModel.ShapeMatchesCells` | grid.py:46-60 | For every `num_cells`, `shape == (num_cells, num_cells)` and `height == width == num_cells · (cell_size + 1)`. For a non-negative `num_cells`, the product of the shape is the number of cells. |
| `GridModel.Grid.NumCells` | grid.py:46-48 | `num_cells` returns the constructor argument. |
| `GridModel.Grid.Height` | grid.py:50-52 | `height == num_cells · (cell_size + 1)`. |
| `GridModel.Grid.Width` | grid.py:54-56 | `width == num_cells · (cell_size + 1)`, which equals the height. |
| `GridModel.Grid.Shape` | grid.py:58-60 | `shape == (num_cells, num_cells)`. |
| `GridModel.RandomCell` | grid.py:35-40 | Padding defaults to off. It succeeds exactly when n ≥ 1 (n ≥ 3 with padding) and returns the draws. Unpadded coordinates lie in [0, n − 1] and padded ones in [1, n − 2]. |
| `Agent.Encode` | agent.py:12-17 | Every direction maps to an index in 0..3. |
| `Agent.Decode` | agent.py:18-20 | The reverse lookup is defined exactly on 0..3 and is a right inverse of the encoding there. |
| `Agent.DecodeEncode` | agent.py:12-20 | Decoding the encoding of d gives d back. |
| `Agent.EncodingBijective` | agent.py:12-20 | The encoding is injective and hits every index in 0..3. |
| `Agent.DiscountedTerms` | agent.py:64-67 | There is one term per k in `range(t, len(rewards))`. |
| `Agent.ReturnsToGo` | agent.py:63-69 | There is one return per reward; no rewards give no returns. |
| `Agent.ReturnsRecurrence` | agent.py:63-69 | `G[T−1] = rewards[T−1]` and `G[t] = rewards[t] + discount · G[t+1]`. |
| `Agent.ZeroRewardsZeroReturns` | agent.py:63-69 | All-zero rewards give all-zero returns. |
| `Agent.ReturnsExample` | agent.py:41-69 | Rewards [1, 1, 1] at the default discount 0.9 give returns [2.71, 1.9, 1]. |
| `Agent.ReinforceAgent.constructor` | agent.py:41-47 | It stores the discount, 0.9 by default, and both transcript lists start empty. |
| `Agent.ReinforceAgent.SelectPolicyAction` | agent.py:49-57 | It appends exactly the sampled action's log-probability and leaves rewards alone. It returns the direction the reverse encoding gives for the sampled index. |
| `Agent.ReinforceAgent.AddReward` | agent.py:59-60 | It appends exactly one reward, leaves the log-probabilities alone and restores the balance after a selection. |
| `Agent.ReinforceAgent.TrainStep` | agent.py:62-81 | It fails, changing nothing, exactly when no reward or no log-probability was recorded. Otherwise it yields the return-to-go of the rewards and ends with both lists empty. |
| `Agent.ReinforceAgent.Clear` | agent.py:83-85 | Both transcript lists become empty. |
| `Stats.Appended` | stats.py:10-15 | The log grows by one entry, `(previous count + 1, reward, duration)`, and the earlier entries are unchanged. |
| `Stats.AppendedIndexedFromOne` | stats.py:10-15 | Appending keeps entry k at index k + 1, so the indices stay consecutive from 1. |
| `Stats.GameStats.constructor` | stats.py:6-8 | A new log is empty, hence indexed from one. |
| `Stats.GameStats.AddEpisode` | stats.py:10-15 | The log becomes `Appended(old log, reward, duration)` and keeps its indices consecutive from 1. |
| `SnackModel.Snack.constructor` | snack.py:6-16 | The getters `x` and `y` return the constructor arguments. |
| `SnackModel.Snack.X` | snack.py:10-12 | `x` returns the stored x coordinate. |
| `SnackModel.Snack.Y` | snack.py:14-16 | `y` returns the stored y coordinate. |
| `SnackModel.Snack.Coords` | snack.py:18-20 | `coords == (x, y)`. |
| `SnackModel.Snack.SetX` | snack.py:22-24 | Assigning through `set_x` sets x and leaves y unchanged. |
| `SnackModel.Snack.SetY` | snack.py:26-28 | Assigning through `set_y` sets y and leaves x unchanged. |

## Left out

- The policy network (convolution, ReLU, pooling, linear layer, softmax) and the categorical sampling. This is floating-point numerics through torch. The sampled index and its log-probability are parameters of `SelectPolicyAction`, and log-probabilities are an opaque type parameter.
- The return normalisation (mean and standard deviation), the loss, `backward` and the Adam step of `train_step`. These are floating point and torch calls. As a result, `TrainStep` hands back the return-to-go vector instead of updating parameters. Returns are exact reals, not floats, and no claim about float equality is made.
- The state tensor and the `eval` flag of `select_policy_action`, and the `num_frames_per_sample` and `num_actions` arguments of the agent's constructor. They configure the network. `num_actions` also sets how many indices the sampling can return. `SelectPolicyAction` requires the sampled index to be in 0..3, which assumes the default of 4 actions. With more actions, an index of 4 or more would raise `KeyError` in the reverse lookup after its log-probability had been appended; that path is not modelled.
- `save` / `load` (file I/O through torch serialisation) and the demonstration block at the end of agent.py.
- `GameStats.plot`: matplotlib output.
- game.py, main.py and utils.py: rendering, the event loop, the command line and colour helpers. They hold no collision, eating or reward logic, and none is invented here.
- The `DEFAULT_NUMBER_OF_CELLS` and `DEFAULT_CELL_SIZE` defaults of the grid, because they are not defined in constants.py. `NewGrid` takes both arguments explicitly.
- Randomness: every `random.randint` draw is a caller-supplied value with a range precondition, not a distribution.
- Aliasing: `Snake.__init__` keeps the caller's list, so the in-place append of `add_to_tail` is also visible to whoever passed the list. The model stores the body as a value.
- The getter half of the `set_x` / `set_y` properties (reading `set_x` returns x).
