# Snake game engine, modelled in Dafny

This project models the game-state engine of a browser snake game
(`script.js`). That engine is a set of module-level variables on a 20 by 20
grid: the snake as a head-first list of cells, the food cell, the direction
vector, the score, the flags `gameOver`, `gameStarted` and `isPaused`, and
the interval handle `gameLoop`. The operations that change them are:

- `moveSnake`: one tick of the interval.
- `handleKeyPress`: arrow keys and Space.
- `startGame`, `togglePause`, `resetGame` and `endGame`: the game's lifecycle.
- `generateFood`: retries random cells until it finds one the snake does not occupy.

The project has five files:

- `grid.dfy` (module `Grid`): cells, bounds, and a counting argument. A body
  with fewer segments than the board has cells leaves some cell free. A
  body of distinct cells as long as the board covers every cell.
- `food.dfy` (module `Food`): food placement. `Math.random` is a parameter
  `draws`, the cells that successive iterations of the retry loop would
  produce. `GenerateFood` is that loop. It is proved to return the first
  draw that is off the snake (`FirstFreeIndex`, `FoodFor`).
- `engine.dfy` (module `Engine`): the whole state as a value `State`. It has
  one function per operation (`Tick`, `KeyPress`, `StartGame`, `TogglePause`,
  `Reset`, `EndGame`) and two invariants. `BoardInv` says the snake is
  non-empty, on the board and free of repeated cells, the food is on a free
  cell, the direction is a unit vector, and the score is a non-negative
  multiple of 10. In fact it is exactly 10 times the number of segments beyond
  the first. `LifecycleInv` says the flags describe one of the phases
  NotStarted, Running, Paused or Over, and an interval is set exactly while
  the game runs. `Event`, `Apply` and `Run` describe what the page can do to
  the state: a key press, a button click, or an interval tick.
- `engine_lemmas.dfy` (module `EngineLemmas`): what each operation promises,
  and that every reachable state satisfies both invariants.
- `game.dfy` (module `SnakeGame`): class `Game`. Its fields are the
  module-level variables and its methods follow the source statement by
  statement: `unshift` is `[head] + snake`, `pop` is `snake[..|snake| - 1]`,
  and `snake.some(...)` is `head in snake`. Each method is proved to leave
  exactly the state that the matching `Engine` function gives. Each keeps
  `Valid()` with two exceptions. `StartGame` keeps it only when called before
  the game has started: a start on a game that is over would leave an
  interval set on a finished game. `EndGame` keeps it only when called on a
  running game, which is the only place `moveSnake` calls it.

`setInterval` and `clearInterval` are modelled as the boolean `timerActive`:
it is true when `gameLoop` holds an interval that has not been cleared.

### Where the food loop does not terminate

The loop in `generateFood` (script.js:177-182) only stops when a draw lands
on a free cell. The model therefore asks for such a draw (`HasFree`), both
in `Tick` when the tick eats and in `Reset`. `FairTickAllowed` and
`FairResetAllowed` show that this always holds when the draws reach every
cell, except in one case. `EatingLastCellHangs` proves that if the snake eats
the last free cell, no draw can be free. The source then loops forever,
which the model cannot represent, so that one tick is outside the model.

Pausing and resuming are one operation, `togglePause`, so two calls cancel
out (`ToggleTwice`). At page load the food is fixed at (15, 15) rather than
drawn (`Engine.Initial`); only `resetGame` draws it.

## Model

| member | source | states |
|---|---|---|
| `Engine.Initial` | script.js:8-15 | The page-load state: snake [(10,10)], food (15,15), direction up, score 0, all flags false, no interval. It satisfies both invariants and is NotStarted. |
| `Engine.Tick` | script.js:141-173 | One `moveSnake` step: the guard, the wall check, the self check, then the unshift with an eat or a pop. A tick never changes direction, start or pause, grows the snake by at most one segment, and raises the score by 0 or 10. |
| `Engine.KeyPress` | script.js:54-87 | `handleKeyPress` branch by branch. A key never changes snake, food, score or `gameOver`, and any new direction comes from the arrow table. |
| `Engine.StartGame` | script.js:90-99 | `startGame`: the board is unchanged, an interval is set, and the game runs unless it was over. |
| `Engine.TogglePause` | script.js:101-115 | `togglePause`: only `isPaused` and the interval can change, and in a started game that is not over the interval is set exactly when not paused. |
| `Engine.Reset` | script.js:117-129 | `resetGame`, independent of the state before: a one-segment snake, score 0, NotStarted, no interval, and both invariants. |
| `Engine.EndGame` | script.js:187-189 | `endGame`: a started game goes to Over, no interval stays set, and snake, food, score and direction are unchanged. |
| `Engine.Enabled` | script.js:45-52 | When each page event can occur. The interval fires only while set, so under the lifecycle invariant only in a running game. The start button is shown only before the start (script.js:93-95, 134). |
| `Engine.Apply` | script.js:45-52 | Dispatches each event to its handler. Only interval ticks and resets change snake, food or score. |
| `SnakeGame.Game.constructor` | script.js:8-15 | The new game is the page-load state: snake [(10,10)], food (15,15), direction up, score 0, all flags false, no interval. This state satisfies both invariants. |
| `SnakeGame.Game.MoveSnake` | script.js:141-173 | The tick, done in place with an unshift and a conditional pop, leaves exactly the state `Engine.Tick` gives and keeps `Valid()`. |
| `SnakeGame.Game.HandleKeyPress` | script.js:54-87 | The key press leaves exactly the state `Engine.KeyPress` gives and keeps `Valid()`. |
| `SnakeGame.Game.StartGame` | script.js:90-99 | Sets started, clears paused, sets an interval. When called before the start on a valid game, the game stays valid. |
| `SnakeGame.Game.TogglePause` | script.js:101-115 | Leaves the state `Engine.TogglePause` gives: a no-op before the start or after game over, otherwise the pause flips and the interval is cleared or set to match. Keeps `Valid()`. |
| `SnakeGame.Game.ResetGame` | script.js:117-129 | From any state, leaves the state `Engine.Reset` gives, with the food drawn after the snake is reset. Establishes `Valid()`. |
| `SnakeGame.Game.EndGame` | script.js:187-189 | Sets game over and clears the interval, and nothing else. Ending a running valid game keeps it valid. |
| `Food.GenerateFood` | script.js:175-185 | The retry loop returns the first draw that is not on the snake. That cell is on the board and off the snake. |
| `Food.FirstFreeIndex` | script.js:177-182 | The loop stops at a draw off the body, and every earlier draw was on the body. |
| `Food.FoodFor` | script.js:175-185 | The placed food is one of the draws, on the board, and not on the body it was drawn against. |
| `Food.FairDrawsHaveFree` | script.js:177-182 | If every cell is eventually drawn and the body has fewer segments than the board has cells, the loop stops. |
| `Food.FullBoardHasNoFree` | script.js:177-182 | If a body of distinct on-board cells fills the board, no sequence of board cells ever stops the loop. |
| `Grid.FreeCellExists` | script.js:177-182 | A body with fewer than 400 segments leaves some board cell free. |
| `Grid.FullBoardCovered` | script.js:177-182 | 400 distinct on-board segments cover every board cell. |
| `EngineLemmas.TickIdleUnlessRunning` | script.js:142 | Unless the game is started, not paused and not over, a tick changes nothing. |
| `EngineLemmas.TickCollision` | script.js:148-158 | A running tick ends the game if and only if the new head is off the board or on any current segment. A game over changes only `gameOver` and the interval. |
| `EngineLemmas.TailCellCollides` | script.js:155-160 | Moving onto the tail cell is a collision, because the check runs before the tail is dropped. |
| `EngineLemmas.TickEats` | script.js:160-167 | Eating gives `[head] + snake`, so the length grows by one. The score rises by 10, the new food is on the board and off the new snake, and nothing else changes. |
| `EngineLemmas.TickMoves` | script.js:144-170 | A plain move gives `[head] + snake[..n-1]`: the same length, the head equal to the old head plus the direction, and only the snake changed. |
| `EngineLemmas.TickPreservesGood` | script.js:149-170 | Every tick keeps both invariants: board and lifecycle. |
| `EngineLemmas.FairTickAllowed` | script.js:163-166 | If every cell is eventually drawn, a tick can be taken unless it eats the board's last free cell. |
| `EngineLemmas.EatingLastCellHangs` | script.js:166 | Eating the last free cell leaves no draw that can stop the food loop. |
| `EngineLemmas.KeyBeforeStart` | script.js:55-61 | Before the start, Space starts the game and every other key does nothing. |
| `EngineLemmas.KeySpaceToggles` | script.js:63-67 | After the start, Space toggles the pause. |
| `EngineLemmas.KeyIgnoredWhilePausedOrOver` | script.js:69 | After the start, keys other than Space do nothing while paused or over. |
| `EngineLemmas.KeyReversalIgnored` | script.js:82-84 | An arrow whose vector is the exact negation of the current direction does nothing. |
| `EngineLemmas.KeyTurns` | script.js:71-85 | In a running game, any other arrow sets the direction to its unit vector, and nothing else changes. |
| `EngineLemmas.KeyOtherIgnored` | script.js:78-79 | A key that is neither Space nor an arrow does nothing. |
| `EngineLemmas.ArrowIsUnit` | script.js:71-76 | Every arrow key maps to a unit vector. |
| `EngineLemmas.KeyNeverReverses` | script.js:78-85 | A single key press never sets the direction to the exact opposite of the current one, and always leaves a unit vector. |
| `EngineLemmas.TwoPressesReverse` | script.js:78-85 | Heading up, Left then Down between two ticks leaves the snake heading down, the exact reverse. Each press is checked only against the direction the previous press set. |
| `EngineLemmas.KeyPressPreservesGood` | script.js:54-87 | Key presses keep both invariants. |
| `EngineLemmas.StartRuns` | script.js:90-97 | Starting a game that has not started gives Running with an active interval. The board is unchanged. |
| `EngineLemmas.ToggleNoOp` | script.js:102 | Toggling before the start or after game over does nothing. |
| `EngineLemmas.ToggleFlips` | script.js:104-112 | Otherwise the pause flag flips, the interval is active exactly when not paused, and nothing else changes. |
| `EngineLemmas.ToggleTwice` | script.js:101-115 | Two toggles restore `isPaused`. Under the lifecycle invariant they restore the whole state. |
| `EngineLemmas.ToggleStatus` | script.js:101-115 | Toggling swaps Running and Paused, fixes NotStarted and Over, and keeps both invariants. |
| `EngineLemmas.EndGameStops` | script.js:187-189 | Ending a running game gives Over with no interval. The board is unchanged and both invariants still hold. |
| `EngineLemmas.ResetRestores` | script.js:117-129 | After a reset: snake [(10,10)], direction (0,-1), score 0, NotStarted, no interval, food on a free board cell, both invariants. |
| `EngineLemmas.FairResetAllowed` | script.js:119 | If every cell is eventually drawn, a reset always finds food. |
| `EngineLemmas.ApplyPreservesGood` | script.js:45-52 | Every event the page can deliver (key, start, pause, reset, interval tick) keeps both invariants. |
| `EngineLemmas.RunPreservesGood` | script.js:45-52 | Any admissible sequence of events keeps both invariants. |
| `EngineLemmas.ReachableGood` | script.js:8-15 | Every state reachable from page load has a non-empty, on-board, repetition-free snake, food on a free cell, and an interval set exactly while running. |
| `EngineLemmas.SetIntervalOnlyWhenCleared` | script.js:97 | Every enabled event that calls `setInterval` (a start, or a resume by Space or by the pause button; script.js:97, 111) happens while no interval is set. So at most one interval is ever active. |
| `EngineLemmas.ScoreIsWholeRewards` | script.js:164 | Under the board invariant the score is a non-negative multiple of 10. |
| `EngineLemmas.OverUntilReset` | script.js:102 | Once over, the game stays over with snake, food and score unchanged until a reset. |
| `EngineLemmas.ScenarioEat` | script.js:160-166 | Heading up from (10,10) onto food at (10,9) gives snake [(10,9),(10,10)], score 10, and new food off the snake. |
| `EngineLemmas.ScenarioWall` | script.js:149-152 | Heading left from (0,5) hits the wall and ends the game with the snake unchanged. |
| `EngineLemmas.ScenarioTail` | script.js:155-158 | A snake curled in a 2-by-2 square that moves onto its own tail collides. |

## Left out

- Drawing (`drawGame`, `clearCanvas`, `drawGrid`, `drawSnake`, `drawFood`) is left out. It is rendering with floating-point pixel arithmetic and changes no game state.
- DOM lookups, screen and button visibility, CSS classes, `textContent`, `updateScore`, `showMessage` and `console.log` are left out. They are presentation and logging. The message `endGame` receives is dropped for the same reason.
- `e.preventDefault()` is left out. It affects only the browser's default key handling.
- One piece of visibility does matter. The start button is shown only before the game starts. `Engine.Enabled` therefore admits a start click only then, and a start while running is outside the model.
- Real timer semantics are left out: `GAME_SPEED` (150 ms), wall-clock time, and the identity of interval handles. `timerActive` only records whether an interval is set. A second `setInterval` while one is active (a leaked interval) would look the same as one interval in this boolean. `SetIntervalOnlyWhenCleared` proves that no enabled event does this.
- `Math.random` is left out. It is replaced by the `draws` list of board cells, one per retry.
- A tick that eats the board's last free cell is left out. The source hangs in `generateFood` there. `Tick` requires a free draw, and `EatingLastCellHangs` shows that none exists.
- Key codes are strings and the arrow table is a finite map. A JavaScript object lookup would also find inherited property names such as `toString`, but physical key codes never take those values.
- JavaScript numbers are modelled as unbounded integers. All coordinates and scores in the game are small integers, so none are rounded.
- No "no reversal per tick" property is claimed. Two key presses between ticks can reverse the direction (`TwoPressesReverse`), because each press is checked only against the direction set by the press before it.
