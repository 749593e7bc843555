/** The game as script.js runs it: one object holding the module-level
    variables, whose methods reassign them step by step. Each method is
    proved to leave exactly the state the matching function of module
    Engine describes. Each keeps `Valid()`, except that `StartGame` keeps it
    only before the start and `EndGame` only on a running game. */
module SnakeGame {
  import opened Grid
  import opened Food
  import opened Engine
  import opened EngineLemmas

  class Game {
    var snake: seq<Pos>
    var food: Pos
    var direction: Pos
    var score: int
    var gameOver: bool
    var gameStarted: bool
    var isPaused: bool
    /** Whether `gameLoop` holds an interval that is still set. */
    var timerActive: bool

    /** The fields as one value. */
    function Snapshot(): State
      reads this
    {
      State(snake, food, direction, score, gameOver, gameStarted, isPaused, timerActive)
    }

    ghost predicate Valid()
      reads this
    {
      Good(Snapshot())
    }

    /** The initial values of script.js:8-15. */
    constructor ()
      ensures Snapshot() == Initial()
      ensures Valid()
    {
      snake := [START_CELL];
      food := Pos(15, 15);
      direction := START_DIRECTION;
      gameOver := false;
      score := 0;
      gameStarted := false;
      isPaused := false;
      timerActive := false;
    }

    /** `handleKeyPress` (script.js:54-87). */
    method HandleKeyPress(code: string)
      requires Valid()
      modifies this
      ensures Snapshot() == KeyPress(old(Snapshot()), code)
      ensures Valid()
    {
      KeyPressPreservesGood(Snapshot(), code);
      if !gameStarted {
        if code == SPACE {
          StartGame();
        }
        return;
      }
      if code == SPACE {
        TogglePause();
        return;
      }
      if isPaused || gameOver {
        return;
      }
      if code in KEY_DIRECTIONS {
        var newDirection := KEY_DIRECTIONS[code];
        if newDirection.x == -direction.x && newDirection.y == -direction.y {
          return;
        }
        direction := newDirection;
      }
    }

    /** `startGame` (script.js:90-99): `setInterval` makes the timer active. */
    method StartGame()
      modifies this
      ensures Snapshot() == Engine.StartGame(old(Snapshot()))
      ensures old(Valid()) && !old(gameStarted) ==> Valid()
    {
      if Valid() && !gameStarted {
        StartRuns(Snapshot());
      }
      gameStarted := true;
      isPaused := false;
      timerActive := true;
    }

    /** `togglePause` (script.js:101-115): pausing clears the interval,
        resuming sets a new one. */
    method TogglePause()
      modifies this
      ensures Snapshot() == Engine.TogglePause(old(Snapshot()))
      ensures old(Valid()) ==> Valid()
    {
      if Valid() {
        ToggleStatus(Snapshot());
      }
      if !gameStarted || gameOver {
        return;
      }
      isPaused := !isPaused;
      if isPaused {
        timerActive := false;
      } else {
        timerActive := true;
      }
    }

    /** `resetGame` (script.js:117-139), from any state: the food is drawn
        with the snake already reset. */
    method ResetGame(draws: seq<Pos>)
      requires ResetAllowed(draws)
      modifies this
      ensures Snapshot() == Reset(draws)
      ensures Valid()
    {
      snake := [START_CELL];
      food := GenerateFood(snake, draws);
      direction := START_DIRECTION;
      gameOver := false;
      score := 0;
      gameStarted := false;
      isPaused := false;
      if timerActive {
        timerActive := false;
      }
      ResetRestores(draws);
    }

    /** `moveSnake` (script.js:141-173): one tick. */
    method MoveSnake(draws: seq<Pos>)
      requires Valid() && TickAllowed(Snapshot(), draws)
      modifies this
      ensures Snapshot() == Tick(old(Snapshot()), draws)
      ensures Valid()
    {
      TickPreservesGood(Snapshot(), draws);
      if gameOver || isPaused || !gameStarted {
        return;
      }
      var head := Pos(snake[0].x + direction.x, snake[0].y + direction.y);
      if head.x < 0 || head.x >= BOARD_SIZE || head.y < 0 || head.y >= BOARD_SIZE {
        EndGame();
        return;
      }
      if head in snake {
        EndGame();
        return;
      }
      snake := [head] + snake;
      if head == food {
        score := score + FOOD_REWARD;
        food := GenerateFood(snake, draws);
      } else {
        snake := snake[..|snake| - 1];
      }
    }

    /** `endGame` (script.js:187-197) without its screen updates. */
    method EndGame()
      modifies this
      ensures Snapshot() == Engine.EndGame(old(Snapshot()))
      ensures old(Valid()) && old(IsRunning(Snapshot())) ==> Valid()
    {
      if Valid() && IsRunning(Snapshot()) {
        EndGameStops(Snapshot());
      }
      gameOver := true;
      timerActive := false;
    }
  }
}
