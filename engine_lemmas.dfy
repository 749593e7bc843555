/** What the operations of script.js promise, proved about the functions of
    module Engine. */
module EngineLemmas {
  import opened Grid
  import opened Food
  import opened Engine

  // ---------------------------------------------------------------------------
  // moveSnake (script.js:141-173)

  /** Outside a running game a tick changes nothing. */
  lemma TickIdleUnlessRunning(s: State, draws: seq<Pos>)
    requires TickAllowed(s, draws) && !IsRunning(s)
    ensures Tick(s, draws) == s
  {
  }

  /** A running tick ends the game exactly when the new head leaves the board
      or lands on a segment; the game over keeps snake, food, score and
      direction, and stops the interval. */
  lemma TickCollision(s: State, draws: seq<Pos>)
    requires TickAllowed(s, draws) && IsRunning(s)
    ensures Tick(s, draws).gameOver <==> !InBounds(NextHead(s)) || NextHead(s) in s.snake
    ensures Tick(s, draws).gameOver ==> Tick(s, draws) == s.(gameOver := true, timerActive := false)
  {
  }

  /** The self check runs before the tail is dropped, so moving into the cell
      the tail is about to leave is a collision. */
  lemma TailCellCollides(s: State, draws: seq<Pos>)
    requires TickAllowed(s, draws) && IsRunning(s)
    requires NextHead(s) == s.snake[|s.snake| - 1]
    ensures Tick(s, draws).gameOver && Tick(s, draws).snake == s.snake
  {
  }

  /** Eating: the head is pushed and the tail kept, the score rises by exactly
      10, the new food is a free board cell, and nothing else changes. */
  lemma TickEats(s: State, draws: seq<Pos>)
    requires TickAllowed(s, draws) && Eats(s)
    ensures Tick(s, draws).snake == [Add(s.snake[0], s.direction)] + s.snake
    ensures |Tick(s, draws).snake| == |s.snake| + 1
    ensures Tick(s, draws).score == s.score + 10
    ensures InBounds(Tick(s, draws).food) && Tick(s, draws).food !in Tick(s, draws).snake
    ensures Tick(s, draws).(snake := s.snake, score := s.score, food := s.food) == s
  {
  }

  /** A plain move: the head advances by `direction`, the tail is dropped, and
      nothing but the snake changes. */
  lemma TickMoves(s: State, draws: seq<Pos>)
    requires TickAllowed(s, draws) && IsRunning(s)
    requires InBounds(NextHead(s)) && NextHead(s) !in s.snake && NextHead(s) != s.food
    ensures Tick(s, draws).snake == [NextHead(s)] + s.snake[..|s.snake| - 1]
    ensures |Tick(s, draws).snake| == |s.snake|
    ensures Tick(s, draws).snake[0] == Add(s.snake[0], s.direction)
    ensures Tick(s, draws).(snake := s.snake) == s
  {
  }

  /** Pushing a new on-board head that is not on the body keeps it distinct
      and on the board. */
  lemma {:induction false} PushKeepsBody(head: Pos, body: seq<Pos>)
    requires AllInBounds(body) && Distinct(body)
    requires InBounds(head) && head !in body
    ensures AllInBounds([head] + body) && Distinct([head] + body)
  {
    var grown := [head] + body;
    assert forall i :: 1 <= i < |grown| ==> grown[i] == body[i - 1];
    forall i, j | 0 <= i < j < |grown|
      ensures grown[i] != grown[j]
    {
      if i == 0 {
        assert grown[j] in body;
      } else {
        assert grown[i] == body[i - 1] && grown[j] == body[j - 1];
      }
    }
  }

  /** Every tick keeps both invariants. */
  lemma TickPreservesGood(s: State, draws: seq<Pos>)
    requires Good(s) && TickAllowed(s, draws)
    ensures Good(Tick(s, draws))
  {
  }

  /** With draws that reach every cell, the only tick that is not allowed is
      one that eats into a body already covering all but one cell. */
  lemma FairTickAllowed(s: State, draws: seq<Pos>)
    requires |s.snake| > 0 && AllInBounds(draws) && FairDraws(draws)
    requires Eats(s) ==> |s.snake| + 1 < CELLS
    ensures TickAllowed(s, draws)
  {
    if Eats(s) {
      FairDrawsHaveFree(Grown(s), draws);
    }
  }

  /** Eating the last free cell leaves no draw that can stop the food loop:
      `generateFood` then loops forever (script.js:177-182 has no guard). */
  lemma EatingLastCellHangs(s: State, draws: seq<Pos>)
    requires Good(s) && Eats(s) && |s.snake| + 1 == CELLS
    requires AllInBounds(draws)
    ensures !HasFree(Grown(s), draws)
  {
    PushKeepsBody(NextHead(s), s.snake);
    FullBoardHasNoFree(Grown(s), draws);
  }

  // ---------------------------------------------------------------------------
  // handleKeyPress (script.js:54-87)

  /** Before the game starts only Space does anything, and it starts the game. */
  lemma KeyBeforeStart(s: State, code: string)
    requires !s.gameStarted
    ensures code != SPACE ==> KeyPress(s, code) == s
    ensures code == SPACE ==> KeyPress(s, code) == StartGame(s)
  {
  }

  /** Once started, Space toggles the pause. */
  lemma KeySpaceToggles(s: State)
    requires s.gameStarted
    ensures KeyPress(s, SPACE) == TogglePause(s)
  {
  }

  /** Once started, keys other than Space do nothing while paused or over. */
  lemma KeyIgnoredWhilePausedOrOver(s: State, code: string)
    requires s.gameStarted && (s.isPaused || s.gameOver) && code != SPACE
    ensures KeyPress(s, code) == s
  {
  }

  /** An arrow pointing exactly against the current direction is ignored. */
  lemma KeyReversalIgnored(s: State, code: string)
    requires code in KEY_DIRECTIONS && KEY_DIRECTIONS[code] == Neg(s.direction)
    ensures KeyPress(s, code) == s
  {
  }

  /** Any other arrow, in a running game, sets the direction to its vector
      and changes nothing else. */
  lemma KeyTurns(s: State, code: string)
    requires IsRunning(s)
    requires code in KEY_DIRECTIONS && KEY_DIRECTIONS[code] != Neg(s.direction)
    ensures KeyPress(s, code) == s.(direction := KEY_DIRECTIONS[code])
  {
  }

  /** Keys that are neither Space nor an arrow do nothing. */
  lemma KeyOtherIgnored(s: State, code: string)
    requires code != SPACE && code !in KEY_DIRECTIONS
    ensures KeyPress(s, code) == s
  {
  }

  /** Every arrow maps to a unit vector. */
  lemma ArrowIsUnit(code: string)
    requires code in KEY_DIRECTIONS
    ensures IsUnit(KEY_DIRECTIONS[code])
  {
    assert code == "ArrowUp" || code == "ArrowDown" || code == "ArrowLeft" || code == "ArrowRight";
  }

  /** One key press never turns a unit direction into its exact opposite, and
      always leaves a unit direction. */
  lemma KeyNeverReverses(s: State, code: string)
    requires IsUnit(s.direction)
    ensures KeyPress(s, code).direction != Neg(s.direction)
    ensures IsUnit(KeyPress(s, code).direction)
  {
    if code in KEY_DIRECTIONS {
      ArrowIsUnit(code);
    }
  }

  /** Each press is checked only against the direction the press before it
      set, so two presses between ticks can reverse the snake. */
  lemma TwoPressesReverse(s: State)
    requires IsRunning(s) && s.direction == Pos(0, -1)
    ensures KeyPress(KeyPress(s, "ArrowLeft"), "ArrowDown").direction == Neg(s.direction)
  {
  }

  /** Key presses keep both invariants. */
  lemma KeyPressPreservesGood(s: State, code: string)
    requires Good(s)
    ensures Good(KeyPress(s, code))
  {
    KeyNeverReverses(s, code);
  }

  // ---------------------------------------------------------------------------
  // startGame, togglePause, endGame, resetGame (script.js:90-139, 187-197)

  /** Starting a game that has not started makes it run with an active
      interval, and keeps the board. */
  lemma StartRuns(s: State)
    requires Good(s) && !s.gameStarted
    ensures StatusOf(StartGame(s)) == Running && StartGame(s).timerActive
    ensures Good(StartGame(s))
    ensures StartGame(s).(gameStarted := false, timerActive := false) == s
  {
  }

  /** Pausing does nothing before the start or after the game is over. */
  lemma ToggleNoOp(s: State)
    requires !s.gameStarted || s.gameOver
    ensures TogglePause(s) == s
  {
  }

  /** Otherwise it flips the pause and leaves an interval active exactly when
      not paused; nothing else changes. */
  lemma ToggleFlips(s: State)
    requires s.gameStarted && !s.gameOver
    ensures TogglePause(s).isPaused == !s.isPaused
    ensures TogglePause(s).timerActive == !TogglePause(s).isPaused
    ensures TogglePause(s).(isPaused := s.isPaused, timerActive := s.timerActive) == s
  {
  }

  /** Toggling twice restores the pause flag, and under the lifecycle
      invariant the whole state. */
  lemma ToggleTwice(s: State)
    ensures TogglePause(TogglePause(s)).isPaused == s.isPaused
    ensures LifecycleInv(s) ==> TogglePause(TogglePause(s)) == s
  {
  }

  /** On the four phases, toggling swaps Running and Paused and fixes the rest. */
  lemma ToggleStatus(s: State)
    requires LifecycleInv(s)
    ensures StatusOf(s) == Running ==> StatusOf(TogglePause(s)) == Paused
    ensures StatusOf(s) == Paused ==> StatusOf(TogglePause(s)) == Running
    ensures StatusOf(s) in {NotStarted, Over} ==> TogglePause(s) == s
    ensures Good(s) ==> Good(TogglePause(s))
  {
  }

  /** Ending a running game moves it to Over, stops the interval, and keeps
      the board. */
  lemma EndGameStops(s: State)
    requires Good(s) && IsRunning(s)
    ensures StatusOf(EndGame(s)) == Over && !EndGame(s).timerActive
    ensures Good(EndGame(s))
    ensures EndGame(s).(gameOver := false, timerActive := true) == s
  {
  }

  /** From any state, a reset gives a one-segment snake at (10, 10) heading up,
      score 0, the NotStarted phase, no active interval, and food on a free
      board cell. */
  lemma ResetRestores(draws: seq<Pos>)
    requires ResetAllowed(draws)
    ensures Reset(draws).snake == [Pos(10, 10)] && Reset(draws).direction == Pos(0, -1)
    ensures Reset(draws).score == 0
    ensures StatusOf(Reset(draws)) == NotStarted && !Reset(draws).timerActive
    ensures Reset(draws).food != Pos(10, 10) && InBounds(Reset(draws).food)
    ensures Good(Reset(draws))
  {
  }

  /** Fair draws always allow a reset. */
  lemma FairResetAllowed(draws: seq<Pos>)
    requires AllInBounds(draws) && FairDraws(draws)
    ensures ResetAllowed(draws)
  {
    FairDrawsHaveFree([START_CELL], draws);
  }

  // ---------------------------------------------------------------------------
  // The whole game

  /** Every enabled event keeps both invariants. */
  lemma ApplyPreservesGood(s: State, e: Event)
    requires Good(s) && Enabled(s, e)
    ensures Good(Apply(s, e))
  {
    match e
    case KeyDown(code) => KeyPressPreservesGood(s, code);
    case IntervalTick(d) => TickPreservesGood(s, d);
    case _ =>
  }

  lemma {:induction false} RunPreservesGood(s: State, es: seq<Event>)
    requires Good(s) && Admissible(s, es)
    ensures Good(Run(s, es))
    decreases |es|
  {
    if es != [] {
      ApplyPreservesGood(s, es[0]);
      RunPreservesGood(Apply(s, es[0]), es[1..]);
    }
  }

  /** In every state the game can reach, the snake is non-empty, on the board
      and free of repeated cells, the food is on a free cell, and an interval
      is active exactly while the game runs. */
  lemma ReachableGood(es: seq<Event>)
    requires Admissible(Initial(), es)
    ensures Good(Run(Initial(), es))
  {
    RunPreservesGood(Initial(), es);
  }

  /** `setInterval` is only ever called when no interval is set, so at most
      one interval is active at a time. */
  lemma SetIntervalOnlyWhenCleared(s: State, e: Event)
    requires Good(s) && Enabled(s, e) && SetsInterval(s, e)
    ensures !s.timerActive
    ensures Apply(s, e).timerActive
  {
  }

  /** The score is one reward per food eaten: a non-negative multiple of 10. */
  lemma ScoreIsWholeRewards(s: State)
    requires BoardInv(s)
    ensures s.score >= 0 && s.score % FOOD_REWARD == 0
  {
  }

  /** A game that is over stays over, with its board unchanged, until reset. */
  lemma OverUntilReset(s: State, e: Event)
    requires Good(s) && StatusOf(s) == Over && Enabled(s, e) && !e.ResetClick?
    ensures StatusOf(Apply(s, e)) == Over
    ensures Apply(s, e).snake == s.snake && Apply(s, e).food == s.food
    ensures Apply(s, e).score == s.score
  {
  }

  // ---------------------------------------------------------------------------
  // Worked scenarios

  /** Heading up from (10, 10) onto food at (10, 9) eats it. */
  lemma ScenarioEat(draws: seq<Pos>)
    requires AllInBounds(draws) && HasFree([Pos(10, 9), Pos(10, 10)], draws)
    ensures var s := State([Pos(10, 10)], Pos(10, 9), Pos(0, -1), 0, false, true, false, true);
            && Tick(s, draws).snake == [Pos(10, 9), Pos(10, 10)]
            && Tick(s, draws).score == 10
            && Tick(s, draws).food !in [Pos(10, 9), Pos(10, 10)]
  {
  }

  /** Heading left from (0, 5) hits the wall. */
  lemma ScenarioWall(draws: seq<Pos>)
    requires AllInBounds(draws)
    ensures var s := State([Pos(0, 5), Pos(1, 5)], Pos(3, 3), Pos(-1, 0), 0, false, true, false, true);
            && StatusOf(Tick(s, draws)) == Over
            && Tick(s, draws).snake == [Pos(0, 5), Pos(1, 5)]
  {
  }

  /** A snake curled in a 2-by-2 square, moving onto its own tail, collides. */
  lemma ScenarioTail(draws: seq<Pos>)
    requires AllInBounds(draws)
    ensures var s := State([Pos(5, 5), Pos(5, 6), Pos(6, 6), Pos(6, 5)], Pos(0, 0), Pos(1, 0), 20, false, true, false, true);
            && StatusOf(Tick(s, draws)) == Over
            && Tick(s, draws).snake == s.snake
  {
  }
}
