/** The game state of the snake game as a value, and one function per
    operation of script.js stating the state that operation leaves behind.
    The class in game.dfy runs these operations in place and is proved
    against these functions. */
module Engine {
  import opened Grid
  import opened Food

  /** All module-level state of script.js (lines 8-15). `gameLoop` is kept
      only as whether an interval is active. */
  datatype State = State(
    snake: seq<Pos>,     // head first
    food: Pos,
    direction: Pos,
    score: int,
    gameOver: bool,
    gameStarted: bool,
    isPaused: bool,
    timerActive: bool)

  /** Points added per food eaten. */
  const FOOD_REWARD: int := 10

  /** The one segment a new snake has. */
  const START_CELL: Pos := Pos(10, 10)

  /** The direction a new game starts in (up). */
  const START_DIRECTION: Pos := Pos(0, -1)

  /** The arrow key codes and their unit vectors. */
  const KEY_DIRECTIONS: map<string, Pos> := map[
    "ArrowUp" := Pos(0, -1),
    "ArrowDown" := Pos(0, 1),
    "ArrowLeft" := Pos(-1, 0),
    "ArrowRight" := Pos(1, 0)]

  /** The key code that starts and pauses the game. */
  const SPACE: string := "Space"

  /** The state when the page loads: the food starts at a fixed cell. */
  function Initial(): (s: State)
    ensures Good(s) && StatusOf(s) == NotStarted
  {
    State([START_CELL], Pos(15, 15), START_DIRECTION, 0, false, false, false, false)
  }

  /** The four phases of a game, derived from the three flags. */
  datatype Status = NotStarted | Running | Paused | Over

  function StatusOf(s: State): Status {
    if !s.gameStarted then NotStarted
    else if s.gameOver then Over
    else if s.isPaused then Paused
    else Running
  }

  /** The guard under which `moveSnake` does anything. */
  predicate IsRunning(s: State) {
    s.gameStarted && !s.isPaused && !s.gameOver
  }

  predicate IsUnit(d: Pos) {
    (d.x == 0 && (d.y == 1 || d.y == -1)) || (d.y == 0 && (d.x == 1 || d.x == -1))
  }

  function Neg(d: Pos): Pos {
    Pos(-d.x, -d.y)
  }

  // ---------------------------------------------------------------------------
  // Invariants

  /** The board part: a non-empty body of distinct cells on the board, food on
      a free cell, a unit direction, and a score of one reward per segment
      grown beyond the first. */
  predicate BoardInv(s: State) {
    && |s.snake| > 0
    && AllInBounds(s.snake)
    && Distinct(s.snake)
    && InBounds(s.food)
    && s.food !in s.snake
    && IsUnit(s.direction)
    && s.score == FOOD_REWARD * (|s.snake| - 1)
  }

  /** The lifecycle part: the flags describe one of the four phases, and an
      interval is active exactly while the game runs. */
  predicate LifecycleInv(s: State) {
    && (!s.gameStarted ==> !s.isPaused && !s.gameOver)
    && !(s.isPaused && s.gameOver)
    && (s.timerActive <==> IsRunning(s))
  }

  predicate Good(s: State) {
    BoardInv(s) && LifecycleInv(s)
  }

  // ---------------------------------------------------------------------------
  // One tick: moveSnake (script.js:141-173)

  function NextHead(s: State): Pos
    requires |s.snake| > 0
  {
    Add(s.snake[0], s.direction)
  }

  /** The body after the new head is pushed on the front, before the tail is dropped. */
  function Grown(s: State): seq<Pos>
    requires |s.snake| > 0
  {
    [NextHead(s)] + s.snake
  }

  /** This tick eats the food. */
  predicate Eats(s: State)
    requires |s.snake| > 0
  {
    IsRunning(s) && InBounds(NextHead(s)) && NextHead(s) !in s.snake && NextHead(s) == s.food
  }

  /** What a tick needs of its inputs: a head to move, draws that are board
      cells, and, when it eats, draws that stop the food retry loop. */
  predicate TickAllowed(s: State, draws: seq<Pos>) {
    && |s.snake| > 0
    && AllInBounds(draws)
    && (Eats(s) ==> HasFree(Grown(s), draws))
  }

  /** `endGame` (script.js:187-197) without its screen updates. */
  function EndGame(s: State): (r: State)
    ensures s.gameStarted ==> StatusOf(r) == Over
    ensures !IsRunning(r) && !r.timerActive
    ensures r.snake == s.snake && r.food == s.food && r.score == s.score && r.direction == s.direction
  {
    s.(gameOver := true, timerActive := false)
  }

  /** A tick never turns, starts or pauses the game; it grows the snake by at
      most one segment, and raises the score by 0 or one reward. */
  function Tick(s: State, draws: seq<Pos>): (r: State)
    requires TickAllowed(s, draws)
    ensures r.direction == s.direction && r.gameStarted == s.gameStarted && r.isPaused == s.isPaused
    ensures |s.snake| <= |r.snake| <= |s.snake| + 1
    ensures r.score == s.score || r.score == s.score + FOOD_REWARD
    ensures |r.snake| > 0
  {
    if s.gameOver || s.isPaused || !s.gameStarted then s
    else
      var head := NextHead(s);
      if head.x < 0 || head.x >= BOARD_SIZE || head.y < 0 || head.y >= BOARD_SIZE then EndGame(s)
      else if head in s.snake then EndGame(s)
      else
        var body := [head] + s.snake;
        if head == s.food then
          s.(snake := body, score := s.score + FOOD_REWARD, food := FoodFor(body, draws))
        else
          s.(snake := body[..|body| - 1])
  }

  // ---------------------------------------------------------------------------
  // Lifecycle: startGame, togglePause, resetGame (script.js:90-139)

  /** Starting keeps the board; the game then runs unless it was over. */
  function StartGame(s: State): (r: State)
    ensures r.snake == s.snake && r.food == s.food && r.score == s.score && r.direction == s.direction
    ensures r.gameOver == s.gameOver
    ensures IsRunning(r) <==> !s.gameOver
    ensures r.timerActive
  {
    s.(gameStarted := true, isPaused := false, timerActive := true)
  }

  /** Toggling changes only the pause flag and the interval. */
  function TogglePause(s: State): (r: State)
    ensures r.(isPaused := s.isPaused, timerActive := s.timerActive) == s
    ensures r.gameStarted && !r.gameOver ==> r.timerActive == !r.isPaused
  {
    if !s.gameStarted || s.gameOver then s
    else
      var paused := !s.isPaused;
      s.(isPaused := paused, timerActive := !paused)
  }

  /** What `resetGame` needs: draws that are board cells and stop the food
      retry loop for the one-segment snake. */
  predicate ResetAllowed(draws: seq<Pos>) {
    AllInBounds(draws) && HasFree([START_CELL], draws)
  }

  /** The state `resetGame` leaves; it does not depend on the state before.
      The food is drawn after the snake has been reset. */
  function Reset(draws: seq<Pos>): (r: State)
    requires ResetAllowed(draws)
    ensures Good(r) && StatusOf(r) == NotStarted && !r.timerActive
    ensures |r.snake| == 1 && r.score == 0
  {
    State([START_CELL], FoodFor([START_CELL], draws), START_DIRECTION, 0, false, false, false, false)
  }

  // ---------------------------------------------------------------------------
  // Input: handleKeyPress (script.js:54-87)

  /** A key press never touches the board or ends the game. */
  function KeyPress(s: State, code: string): (r: State)
    ensures r.snake == s.snake && r.food == s.food && r.score == s.score
    ensures r.gameOver == s.gameOver
    ensures r.direction == s.direction || r.direction in KEY_DIRECTIONS.Values
  {
    if !s.gameStarted then
      if code == SPACE then StartGame(s) else s
    else if code == SPACE then TogglePause(s)
    else if s.isPaused || s.gameOver then s
    else if code !in KEY_DIRECTIONS then s
    else
      var d := KEY_DIRECTIONS[code];
      if d.x == -s.direction.x && d.y == -s.direction.y then s
      else s.(direction := d)
  }

  // ---------------------------------------------------------------------------
  // Everything that can happen to the state (script.js:45-52 wires these up)

  datatype Event =
    | KeyDown(code: string)          // document keydown
    | StartClick                     // start button
    | PauseClick                     // pause button
    | ResetClick(resetDraws: seq<Pos>)  // reset and play-again buttons
    | IntervalTick(tickDraws: seq<Pos>) // the interval calling moveSnake

  /** Whether `e` can happen in `s`: the start button is on screen only
      before the game starts (lines 93-95, 134), the interval fires only while
      it is set, and the random draws are board cells that stop the food loop. */
  predicate Enabled(s: State, e: Event)
    ensures LifecycleInv(s) && Enabled(s, e) && e.IntervalTick? ==> IsRunning(s)
    ensures LifecycleInv(s) && Enabled(s, e) && e.StartClick? ==> StatusOf(s) == NotStarted
  {
    match e
    case KeyDown(_) => true
    case StartClick => !s.gameStarted
    case PauseClick => true
    case ResetClick(d) => ResetAllowed(d)
    case IntervalTick(d) => s.timerActive && TickAllowed(s, d)
  }

  /** Only interval ticks and resets touch the board. */
  function Apply(s: State, e: Event): (r: State)
    requires Enabled(s, e)
    ensures !e.IntervalTick? && !e.ResetClick? ==> r.snake == s.snake && r.food == s.food && r.score == s.score
  {
    match e
    case KeyDown(code) => KeyPress(s, code)
    case StartClick => StartGame(s)
    case PauseClick => TogglePause(s)
    case ResetClick(d) => Reset(d)
    case IntervalTick(d) => Tick(s, d)
  }

  /** Whether `e` calls `setInterval`: a start, or a resume by Space or by
      the pause button. */
  predicate SetsInterval(s: State, e: Event) {
    match e
    case StartClick => true
    case KeyDown(code) =>
      code == SPACE && (!s.gameStarted || (!s.gameOver && s.isPaused))
    case PauseClick => s.gameStarted && !s.gameOver && s.isPaused
    case _ => false
  }

  /** Every event of `es` is enabled when it happens. */
  predicate Admissible(s: State, es: seq<Event>)
    decreases |es|
  {
    es == [] || (Enabled(s, es[0]) && Admissible(Apply(s, es[0]), es[1..]))
  }

  /** The state after the events `es`, in order. */
  function Run(s: State, es: seq<Event>): State
    requires Admissible(s, es)
    decreases |es|
  {
    if es == [] then s else Run(Apply(s, es[0]), es[1..])
  }
}
