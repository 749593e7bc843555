/** Food placement: `generateFood` draws random cells until one is not on
    the snake. `Math.random` is replaced by `draws`, the list of cells its
    successive iterations would produce; every draw is a board cell, since
    each coordinate is `Math.floor(Math.random() * BOARD_SIZE)`. */
module Food {
  import opened Grid

  /** Some draw lands on a cell that `body` does not occupy, so the retry loop stops. */
  predicate HasFree(body: seq<Pos>, draws: seq<Pos>) {
    exists i :: 0 <= i < |draws| && draws[i] !in body
  }

  /** Every board cell is drawn at some point. */
  ghost predicate FairDraws(draws: seq<Pos>) {
    forall c :: InBounds(c) ==> c in draws
  }

  /** The number of the draw at which the retry loop stops. */
  function FirstFreeIndex(body: seq<Pos>, draws: seq<Pos>): (k: nat)
    requires HasFree(body, draws)
    ensures k < |draws| && draws[k] !in body
    ensures forall j :: 0 <= j < k ==> draws[j] in body
  {
    if draws[0] !in body then 0
    else
      var i :| 0 <= i < |draws| && draws[i] !in body;
      assert draws[1..][i - 1] == draws[i];
      assert forall j :: 1 <= j < |draws| ==> draws[1..][j - 1] == draws[j];
      1 + FirstFreeIndex(body, draws[1..])
  }

  /** The cell `generateFood` returns: the first draw off the body. */
  function FoodFor(body: seq<Pos>, draws: seq<Pos>): (food: Pos)
    requires AllInBounds(draws) && HasFree(body, draws)
    ensures InBounds(food) && food !in body
    ensures food in draws
  {
    draws[FirstFreeIndex(body, draws)]
  }

  /** `generateFood` (script.js:175-185): the do/while retry loop. */
  method GenerateFood(snake: seq<Pos>, draws: seq<Pos>) returns (food: Pos)
    requires AllInBounds(draws) && HasFree(snake, draws)
    ensures food == FoodFor(snake, draws)
    ensures InBounds(food) && food !in snake
  {
    var i := 0;
    food := draws[i];
    while food in snake
      invariant i <= FirstFreeIndex(snake, draws)
      invariant food == draws[i]
      decreases FirstFreeIndex(snake, draws) - i
    {
      i := i + 1;
      food := draws[i];
    }
  }

  /** Fair draws always stop the loop while the body leaves a cell free. */
  lemma FairDrawsHaveFree(body: seq<Pos>, draws: seq<Pos>)
    requires FairDraws(draws) && |body| < CELLS
    ensures HasFree(body, draws)
  {
    FreeCellExists(body);
    var c :| InBounds(c) && c !in body;
    assert c in draws;
    var i :| 0 <= i < |draws| && draws[i] == c;
  }

  /** Once a body of distinct on-board cells fills the board, no draw of any
      sequence of board cells is free: the retry loop never stops. */
  lemma FullBoardHasNoFree(body: seq<Pos>, draws: seq<Pos>)
    requires AllInBounds(body) && Distinct(body) && |body| == CELLS
    requires AllInBounds(draws)
    ensures !HasFree(body, draws)
  {
    FullBoardCovered(body);
    forall i | 0 <= i < |draws|
      ensures draws[i] in body
    {
      assert InBounds(draws[i]);
    }
  }
}
