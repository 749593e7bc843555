/** The board of the snake game: a square grid of integer cells, and the
    counting facts about it that food placement depends on. */
module Grid {

  /** Number of cells along each side of the board. */
  const BOARD_SIZE: int := 20

  /** Number of cells on the board. */
  const CELLS: int := BOARD_SIZE * BOARD_SIZE

  /** A board cell, or a direction vector (the source uses `{x, y}` objects for both). */
  datatype Pos = Pos(x: int, y: int)

  /** The cell reached from `p` by moving along `d`. */
  function Add(p: Pos, d: Pos): Pos {
    Pos(p.x + d.x, p.y + d.y)
  }

  predicate InBounds(p: Pos) {
    0 <= p.x < BOARD_SIZE && 0 <= p.y < BOARD_SIZE
  }

  predicate AllInBounds(s: seq<Pos>) {
    forall i :: 0 <= i < |s| ==> InBounds(s[i])
  }

  /** No cell occurs twice in `s`. */
  predicate Distinct(s: seq<Pos>) {
    forall i, j :: 0 <= i < j < |s| ==> s[i] != s[j]
  }

  // ---------------------------------------------------------------------------
  // Numbering the cells 0 .. CELLS-1, so that the board can be counted.

  function CellIndex(p: Pos): int {
    p.x * BOARD_SIZE + p.y
  }

  function CellAt(k: int): Pos {
    Pos(k / BOARD_SIZE, k % BOARD_SIZE)
  }

  lemma CellIndexRoundTrip(p: Pos)
    requires InBounds(p)
    ensures 0 <= CellIndex(p) < CELLS
    ensures CellAt(CellIndex(p)) == p
  {
  }

  lemma CellAtRoundTrip(k: int)
    requires 0 <= k < CELLS
    ensures InBounds(CellAt(k))
    ensures CellIndex(CellAt(k)) == k
  {
  }

  /** The numbers of the cells that `s` occupies. */
  function Indices(s: seq<Pos>): (r: set<int>)
    ensures |r| <= |s|
    ensures forall i :: 0 <= i < |s| ==> CellIndex(s[i]) in r
    ensures forall k :: k in r ==> exists i :: 0 <= i < |s| && CellIndex(s[i]) == k
  {
    if s == [] then {}
    else
      var rest := Indices(s[1..]);
      assert forall i :: 1 <= i < |s| ==> s[1..][i - 1] == s[i];
      {CellIndex(s[0])} + rest
  }

  /** The numbers 0 .. n-1. */
  function Range(n: nat): (r: set<int>)
    ensures |r| == n
    ensures forall k :: k in r <==> 0 <= k < n
  {
    if n == 0 then {} else Range(n - 1) + {n - 1}
  }

  lemma SubsetSize(a: set<int>, b: set<int>)
    requires a <= b
    ensures |a| <= |b|
  {
    assert b == a + (b - a);
  }

  /** Cells that are pairwise distinct and on the board have pairwise distinct numbers. */
  lemma {:induction false} DistinctIndices(s: seq<Pos>)
    requires AllInBounds(s) && Distinct(s)
    ensures |Indices(s)| == |s|
  {
    if s != [] {
      var rest := s[1..];
      assert AllInBounds(rest) && Distinct(rest);
      DistinctIndices(rest);
      CellIndexRoundTrip(s[0]);
      if CellIndex(s[0]) in Indices(rest) {
        var i :| 0 <= i < |rest| && CellIndex(rest[i]) == CellIndex(s[0]);
        CellIndexRoundTrip(rest[i]);
        assert false;
      }
      assert Indices(s) == {CellIndex(s[0])} + Indices(rest);
    }
  }

  /** Covering every cell of the board takes at least CELLS entries. */
  lemma CoveringNeedsAllCells(s: seq<Pos>)
    requires forall c :: InBounds(c) ==> c in s
    ensures |s| >= CELLS
  {
    forall k | k in Range(CELLS)
      ensures k in Indices(s)
    {
      CellAtRoundTrip(k);
      var i :| 0 <= i < |s| && s[i] == CellAt(k);
    }
    SubsetSize(Range(CELLS), Indices(s));
  }

  /** While fewer cells are occupied than the board holds, some cell is free. */
  lemma FreeCellExists(s: seq<Pos>)
    requires |s| < CELLS
    ensures exists c :: InBounds(c) && c !in s
  {
    if forall c :: InBounds(c) ==> c in s {
      CoveringNeedsAllCells(s);
      assert false;
    }
  }

  /** A body of distinct on-board cells that leaves `c` free has fewer than CELLS segments. */
  lemma MissingCellBound(s: seq<Pos>, c: Pos)
    requires AllInBounds(s) && Distinct(s)
    requires InBounds(c) && c !in s
    ensures |s| < CELLS
  {
    CellIndexRoundTrip(c);
    forall k | k in Indices(s)
      ensures k in Range(CELLS) - {CellIndex(c)}
    {
      var i :| 0 <= i < |s| && CellIndex(s[i]) == k;
      CellIndexRoundTrip(s[i]);
      assert s[i] != c;
    }
    SubsetSize(Indices(s), Range(CELLS) - {CellIndex(c)});
    DistinctIndices(s);
  }

  /** Distinct on-board cells as many as the board holds cover every cell. */
  lemma FullBoardCovered(s: seq<Pos>)
    requires AllInBounds(s) && Distinct(s) && |s| == CELLS
    ensures forall c :: InBounds(c) ==> c in s
  {
    forall c | InBounds(c)
      ensures c in s
    {
      if c !in s {
        MissingCellBound(s, c);
        assert false;
      }
    }
  }
}
