/**
 The puzzle solved by tests/bud.cpp, stated without reference to its algorithm: a square
 grid of free and blocked cells, straight segments of k cells, and what it means for one
 segment, or for two segments that share no cell, to fit.
 */
module Grids {

  /** A 32-bit signed integer. Overflow is undefined in C++, so every assignment to a
      variable of this type is also a proof that the computed value fits. */
  type Int32 = x: int | -0x8000_0000 <= x < 0x8000_0000

  predicate IsSquare(g: seq<seq<bool>>) {
    forall i :: 0 <= i < |g| ==> |g[i]| == |g|
  }

  /** `g[r][c]` says that the cell in row r and column c is free. */
  type Grid = g: seq<seq<bool>> | IsSquare(g) witness []

  /** A segment named, as the program names it, by the row (or column) it lies in and by
      the position of its last cell within that line. */
  datatype Segment = Horizontal(line: int, end: int) | Vertical(line: int, end: int)

  predicate Covers(s: Segment, k: int, r: int, c: int) {
    match s
    case Horizontal(line, end) => r == line && end - k < c <= end
    case Vertical(line, end) => c == line && end - k < r <= end
  }

  /** The cell d steps before the last one. */
  function CellAt(s: Segment, d: int): (int, int) {
    match s
    case Horizontal(line, end) => (line, end - d)
    case Vertical(line, end) => (end - d, line)
  }

  function Cells(s: Segment, k: nat): set<(int, int)> {
    set d | 0 <= d < k :: CellAt(s, d)
  }

  lemma {:induction false} CellCount(s: Segment, k: nat)
    ensures |Cells(s, k)| == k
  {
    if k > 0 {
      CellCount(s, k - 1);
      assert Cells(s, k) == Cells(s, k - 1) + {CellAt(s, k - 1)};
      assert CellAt(s, k - 1) !in Cells(s, k - 1);
    }
  }

  /** A segment consists of exactly k cells, in one line and next to one another. */
  lemma SegmentHasKCells(s: Segment, k: nat)
    ensures |Cells(s, k)| == k
    ensures forall r, c :: Covers(s, k, r, c) <==> (r, c) in Cells(s, k)
  {
    CellCount(s, k);
    forall r, c | Covers(s, k, r, c)
      ensures (r, c) in Cells(s, k)
    {
      assert (r, c) == CellAt(s, s.end - if s.Horizontal? then c else r);
    }
  }

  predicate IsFreeCell(g: Grid, r: int, c: int) {
    0 <= r < |g| && 0 <= c < |g| && g[r][c]
  }

  /** Every cell of the segment lies in the grid and is free. */
  ghost predicate Free(g: Grid, s: Segment, k: int) {
    forall r, c :: Covers(s, k, r, c) ==> IsFreeCell(g, r, c)
  }

  ghost predicate Disjoint(s: Segment, t: Segment, k: int) {
    forall r, c :: !(Covers(s, k, r, c) && Covers(t, k, r, c))
  }

  ghost predicate OneFits(g: Grid, k: int) {
    exists s :: Free(g, s, k)
  }

  ghost predicate TwoFit(g: Grid, k: int) {
    exists s, t :: Free(g, s, k) && Free(g, t, k) && Disjoint(s, t, k)
  }

  /** Shortening both segments keeps them free and disjoint: this is what makes the
      program's binary search right. */
  lemma TwoFitMonotone(g: Grid, j: int, k: int)
    requires j <= k && TwoFit(g, k)
    ensures TwoFit(g, j)
  {
    var s, t :| Free(g, s, k) && Free(g, t, k) && Disjoint(s, t, k);
    CoversMonotone(s, j, k);
    CoversMonotone(t, j, k);
    assert Free(g, s, j) && Free(g, t, j) && Disjoint(s, t, j);
  }

  lemma CoversMonotone(s: Segment, j: int, k: int)
    requires j <= k
    ensures forall r, c :: Covers(s, j, r, c) ==> Covers(s, k, r, c)
  {}

  /** A free segment of at least one cell ends inside the grid and is no longer than it. */
  lemma FreeSegmentInGrid(g: Grid, s: Segment, k: int)
    requires k >= 1 && Free(g, s, k)
    ensures 0 <= s.line < |g| && k - 1 <= s.end < |g|
  {
    match s
    case Horizontal(i, j) => assert Covers(s, k, i, j) && Covers(s, k, i, j - k + 1);
    case Vertical(i, j) => assert Covers(s, k, j, i) && Covers(s, k, j - k + 1, i);
  }

  /** The number of consecutive free cells of a line that end just before position j. */
  function FreeRun(line: seq<bool>, j: nat): (run: nat)
    requires j <= |line|
    ensures run <= j
  {
    if j > 0 && line[j - 1] then FreeRun(line, j - 1) + 1 else 0
  }

  function Column(g: Grid, i: int): (line: seq<bool>)
    requires 0 <= i < |g|
  {
    seq(|g|, j requires 0 <= j < |g| => g[j][i])
  }

  function Line(g: Grid, s: Segment): (line: seq<bool>)
    requires 0 <= s.line < |g|
    ensures |line| == |g|
  {
    if s.Horizontal? then g[s.line] else Column(g, s.line)
  }

  lemma {:induction false} FreeRunMeaning(line: seq<bool>, j: nat, k: nat)
    requires j <= |line|
    ensures FreeRun(line, j) >= k <==> k <= j && forall c :: j - k <= c < j ==> line[c]
  {
    if k > 0 && j > 0 && line[j - 1] {
      FreeRunMeaning(line, j - 1, k - 1);
    }
  }

  /** The running counters of the program recognise exactly the free segments. */
  lemma FreeByRun(g: Grid, s: Segment, k: nat)
    requires k >= 1 && 0 <= s.line < |g| && 0 <= s.end < |g|
    ensures Free(g, s, k) <==> FreeRun(Line(g, s), s.end + 1) >= k
  {
    var line, j := Line(g, s), s.end + 1;
    FreeRunMeaning(line, j, k);
    if Free(g, s, k) {
      FreeSegmentInGrid(g, s, k);
      forall c | j - k <= c < j
        ensures line[c]
      {
        assert if s.Horizontal? then Covers(s, k, s.line, c) else Covers(s, k, c, s.line);
      }
    }
    if FreeRun(line, j) >= k {
      forall r, c | Covers(s, k, r, c)
        ensures IsFreeCell(g, r, c)
      {
        assert line[if s.Horizontal? then c else r];
      }
    }
  }
}
