/**
 The counting argument behind tests/bud.cpp: sets of free horizontal segments, the
 difference array that counts how many of them cover a cell, and the sum down a column
 that counts how many of them a vertical segment meets.
 */
module Counting {
  import opened Grids

  function SegmentAt(horizontal: bool, i: int, j: int): Segment {
    if horizontal then Horizontal(i, j) else Vertical(i, j)
  }

  /** All free segments of one direction. */
  ghost function AllFree(g: Grid, k: int, horizontal: bool): set<Segment> {
    set i, j | 0 <= i < |g| && 0 <= j < |g| && Free(g, SegmentAt(horizontal, i, j), k) ::
      SegmentAt(horizontal, i, j)
  }

  ghost function Horizontals(g: Grid, k: int): set<Segment> {
    AllFree(g, k, true)
  }

  predicate LexLess(a: (int, int), b: (int, int)) {
    a.0 < b.0 || (a.0 == b.0 && a.1 < b.1)
  }

  /** The segments that a scan of one direction has met before it reaches position j of line i. */
  ghost function Seen(g: Grid, k: int, horizontal: bool, i: int, j: int): set<Segment> {
    set s | s in AllFree(g, k, horizontal) && LexLess((s.line, s.end), (i, j))
  }

  lemma SeenNext(g: Grid, k: int, horizontal: bool, i: int, j: int)
    requires 0 <= i < |g| && 0 <= j < |g|
    ensures var s := SegmentAt(horizontal, i, j);
            && s !in Seen(g, k, horizontal, i, j)
            && Seen(g, k, horizontal, i, j + 1) ==
               Seen(g, k, horizontal, i, j) + if Free(g, s, k) then {s} else {}
  {}

  lemma SeenNextLine(g: Grid, k: int, horizontal: bool, i: int)
    requires 0 <= i < |g|
    ensures Seen(g, k, horizontal, i + 1, 0) == Seen(g, k, horizontal, i, |g|)
  {}

  lemma SeenAll(g: Grid, k: int, horizontal: bool)
    requires k >= 1
    ensures Seen(g, k, horizontal, |g|, 0) == AllFree(g, k, horizontal)
    ensures forall s :: s in AllFree(g, k, horizontal) <==> s.Horizontal? == horizontal && Free(g, s, k)
  {
    forall s: Segment | s.Horizontal? == horizontal && Free(g, s, k)
      ensures s in AllFree(g, k, horizontal)
    {
      FreeSegmentInGrid(g, s, k);
      assert s == SegmentAt(horizontal, s.line, s.end);
    }
  }

  /** The free horizontal segments that cover the cell (r, c) and end before column j. */
  ghost function Through(g: Grid, k: int, r: int, c: int, j: int): set<Segment> {
    set s | s in Horizontals(g, k) && s.end < j && Covers(s, k, r, c)
  }

  lemma ThroughNext(g: Grid, k: int, r: int, j: int)
    requires 0 <= r < |g| && 0 <= j < |g|
    ensures forall c :: |Through(g, k, r, c, j + 1)| ==
              |Through(g, k, r, c, j)| + if Free(g, Horizontal(r, j), k) && j - k < c <= j then 1 else 0
  {
    var h := SegmentAt(true, r, j);
    forall c
      ensures |Through(g, k, r, c, j + 1)| ==
              |Through(g, k, r, c, j)| + if Free(g, h, k) && j - k < c <= j then 1 else 0
    {
      assert Through(g, k, r, c, j + 1) ==
             Through(g, k, r, c, j) + if Free(g, h, k) && j - k < c <= j then {h} else {};
    }
  }

  lemma SubsetSize<T>(a: set<T>, b: set<T>)
    requires a <= b
    ensures |a| <= |b|
    ensures |a| < |b| <==> a != b
  {
    assert b == a + (b - a);
  }

  /** The sum of the first c + 1 entries. */
  ghost function PrefixSum(s: seq<int>, c: int): int
    requires c < |s|
    decreases c + 1
  {
    if c < 0 then 0 else PrefixSum(s, c - 1) + s[c]
  }

  /** Adding d at one place of the difference array adds d to every later prefix sum. */
  lemma {:induction false} PrefixSumUpdate(s: seq<int>, p: nat, d: int, c: int)
    requires p < |s| && c < |s|
    ensures PrefixSum(s[p := s[p] + d], c) == PrefixSum(s, c) + if p <= c then d else 0
    decreases c + 1
  {
    if c >= 0 {
      PrefixSumUpdate(s, p, d, c - 1);
    }
  }

  lemma {:induction false} PrefixSumZero(s: seq<int>, c: int)
    requires c < |s| && forall p :: 0 <= p < |s| ==> s[p] == 0
    ensures PrefixSum(s, c) == 0
    decreases c + 1
  {
    if c >= 0 {
      PrefixSumZero(s, c - 1);
    }
  }

  /** The free horizontal segments that share a cell with the segment s. */
  ghost function Met(g: Grid, k: int, s: Segment): set<Segment> {
    set h | h in Horizontals(g, k) && !Disjoint(h, s, k)
  }

  /** The free horizontal segments that cover, in column c, one of the rows from..to-1. */
  ghost function MetInRows(g: Grid, k: int, c: int, from: int, to: int): set<Segment> {
    set h | h in Horizontals(g, k) && from <= h.line < to && Covers(h, k, h.line, c)
  }

  lemma DisjointUnionSize<T>(a: set<T>, b: set<T>, u: set<T>)
    requires a !! b && u == a + b
    ensures |u| == |a| + |b|
  {}

  lemma WindowWithNext(g: Grid, k: int, c: int, from: int, j: int)
    requires 0 <= j < |g| && from <= j
    ensures |MetInRows(g, k, c, from, j + 1)| == |MetInRows(g, k, c, from, j)| + |Through(g, k, j, c, |g|)|
  {
    DisjointUnionSize(MetInRows(g, k, c, from, j), Through(g, k, j, c, |g|), MetInRows(g, k, c, from, j + 1));
  }

  lemma WindowWithoutFirst(g: Grid, k: int, c: int, from: int, to: int)
    requires from < to
    ensures |MetInRows(g, k, c, from, to)| == |MetInRows(g, k, c, from + 1, to)| + |Through(g, k, from, c, |g|)|
    ensures from < 0 ==> |Through(g, k, from, c, |g|)| == 0
  {
    DisjointUnionSize(MetInRows(g, k, c, from + 1, to), Through(g, k, from, c, |g|), MetInRows(g, k, c, from, to));
    assert from < 0 ==> Through(g, k, from, c, |g|) == {};
  }

  /** Sliding the window of k rows one row down adds the segments through the new row and
      drops those through the row that leaves it, if the window was full. */
  lemma SlideWindow(g: Grid, k: int, c: int, j: int)
    requires k >= 1 && 0 <= j < |g|
    ensures |MetInRows(g, k, c, j - k + 1, j + 1)| == |MetInRows(g, k, c, j - k, j)| +
              |Through(g, k, j, c, |g|)| - if j >= k then |Through(g, k, j - k, c, |g|)| else 0
    ensures |MetInRows(g, k, c, j - k + 1, j + 1)| <= |Horizontals(g, k)|
  {
    WindowWithNext(g, k, c, j - k, j);
    WindowWithoutFirst(g, k, c, j - k, j + 1);
    SubsetSize(MetInRows(g, k, c, j - k + 1, j + 1), Horizontals(g, k));
  }

  /** The window of k rows that ends at row j holds exactly the horizontal segments that a
      vertical segment ending there meets, each once. */
  lemma WindowIsMet(g: Grid, k: int, c: int, j: int)
    ensures MetInRows(g, k, c, j - k + 1, j + 1) == Met(g, k, Vertical(c, j))
  {
    forall h | h in Horizontals(g, k)
      ensures h in MetInRows(g, k, c, j - k + 1, j + 1) <==> h in Met(g, k, Vertical(c, j))
    {
      if h in MetInRows(g, k, c, j - k + 1, j + 1) {
        assert Covers(h, k, h.line, c) && Covers(Vertical(c, j), k, h.line, c);
      }
    }
  }

  /** The pigeonhole test: fewer met than exist, exactly when some horizontal is missed. */
  lemma SomeHorizontalMissed(g: Grid, k: int, s: Segment)
    requires k >= 1
    ensures |Met(g, k, s)| <= |Horizontals(g, k)|
    ensures |Met(g, k, s)| < |Horizontals(g, k)| <==>
            exists h: Segment :: h.Horizontal? && Free(g, h, k) && Disjoint(h, s, k)
  {
    SeenAll(g, k, true);
    SubsetSize(Met(g, k, s), Horizontals(g, k));
  }
}
