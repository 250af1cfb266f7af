/**
 tests/bud.cpp: the longest-run scan for one segment, the decision procedure for two
 segments, and the binary search over it.
 */
module Bud {
  import opened Grids
  import opened Counting

  /** Larger than any position: the program's initial "no segment yet" pair. */
  const SENTINEL: Int32 := 1_000_000_000

  predicate LexLeq(a: (int, int), b: (int, int)) {
    LexLess(a, b) || a == b
  }

  function LexMin(a: (Int32, Int32), b: (Int32, Int32)): (m: (Int32, Int32)) {
    if LexLess(b, a) then b else a
  }

  function Max(a: Int32, b: Int32): (m: Int32) {
    if a < b then b else a
  }

  ghost function Row(V: array2<Int32>, i: int): (row: seq<int>)
    requires 0 <= i < V.Length0
    reads V
    ensures |row| == V.Length1
  {
    seq(V.Length1, c requires 0 <= c < V.Length1 reads V => V[i, c])
  }

  /** Two free segments of the given kinds that share no cell. */
  ghost predicate PairFits(g: Grid, k: int, firstHorizontal: bool, secondHorizontal: bool) {
    exists s: Segment, t: Segment :: s.Horizontal? == firstHorizontal && t.Horizontal? == secondHorizontal &&
                   Free(g, s, k) && Free(g, t, k) && Disjoint(s, t, k)
  }

  lemma TwoFitByKind(g: Grid, k: int)
    ensures TwoFit(g, k) <==>
            PairFits(g, k, true, true) || PairFits(g, k, false, false) || PairFits(g, k, true, false)
  {
    if TwoFit(g, k) {
      var s, t :| Free(g, s, k) && Free(g, t, k) && Disjoint(s, t, k);
      assert Disjoint(t, s, k);
    }
  }

  /** What the scan of one direction knows about the segments seen so far, all of one kind:
      `first` is the earliest, and none of the others lies clear of it. */
  ghost predicate EarliestOf(first: (int, int), k: int, seen: set<Segment>) {
    if seen == {} then first == (SENTINEL, SENTINEL)
    else
      && (exists s :: s in seen && (s.line, s.end) == first)
      && forall s :: s in seen ==> s.line == first.0 && first.1 <= s.end < first.1 + k
  }

  /** Two parallel segments in the same line whose ends are less than k apart overlap. */
  lemma ParallelOverlap(s: Segment, t: Segment, k: int)
    requires s.Horizontal? == t.Horizontal? && k >= 1
    ensures Disjoint(s, t, k) <==> s.line != t.line || s.end - t.end >= k || t.end - s.end >= k
  {
    var e := if s.end < t.end then s.end else t.end;
    assert Covers(s, k, if s.Horizontal? then s.line else e, if s.Horizontal? then e else s.line)
      <==> s.end - k < e;
    assert Covers(t, k, if s.Horizontal? then s.line else e, if s.Horizontal? then e else s.line)
      <==> s.line == t.line && t.end - k < e;
  }

  /** One step of the earliest-segment test: with the new segment folded into the running
      minimum, either the minimum lies clear of it, and the two are a solution, or all the
      segments seen still overlap pairwise. */
  lemma EarliestStep(g: Grid, k: int, horizontal: bool, i: Int32, j: Int32, first: (Int32, Int32))
    requires k >= 1 && 0 <= i < |g| && 0 <= j < |g| && |g| <= SENTINEL
    requires Free(g, SegmentAt(horizontal, i, j), k)
    requires EarliestOf(first, k, Seen(g, k, horizontal, i, j))
    ensures LexLeq(LexMin(first, (i, j)), (i, j - k)) ==> PairFits(g, k, horizontal, horizontal)
    ensures !LexLeq(LexMin(first, (i, j)), (i, j - k)) ==>
              EarliestOf(LexMin(first, (i, j)), k, Seen(g, k, horizontal, i, j + 1))
  {
    var seen, t := Seen(g, k, horizontal, i, j), SegmentAt(horizontal, i, j);
    SeenNext(g, k, horizontal, i, j);
    if LexLeq(LexMin(first, (i, j)), (i, j - k)) {
      var s :| s in seen && (s.line, s.end) == first;
      ParallelOverlap(s, t, k);
    } else {
      assert t in Seen(g, k, horizontal, i, j + 1);
    }
  }

  lemma EarliestEnd(g: Grid, k: int, horizontal: bool, first: (int, int))
    requires k >= 1 && EarliestOf(first, k, AllFree(g, k, horizontal))
    ensures !PairFits(g, k, horizontal, horizontal)
  {
    SeenAll(g, k, horizontal);
    forall s, t | s in AllFree(g, k, horizontal) && t in AllFree(g, k, horizontal)
      ensures !Disjoint(s, t, k)
    {
      ParallelOverlap(s, t, k);
    }
  }

  /** The prefix sums of `row` count the free horizontal segments that cover each cell of row
      r, among those that end before column j. */
  ghost predicate CoverCounted(g: Grid, k: int, row: seq<int>, r: int, j: int) {
    forall c :: 0 <= c < |row| ==> PrefixSum(row, c) == |Through(g, k, r, c, j)|
  }

  ghost predicate AllZero(row: seq<int>) {
    forall c :: 0 <= c < |row| ==> row[c] == 0
  }

  lemma NothingCounted(g: Grid, k: int, row: seq<int>, r: int)
    requires AllZero(row)
    ensures CoverCounted(g, k, row, r, 0)
  {
    forall c | 0 <= c < |row|
      ensures PrefixSum(row, c) == |Through(g, k, r, c, 0)|
    {
      PrefixSumZero(row, c);
      assert Through(g, k, r, c, 0) == {};
    }
  }

  /** Bounds on the difference array of row i after the columns before j: each entry has been
      raised at most once and lowered at most once, and lowered before it can be raised. */
  ghost predicate EntriesBounded(V: array2<Int32>, i: int, j: int, k: int)
    requires 0 <= i < V.Length0
    reads V
  {
    forall c :: 0 <= c < V.Length1 ==>
      -1 <= V[i, c] <= 1 && (j - k < c ==> V[i, c] <= 0) && (j < c ==> V[i, c] == 0)
  }

  /** Marks the free segment that ends at (i, j): opens its interval and closes it again. */
  method MarkSegment(g: Grid, k: Int32, V: array2<Int32>, i: Int32, j: Int32)
    requires 1 <= k <= j + 1 && 0 <= i < |g| && 0 <= j < |g| < 0x7fff_ffff
    requires V.Length0 == |g| && V.Length1 == |g| + 1
    requires Free(g, Horizontal(i, j), k)
    requires CoverCounted(g, k, Row(V, i), i, j) && EntriesBounded(V, i, j, k)
    modifies V
    ensures CoverCounted(g, k, Row(V, i), i, j + 1) && EntriesBounded(V, i, j + 1, k)
    ensures forall r :: 0 <= r < V.Length0 && r != i ==> Row(V, r) == old(Row(V, r))
  {
    ghost var was := Row(V, i);
    V[i, j - k + 1] := V[i, j - k + 1] + 1;
    V[i, j + 1] := V[i, j + 1] - 1;
    ghost var mid := was[j - k + 1 := was[j - k + 1] + 1];
    assert Row(V, i) == mid[j + 1 := mid[j + 1] + -1];
    IntervalCounted(g, k, i, j, was, mid, Row(V, i));
  }

  lemma IntervalCounted(g: Grid, k: int, i: int, j: int, was: seq<int>, mid: seq<int>, now: seq<int>)
    requires 1 <= k <= j + 1 && 0 <= i < |g| && 0 <= j < |g| && |was| == |g| + 1
    requires mid == was[j - k + 1 := was[j - k + 1] + 1] && now == mid[j + 1 := mid[j + 1] + -1]
    requires Free(g, Horizontal(i, j), k) && CoverCounted(g, k, was, i, j)
    ensures CoverCounted(g, k, now, i, j + 1)
  {
    ThroughNext(g, k, i, j);
    forall c | 0 <= c < |now|
      ensures PrefixSum(now, c) == |Through(g, k, i, c, j + 1)|
    {
      PrefixSumUpdate(was, j - k + 1, 1, c);
      PrefixSumUpdate(mid, j + 1, -1, c);
    }
  }

  /** Where no segment ends, nothing needs marking. */
  lemma NothingToMark(g: Grid, k: int, row: seq<int>, i: int, j: int)
    requires 0 <= i < |g| && 0 <= j < |g|
    requires !Free(g, Horizontal(i, j), k) && CoverCounted(g, k, row, i, j)
    ensures CoverCounted(g, k, row, i, j + 1)
  {
    ThroughNext(g, k, i, j);
  }

  /** What the horizontal scan knows, of everything but V, when it stands at position j of row i. */
  ghost predicate ScanState(g: Grid, k: int, first: (int, int), count: int, i: int, j: int) {
    && EarliestOf(first, k, Seen(g, k, true, i, j))
    && count == |Seen(g, k, true, i, j)|
    && count <= k
    && (first.0 == SENTINEL || first.0 < i || (first.0 == i && first.1 < j && count <= j - first.1))
  }

  lemma ScanStateNext(g: Grid, k: Int32, first: (Int32, Int32), count: Int32, i: Int32, j: Int32)
    requires k >= 1 && 0 <= i < |g| && 0 <= j < |g| && |g| <= SENTINEL
    requires ScanState(g, k, first, count, i, j)
    ensures !Free(g, Horizontal(i, j), k) ==> ScanState(g, k, first, count, i, j + 1)
    ensures Free(g, Horizontal(i, j), k) && LexLeq(LexMin(first, (i, j)), (i, j - k)) ==>
              PairFits(g, k, true, true)
    ensures Free(g, Horizontal(i, j), k) && !LexLeq(LexMin(first, (i, j)), (i, j - k)) ==>
              ScanState(g, k, LexMin(first, (i, j)), count + 1, i, j + 1)
  {
    SeenNext(g, k, true, i, j);
    if Free(g, Horizontal(i, j), k) {
      EarliestStep(g, k, true, i, j, first);
    }
  }

  /** The loop invariant of the scan of row i. */
  ghost predicate RowState(g: Grid, k: int, V: array2<Int32>, i: int, j: int, run: int,
                           first: (int, int), count: int)
    reads V
  {
    && 1 <= k && 0 <= i < |g| <= SENTINEL && 0 <= j <= |g|
    && V.Length0 == |g| && V.Length1 == |g| + 1
    && run == FreeRun(g[i], j)
    && ScanState(g, k, first, count, i, j)
    && CoverCounted(g, k, Row(V, i), i, j)
    && EntriesBounded(V, i, j, k)
  }

  /** The body of the loop over row i: one cell. */
  method VisitCell(g: Grid, k: Int32, V: array2<Int32>, i: Int32, j: Int32, run: Int32,
                   first0: (Int32, Int32), count0: Int32)
    returns (found: bool, curHorizontal: Int32, first: (Int32, Int32), count: Int32)
    requires 0 <= j < |g| && RowState(g, k, V, i, j, run, first0, count0)
    modifies V
    ensures found ==> PairFits(g, k, true, true)
    ensures !found ==> RowState(g, k, V, i, j + 1, curHorizontal, first, count)
    ensures forall r :: 0 <= r < V.Length0 && r != i ==> Row(V, r) == old(Row(V, r))
  {
    found, first, count := false, first0, count0;
    curHorizontal := if g[i][j] then run + 1 else 0;
    FreeByRun(g, Horizontal(i, j), k);
    ScanStateNext(g, k, first, count, i, j);
    if curHorizontal >= k {
      first := LexMin(first, (i, j));
      if LexLeq(first, (i, j - k)) {
        return true, curHorizontal, first, count;
      }
      count := count + 1;
      MarkSegment(g, k, V, i, j);
    } else {
      NothingToMark(g, k, Row(V, i), i, j);
    }
  }

  /** The loop over row i. */
  method ScanRow(g: Grid, k: Int32, V: array2<Int32>, i: Int32, first0: (Int32, Int32), count0: Int32)
    returns (found: bool, first: (Int32, Int32), count: Int32)
    requires 1 <= k && 0 <= i < |g| <= SENTINEL
    requires V.Length0 == |g| && V.Length1 == |g| + 1 && AllZero(Row(V, i))
    requires ScanState(g, k, first0, count0, i, 0)
    modifies V
    ensures found ==> PairFits(g, k, true, true)
    ensures !found ==> ScanState(g, k, first, count, i + 1, 0) && CoverCounted(g, k, Row(V, i), i, |g|)
    ensures forall r :: 0 <= r < V.Length0 && r != i ==> Row(V, r) == old(Row(V, r))
  {
    found, first, count := false, first0, count0;
    var curHorizontal: Int32 := 0;
    NothingCounted(g, k, Row(V, i), i);
    assert forall c :: 0 <= c < V.Length1 ==> V[i, c] == Row(V, i)[c];
    for j := 0 to |g|
      invariant RowState(g, k, V, i, j, curHorizontal, first, count)
      invariant forall r :: 0 <= r < V.Length0 && r != i ==> Row(V, r) == old(Row(V, r))
    {
      found, curHorizontal, first, count := VisitCell(g, k, V, i, j, curHorizontal, first, count);
      if found {
        return;
      }
    }
    SeenNextLine(g, k, true, i);
    found := false;
  }

  /** Part of `possible`: counts the free horizontal segments and marks both ends of each in
      the difference array, unless two of them are found to be disjoint. */
  method ScanHorizontally(g: Grid, k: Int32, V: array2<Int32>) returns (found: bool, count: Int32)
    requires 1 <= k && |g| <= SENTINEL
    requires V.Length0 == |g| && V.Length1 == |g| + 1
    requires forall r :: 0 <= r < |g| ==> AllZero(Row(V, r))
    modifies V
    ensures found == PairFits(g, k, true, true)
    ensures !found ==> count == |Horizontals(g, k)| && count <= k
    ensures !found ==> forall r :: 0 <= r < |g| ==> CoverCounted(g, k, Row(V, r), r, |g|)
  {
    var n: Int32 := |g|;
    var first: (Int32, Int32) := (SENTINEL, SENTINEL);
    count := 0;
    for i := 0 to n
      invariant ScanState(g, k, first, count, i, 0)
      invariant forall r :: 0 <= r < i ==> CoverCounted(g, k, Row(V, r), r, n)
      invariant forall r :: i <= r < n ==> AllZero(Row(V, r))
    {
      found, first, count := ScanRow(g, k, V, i, first, count);
      if found {
        return;
      }
    }
    SeenAll(g, k, true);
    EarliestEnd(g, k, true, first);
    found := false;
  }

  /** `partial_sum` on every row, in place: each cell becomes the sum of its row up to it. */
  method PartialSums(V: array2<Int32>)
    requires V.Length1 >= 1
    requires forall r, c :: 0 <= r < V.Length0 && 0 <= c < V.Length1 ==>
               -0x8000_0000 <= PrefixSum(Row(V, r), c) < 0x8000_0000
    modifies V
    ensures forall r, c :: 0 <= r < V.Length0 && 0 <= c < V.Length1 ==>
              V[r, c] == PrefixSum(old(Row(V, r)), c)
  {
    for i := 0 to V.Length0
      invariant forall r, c :: 0 <= r < i && 0 <= c < V.Length1 ==> V[r, c] == PrefixSum(old(Row(V, r)), c)
      invariant forall r, c :: i <= r < V.Length0 && 0 <= c < V.Length1 ==> V[r, c] == old(V[r, c])
    {
      ghost var row := old(Row(V, i));
      for j := 1 to V.Length1
        invariant forall r, c :: 0 <= r < i && 0 <= c < V.Length1 ==> V[r, c] == PrefixSum(old(Row(V, r)), c)
        invariant forall r, c :: i < r < V.Length0 && 0 <= c < V.Length1 ==> V[r, c] == old(V[r, c])
        invariant forall c :: 0 <= c < j && c < V.Length1 ==> V[i, c] == PrefixSum(row, c)
        invariant forall c :: j <= c < V.Length1 ==> V[i, c] == row[c]
      {
        assert PrefixSum(row, j) == V[i, j - 1] + V[i, j];
        V[i, j] := V[i, j - 1] + V[i, j];
      }
    }
  }

  /** No vertical segment seen so far misses a horizontal one. */
  ghost predicate AllMeetAll(g: Grid, k: int, seen: set<Segment>) {
    forall s :: s in seen ==> |Met(g, k, s)| == |Horizontals(g, k)|
  }

  lemma CrossFits(g: Grid, k: int)
    requires k >= 1
    ensures PairFits(g, k, true, false) <==> !AllMeetAll(g, k, AllFree(g, k, false))
  {
    SeenAll(g, k, true);
    SeenAll(g, k, false);
    forall s: Segment {
      SomeHorizontalMissed(g, k, s);
    }
  }

  /** The loop invariant of the scan of column i. */
  ghost predicate ColumnState(g: Grid, k: int, i: int, j: int, run: int, met: int, first: (int, int)) {
    && 1 <= k && 0 <= i < |g| <= SENTINEL && 0 <= j <= |g|
    && run == FreeRun(Column(g, i), j)
    && met == |MetInRows(g, k, i, j - k, j)|
    && EarliestOf(first, k, Seen(g, k, false, i, j))
    && AllMeetAll(g, k, Seen(g, k, false, i, j))
  }

  /** One step of that scan, with the counters already moved on to row j. */
  lemma ColumnStateNext(g: Grid, k: Int32, i: Int32, j: Int32, run: int, met: int,
                        first: (Int32, Int32), nextRun: int, nextMet: int)
    requires 0 <= j < |g| && ColumnState(g, k, i, j, run, met, first)
    requires nextRun == if g[j][i] then run + 1 else 0
    requires nextMet == |MetInRows(g, k, i, j - k + 1, j + 1)|
    ensures nextRun < k ==> ColumnState(g, k, i, j + 1, nextRun, nextMet, first)
    ensures nextRun >= k && LexLeq(LexMin(first, (i, j)), (i, j - k)) ==> PairFits(g, k, false, false)
    ensures nextRun >= k && nextMet < |Horizontals(g, k)| ==> PairFits(g, k, true, false)
    ensures nextRun >= k && !LexLeq(LexMin(first, (i, j)), (i, j - k)) && nextMet >= |Horizontals(g, k)| ==>
              ColumnState(g, k, i, j + 1, nextRun, nextMet, LexMin(first, (i, j)))
  {
    FreeByRun(g, Vertical(i, j), k);
    SeenNext(g, k, false, i, j);
    WindowIsMet(g, k, i, j);
    if nextRun >= k {
      EarliestStep(g, k, false, i, j, first);
      SomeHorizontalMissed(g, k, Vertical(i, j));
    }
  }

  /** Part of `possible`: looks for a vertical segment clear of the earliest vertical one, or
      of some horizontal one. V holds, for every cell, how many horizontal segments cover it. */
  method ScanVertically(g: Grid, k: Int32, V: array2<Int32>, horizontalCount: Int32) returns (found: bool)
    requires 1 <= k && |g| <= SENTINEL
    requires V.Length0 == |g| && V.Length1 == |g| + 1
    requires forall r, c :: 0 <= r < |g| && 0 <= c <= |g| ==> V[r, c] == |Through(g, k, r, c, |g|)|
    requires horizontalCount == |Horizontals(g, k)|
    ensures found == (PairFits(g, k, false, false) || PairFits(g, k, true, false))
  {
    var n: Int32 := |g|;
    var first: (Int32, Int32) := (SENTINEL, SENTINEL);
    for i := 0 to n
      invariant EarliestOf(first, k, Seen(g, k, false, i, 0))
      invariant AllMeetAll(g, k, Seen(g, k, false, i, 0))
    {
      var curVertical: Int32, curHorizontalIntersections: Int32 := 0, 0;
      assert MetInRows(g, k, i, -k, 0) == {};
      for j := 0 to n
        invariant ColumnState(g, k, i, j, curVertical, curHorizontalIntersections, first)
      {
        ghost var run, met := curVertical, curHorizontalIntersections;
        curVertical := if g[j][i] then curVertical + 1 else 0;
        SlideWindow(g, k, i, j);
        curHorizontalIntersections :=
          curHorizontalIntersections + (V[j, i] - if j >= k then V[j - k, i] else 0);
        ColumnStateNext(g, k, i, j, run, met, first, curVertical, curHorizontalIntersections);
        if curVertical >= k {
          first := LexMin(first, (i, j));
          if LexLeq(first, (i, j - k)) || curHorizontalIntersections < horizontalCount {
            return true;
          }
        }
      }
      SeenNextLine(g, k, false, i);
    }
    SeenAll(g, k, false);
    EarliestEnd(g, k, false, first);
    CrossFits(g, k);
    found := false;
  }

  /** The lambda `possible`: whether two disjoint free segments of k cells exist. */
  method Possible(g: Grid, k: Int32) returns (r: bool)
    requires 1 <= k && |g| <= SENTINEL
    ensures r == TwoFit(g, k)
  {
    TwoFitByKind(g, k);
    var V := new Int32[|g|, |g| + 1]((_, _) => 0);
    var found, horizontalCount := ScanHorizontally(g, k, V);
    if found {
      return true;
    }
    forall i, c | 0 <= i < |g| && 0 <= c <= |g|
      ensures 0 <= PrefixSum(Row(V, i), c) == |Through(g, k, i, c, |g|)| <= k
    {
      SubsetSize(Through(g, k, i, c, |g|), Horizontals(g, k));
    }
    PartialSums(V);
    r := ScanVertically(g, k, V, horizontalCount);
  }

  /** The segments the puzzle asks for, one or two of them, each of k cells. */
  ghost predicate Fits(g: Grid, m: int, k: int) {
    if m == 1 then OneFits(g, k) else TwoFit(g, k)
  }

  /** k is the greatest length that fits (segments of no cells always do). */
  ghost predicate IsAnswer(g: Grid, m: int, k: int) {
    && k >= 0
    && Fits(g, m, k)
    && forall j :: j > k ==> !Fits(g, m, j)
  }

  lemma EmptySegmentsFit(g: Grid, m: int)
    ensures Fits(g, m, 0)
  {
    assert Free(g, Horizontal(0, 0), 0) && Disjoint(Horizontal(0, 0), Horizontal(0, 0), 0);
  }

  /** No run of free cells seen by the m = 1 scan before position j of row and column i
      exceeds k. */
  ghost predicate RunsBounded(g: Grid, k: int, i: int, j: int) {
    forall s: Segment :: 0 <= s.line < |g| && 0 <= s.end < |g| && LexLess((s.line, s.end), (i, j)) ==>
      FreeRun(Line(g, s), s.end + 1) <= k
  }

  lemma RunFits(g: Grid, s: Segment)
    requires 0 <= s.line < |g| && 0 <= s.end < |g|
    ensures OneFits(g, FreeRun(Line(g, s), s.end + 1))
  {
    var run := FreeRun(Line(g, s), s.end + 1);
    if run > 0 {
      FreeByRun(g, s, run);
    } else {
      EmptySegmentsFit(g, 1);
    }
  }

  lemma RunsBoundedNext(g: Grid, k: int, i: int, j: int, longest: int)
    requires 0 <= i < |g| && 0 <= j < |g| && k <= longest && RunsBounded(g, k, i, j)
    requires FreeRun(g[i], j + 1) <= longest && FreeRun(Column(g, i), j + 1) <= longest
    ensures RunsBounded(g, longest, i, j + 1)
  {
    forall s: Segment | 0 <= s.line < |g| && 0 <= s.end < |g| && LexLess((s.line, s.end), (i, j + 1))
      ensures FreeRun(Line(g, s), s.end + 1) <= longest
    {
      assert LexLess((s.line, s.end), (i, j)) || (s.line == i && s.end == j);
    }
  }

  lemma LongestRunIsAnswer(g: Grid, k: int)
    requires k >= 0 && OneFits(g, k) && RunsBounded(g, k, |g|, 0)
    ensures IsAnswer(g, 1, k)
  {
    forall j | j > k
      ensures !OneFits(g, j)
    {
      forall s | Free(g, s, j)
        ensures false
      {
        FreeSegmentInGrid(g, s, j);
        FreeByRun(g, s, j);
      }
    }
  }

  /** The case m = 1: the longest run of free cells in any row or column. */
  method LongestRun(g: Grid) returns (k: Int32)
    requires |g| < 0x8000_0000
    ensures IsAnswer(g, 1, k)
  {
    k := 0;
    EmptySegmentsFit(g, 1);
    for i := 0 to |g|
      invariant 0 <= k <= |g| && OneFits(g, k)
      invariant RunsBounded(g, k, i, 0)
    {
      var curVertical: Int32, curHorizontal: Int32 := 0, 0;
      for j := 0 to |g|
        invariant 0 <= k <= |g| && OneFits(g, k)
        invariant curHorizontal == FreeRun(g[i], j) && curVertical == FreeRun(Column(g, i), j)
        invariant RunsBounded(g, k, i, j)
      {
        curHorizontal := if g[i][j] then curHorizontal + 1 else 0;
        curVertical := if g[j][i] then curVertical + 1 else 0;
        RunFits(g, Horizontal(i, j));
        RunFits(g, Vertical(i, j));
        ghost var before := k;
        k := Max(k, Max(curHorizontal, curVertical));
        RunsBoundedNext(g, before, i, j, k);
      }
    }
    LongestRunIsAnswer(g, k);
  }

  function Pow2(e: nat): (p: nat) {
    if e == 0 then 1 else 2 * Pow2(e - 1)
  }

  function CeilLog2(x: int): (e: nat)
    requires x >= 1
  {
    if x == 1 then 0 else 1 + CeilLog2((x + 1) / 2)
  }

  /** CeilLog2(x) is the least e with 2^e >= x. */
  lemma {:induction false} CeilLog2Meaning(x: int)
    requires x >= 1
    ensures x <= Pow2(CeilLog2(x))
    ensures CeilLog2(x) > 0 ==> Pow2(CeilLog2(x) - 1) < x
  {
    if x > 1 {
      CeilLog2Meaning((x + 1) / 2);
    }
  }

  lemma {:induction false} CeilLog2Monotone(x: int, y: int)
    requires 1 <= x <= y
    ensures CeilLog2(x) <= CeilLog2(y)
  {
    if x > 1 {
      CeilLog2Monotone((x + 1) / 2, (y + 1) / 2);
    }
  }

  /** The case m = 2: binary search over [a, b). `calls` counts the calls of `possible` in
      the loop. */
  method LongestPair(g: Grid) returns (a: Int32, ghost calls: nat)
    requires |g| <= SENTINEL
    ensures IsAnswer(g, 2, a) && a <= |g|
    ensures calls <= CeilLog2(|g| + 1)
  {
    var warmUp := Possible(g, 6);
    var b: Int32;
    a, b := 0, |g| + 1;
    calls := 0;
    EmptySegmentsFit(g, 2);
    NothingLongerThanTheGrid(g);
    while b - a > 1
      invariant 0 <= a < b <= |g| + 1
      invariant TwoFit(g, a) && !TwoFit(g, b)
      invariant calls + CeilLog2(b - a) <= CeilLog2(|g| + 1)
    {
      var mid: Int32 := a + (b - a) / 2;
      CeilLog2Monotone(mid - a, (b - a + 1) / 2);
      var fits := Possible(g, mid);
      calls := calls + 1;
      if fits {
        a := mid;
      } else {
        b := mid;
      }
    }
    forall j | j > a
      ensures !TwoFit(g, j)
    {
      if TwoFit(g, j) {
        TwoFitMonotone(g, b, j);
      }
    }
  }

  lemma NothingLongerThanTheGrid(g: Grid)
    ensures !TwoFit(g, |g| + 1)
  {
    if TwoFit(g, |g| + 1) {
      var s: Segment :| Free(g, s, |g| + 1);
      FreeSegmentInGrid(g, s, |g| + 1);
    }
  }

  /** `main` without its input and output: the number it prints. */
  method Solve(g: Grid, m: Int32) returns (k: Int32)
    requires |g| <= SENTINEL
    ensures IsAnswer(g, m, k)
  {
    if m == 1 {
      k := LongestRun(g);
    } else {
      ghost var calls;
      k, calls := LongestPair(g);
      assert forall j :: Fits(g, m, j) == Fits(g, 2, j);
    }
  }
}
