/**
 The two interval routines of the timeline: merging covered spans and listing the time they leave free.
 */
module TimelineIntervals {
  import opened Intervals
  import opened Sorting

  /** Shorter stretches of free time are not shown. */
  const RESIDUAL_FLOOR_MS := 2

  function ByStart(): (Interval, Interval) -> bool {
    (a: Interval, b: Interval) => a.start <= b.start
  }

  ghost predicate StartsAscend(s: seq<Interval>) {
    forall i, j :: 0 <= i < j < |s| ==> s[i].start <= s[j].start
  }

  /** Sorting the proper intervals keeps exactly the covered points. */
  lemma SortedCovers(intervals: seq<Interval>, sorted: seq<Interval>)
    requires sorted == Sort(ByStart(), LongerThan(intervals, 0))
    ensures StartsAscend(sorted) && SamePoints(sorted, intervals)
    ensures forall i :: 0 <= i < |sorted| ==> sorted[i].start < sorted[i].end
  {
    var proper := LongerThan(intervals, 0);
    SortSorts(ByStart(), proper);
    assert forall i, j :: 0 <= i < j < |sorted| ==> ByStart()(sorted[i], sorted[j]);
    forall v ensures v in sorted <==> v in intervals && Length(v) > 0 {
      SortHasSameElements(ByStart(), proper, v);
    }
    forall t ensures Covers(sorted, t) <==> Covers(intervals, t) {
      if i :| 0 <= i < |sorted| && Has(sorted[i], t) {
        assert sorted[i] in intervals;
      }
      if i :| 0 <= i < |intervals| && Has(intervals[i], t) {
        assert intervals[i] in sorted;
      }
    }
    forall i | 0 <= i < |sorted| ensures sorted[i].start < sorted[i].end {
      assert sorted[i] in sorted;
    }
  }

  /** Absorbing the next interval into the last merged one, or starting a new one. */
  function Absorb(merged: seq<Interval>, next: Interval): (r: seq<Interval>)
    requires Separated(merged) && next.start < next.end
    requires merged == [] || merged[|merged| - 1].start <= next.start
    ensures Separated(r) && r != [] && r[|r| - 1].start <= next.start
  {
    var n := |merged|;
    if n > 0 && next.start <= merged[n - 1].end
    then merged[n - 1 := merged[n - 1].(end := if merged[n - 1].end >= next.end then merged[n - 1].end else next.end)]
    else merged + [next]
  }

  lemma AbsorbCovers(merged: seq<Interval>, next: Interval, t: int)
    requires Separated(merged) && next.start < next.end
    requires merged == [] || merged[|merged| - 1].start <= next.start
    ensures Covers(Absorb(merged, next), t) <==> Covers(merged, t) || Has(next, t)
  {
    var r, n := Absorb(merged, next), |merged|;
    if i :| 0 <= i < n && Has(merged[i], t) { assert Has(r[i], t); }
    if Has(next, t) { assert Has(r[|r| - 1], t); }
    if i :| 0 <= i < |r| && Has(r[i], t) {
      assert i < n - 1 ==> Has(merged[i], t);
      assert i == n - 1 ==> Has(merged[i], t) || Has(next, t);
    }
  }

  /** What the merge holds after some of the sorted intervals. */
  ghost predicate MergeOf(merged: seq<Interval>, taken: seq<Interval>) {
    && Separated(merged) && SamePoints(merged, taken)
    && (merged != [] ==> taken != [] && merged[|merged| - 1].start <= taken[|taken| - 1].start)
  }

  lemma AbsorbMerges(merged: seq<Interval>, taken: seq<Interval>, next: Interval)
    requires MergeOf(merged, taken) && next.start < next.end
    requires taken != [] ==> taken[|taken| - 1].start <= next.start
    ensures MergeOf(Absorb(merged, next), taken + [next])
  {
    forall t ensures Covers(Absorb(merged, next), t) <==> Covers(taken + [next], t) {
      AbsorbCovers(merged, next, t);
      CoversConcat(taken, [next], t);
      assert Covers([next], t) <==> Has([next][0], t);
    }
  }

  method AbsorbNext(merged: seq<Interval>, next: Interval) returns (r: seq<Interval>)
    requires Separated(merged) && next.start < next.end
    requires merged == [] || merged[|merged| - 1].start <= next.start
    ensures r == Absorb(merged, next)
  {
    r := merged;
    if r != [] && next.start <= r[|r| - 1].end {
      var last := r[|r| - 1];
      r := r[|r| - 1 := last.(end := if last.end >= next.end then last.end else next.end)];
    } else {
      r := r + [next];
    }
  }

  /** The result is the one separated sequence that covers the points of the input. */
  method MergeIntervals(intervals: seq<Interval>) returns (merged: seq<Interval>)
    ensures Separated(merged) && SamePoints(merged, intervals)
  {
    var sorted := Sort(ByStart(), LongerThan(intervals, 0));
    SortedCovers(intervals, sorted);
    merged := [];
    var i := 0;
    while i < |sorted|
      invariant 0 <= i <= |sorted| && MergeOf(merged, sorted[..i])
    {
      AbsorbMerges(merged, sorted[..i], sorted[i]);
      assert sorted[..i + 1] == sorted[..i] + [sorted[i]];
      merged := AbsorbNext(merged, sorted[i]);
      i := i + 1;
    }
    assert sorted[..|sorted|] == sorted;
  }

  /** A maximal stretch of the window that nothing covers. */
  ghost predicate FreeStretch(covered: seq<Interval>, window: Interval, g: Interval) {
    && window.start <= g.start < g.end <= window.end
    && (forall t :: g.start <= t < g.end ==> !Covers(covered, t))
    && (g.start == window.start || Covers(covered, g.start - 1))
    && (g.end == window.end || Covers(covered, g.end))
  }

  /** A maximal stretch of [0, totalMs) that nothing covers. */
  ghost predicate IsGap(covered: seq<Interval>, totalMs: int, g: Interval) {
    FreeStretch(covered, Interval(0, totalMs), g)
  }

  /** Exactly the maximal uncovered stretches of the window that are longer than the floor, in order. */
  ghost predicate LongGaps(covered: seq<Interval>, window: Interval, gaps: seq<Interval>) {
    Separated(gaps) && forall g :: g in gaps <==> FreeStretch(covered, window, g) && Length(g) > 2
  }

  /** Exactly the others, in order. */
  ghost predicate ShortGaps(covered: seq<Interval>, window: Interval, dropped: seq<Interval>) {
    Separated(dropped)
    && forall g :: g in dropped <==> FreeStretch(covered, window, g) && Length(g) <= 2
  }

  /** The free time of the window, divided by the floor into what is shown and what is left out. */
  ghost predicate ExactGaps(covered: seq<Interval>, window: Interval, gaps: seq<Interval>, dropped: seq<Interval>) {
    LongGaps(covered, window, gaps) && ShortGaps(covered, window, dropped)
  }

  ghost predicate GapsBefore(covered: seq<Interval>, totalMs: int, cursor: int, raw: seq<Interval>) {
    && (forall v :: v in raw && v.start < v.end ==> IsGap(covered, totalMs, v))
    && (forall g :: IsGap(covered, totalMs, g) && g.start < cursor ==> g in raw)
    && (forall t :: 0 <= t < cursor && t < totalMs ==> (Covers(covered, t) <==> !Covers(raw, t)))
  }

  /** The stretch before the next covered point is the only gap that begins there. */
  lemma GapUpTo(covered: seq<Interval>, totalMs: int, cursor: int, start: int)
    requires 0 <= cursor < start && (cursor == 0 || Covers(covered, cursor - 1))
    requires forall t :: cursor <= t < start ==> !Covers(covered, t)
    requires start < totalMs ==> Covers(covered, start)
    ensures var v := Interval(cursor, if start <= totalMs then start else totalMs);
            && (v.start < v.end ==> IsGap(covered, totalMs, v))
            && (forall g :: IsGap(covered, totalMs, g) && cursor <= g.start < start ==> g == v)
  {
    var v := Interval(cursor, if start <= totalMs then start else totalMs);
    forall g | IsGap(covered, totalMs, g) && cursor <= g.start < start ensures g == v {
      assert g.start > cursor ==> !Covers(covered, g.start - 1);
      assert g.end > v.end ==> !Covers(covered, v.end);
      assert g.end < v.end ==> !Covers(covered, g.end);
    }
  }

  lemma GapsGrow(covered: seq<Interval>, totalMs: int, cursor: int, start: int, end: int, raw: seq<Interval>)
    requires GapsBefore(covered, totalMs, cursor, raw) && 0 <= cursor < start <= end
    requires cursor == 0 || Covers(covered, cursor - 1)
    requires forall t :: cursor <= t < start ==> !Covers(covered, t)
    requires start < totalMs ==> Covers(covered, start)
    requires forall t :: start <= t < end && t < totalMs ==> Covers(covered, t)
    requires forall v :: v in raw ==> v.end <= cursor
    ensures GapsBefore(covered, totalMs, end, raw + [Interval(cursor, if start <= totalMs then start else totalMs)])
  {
    var v := Interval(cursor, if start <= totalMs then start else totalMs);
    GapUpTo(covered, totalMs, cursor, start);
    forall g | IsGap(covered, totalMs, g) && g.start < end ensures g in raw + [v] {
      assert start <= g.start ==> !Covers(covered, g.start);
    }
    forall t | 0 <= t < end && t < totalMs ensures Covers(covered, t) <==> !Covers(raw + [v], t) {
      CoversConcat(raw, [v], t);
      assert Covers([v], t) <==> Has([v][0], t);
    }
  }

  lemma GapsUnchanged(covered: seq<Interval>, totalMs: int, cursor: int, end: int, raw: seq<Interval>)
    requires GapsBefore(covered, totalMs, cursor, raw) && 0 <= cursor <= end
    requires forall t :: cursor <= t < end && t < totalMs ==> Covers(covered, t)
    requires forall v :: v in raw ==> v.end <= cursor
    ensures GapsBefore(covered, totalMs, end, raw)
  {
    forall g | IsGap(covered, totalMs, g) && g.start < end ensures g in raw {
      assert cursor <= g.start ==> !Covers(covered, g.start);
    }
  }

  ghost predicate GapsInOrder(raw: seq<Interval>, cursor: int) {
    && (forall i, j :: 0 <= i < j < |raw| ==> raw[i].end < raw[j].start)
    && (forall v :: v in raw ==> v.end < cursor)
  }

  lemma Uncovered(merged: seq<Interval>, k: nat, cursor: int)
    requires Separated(merged) && k < |merged| && 0 <= cursor
    requires k > 0 ==> merged[k - 1].end <= cursor
    ensures forall t :: cursor <= t < merged[k].start ==> !Covers(merged, t)
    ensures forall t :: merged[k].start <= t < merged[k].end ==> Covers(merged, t)
  {
    forall t | cursor <= t < merged[k].start ensures !Covers(merged, t) {
      forall i | 0 <= i < |merged| ensures !Has(merged[i], t) {
        assert i < k - 1 ==> merged[i].end < merged[k - 1].start;
        assert i > k ==> merged[k].end < merged[i].start;
      }
    }
    forall t | merged[k].start <= t < merged[k].end ensures Covers(merged, t) {
      assert Has(merged[k], t);
    }
  }

  lemma ProperCovers(raw: seq<Interval>, t: int)
    ensures Covers(LongerThan(raw, 0), t) <==> Covers(raw, t)
  {
    var proper := LongerThan(raw, 0);
    if i :| 0 <= i < |raw| && Has(raw[i], t) { assert raw[i] in proper; }
    if i :| 0 <= i < |proper| && Has(proper[i], t) { assert proper[i] in raw; }
  }

  lemma ProperAreWithin(covered: seq<Interval>, totalMs: nat, raw: seq<Interval>)
    requires GapsBefore(covered, totalMs, totalMs, raw)
    ensures Within(LongerThan(raw, 0), 0, totalMs)
  {
    var proper := LongerThan(raw, 0);
    forall i | 0 <= i < |proper| ensures 0 <= proper[i].start && proper[i].end <= totalMs {
      assert proper[i] in proper;
      assert IsGap(covered, totalMs, proper[i]);
    }
  }

  /** Free time plus covered time is all the time there is. */
  lemma GapsMeasure(covered: seq<Interval>, totalMs: nat, raw: seq<Interval>)
    requires GapsBefore(covered, totalMs, totalMs, raw)
    requires forall i, j :: 0 <= i < j < |raw| ==> raw[i].end < raw[j].start
    ensures TotalLength(LongerThan(raw, 0)) + CoveredCells(covered, 0, totalMs) == totalMs
  {
    var gaps := LongerThan(raw, 0);
    LongerThanKeepsOrder(raw, 0);
    SeparatedIsDisjoint(gaps);
    ProperAreWithin(covered, totalMs, raw);
    DisjointMeasure(gaps, 0, totalMs);
    forall t | 0 <= t < totalMs ensures Covers(gaps, t) <==> !Covers(covered, t) {
      ProperCovers(raw, t);
    }
    ComplementCells(gaps, covered, 0, totalMs);
  }

  /** Only the points next to the stretch and inside it matter. */
  lemma SameStretch(a: seq<Interval>, b: seq<Interval>, window: Interval, g: Interval)
    requires forall t :: Has(window, t) ==> (Covers(a, t) <==> Covers(b, t))
    ensures FreeStretch(a, window, g) <==> FreeStretch(b, window, g)
  {
    if window.start <= g.start < g.end <= window.end {
      assert forall t :: g.start <= t < g.end ==> Has(window, t);
      assert g.start == window.start || Has(window, g.start - 1);
      assert g.end == window.end || Has(window, g.end);
    }
  }

  lemma SameGaps(a: seq<Interval>, b: seq<Interval>, totalMs: int)
    requires SamePoints(a, b)
    ensures forall g :: IsGap(a, totalMs, g) <==> IsGap(b, totalMs, g)
  {
    forall g ensures IsGap(a, totalMs, g) <==> IsGap(b, totalMs, g) {
      SameStretch(a, b, Interval(0, totalMs), g);
    }
  }

  /** What holds before the k-th merged interval is looked at. */
  ghost predicate GapsUpTo(merged: seq<Interval>, totalMs: int, k: nat, cursor: int, raw: seq<Interval>)
    requires k <= |merged|
  {
    && 0 <= cursor && (cursor == 0 || Covers(merged, cursor - 1))
    && (k > 0 ==> merged[k - 1].end <= cursor)
    && GapsInOrder(raw, cursor) && GapsBefore(merged, totalMs, cursor, raw)
  }

  lemma OrderGrows(raw: seq<Interval>, cursor: int, v: Interval, next: int)
    requires GapsInOrder(raw, cursor) && cursor <= v.start && v.end < next && cursor <= next
    ensures GapsInOrder(raw + [v], next)
  {
  }

  lemma GapBeforeNext(merged: seq<Interval>, totalMs: int, k: nat, cursor: int, raw: seq<Interval>)
    requires Separated(merged) && k < |merged| && GapsUpTo(merged, totalMs, k, cursor, raw)
    requires merged[k].start > cursor
    ensures GapsUpTo(merged, totalMs, k + 1, merged[k].end,
                     raw + [Interval(cursor, if merged[k].start <= totalMs then merged[k].start else totalMs)])
  {
    var m := merged[k];
    Uncovered(merged, k, cursor);
    assert Covers(merged, m.start) && Covers(merged, m.end - 1);
    OrderGrows(raw, cursor, Interval(cursor, if m.start <= totalMs then m.start else totalMs), m.end);
    GapsGrow(merged, totalMs, cursor, m.start, m.end, raw);
  }

  lemma NoGapBeforeNext(merged: seq<Interval>, totalMs: int, k: nat, cursor: int, raw: seq<Interval>)
    requires Separated(merged) && k < |merged| && GapsUpTo(merged, totalMs, k, cursor, raw)
    requires merged[k].start <= cursor
    ensures GapsUpTo(merged, totalMs, k + 1, if cursor >= merged[k].end then cursor else merged[k].end, raw)
  {
    var m := merged[k];
    Uncovered(merged, k, cursor);
    assert Has(m, m.end - 1);
    GapsUnchanged(merged, totalMs, cursor, if cursor >= m.end then cursor else m.end, raw);
  }

  lemma LastGap(merged: seq<Interval>, totalMs: int, cursor: int, raw: seq<Interval>)
    requires Separated(merged) && GapsUpTo(merged, totalMs, |merged|, cursor, raw)
    ensures var all := if cursor < totalMs then raw + [Interval(cursor, totalMs)] else raw;
            && GapsBefore(merged, totalMs, totalMs, all)
            && forall i, j :: 0 <= i < j < |all| ==> all[i].end < all[j].start
  {
    RestUncovered(merged, cursor);
    if cursor < totalMs {
      GapsGrow(merged, totalMs, cursor, totalMs, totalMs, raw);
    }
  }

  /** The gaps before filtering; those that begin past the total are empty or inverted. */
  method RawGaps(merged: seq<Interval>, totalMs: int) returns (raw: seq<Interval>)
    requires Separated(merged)
    ensures GapsBefore(merged, totalMs, totalMs, raw)
    ensures forall i, j :: 0 <= i < j < |raw| ==> raw[i].end < raw[j].start
  {
    raw := [];
    var cursor, k := 0, 0;
    while k < |merged|
      invariant 0 <= k <= |merged| && GapsUpTo(merged, totalMs, k, cursor, raw)
    {
      var start, end := merged[k].start, merged[k].end;
      if start <= cursor {
        NoGapBeforeNext(merged, totalMs, k, cursor, raw);
      }
      if start > cursor {
        GapBeforeNext(merged, totalMs, k, cursor, raw);
        raw := raw + [Interval(cursor, if start <= totalMs then start else totalMs)];
      }
      cursor := if cursor >= end then cursor else end;
      k := k + 1;
    }
    LastGap(merged, totalMs, cursor, raw);
    if cursor < totalMs {
      raw := raw + [Interval(cursor, totalMs)];
    }
  }

  /**
   The reported gaps are exactly the maximal uncovered stretches longer than the floor, in order.
   Together with the ones left out they measure all uncovered time.
   */
  method GapsWithin(covered: seq<Interval>, totalMs: int) returns (gaps: seq<Interval>, ghost dropped: seq<Interval>)
    ensures LongGaps(covered, Interval(0, totalMs), gaps)
    ensures ExactGaps(covered, Interval(0, totalMs), gaps, dropped)
    ensures totalMs >= 0 ==>
              TotalLength(gaps) + TotalLength(dropped) + CoveredCells(covered, 0, totalMs) == totalMs
  {
    var merged := MergeIntervals(covered);
    var raw := RawGaps(merged, totalMs);
    gaps := LongerThan(raw, RESIDUAL_FLOOR_MS);
    dropped := UpTo(raw, RESIDUAL_FLOOR_MS);
    AllGapsFound(covered, merged, totalMs, raw);
    LongerThanKeepsOrder(raw, RESIDUAL_FLOOR_MS);
    UpToKeepsOrder(raw, RESIDUAL_FLOOR_MS);
  }

  lemma RestUncovered(merged: seq<Interval>, cursor: int)
    requires Separated(merged) && (merged != [] ==> merged[|merged| - 1].end <= cursor)
    ensures forall t :: cursor <= t ==> !Covers(merged, t)
  {
    forall t, i | cursor <= t && 0 <= i < |merged| ensures !Has(merged[i], t) {
      assert i < |merged| - 1 ==> merged[i].end < merged[|merged| - 1].start;
    }
  }

  lemma AllGapsFound(covered: seq<Interval>, merged: seq<Interval>, totalMs: int, raw: seq<Interval>)
    requires SamePoints(merged, covered) && GapsBefore(merged, totalMs, totalMs, raw)
    requires forall i, j :: 0 <= i < j < |raw| ==> raw[i].end < raw[j].start
    ensures forall g :: g in LongerThan(raw, RESIDUAL_FLOOR_MS)
                    <==> IsGap(covered, totalMs, g) && Length(g) > RESIDUAL_FLOOR_MS
    ensures forall g :: g in UpTo(raw, RESIDUAL_FLOOR_MS)
                    <==> IsGap(covered, totalMs, g) && Length(g) <= RESIDUAL_FLOOR_MS
    ensures totalMs >= 0 ==>
              TotalLength(LongerThan(raw, RESIDUAL_FLOOR_MS)) + TotalLength(UpTo(raw, RESIDUAL_FLOOR_MS))
              + CoveredCells(covered, 0, totalMs) == totalMs
  {
    SameGaps(merged, covered, totalMs);
    if totalMs >= 0 {
      GapsMeasure(merged, totalMs, raw);
      SameCells(merged, covered, 0, totalMs);
      FloorSplits(raw, RESIDUAL_FLOOR_MS);
    }
  }
}
