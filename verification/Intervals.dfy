/**
 Half-open intervals of whole milliseconds, seen as the cells [t, t + 1) they cover.
 Counting covered cells is the measure that the timeline's sums are compared with.
 */
module Intervals {
  datatype Interval = Interval(start: int, end: int)

  function Length(v: Interval): (ms: int) {
    v.end - v.start
  }

  predicate Has(v: Interval, t: int) {
    v.start <= t < v.end
  }

  predicate Covers(s: seq<Interval>, t: int) {
    exists i :: 0 <= i < |s| && Has(s[i], t)
  }

  function TotalLength(s: seq<Interval>): (ms: int) {
    if s == [] then 0 else TotalLength(s[..|s| - 1]) + Length(s[|s| - 1])
  }

  /** The number of covered cells from lo up to hi. */
  function CoveredCells(s: seq<Interval>, lo: int, hi: int): (n: nat)
    decreases hi - lo
  {
    if hi <= lo then 0 else CoveredCells(s, lo, hi - 1) + (if Covers(s, hi - 1) then 1 else 0)
  }

  ghost predicate SamePoints(a: seq<Interval>, b: seq<Interval>) {
    forall t :: Covers(a, t) <==> Covers(b, t)
  }

  /** Nothing empty, in order, and a gap between any two. */
  ghost predicate Separated(s: seq<Interval>) {
    && (forall i :: 0 <= i < |s| ==> s[i].start < s[i].end)
    && (forall i, j :: 0 <= i < j < |s| ==> s[i].end < s[j].start)
  }

  /** In order, without a common interior point. */
  ghost predicate Disjoint(s: seq<Interval>) {
    && (forall i :: 0 <= i < |s| ==> s[i].start <= s[i].end)
    && (forall i, j :: 0 <= i < j < |s| ==> s[i].end <= s[j].start)
  }

  ghost predicate Within(s: seq<Interval>, lo: int, hi: int) {
    forall i :: 0 <= i < |s| ==> lo <= s[i].start && s[i].end <= hi
  }

  lemma CoversConcat(a: seq<Interval>, b: seq<Interval>, t: int)
    ensures Covers(a + b, t) <==> Covers(a, t) || Covers(b, t)
  {
    if i :| 0 <= i < |a| && Has(a[i], t) { assert Has((a + b)[i], t); }
    if i :| 0 <= i < |b| && Has(b[i], t) { assert Has((a + b)[|a| + i], t); }
  }

  lemma {:induction false} CellsSplit(s: seq<Interval>, lo: int, mid: int, hi: int)
    requires lo <= mid <= hi
    ensures CoveredCells(s, lo, hi) == CoveredCells(s, lo, mid) + CoveredCells(s, mid, hi)
    decreases hi - mid
  {
    if mid < hi { CellsSplit(s, lo, mid, hi - 1); }
  }

  lemma {:induction false} SameCells(a: seq<Interval>, b: seq<Interval>, lo: int, hi: int)
    requires forall t :: lo <= t < hi ==> (Covers(a, t) <==> Covers(b, t))
    ensures CoveredCells(a, lo, hi) == CoveredCells(b, lo, hi)
    decreases hi - lo
  {
    if lo < hi { SameCells(a, b, lo, hi - 1); }
  }

  lemma {:induction false} NoCells(s: seq<Interval>, lo: int, hi: int)
    requires forall t :: lo <= t < hi ==> !Covers(s, t)
    ensures CoveredCells(s, lo, hi) == 0
    decreases hi - lo
  {
    if lo < hi { NoCells(s, lo, hi - 1); }
  }

  lemma {:induction false} AllCells(s: seq<Interval>, lo: int, hi: int)
    requires lo <= hi && forall t :: lo <= t < hi ==> Covers(s, t)
    ensures CoveredCells(s, lo, hi) == hi - lo
    decreases hi - lo
  {
    if lo < hi { AllCells(s, lo, hi - 1); }
  }

  /** Two collections that divide the cells of a stretch between them measure its length together. */
  lemma {:induction false} ComplementCells(a: seq<Interval>, b: seq<Interval>, lo: int, hi: int)
    requires lo <= hi && forall t :: lo <= t < hi ==> (Covers(a, t) <==> !Covers(b, t))
    ensures CoveredCells(a, lo, hi) + CoveredCells(b, lo, hi) == hi - lo
    decreases hi - lo
  {
    if lo < hi { ComplementCells(a, b, lo, hi - 1); }
  }

  /** For intervals that do not overlap, the sum of the lengths is the measure of the union. */
  lemma {:induction false} DisjointMeasure(s: seq<Interval>, lo: int, hi: int)
    requires Disjoint(s) && Within(s, lo, hi) && lo <= hi
    ensures TotalLength(s) == CoveredCells(s, lo, hi)
  {
    if s == [] {
      NoCells(s, lo, hi);
    } else {
      var init, last := s[..|s| - 1], s[|s| - 1];
      assert s == init + [last];
      forall t ensures Covers(s, t) <==> Covers(init, t) || Has(last, t) {
        CoversConcat(init, [last], t);
        assert Covers([last], t) <==> Has([last][0], t);
      }
      DisjointMeasure(init, lo, last.start);
      SameCells(init, s, lo, last.start);
      AllCells(s, last.start, last.end);
      NoCells(s, last.end, hi);
      CellsSplit(s, lo, last.start, hi);
      CellsSplit(s, last.start, last.end, hi);
    }
  }

  lemma SeparatedIsDisjoint(s: seq<Interval>)
    requires Separated(s)
    ensures Disjoint(s)
  {
  }

  lemma CoversTail(s: seq<Interval>, t: int)
    requires Separated(s) && s != []
    ensures Covers(s[1..], t) <==> Covers(s, t) && s[0].end <= t
  {
    assert s == [s[0]] + s[1..];
    CoversConcat([s[0]], s[1..], t);
    assert Covers([s[0]], t) <==> Has([s[0]][0], t);
  }

  lemma SeparatedHead(a: seq<Interval>, b: seq<Interval>)
    requires Separated(a) && Separated(b) && SamePoints(a, b) && a != []
    ensures b != [] && b[0].start <= a[0].start && (b[0].start == a[0].start ==> b[0].end <= a[0].end)
  {
    assert Has(a[0], a[0].start);
    assert Covers(b, a[0].start);
    assert !Covers(a, a[0].end);
    if b[0].start == a[0].start && a[0].end < b[0].end {
      assert Has(b[0], a[0].end);
    }
  }

  /** A separated sequence is determined by the points it covers. */
  lemma {:induction false} SeparatedIsCanonical(a: seq<Interval>, b: seq<Interval>)
    requires Separated(a) && Separated(b) && SamePoints(a, b)
    ensures a == b
    decreases |a|
  {
    if a != [] {
      SeparatedHead(a, b);
      SeparatedHead(b, a);
      assert a[0] == b[0];
      forall t ensures Covers(a[1..], t) <==> Covers(b[1..], t) {
        CoversTail(a, t);
        CoversTail(b, t);
      }
      SeparatedIsCanonical(a[1..], b[1..]);
    } else if b != [] {
      SeparatedHead(b, a);
    }
  }

  /** The intervals longer than a floor, in order. */
  function LongerThan(s: seq<Interval>, floor: int): (r: seq<Interval>)
    ensures forall v :: v in r <==> v in s && Length(v) > floor
  {
    if s == [] then []
    else
      var init, last := s[..|s| - 1], s[|s| - 1];
      assert s == init + [last];
      if Length(last) > floor then LongerThan(init, floor) + [last] else LongerThan(init, floor)
  }

  /** Filtering keeps any order that holds between all pairs. */
  lemma {:induction false} LongerThanKeepsOrder(s: seq<Interval>, floor: int)
    requires floor >= 0 && forall i, j :: 0 <= i < j < |s| ==> s[i].end < s[j].start
    ensures Separated(LongerThan(s, floor))
  {
    if s != [] {
      var init, last := s[..|s| - 1], s[|s| - 1];
      LongerThanKeepsOrder(init, floor);
      var r := LongerThan(init, floor);
      forall i | 0 <= i < |r| ensures r[i].end < last.start {
        assert r[i] in init;
      }
    }
  }

  /** The proper intervals that a floor leaves out. */
  function UpTo(s: seq<Interval>, floor: int): (r: seq<Interval>)
    ensures forall v :: v in r <==> v in s && 0 < Length(v) <= floor
  {
    if s == [] then []
    else
      var init, last := s[..|s| - 1], s[|s| - 1];
      assert s == init + [last];
      if 0 < Length(last) <= floor then UpTo(init, floor) + [last] else UpTo(init, floor)
  }

  lemma {:induction false} UpToKeepsOrder(s: seq<Interval>, floor: int)
    requires forall i, j :: 0 <= i < j < |s| ==> s[i].end < s[j].start
    ensures Separated(UpTo(s, floor))
  {
    if s != [] {
      var init, last := s[..|s| - 1], s[|s| - 1];
      UpToKeepsOrder(init, floor);
      var r := UpTo(init, floor);
      forall i | 0 <= i < |r| ensures r[i].end < last.start {
        assert r[i] in init;
      }
    }
  }

  lemma TotalLengthAppend(s: seq<Interval>, v: Interval)
    ensures TotalLength(s + [v]) == TotalLength(s) + Length(v)
  {
    assert (s + [v])[..|s|] == s;
  }

  lemma {:induction false} FloorSplits(s: seq<Interval>, floor: nat)
    ensures TotalLength(LongerThan(s, 0)) == TotalLength(LongerThan(s, floor)) + TotalLength(UpTo(s, floor))
  {
    if s != [] {
      var init, last := s[..|s| - 1], s[|s| - 1];
      FloorSplits(init, floor);
      TotalLengthAppend(LongerThan(init, 0), last);
      TotalLengthAppend(LongerThan(init, floor), last);
      TotalLengthAppend(UpTo(init, floor), last);
    }
  }
}
