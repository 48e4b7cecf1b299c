/**
 What trimming and clamping do to the spans of a timeline: overlaps are counted once, nothing else is lost.
 */
module TimelineTrim {
  import opened Numbers
  import opened Intervals
  import opened TimelineIntervals

  function TrimOne(span: Interval, priorEnd: int): (r: Interval) {
    if span.end <= priorEnd && span.start < priorEnd then Interval(priorEnd, priorEnd)
    else if span.start < priorEnd && span.end > priorEnd then Interval(priorEnd, span.end)
    else span
  }

  function TrimLoss(span: Interval, priorEnd: int): (ms: int) {
    if span.end <= priorEnd && span.start < priorEnd then span.end - span.start
    else if span.start < priorEnd && span.end > priorEnd then priorEnd - span.start
    else 0
  }

  /** Each span gives way to the ones before it. */
  function Trim(spans: seq<Interval>, priorEnd: int): (r: seq<Interval>)
    ensures |r| == |spans|
  {
    if spans == [] then []
    else
      var first := TrimOne(spans[0], priorEnd);
      [first] + Trim(spans[1..], Max(priorEnd, first.end))
  }

  /** The time counted as overlap. */
  function Trimmed(spans: seq<Interval>, priorEnd: int): (ms: int) {
    if spans == [] then 0
    else TrimLoss(spans[0], priorEnd) + Trimmed(spans[1..], Max(priorEnd, TrimOne(spans[0], priorEnd).end))
  }

  /** One step of the trim, at position i of all the spans. */
  lemma TrimStep(spans: seq<Interval>, trimmed: seq<Interval>, i: nat, priorEnd: int)
    requires i < |spans| == |trimmed| && trimmed[i..] == Trim(spans[i..], priorEnd)
    ensures trimmed[i] == TrimOne(spans[i], priorEnd)
    ensures var next := Max(priorEnd, trimmed[i].end);
            && trimmed[i + 1..] == Trim(spans[i + 1..], next)
            && Trimmed(spans[i..], priorEnd) == TrimLoss(spans[i], priorEnd) + Trimmed(spans[i + 1..], next)
  {
    assert spans[i..][0] == spans[i] && spans[i..][1..] == spans[i + 1..];
    assert trimmed[i] == trimmed[i..][0] && trimmed[i + 1..] == trimmed[i..][1..];
  }

  lemma {:induction false} TotalLengthFront(s: seq<Interval>)
    requires s != []
    ensures TotalLength(s) == Length(s[0]) + TotalLength(s[1..])
  {
    if |s| > 1 {
      TotalLengthFront(s[..|s| - 1]);
      assert s[..|s| - 1][1..] == s[1..][..|s| - 2];
    }
  }

  /** What the rows lose is what is reported as trimmed. */
  lemma {:induction false} TrimConserves(spans: seq<Interval>, priorEnd: int)
    ensures TotalLength(spans) == TotalLength(Trim(spans, priorEnd)) + Trimmed(spans, priorEnd)
  {
    if spans != [] {
      var first, r := TrimOne(spans[0], priorEnd), Trim(spans, priorEnd);
      TrimConserves(spans[1..], Max(priorEnd, first.end));
      TotalLengthFront(spans);
      TotalLengthFront(r);
      assert r[1..] == Trim(spans[1..], Max(priorEnd, first.end));
    }
  }

  /** Trimmed rows have disjoint interiors, begin at or after the prior end, and only ever lose their front. */
  lemma {:induction false} TrimSeparates(spans: seq<Interval>, priorEnd: int)
    requires forall i :: 0 <= i < |spans| ==> spans[i].start <= spans[i].end
    ensures Disjoint(Trim(spans, priorEnd))
    ensures forall i :: 0 <= i < |spans| ==>
              var r := Trim(spans, priorEnd)[i];
              && r.start >= priorEnd
              && (r == spans[i] || r.start == r.end || spans[i].start < r.start < r.end == spans[i].end)
  {
    if spans != [] {
      var first, r := TrimOne(spans[0], priorEnd), Trim(spans, priorEnd);
      var next := Max(priorEnd, first.end);
      TrimSeparates(spans[1..], next);
      assert forall i :: 0 < i < |r| ==> r[i] == Trim(spans[1..], next)[i - 1] && spans[i] == spans[1..][i - 1];
    }
  }

  /** From the prior end on, the rows cover what they covered. */
  lemma {:induction false} TrimCovers(spans: seq<Interval>, priorEnd: int, t: int)
    requires StartsAscend(spans)
    ensures Covers(Trim(spans, priorEnd), t) <==> priorEnd <= t && Covers(spans, t)
  {
    if spans != [] {
      var first := TrimOne(spans[0], priorEnd);
      var next := Max(priorEnd, first.end);
      TrimCovers(spans[1..], next, t);
      assert spans == [spans[0]] + spans[1..];
      CoversConcat([spans[0]], spans[1..], t);
      CoversConcat([first], Trim(spans[1..], next), t);
      assert Covers([first], t) <==> Has([first][0], t);
      assert Covers([spans[0]], t) <==> Has([spans[0]][0], t);
      assert priorEnd <= t < next && Covers(spans[1..], t) ==> spans[0].start <= t;
    }
  }

  /** The reported overlap is the sum of the lengths minus the measure of the union over t >= 0. */
  lemma TrimmedMeasure(spans: seq<Interval>, hi: nat)
    requires StartsAscend(spans)
    requires forall i :: 0 <= i < |spans| ==> spans[i].start <= spans[i].end <= hi
    ensures Trimmed(spans, 0) == TotalLength(spans) - CoveredCells(spans, 0, hi)
  {
    var r := Trim(spans, 0);
    TrimConserves(spans, 0);
    TrimSeparates(spans, 0);
    TrimEndsWithin(spans, 0, hi);
    DisjointMeasure(r, 0, hi);
    forall t | 0 <= t < hi ensures Covers(r, t) <==> Covers(spans, t) { TrimCovers(spans, 0, t); }
    SameCells(r, spans, 0, hi);
  }

  lemma {:induction false} TrimEndsWithin(spans: seq<Interval>, priorEnd: int, hi: int)
    requires priorEnd <= hi
    requires forall i :: 0 <= i < |spans| ==> spans[i].end <= hi
    ensures forall i :: 0 <= i < |spans| ==> Trim(spans, priorEnd)[i].end <= hi
  {
    if spans != [] {
      var next := Max(priorEnd, TrimOne(spans[0], priorEnd).end);
      TrimEndsWithin(spans[1..], next, hi);
      assert forall i :: 0 < i < |spans| ==> Trim(spans, priorEnd)[i] == Trim(spans[1..], next)[i - 1];
    }
  }

  /** The parts of the spans inside [0, totalMs). */
  function Clip(spans: seq<Interval>, totalMs: int): (r: seq<Interval>) {
    seq(|spans|, i requires 0 <= i < |spans| => Interval(Max(0, spans[i].start), Min(spans[i].end, totalMs)))
  }

  lemma ClipCovers(spans: seq<Interval>, totalMs: int, t: int)
    ensures Covers(LongerThan(Clip(spans, totalMs), 0), t) <==> 0 <= t < totalMs && Covers(spans, t)
  {
    var clipped := Clip(spans, totalMs);
    if i :| 0 <= i < |spans| && Has(spans[i], t) {
      if 0 <= t < totalMs {
        assert clipped[i] in clipped;
        var j :| 0 <= j < |LongerThan(clipped, 0)| && LongerThan(clipped, 0)[j] == clipped[i];
        assert Has(LongerThan(clipped, 0)[j], t);
      }
    }
    if j :| 0 <= j < |LongerThan(clipped, 0)| && Has(LongerThan(clipped, 0)[j], t) {
      assert LongerThan(clipped, 0)[j] in clipped;
      var i :| 0 <= i < |clipped| && clipped[i] == LongerThan(clipped, 0)[j];
      assert Has(spans[i], t);
    }
  }

  /** Separated intervals over points of [lo, hi) lie inside it. */
  lemma SeparatedWithin(merged: seq<Interval>, lo: int, hi: int)
    requires Separated(merged) && forall t :: Covers(merged, t) ==> lo <= t < hi
    ensures Within(merged, lo, hi)
  {
    forall i | 0 <= i < |merged| ensures lo <= merged[i].start && merged[i].end <= hi {
      assert Has(merged[i], merged[i].start) && Has(merged[i], merged[i].end - 1);
      assert Covers(merged, merged[i].start) && Covers(merged, merged[i].end - 1);
    }
  }

  /** Attributed time is the measure of the measured spans inside the timeline, trimmed or not. */
  lemma AttributedMeasure(spans: seq<Interval>, totalMs: nat, merged: seq<Interval>)
    requires StartsAscend(spans) && Separated(merged)
    requires SamePoints(merged, LongerThan(Clip(Trim(spans, 0), totalMs), 0))
    ensures TotalLength(merged) == CoveredCells(spans, 0, totalMs) <= totalMs
  {
    forall t ensures Covers(merged, t) <==> 0 <= t < totalMs && Covers(spans, t) {
      ClipCovers(Trim(spans, 0), totalMs, t);
      TrimCovers(spans, 0, t);
    }
    SeparatedWithin(merged, 0, totalMs);
    SeparatedIsDisjoint(merged);
    DisjointMeasure(merged, 0, totalMs);
    SameCells(merged, spans, 0, totalMs);
    CellsAtMost(spans, 0, totalMs);
  }

  lemma {:induction false} CellsAtMost(s: seq<Interval>, lo: int, hi: int)
    requires lo <= hi
    ensures CoveredCells(s, lo, hi) <= hi - lo
    decreases hi - lo
  {
    if lo < hi { CellsAtMost(s, lo, hi - 1); }
  }

  /** A child of a window as the window leaves it. */
  function ClampTo(window: Interval, child: Interval): (r: Interval)
    requires window.start <= window.end
    ensures window.start <= r.start <= r.end <= window.end
    ensures forall t :: Has(r, t) <==> Has(window, t) && Has(child, t)
  {
    var start := Min(Max(child.start, window.start), window.end);
    Interval(start, Min(Max(child.end, start), window.end))
  }

  function Shift(s: seq<Interval>, delta: int): (r: seq<Interval>)
    ensures |r| == |s| && forall i :: 0 <= i < |s| ==> r[i] == Interval(s[i].start + delta, s[i].end + delta)
  {
    seq(|s|, i requires 0 <= i < |s| => Interval(s[i].start + delta, s[i].end + delta))
  }

  lemma ShiftCovers(s: seq<Interval>, delta: int, t: int)
    ensures Covers(Shift(s, delta), t + delta) <==> Covers(s, t)
  {
    if i :| 0 <= i < |s| && Has(s[i], t) { assert Has(Shift(s, delta)[i], t + delta); }
    if i :| 0 <= i < |s| && Has(Shift(s, delta)[i], t + delta) { assert Has(s[i], t); }
  }

  lemma {:induction false} ShiftCells(s: seq<Interval>, delta: int, lo: int, hi: int)
    ensures CoveredCells(Shift(s, delta), lo + delta, hi + delta) == CoveredCells(s, lo, hi)
    decreases hi - lo
  {
    if lo < hi {
      ShiftCells(s, delta, lo, hi - 1);
      ShiftCovers(s, delta, hi - 1);
    }
  }

  function ClampAll(window: Interval, children: seq<Interval>): (r: seq<Interval>)
    requires window.start <= window.end
    ensures |r| == |children| && forall i :: 0 <= i < |children| ==> r[i] == ClampTo(window, children[i])
  {
    seq(|children|, i requires 0 <= i < |children| => ClampTo(window, children[i]))
  }

  lemma ClampCovers(window: Interval, children: seq<Interval>, t: int)
    requires window.start <= window.end && Has(window, t)
    ensures Covers(ClampAll(window, children), t) <==> Covers(children, t)
  {
    var r := ClampAll(window, children);
    if i :| 0 <= i < |r| && Has(r[i], t) { assert Has(children[i], t); }
    if i :| 0 <= i < |r| && Has(children[i], t) { assert Has(r[i], t); }
  }

  /** Clamping changes nothing inside the window. */
  lemma ClampKeepsCoverage(window: Interval, children: seq<Interval>)
    requires window.start <= window.end
    ensures CoveredCells(ClampAll(window, children), window.start, window.end)
         == CoveredCells(children, window.start, window.end)
  {
    forall t | window.start <= t < window.end
      ensures Covers(ClampAll(window, children), t) <==> Covers(children, t)
    {
      ClampCovers(window, children, t);
    }
    SameCells(ClampAll(window, children), children, window.start, window.end);
  }

  function Moved(v: Interval, delta: int): (r: Interval) {
    Interval(v.start + delta, v.end + delta)
  }

  /** Whether a stretch is free does not depend on where time begins. */
  lemma ShiftStretch(covered: seq<Interval>, delta: int, window: Interval, g: Interval)
    ensures FreeStretch(Shift(covered, delta), Moved(window, delta), Moved(g, delta)) <==>
            FreeStretch(covered, window, g)
  {
    ShiftCovers(covered, delta, g.start - 1);
    ShiftCovers(covered, delta, g.end);
    if forall t :: g.start <= t < g.end ==> !Covers(covered, t) {
      forall u | g.start + delta <= u < g.end + delta ensures !Covers(Shift(covered, delta), u) {
        ShiftCovers(covered, delta, u - delta);
      }
    } else {
      var t :| g.start <= t < g.end && Covers(covered, t);
      ShiftCovers(covered, delta, t);
      assert Covers(Shift(covered, delta), t + delta);
    }
  }

  lemma ShiftHas(s: seq<Interval>, delta: int, v: Interval)
    ensures v in Shift(s, delta) <==> Moved(v, -delta) in s
  {
    if v in Shift(s, delta) {
      var i :| 0 <= i < |s| && Shift(s, delta)[i] == v;
      assert s[i] == Moved(v, -delta);
    }
    if Moved(v, -delta) in s {
      var i :| 0 <= i < |s| && s[i] == Moved(v, -delta);
      assert Shift(s, delta)[i] == v;
    }
  }

  lemma ShiftSeparated(s: seq<Interval>, delta: int)
    requires Separated(s)
    ensures Separated(Shift(s, delta))
  {
  }

  lemma ShiftMember(covered: seq<Interval>, window: Interval, s: seq<Interval>, g: Interval)
    ensures g in Shift(s, window.start) <==> Moved(g, -window.start) in s
    ensures FreeStretch(covered, window, g) <==>
            FreeStretch(Shift(covered, -window.start), Interval(0, Length(window)), Moved(g, -window.start))
    ensures Length(Moved(g, -window.start)) == Length(g)
  {
    ShiftHas(s, window.start, g);
    ShiftStretch(covered, -window.start, window, g);
  }

  /** Gaps counted from the start of a window are the window's gaps once they are moved to it. */
  lemma ShiftExact(covered: seq<Interval>, window: Interval, gaps: seq<Interval>, dropped: seq<Interval>)
    requires ExactGaps(Shift(covered, -window.start), Interval(0, Length(window)), gaps, dropped)
    ensures ExactGaps(covered, window, Shift(gaps, window.start), Shift(dropped, window.start))
  {
    ShiftSeparated(gaps, window.start);
    ShiftSeparated(dropped, window.start);
    forall g
      ensures g in Shift(gaps, window.start) <==> FreeStretch(covered, window, g) && Length(g) > RESIDUAL_FLOOR_MS
    {
      ShiftMember(covered, window, gaps, g);
    }
    forall g
      ensures g in Shift(dropped, window.start) <==> FreeStretch(covered, window, g) && Length(g) <= RESIDUAL_FLOOR_MS
    {
      ShiftMember(covered, window, dropped, g);
    }
  }

  /** The gaps of a window depend only on what is covered inside it. */
  lemma SameExact(a: seq<Interval>, b: seq<Interval>, window: Interval, gaps: seq<Interval>, dropped: seq<Interval>)
    requires ExactGaps(a, window, gaps, dropped)
    requires forall t :: Has(window, t) ==> (Covers(a, t) <==> Covers(b, t))
    ensures ExactGaps(b, window, gaps, dropped)
  {
    forall g ensures FreeStretch(a, window, g) <==> FreeStretch(b, window, g) {
      SameStretch(a, b, window, g);
    }
  }
}
