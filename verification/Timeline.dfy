/**
 The timeline of a transfer. Rows are objects: the list of rows, the sorted list of measured rows and
 the children of detail windows share them, and trimming and clamping rewrite them in place.
 */
module Timeline {
  import opened Wrappers
  import opened Numbers
  import opened Sorting
  import opened Intervals
  import opened TimelineIntervals
  import opened TimelineTrim

  datatype Kind = Measured | TickDerived | Residual | NoDetail | Event

  class Row {
    const kind: Kind
    const indent: nat
    var startMs: int
    var endMs: int
    var durationMs: Option<int>

    constructor (kind: Kind, indent: nat, startMs: int, endMs: int, durationMs: Option<int>)
      ensures this.kind == kind && this.indent == indent
      ensures this.startMs == startMs && this.endMs == endMs && this.durationMs == durationMs
    {
      this.kind, this.indent := kind, indent;
      this.startMs, this.endMs, this.durationMs := startMs, endMs, durationMs;
    }

    function Span(): (span: Interval)
      reads this
    {
      Interval(startMs, endMs)
    }
  }

  /** A stretch of measured time and the tick-derived rows that describe it. */
  datatype DetailWindow = DetailWindow(span: Interval, children: seq<Row>)

  datatype Attribution = Attribution(totalMs: int, attributedMs: int, residualMs: int, residualPct: real,
                                     overlapTrimmedMs: int, detailGapMs: int, detailGapPct: real)

  function Spans(rows: seq<Row>): (r: seq<Interval>)
    reads rows
    ensures |r| == |rows| && forall i :: 0 <= i < |rows| ==> r[i] == rows[i].Span()
  {
    seq(|rows|, i requires 0 <= i < |rows| reads rows => rows[i].Span())
  }

  predicate AllIn(some: seq<Row>, rows: seq<Row>) {
    forall k :: 0 <= k < |some| ==> some[k] in rows
  }

  function MeasuredRows(rows: seq<Row>): (r: seq<Row>)
    ensures forall k :: 0 <= k < |r| ==> r[k] in rows && r[k].kind == Measured
    ensures forall row :: row in rows && row.kind == Measured ==> row in r
    ensures Distinct(rows) ==> Distinct(r)
  {
    if rows == [] then []
    else
      var init, last := rows[..|rows| - 1], rows[|rows| - 1];
      assert rows == init + [last];
      if last.kind == Measured then MeasuredRows(init) + [last] else MeasuredRows(init)
  }

  /** A row as the controller's clock measured it: it lasts, and its duration is its length. */
  predicate IsMeasured(row: Row)
    reads row
  {
    row.kind == Measured && row.startMs < row.endMs && row.durationMs == Some(row.endMs - row.startMs)
  }

  lemma {:induction false} TotalLengthInsert(a: seq<Interval>, x: Interval, b: seq<Interval>)
    ensures TotalLength(a + [x] + b) == TotalLength(a + b) + Length(x)
  {
    if b == [] {
      assert a + [x] + b == a + [x] && a + b == a;
      TotalLengthAppend(a, x);
    } else {
      var init, last := b[..|b| - 1], b[|b| - 1];
      TotalLengthInsert(a, x, init);
      assert a + [x] + b == (a + [x] + init) + [last] && a + b == (a + init) + [last];
      TotalLengthAppend(a + [x] + init, last);
      TotalLengthAppend(a + init, last);
    }
  }

  /** The place of a row after every earlier or equal start. */
  method InsertionPoint(sorted: seq<Row>, row: Row) returns (p: nat)
    requires StartsAscend(Spans(sorted))
    ensures p <= |sorted|
    ensures forall i :: 0 <= i < p ==> sorted[i].startMs <= row.startMs
    ensures forall i :: p <= i < |sorted| ==> row.startMs < sorted[i].startMs
  {
    p := |sorted|;
    while p > 0 && row.startMs < sorted[p - 1].startMs
      invariant p <= |sorted|
      invariant forall i :: p <= i < |sorted| ==> row.startMs < sorted[i].startMs
    {
      p := p - 1;
    }
    forall i | 0 <= i < p ensures sorted[i].startMs <= row.startMs {
      assert i < p - 1 ==> Spans(sorted)[i].start <= Spans(sorted)[p - 1].start;
    }
  }

  /** Some of the rows, in the order of their starts. */
  ghost predicate SortedCopy(sorted: seq<Row>, rows: seq<Row>)
    reads sorted, rows
  {
    && Distinct(sorted) && AllIn(sorted, rows) && AllIn(rows, sorted)
    && StartsAscend(Spans(sorted))
    && TotalLength(Spans(sorted)) == TotalLength(Spans(rows))
  }

  method InsertRow(sorted: seq<Row>, row: Row, ghost before: seq<Row>) returns (r: seq<Row>)
    requires SortedCopy(sorted, before) && row !in before
    ensures SortedCopy(r, before + [row])
  {
    var p := InsertionPoint(sorted, row);
    InsertedSpans(sorted, p, row);
    InsertedRows(sorted, p, row, before);
    AppendedSpans(before, row);
    r := sorted[..p] + [row] + sorted[p..];
  }

  method SortByStart(rows: seq<Row>) returns (sorted: seq<Row>)
    requires Distinct(rows)
    ensures SortedCopy(sorted, rows) && SamePoints(Spans(sorted), Spans(rows))
  {
    sorted := [];
    var i := 0;
    while i < |rows|
      invariant 0 <= i <= |rows| && SortedCopy(sorted, rows[..i])
    {
      assert rows[..i + 1] == rows[..i] + [rows[i]];
      sorted := InsertRow(sorted, rows[i], rows[..i]);
      i := i + 1;
    }
    assert rows[..|rows|] == rows;
    SameRowsSamePoints(sorted, rows);
  }

  lemma AppendedSpans(rows: seq<Row>, row: Row)
    ensures Spans(rows + [row]) == Spans(rows) + [row.Span()]
    ensures TotalLength(Spans(rows + [row])) == TotalLength(Spans(rows)) + Length(row.Span())
  {
    assert Spans(rows + [row]) == Spans(rows) + [row.Span()];
    TotalLengthAppend(Spans(rows), row.Span());
  }

  lemma SpansOfParts(a: seq<Row>, b: seq<Row>)
    ensures Spans(a + b) == Spans(a) + Spans(b)
  {
    var l, r := Spans(a + b), Spans(a) + Spans(b);
    assert |l| == |r|;
    forall i | 0 <= i < |l| ensures l[i] == r[i] {
      assert (a + b)[i] == if i < |a| then a[i] else b[i - |a|];
    }
  }

  lemma SpansSplit(sorted: seq<Row>, p: nat, row: Row)
    requires p <= |sorted|
    ensures Spans(sorted) == Spans(sorted[..p]) + Spans(sorted[p..])
    ensures Spans(sorted[..p] + [row] + sorted[p..]) == Spans(sorted[..p]) + [row.Span()] + Spans(sorted[p..])
  {
    assert sorted == sorted[..p] + sorted[p..];
    SpansOfParts(sorted[..p], sorted[p..]);
    SpansOfParts(sorted[..p], [row]);
    SpansOfParts(sorted[..p] + [row], sorted[p..]);
    assert Spans([row]) == [row.Span()];
  }

  lemma InsertedSpans(sorted: seq<Row>, p: nat, row: Row)
    requires p <= |sorted| && StartsAscend(Spans(sorted))
    requires forall i :: 0 <= i < p ==> sorted[i].startMs <= row.startMs
    requires forall i :: p <= i < |sorted| ==> row.startMs < sorted[i].startMs
    ensures var r := sorted[..p] + [row] + sorted[p..];
            && StartsAscend(Spans(r))
            && TotalLength(Spans(r)) == TotalLength(Spans(sorted)) + Length(row.Span())
  {
    SpansSplit(sorted, p, row);
    TotalLengthInsert(Spans(sorted[..p]), row.Span(), Spans(sorted[p..]));
    InsertedAscends(Spans(sorted[..p]), row.Span(), Spans(sorted[p..]));
  }

  lemma InsertedAscends(a: seq<Interval>, x: Interval, b: seq<Interval>)
    requires StartsAscend(a + b)
    requires forall i :: 0 <= i < |a| ==> a[i].start <= x.start
    requires forall i :: 0 <= i < |b| ==> x.start < b[i].start
    ensures StartsAscend(a + [x] + b)
  {
    var s, r := a + b, a + [x] + b;
    forall i, j | 0 <= i < j < |r| ensures r[i].start <= r[j].start {
      assert i < |a| ==> r[i] == a[i] == s[i];
      assert j < |a| ==> r[j] == a[j] == s[j];
      assert i > |a| ==> r[i] == b[i - |a| - 1] == s[i - 1];
      assert j > |a| ==> r[j] == b[j - |a| - 1] == s[j - 1];
    }
  }

  lemma InsertedRows(sorted: seq<Row>, p: nat, row: Row, before: seq<Row>)
    requires p <= |sorted| && Distinct(sorted) && row !in before && AllIn(sorted, before) && AllIn(before, sorted)
    ensures var r := sorted[..p] + [row] + sorted[p..];
            Distinct(r) && AllIn(r, before + [row]) && AllIn(before + [row], r)
  {
    var r := sorted[..p] + [row] + sorted[p..];
    forall k | 0 <= k < |r| ensures r[k] in before + [row] {
      assert k != p ==> r[k] == sorted[if k > p then k - 1 else k];
    }
    forall k | 0 <= k < |before| + 1 ensures (before + [row])[k] in r {
      if k < |before| {
        assert before[k] in sorted && sorted == sorted[..p] + sorted[p..];
      }
    }
    forall i, j | 0 <= i < j < |r| ensures r[i] != r[j] {
      var i', j' := if i > p then i - 1 else i, if j > p then j - 1 else j;
      assert i != p ==> r[i] == sorted[i'] && sorted[i'] in before;
      assert j != p ==> r[j] == sorted[j'] && sorted[j'] in before;
    }
  }

  lemma SameRowsSamePoints(a: seq<Row>, b: seq<Row>)
    requires AllIn(a, b) && AllIn(b, a)
    ensures SamePoints(Spans(a), Spans(b))
  {
    forall t ensures Covers(Spans(a), t) <==> Covers(Spans(b), t) {
      if i :| 0 <= i < |a| && Has(Spans(a)[i], t) {
        assert a[i] in b;
        var j :| 0 <= j < |b| && b[j] == a[i];
        assert Has(Spans(b)[j], t);
      }
      if i :| 0 <= i < |b| && Has(Spans(b)[i], t) {
        assert b[i] in a;
        var j :| 0 <= j < |a| && a[j] == b[i];
        assert Has(Spans(a)[j], t);
      }
    }
  }

  /** One row gives way to what came before it. */
  method TrimRow(row: Row, priorEnd: int) returns (lost: int)
    requires row.durationMs == Some(row.endMs - row.startMs)
    modifies row
    ensures row.Span() == TrimOne(old(row.Span()), priorEnd) && lost == TrimLoss(old(row.Span()), priorEnd)
    ensures row.durationMs == Some(row.endMs - row.startMs)
  {
    lost := 0;
    if row.endMs <= priorEnd && row.startMs < priorEnd {
      lost := row.endMs - row.startMs;
      row.startMs := priorEnd;
      row.endMs := priorEnd;
      row.durationMs := Some(0);
    } else if row.startMs < priorEnd && row.endMs > priorEnd {
      lost := priorEnd - row.startMs;
      row.startMs := priorEnd;
      row.durationMs := Some(row.endMs - row.startMs);
    }
  }

  /** The rows up to position i hold what they get, the others what they had, each with its duration. */
  ghost predicate RowsHold(measured: seq<Row>, was: seq<Interval>, all: seq<Interval>, i: nat)
    requires |measured| == |was| == |all|
    reads measured
  {
    forall j :: 0 <= j < |measured| ==>
      && measured[j].Span() == (if j < i then all[j] else was[j])
      && measured[j].durationMs == Some(measured[j].endMs - measured[j].startMs)
  }

  /** How far the trim has come. */
  ghost predicate TrimmedUpTo(was: seq<Interval>, all: seq<Interval>, i: nat, priorEnd: int, lost: int)
    requires i <= |was| == |all|
  {
    all[i..] == Trim(was[i..], priorEnd) && lost + Trimmed(was[i..], priorEnd) == Trimmed(was, 0)
  }

  lemma TrimGoesOn(was: seq<Interval>, all: seq<Interval>, i: nat, priorEnd: int, lost: int)
    requires i < |was| == |all| && TrimmedUpTo(was, all, i, priorEnd, lost)
    ensures all[i] == TrimOne(was[i], priorEnd)
    ensures TrimmedUpTo(was, all, i + 1, Max(priorEnd, all[i].end), lost + TrimLoss(was[i], priorEnd))
  {
    TrimStep(was, all, i, priorEnd);
  }

  /** The row at position i gives way; the others are not touched. */
  method TrimNext(measured: seq<Row>, i: nat, priorEnd: int, ghost was: seq<Interval>, ghost all: seq<Interval>)
    returns (lost: int)
    requires Distinct(measured) && i < |measured| == |was| == |all|
    requires RowsHold(measured, was, all, i) && all[i] == TrimOne(was[i], priorEnd)
    modifies measured[i]
    ensures RowsHold(measured, was, all, i + 1) && lost == TrimLoss(was[i], priorEnd)
  {
    lost := TrimRow(measured[i], priorEnd);
  }

  /** The in-place trim: every row gives way to the rows that start before it. */
  method TrimOverlaps(measured: seq<Row>) returns (overlapTrimmedMs: int)
    requires Distinct(measured) && forall k :: 0 <= k < |measured| ==> IsMeasured(measured[k])
    modifies measured
    ensures Spans(measured) == Trim(old(Spans(measured)), 0)
    ensures overlapTrimmedMs == Trimmed(old(Spans(measured)), 0)
    ensures forall k :: 0 <= k < |measured| ==>
              measured[k].durationMs == Some(measured[k].endMs - measured[k].startMs)
  {
    ghost var was, all := Spans(measured), Trim(Spans(measured), 0);
    overlapTrimmedMs := 0;
    var priorEnd, i := 0, 0;
    assert was[0..] == was && all[0..] == all;
    while i < |measured|
      invariant 0 <= i <= |measured| && RowsHold(measured, was, all, i)
      invariant TrimmedUpTo(was, all, i, priorEnd, overlapTrimmedMs)
    {
      TrimGoesOn(was, all, i, priorEnd, overlapTrimmedMs);
      var lost := TrimNext(measured, i, priorEnd, was, all);
      overlapTrimmedMs := overlapTrimmedMs + lost;
      priorEnd := if priorEnd >= measured[i].endMs then priorEnd else measured[i].endMs;
      i := i + 1;
    }
    HoldsAll(measured, was, all);
  }

  lemma HoldsAll(measured: seq<Row>, was: seq<Interval>, all: seq<Interval>)
    requires |measured| == |was| == |all| && RowsHold(measured, was, all, |measured|)
    ensures Spans(measured) == all
  {
  }

  /** A window and the spans of its children at one moment. */
  datatype View = View(span: Interval, children: seq<Interval>)

  /** The children of the windows are rows of the timeline. */
  predicate ChildrenAmong(rows: seq<Row>, windows: seq<DetailWindow>) {
    forall i :: 0 <= i < |windows| ==> AllIn(windows[i].children, rows)
  }

  function ViewOf(window: DetailWindow): (view: View)
    reads window.children
  {
    View(window.span, Spans(window.children))
  }

  function Views(rows: seq<Row>, windows: seq<DetailWindow>): (views: seq<View>)
    requires ChildrenAmong(rows, windows)
    reads rows
    ensures |views| == |windows| && forall i :: 0 <= i < |windows| ==> views[i] == ViewOf(windows[i])
  {
    seq(|windows|, i requires 0 <= i < |windows| && AllIn(windows[i].children, rows) reads rows =>
      ViewOf(windows[i]))
  }

  /** The window with its children moved into it. */
  ghost predicate IsClamped(view: View, was: View) {
    && was.span.start <= was.span.end && view.span == was.span
    && view.children == ClampAll(was.span, was.children)
  }

  /** The time of the windows that have children. */
  function WindowMs(views: seq<View>): (ms: int) {
    if views == [] then 0
    else
      var last := views[|views| - 1];
      WindowMs(views[..|views| - 1]) + (if last.children == [] then 0 else Length(last.span))
  }

  /** The part of it that the children do not cover. */
  function FreeMs(views: seq<View>): (ms: int) {
    if views == [] then 0
    else
      var last := views[|views| - 1];
      FreeMs(views[..|views| - 1]) + (if last.children == [] then 0 else FreeIn(last))
  }

  function Shortened(durationMs: Option<int>, ms: int): (r: Option<int>) {
    match durationMs
    case None => None
    case Some(d) => Some(Min(d, ms))
  }

  ghost predicate WindowSound(window: DetailWindow) {
    && window.span.start <= window.span.end && Distinct(window.children)
    && forall k :: 0 <= k < |window.children| ==> window.children[k].kind == TickDerived
  }

  /** Every child is moved into its window; inside the window nothing changes. */
  method ClampChildren(window: DetailWindow)
    requires WindowSound(window)
    modifies window.children
    ensures IsClamped(ViewOf(window), old(ViewOf(window)))
    ensures forall row :: row in window.children ==>
              row.durationMs == Shortened(old(row.durationMs), row.endMs - row.startMs)
  {
    var i := 0;
    while i < |window.children|
      invariant 0 <= i <= |window.children|
      invariant forall j :: 0 <= j < i ==>
                  && window.children[j].Span() == ClampTo(window.span, old(window.children[j].Span()))
                  && window.children[j].durationMs ==
                       Shortened(old(window.children[j].durationMs), Length(window.children[j].Span()))
      invariant forall j :: i <= j < |window.children| ==>
                  && window.children[j].Span() == old(window.children[j].Span())
                  && window.children[j].durationMs == old(window.children[j].durationMs)
    {
      var row := window.children[i];
      row.startMs := Min(Max(row.startMs, window.span.start), window.span.end);
      row.endMs := Min(Max(row.endMs, row.startMs), window.span.end);
      row.durationMs := if row.durationMs == None then None
                        else Some(Min(row.durationMs.value, row.endMs - row.startMs));
      i := i + 1;
    }
  }

  /** The part of a window that its children do not cover. */
  function FreeIn(view: View): (ms: int) {
    Length(view.span) - CoveredCells(view.children, view.span.start, view.span.end)
  }

  /** Seen from the start of the window, the clamped children cover as much as the children did inside it. */
  lemma CoveredInWindow(view: View, was: View)
    requires IsClamped(view, was)
    ensures CoveredCells(Shift(view.children, -view.span.start), 0, Length(view.span)) == Length(was.span) - FreeIn(was)
  {
    ShiftCells(view.children, -view.span.start, view.span.start, view.span.end);
    ClampKeepsCoverage(was.span, was.children);
  }

  /** The gaps found from the start of the window are the gaps that the children had left in it. */
  lemma GapsOfWindow(view: View, was: View, gaps: seq<Interval>, dropped: seq<Interval>)
    requires IsClamped(view, was)
    requires ExactGaps(Shift(view.children, -view.span.start), Interval(0, Length(view.span)), gaps, dropped)
    ensures ExactGaps(was.children, was.span, Shift(gaps, was.span.start), Shift(dropped, was.span.start))
  {
    var start := was.span.start;
    ShiftExact(view.children, view.span, gaps, dropped);
    forall t | Has(was.span, t) ensures Covers(view.children, t) <==> Covers(was.children, t) {
      ClampCovers(was.span, was.children, t);
    }
    SameExact(view.children, was.children, was.span, Shift(gaps, start), Shift(dropped, start));
  }

  /**
   The free stretches of a window, measured from its start. Moved to the window they are exactly the maximal
   stretches longer than the floor that no child covered.
   */
  method FreeStretches(view: View, ghost was: View) returns (gaps: seq<Interval>, ghost dropped: seq<Interval>)
    requires IsClamped(view, was)
    ensures LongGaps(was.children, was.span, Shift(gaps, was.span.start))
    ensures ExactGaps(was.children, was.span, Shift(gaps, was.span.start), dropped)
    ensures TotalLength(gaps) + TotalLength(dropped) == FreeIn(was)
  {
    var covered, windowMs := Shift(view.children, -view.span.start), view.span.end - view.span.start;
    CoveredInWindow(view, was);
    ghost var short;
    gaps, short := GapsWithin(covered, windowMs);
    GapsOfWindow(view, was, gaps, short);
    dropped := Shift(short, was.span.start);
    ShiftKeepsLength(short, was.span.start);
  }

  lemma {:induction false} ShiftKeepsLength(s: seq<Interval>, delta: int)
    ensures TotalLength(Shift(s, delta)) == TotalLength(s)
  {
    if s != [] {
      ShiftKeepsLength(s[..|s| - 1], delta);
      assert Shift(s, delta)[..|s| - 1] == Shift(s[..|s| - 1], delta);
    }
  }

  /** One new row for each free stretch. */
  method NewRows(kind: Kind, indent: nat, gaps: seq<Interval>, offset: int) returns (rows: seq<Row>)
    ensures fresh(rows) && Distinct(rows) && |rows| == |gaps|
    ensures forall j :: 0 <= j < |rows| ==>
              && rows[j].kind == kind && rows[j].Span() == Shift(gaps, offset)[j]
              && rows[j].durationMs == Some(rows[j].endMs - rows[j].startMs)
  {
    rows := [];
    var i := 0;
    while i < |gaps|
      invariant 0 <= i <= |gaps| && |rows| == i && fresh(rows) && Distinct(rows)
      invariant forall j :: 0 <= j < i ==>
                  && rows[j].kind == kind && rows[j].Span() == Shift(gaps, offset)[j]
                  && rows[j].durationMs == Some(rows[j].endMs - rows[j].startMs)
    {
      var g := gaps[i];
      var row := new Row(kind, indent, offset + g.start, offset + g.end, Some(g.end - g.start));
      rows := rows + [row];
      i := i + 1;
    }
  }

  method SumOf(gaps: seq<Interval>) returns (ms: int)
    ensures ms == TotalLength(gaps)
  {
    ms := 0;
    var i := 0;
    while i < |gaps|
      invariant 0 <= i <= |gaps| && ms == TotalLength(gaps[..i])
    {
      assert gaps[..i + 1] == gaps[..i] + [gaps[i]];
      TotalLengthAppend(gaps[..i], gaps[i]);
      ms := ms + (gaps[i].end - gaps[i].start);
      i := i + 1;
    }
    assert gaps[..|gaps|] == gaps;
  }

  /** The rows of the free stretches, and their sum. */
  method RowsFor(kind: Kind, indent: nat, gaps: seq<Interval>, offset: int) returns (rows: seq<Row>, ms: int)
    ensures fresh(rows) && Distinct(rows)
    ensures forall k :: 0 <= k < |rows| ==>
              rows[k].kind == kind && rows[k].durationMs == Some(rows[k].endMs - rows[k].startMs)
    ensures Spans(rows) == Shift(gaps, offset)
    ensures ms == TotalLength(Spans(rows)) == TotalLength(gaps)
  {
    rows := NewRows(kind, indent, gaps, offset);
    ms := SumOf(gaps);
    assert Spans(rows) == Shift(gaps, offset);
    ShiftKeepsLength(gaps, offset);
  }

  /** The window's rows are its free stretches longer than the floor. */
  ghost predicate DescribesWindow(was: View, shown: seq<Interval>, gapMs: int, dropped: seq<Interval>) {
    && ExactGaps(was.children, was.span, shown, dropped)
    && gapMs == TotalLength(shown)
    && gapMs + TotalLength(dropped) == FreeIn(was)
  }

  /** The free stretches of one window become rows. */
  method DescribeWindow(window: DetailWindow)
    returns (rows: seq<Row>, gapMs: int, ghost dropped: seq<Interval>)
    requires WindowSound(window)
    modifies window.children
    ensures IsClamped(ViewOf(window), old(ViewOf(window)))
    ensures fresh(rows) && Distinct(rows) && forall k :: 0 <= k < |rows| ==> rows[k].kind == NoDetail
    ensures DescribesWindow(old(ViewOf(window)), Spans(rows), gapMs, dropped)
  {
    ghost var was := ViewOf(window);
    ClampChildren(window);
    var gaps;
    gaps, dropped := FreeStretches(ViewOf(window), was);
    rows, gapMs := RowsFor(NoDetail, 2, gaps, window.span.start);
  }

  lemma {:induction false} PositiveTotal(s: seq<Interval>)
    requires Separated(s)
    ensures TotalLength(s) >= 0
  {
    if s != [] { PositiveTotal(s[..|s| - 1]); }
  }

  ghost predicate ShareNoRow(a: DetailWindow, b: DetailWindow) {
    forall k, l :: 0 <= k < |a.children| && 0 <= l < |b.children| ==> a.children[k] != b.children[l]
  }

  ghost predicate WindowsSound(windows: seq<DetailWindow>) {
    && (forall i :: 0 <= i < |windows| ==> WindowSound(windows[i]))
    && (forall i, j :: 0 <= i < |windows| && 0 <= j < |windows| && i != j ==> ShareNoRow(windows[i], windows[j]))
  }

  lemma {:induction false} TotalLengthConcat(a: seq<Interval>, b: seq<Interval>)
    ensures TotalLength(a + b) == TotalLength(a) + TotalLength(b)
  {
    if b == [] {
      assert a + b == a;
    } else {
      TotalLengthConcat(a, b[..|b| - 1]);
      assert a + b == (a + b[..|b| - 1]) + [b[|b| - 1]];
      TotalLengthAppend(a + b[..|b| - 1], b[|b| - 1]);
    }
  }

  /** What the parts hold, one after the other. */
  ghost function Flat(parts: seq<seq<Interval>>): (r: seq<Interval>) {
    if parts == [] then [] else Flat(parts[..|parts| - 1]) + parts[|parts| - 1]
  }

  lemma FlatAppend(parts: seq<seq<Interval>>, part: seq<Interval>)
    ensures Flat(parts + [part]) == Flat(parts) + part
    ensures TotalLength(Flat(parts + [part])) == TotalLength(Flat(parts)) + TotalLength(part)
  {
    assert (parts + [part])[..|parts|] == parts;
    TotalLengthConcat(Flat(parts), part);
  }

  /** A window without children is not looked at; any other is shown exactly. */
  ghost predicate ShownExactly(view: View, shown: seq<Interval>, dropped: seq<Interval>) {
    if view.children == [] then shown == [] && dropped == []
    else ExactGaps(view.children, view.span, shown, dropped)
  }

  ghost predicate AllShown(views: seq<View>, shown: seq<seq<Interval>>, dropped: seq<seq<Interval>>) {
    && |shown| == |views| == |dropped|
    && forall i :: 0 <= i < |views| ==> ShownExactly(views[i], shown[i], dropped[i])
  }

  /**
   The detail rows are, window by window, exactly the stretches longer than the floor that no child covers, and
   their sum is what the children leave free in their windows less the stretches that are not longer.
   */
  ghost predicate Describes(views: seq<View>, detail: seq<Interval>, detailGapMs: int, windowTotalMs: int,
                            shown: seq<seq<Interval>>, dropped: seq<seq<Interval>>)
  {
    && AllShown(views, shown, dropped)
    && detail == Flat(shown)
    && windowTotalMs == WindowMs(views)
    && detailGapMs == TotalLength(detail)
    && detailGapMs + TotalLength(Flat(dropped)) == FreeMs(views)
  }

  lemma DescribesNone(views: seq<View>)
    ensures Describes(views[..0], [], 0, 0, [], [])
  {
  }

  lemma ShownOneMore(views: seq<View>, view: View, shown: seq<seq<Interval>>, dropped: seq<seq<Interval>>,
                     more: seq<Interval>, short: seq<Interval>)
    requires AllShown(views, shown, dropped) && ShownExactly(view, more, short)
    ensures AllShown(views + [view], shown + [more], dropped + [short])
  {
  }

  lemma SumsOneMore(views: seq<View>, view: View)
    ensures WindowMs(views + [view]) == WindowMs(views) + (if view.children == [] then 0 else Length(view.span))
    ensures FreeMs(views + [view]) == FreeMs(views) + (if view.children == [] then 0 else FreeIn(view))
  {
    assert (views + [view])[..|views|] == views;
  }

  /** A window without children adds nothing; any other adds its rows and its length. */
  lemma DescribesOneMore(views: seq<View>, view: View, detail: seq<Interval>, ms: int, windowMs: int,
                         shown: seq<seq<Interval>>, dropped: seq<seq<Interval>>,
                         more: seq<Interval>, gapMs: int, short: seq<Interval>)
    requires Describes(views, detail, ms, windowMs, shown, dropped)
    requires if view.children == [] then more == [] && short == [] && gapMs == 0
             else DescribesWindow(view, more, gapMs, short)
    ensures Describes(views + [view], detail + more, ms + gapMs,
                      windowMs + (if view.children == [] then 0 else Length(view.span)),
                      shown + [more], dropped + [short])
  {
    ShownOneMore(views, view, shown, dropped, more, short);
    SumsOneMore(views, view);
    FlatAppend(shown, more);
    FlatAppend(dropped, short);
  }

  /** The windows before the i-th have their children moved into them, the others are as they were. */
  ghost predicate ClampedUpTo(built: seq<Row>, windows: seq<DetailWindow>, views: seq<View>, i: nat)
    requires |views| == |windows| && ChildrenAmong(built, windows)
    reads built
  {
    && (forall j :: 0 <= j < |windows| && j < i ==> IsClamped(ViewOf(windows[j]), views[j]))
    && (forall j :: i <= j < |windows| ==> ViewOf(windows[j]) == views[j])
  }

  lemma NothingToClamp(built: seq<Row>, windows: seq<DetailWindow>, views: seq<View>, i: nat)
    requires i < |windows| == |views| && ChildrenAmong(built, windows) && WindowsSound(windows)
    requires ClampedUpTo(built, windows, views, i) && windows[i].children == []
    ensures ClampedUpTo(built, windows, views, i + 1)
  {
    assert IsClamped(ViewOf(windows[i]), views[i]);
  }

  /** One window is described; the other windows and the rows so far stay as they are. */
  method DescribeNext(built: seq<Row>, windows: seq<DetailWindow>, i: nat, before: seq<Row>, ghost views: seq<View>)
    returns (more: seq<Row>, gapMs: int, ghost short: seq<Interval>)
    requires i < |windows| == |views| && WindowsSound(windows) && ChildrenAmong(built, windows)
    requires ClampedUpTo(built, windows, views, i) && forall k :: 0 <= k < |before| ==> before[k].kind == NoDetail
    modifies windows[i].children
    ensures ClampedUpTo(built, windows, views, i + 1)
    ensures fresh(more) && forall k :: 0 <= k < |more| ==> more[k].kind == NoDetail
    ensures Spans(before + more) == old(Spans(before)) + Spans(more)
    ensures DescribesWindow(views[i], Spans(more), gapMs, short)
  {
    more, gapMs, short := DescribeWindow(windows[i]);
    forall j | 0 <= j < |windows| && j != i ensures ViewOf(windows[j]) == old(ViewOf(windows[j])) {
      assert ShareNoRow(windows[i], windows[j]);
    }
    SpansOfParts(before, more);
  }

  /** One window's rows are added. */
  method AddWindow(built: seq<Row>, windows: seq<DetailWindow>, i: nat, before: seq<Row>, beforeMs: int,
                   ghost views: seq<View>, ghost windowMs: int,
                   ghost shown: seq<seq<Interval>>, ghost dropped: seq<seq<Interval>>)
    returns (more: seq<Row>, gapMs: int, ghost short: seq<Interval>)
    requires i < |windows| == |views| && WindowsSound(windows) && ChildrenAmong(built, windows)
    requires ClampedUpTo(built, windows, views, i) && windows[i].children != []
    requires forall k :: 0 <= k < |before| ==> before[k].kind == NoDetail
    requires Describes(views[..i], Spans(before), beforeMs, windowMs, shown, dropped)
    modifies windows[i].children
    ensures ClampedUpTo(built, windows, views, i + 1)
    ensures fresh(more) && forall k :: 0 <= k < |more| ==> more[k].kind == NoDetail
    ensures Describes(views[..i + 1], Spans(before + more), beforeMs + gapMs, windowMs + Length(views[i].span),
                      shown + [Spans(more)], dropped + [short])
  {
    ghost var was := Spans(before);
    more, gapMs, short := DescribeNext(built, windows, i, before, views);
    DescribesOneMore(views[..i], views[i], was, beforeMs, windowMs, shown, dropped, Spans(more), gapMs, short);
    assert views[..i + 1] == views[..i] + [views[i]];
  }

  /** A window without children is passed over. */
  lemma SkipWindow(built: seq<Row>, windows: seq<DetailWindow>, i: nat, views: seq<View>, detail: seq<Interval>,
                   ms: int, windowMs: int, shown: seq<seq<Interval>>, dropped: seq<seq<Interval>>)
    requires i < |windows| == |views| && WindowsSound(windows) && ChildrenAmong(built, windows)
    requires ClampedUpTo(built, windows, views, i) && windows[i].children == []
    requires Describes(views[..i], detail, ms, windowMs, shown, dropped)
    ensures ClampedUpTo(built, windows, views, i + 1)
    ensures Describes(views[..i + 1], detail, ms, windowMs, shown + [[]], dropped + [[]])
  {
    NothingToClamp(built, windows, views, i);
    DescribesOneMore(views[..i], views[i], detail, ms, windowMs, shown, dropped, [], 0, []);
    assert views[..i + 1] == views[..i] + [views[i]] && detail + [] == detail;
  }

  method DescribeWindows(built: seq<Row>, windows: seq<DetailWindow>)
    returns (rows: seq<Row>, detailGapMs: int, windowTotalMs: int,
             ghost shown: seq<seq<Interval>>, ghost dropped: seq<seq<Interval>>)
    requires WindowsSound(windows) && ChildrenAmong(built, windows)
    modifies set row | row in built && row.kind == TickDerived
    ensures fresh(rows) && forall k :: 0 <= k < |rows| ==> rows[k].kind == NoDetail
    ensures forall i :: 0 <= i < |windows| ==> IsClamped(ViewOf(windows[i]), old(Views(built, windows))[i])
    ensures Describes(old(Views(built, windows)), Spans(rows), detailGapMs, windowTotalMs, shown, dropped)
  {
    ghost var views := Views(built, windows);
    rows, detailGapMs, windowTotalMs, shown, dropped := [], 0, 0, [], [];
    var i := 0;
    DescribesNone(views);
    while i < |windows|
      invariant 0 <= i <= |windows|
      invariant fresh(rows) && forall k :: 0 <= k < |rows| ==> rows[k].kind == NoDetail
      invariant ClampedUpTo(built, windows, views, i)
      invariant Describes(views[..i], Spans(rows), detailGapMs, windowTotalMs, shown, dropped)
    {
      if |windows[i].children| == 0 {
        SkipWindow(built, windows, i, views, Spans(rows), detailGapMs, windowTotalMs, shown, dropped);
        shown, dropped := shown + [[]], dropped + [[]];
      } else {
        var more, gapMs;
        ghost var short;
        more, gapMs, short := AddWindow(built, windows, i, rows, detailGapMs, views, windowTotalMs, shown, dropped);
        windowTotalMs := windowTotalMs + (windows[i].span.end - windows[i].span.start);
        detailGapMs := detailGapMs + gapMs;
        rows := rows + more;
        shown, dropped := shown + [Spans(more)], dropped + [short];
      }
      i := i + 1;
    }
    assert views[..|windows|] == views;
  }

  /** Rows whose interiors do not meet. */
  ghost predicate ApartInTime(rows: seq<Row>)
    reads rows
  {
    forall i, j :: 0 <= i < j < |rows| ==> ApartPair(rows[i], rows[j])
  }

  predicate IsTrimmed(row: Row)
    reads row
  {
    0 <= row.startMs <= row.endMs && row.durationMs == Some(row.endMs - row.startMs)
  }

  predicate ApartPair(x: Row, y: Row)
    reads x, y
  {
    x.endMs <= y.startMs || y.endMs <= x.startMs
  }

  /** Trimmed rows and no common time. */
  ghost predicate Tidy(rows: seq<Row>)
    reads rows
  {
    ApartInTime(rows) && forall k :: 0 <= k < |rows| ==> IsTrimmed(rows[k])
  }

  lemma DisjointPair(measured: seq<Row>, x: Row, y: Row)
    requires Disjoint(Spans(measured)) && x in measured && y in measured && x != y
    ensures ApartPair(x, y)
  {
    var a :| 0 <= a < |measured| && measured[a] == x;
    var b :| 0 <= b < |measured| && measured[b] == y;
    assert a < b ==> Spans(measured)[a].end <= Spans(measured)[b].start;
    assert b < a ==> Spans(measured)[b].end <= Spans(measured)[a].start;
  }

  lemma DisjointRows(measured: seq<Row>, rows: seq<Row>)
    requires Disjoint(Spans(measured)) && Distinct(rows) && AllIn(rows, measured)
    ensures ApartInTime(rows)
  {
    forall i, j | 0 <= i < j < |rows| ensures ApartPair(rows[i], rows[j]) {
      DisjointPair(measured, rows[i], rows[j]);
    }
  }

  lemma SpansAreTrimmed(measured: seq<Row>, spans: seq<Interval>)
    requires Spans(measured) == spans
    requires forall k :: 0 <= k < |spans| ==> 0 <= spans[k].start <= spans[k].end
    requires forall k :: 0 <= k < |measured| ==>
               measured[k].durationMs == Some(measured[k].endMs - measured[k].startMs)
    ensures forall k :: 0 <= k < |measured| ==> IsTrimmed(measured[k])
  {
    forall k | 0 <= k < |measured| ensures IsTrimmed(measured[k]) {
      assert measured[k].Span() == spans[k];
    }
  }

  lemma TrimIsTidy(sorted: seq<Interval>)
    requires forall i :: 0 <= i < |sorted| ==> sorted[i].start <= sorted[i].end
    ensures var t := Trim(sorted, 0);
            Disjoint(t) && forall k :: 0 <= k < |t| ==> 0 <= t[k].start <= t[k].end
  {
    TrimSeparates(sorted, 0);
  }

  lemma RowsAreTidy(measured: seq<Row>, rows: seq<Row>, spans: seq<Interval>)
    requires Spans(measured) == spans && Distinct(rows) && AllIn(rows, measured)
    requires Disjoint(spans) && forall k :: 0 <= k < |spans| ==> 0 <= spans[k].start
    requires forall k :: 0 <= k < |measured| ==>
               measured[k].durationMs == Some(measured[k].endMs - measured[k].startMs)
    ensures Tidy(rows)
  {
    SpansAreTrimmed(measured, spans);
    DisjointRows(measured, rows);
    forall k | 0 <= k < |rows| ensures IsTrimmed(rows[k]) { assert rows[k] in measured; }
  }

  ghost predicate OverlapIs(was: seq<Interval>, ms: int) {
    forall hi: nat :: (forall i :: 0 <= i < |was| ==> was[i].end <= hi) ==>
      ms == TotalLength(was) - CoveredCells(was, 0, hi)
  }

  /** The measured rows in the order of their starts, and the overlap that trimming them will find. */
  method SortMeasured(rows: seq<Row>) returns (measured: seq<Row>)
    requires Distinct(rows) && forall k :: 0 <= k < |rows| ==> IsMeasured(rows[k])
    ensures Distinct(measured) && AllIn(rows, measured)
    ensures forall k :: 0 <= k < |measured| ==> measured[k] in rows && IsMeasured(measured[k])
    ensures StartsAscend(Spans(measured)) && SamePoints(Spans(measured), Spans(rows))
    ensures OverlapIs(Spans(rows), Trimmed(Spans(measured), 0))
    ensures forall i :: 0 <= i < |measured| ==> Spans(measured)[i].start <= Spans(measured)[i].end
  {
    measured := SortByStart(rows);
    SortedAreMeasured(measured, rows);
    OverlapOf(Spans(measured), Spans(rows), Trimmed(Spans(measured), 0));
  }

  /** Trimming measured rows leaves them apart, at or after zero, and counts what they lose. */
  method TrimMeasured(rows: seq<Row>) returns (measured: seq<Row>, overlapTrimmedMs: int, ghost sorted: seq<Interval>)
    requires Distinct(rows) && forall k :: 0 <= k < |rows| ==> IsMeasured(rows[k])
    modifies rows
    ensures Tidy(rows) && Spans(measured) == Trim(sorted, 0)
    ensures StartsAscend(sorted) && SamePoints(sorted, old(Spans(rows)))
    ensures OverlapIs(old(Spans(rows)), overlapTrimmedMs)
  {
    measured := SortMeasured(rows);
    sorted := Spans(measured);
    TrimIsTidy(sorted);
    overlapTrimmedMs := TrimOverlaps(measured);
    RowsAreTidy(measured, rows, Trim(sorted, 0));
  }

  lemma SortedAreMeasured(measured: seq<Row>, rows: seq<Row>)
    requires AllIn(measured, rows) && forall k :: 0 <= k < |rows| ==> IsMeasured(rows[k])
    ensures forall k :: 0 <= k < |measured| ==> measured[k] in rows && IsMeasured(measured[k])
    ensures forall i :: 0 <= i < |measured| ==> Spans(measured)[i].start < Spans(measured)[i].end
  {
    forall k | 0 <= k < |measured| ensures measured[k] in rows && IsMeasured(measured[k]) {
      var j :| 0 <= j < |rows| && rows[j] == measured[k];
    }
  }

  lemma MeasuredAreMeasured(built: seq<Row>)
    requires forall k :: 0 <= k < |built| ==> built[k].kind == Measured ==> IsMeasured(built[k])
    ensures forall k :: 0 <= k < |MeasuredRows(built)| ==> IsMeasured(MeasuredRows(built)[k])
  {
    forall k | 0 <= k < |MeasuredRows(built)| ensures IsMeasured(MeasuredRows(built)[k]) {
      assert MeasuredRows(built)[k] in built;
    }
  }

  lemma OverlapOf(sorted: seq<Interval>, was: seq<Interval>, ms: int)
    requires StartsAscend(sorted) && SamePoints(sorted, was) && TotalLength(sorted) == TotalLength(was)
    requires forall i :: 0 <= i < |sorted| ==> sorted[i].start < sorted[i].end
    requires ms == Trimmed(sorted, 0)
    ensures OverlapIs(was, ms)
  {
    forall hi: nat | forall i :: 0 <= i < |was| ==> was[i].end <= hi
      ensures ms == TotalLength(was) - CoveredCells(was, 0, hi)
    {
      forall i | 0 <= i < |sorted| ensures sorted[i].end <= hi {
        assert Has(sorted[i], sorted[i].end - 1) && Covers(sorted, sorted[i].end - 1);
        var j :| 0 <= j < |was| && Has(was[j], sorted[i].end - 1);
      }
      TrimmedMeasure(sorted, hi);
      SameCells(sorted, was, 0, hi);
    }
  }

  /** The part is that many hundredths of the whole; of nothing it is none. */
  predicate IsShare(pct: real, part: int, whole: int) {
    if whole > 0 then pct * whole as real == 100.0 * part as real else pct == 0.0
  }

  lemma ShareOf(part: real, whole: real)
    requires whole > 0.0
    ensures part / whole * 100.0 * whole == 100.0 * part
  {
    assert part / whole * whole == part;
  }

  function Percent(part: int, whole: int): (pct: real)
    ensures 0 <= part <= whole ==> 0.0 <= pct <= 100.0
    ensures IsShare(pct, part, whole)
  {
    ghost var _ := if whole > 0 then (ShareOf(part as real, whole as real); 0) else 0;
    if whole > 0 then part as real / whole as real * 100.0 else 0.0
  }

  /** The figures of the report; no share exceeds the whole. */
  function Report(totalMs: int, attributedMs: int, overlapTrimmedMs: int, detailGapMs: int, windowTotalMs: int)
    : (report: Attribution)
    requires 0 <= attributedMs <= totalMs && 0 <= detailGapMs <= windowTotalMs
    ensures report.totalMs == totalMs == report.attributedMs + report.residualMs
    ensures 0.0 <= report.residualPct <= 100.0 && 0.0 <= report.detailGapPct <= 100.0
    ensures IsShare(report.residualPct, report.residualMs, totalMs)
    ensures IsShare(report.detailGapPct, detailGapMs, windowTotalMs)
  {
    var residualMs := Max(0, totalMs - attributedMs);
    Attribution(totalMs, attributedMs, residualMs, Percent(residualMs, totalMs),
                overlapTrimmedMs, detailGapMs, Percent(detailGapMs, windowTotalMs))
  }

  /** The rows as they are pushed while the events are read. */
  ghost predicate WellBuilt(rows: seq<Row>, windows: seq<DetailWindow>)
    reads rows
  {
    && Distinct(rows) && WindowsSound(windows) && ChildrenAmong(rows, windows)
    && (forall k :: 0 <= k < |rows| ==> rows[k].kind == Measured ==> IsMeasured(rows[k]))
  }

  /** The clipped spans cover what the measured rows cover inside the timeline. */
  lemma CoveredInside(sorted: seq<Interval>, totalMs: nat, covered: seq<Interval>)
    requires StartsAscend(sorted) && covered == LongerThan(Clip(Trim(sorted, 0), totalMs), 0)
    ensures CoveredCells(covered, 0, totalMs) == CoveredCells(sorted, 0, totalMs)
    ensures forall t :: Has(Interval(0, totalMs), t) ==> (Covers(covered, t) <==> Covers(sorted, t))
  {
    forall t ensures Covers(covered, t) <==> 0 <= t < totalMs && Covers(sorted, t) {
      ClipCovers(Trim(sorted, 0), totalMs, t);
      TrimCovers(sorted, 0, t);
    }
    SameCells(covered, sorted, 0, totalMs);
  }

  lemma ShiftByNothing(s: seq<Interval>)
    ensures Shift(s, 0) == s
  {
  }

  /** The residual rows and the two sums over the measured rows. */
  method AttributeMeasured(measured: seq<Row>, totalMs: nat, ghost sorted: seq<Interval>)
    returns (residual: seq<Row>, attributedMs: int, ghost dropped: seq<Interval>)
    requires StartsAscend(sorted) && Spans(measured) == Trim(sorted, 0)
    ensures fresh(residual) && forall k :: 0 <= k < |residual| ==> residual[k].kind == Residual
    ensures attributedMs == CoveredCells(sorted, 0, totalMs) <= totalMs
    ensures ExactGaps(sorted, Interval(0, totalMs), Spans(residual), dropped)
    ensures TotalLength(Spans(residual)) + TotalLength(dropped) == totalMs - attributedMs
  {
    var covered := LongerThan(Clip(Spans(measured), totalMs), 0);
    CoveredInside(sorted, totalMs, covered);
    var merged := MergeIntervals(covered);
    attributedMs := TotalLength(merged);
    AttributedMeasure(sorted, totalMs, merged);
    var gaps, residualMs;
    gaps, dropped := GapsWithin(covered, totalMs);
    SameExact(covered, sorted, Interval(0, totalMs), gaps, dropped);
    residual, residualMs := RowsFor(Residual, 1, gaps, 0);
    ShiftByNothing(gaps);
  }

  /** Children are tick-derived, so trimming the measured rows leaves the windows as they were. */
  method TrimBesideWindows(built: seq<Row>, windows: seq<DetailWindow>)
    returns (measured: seq<Row>, overlapTrimmedMs: int, ghost sorted: seq<Interval>)
    requires WellBuilt(built, windows)
    modifies set row | row in built && row.kind == Measured
    ensures Tidy(MeasuredRows(built))
    ensures StartsAscend(sorted) && SamePoints(sorted, old(Spans(MeasuredRows(built))))
    ensures Spans(measured) == Trim(sorted, 0)
    ensures OverlapIs(old(Spans(MeasuredRows(built))), overlapTrimmedMs)
    ensures Views(built, windows) == old(Views(built, windows))
  {
    MeasuredAreMeasured(built);
    measured, overlapTrimmedMs, sorted := TrimMeasured(MeasuredRows(built));
    forall i | 0 <= i < |windows| ensures ViewOf(windows[i]) == old(ViewOf(windows[i])) {
      assert Spans(windows[i].children) == old(Spans(windows[i].children));
    }
  }

  /**
   The attributed time is the measure of the measured spans, the overlap is what their lengths count more than
   once, the residual rows are exactly the stretches longer than the floor that no measured row covers, and with
   the stretches left out they add up to the remaining time.
   */
  ghost predicate AccountsFor(was: seq<Interval>, totalMs: nat, residual: seq<Interval>,
                              attributedMs: int, overlapTrimmedMs: int, dropped: seq<Interval>)
  {
    && attributedMs == CoveredCells(was, 0, totalMs) <= totalMs
    && OverlapIs(was, overlapTrimmedMs)
    && ExactGaps(was, Interval(0, totalMs), residual, dropped)
    && TotalLength(residual) + TotalLength(dropped) == totalMs - attributedMs
  }

  /** Everything that the measured rows decide, in terms of the rows as they were pushed. */
  method AccountForMeasured(built: seq<Row>, windows: seq<DetailWindow>, totalMs: nat)
    returns (residual: seq<Row>, attributedMs: int, overlapTrimmedMs: int, ghost dropped: seq<Interval>)
    requires WellBuilt(built, windows)
    modifies set row | row in built && row.kind == Measured
    ensures fresh(residual) && forall k :: 0 <= k < |residual| ==> residual[k].kind == Residual
    ensures Tidy(MeasuredRows(built))
    ensures AccountsFor(old(Spans(MeasuredRows(built))), totalMs, Spans(residual),
                        attributedMs, overlapTrimmedMs, dropped)
    ensures Views(built, windows) == old(Views(built, windows))
  {
    ghost var was := Spans(MeasuredRows(built));
    var measured;
    ghost var sorted;
    measured, overlapTrimmedMs, sorted := TrimBesideWindows(built, windows);
    residual, attributedMs, dropped := AttributeMeasured(measured, totalMs, sorted);
    SameCells(sorted, was, 0, totalMs);
    SameExact(sorted, was, Interval(0, totalMs), Spans(residual), dropped);
  }

  /** Describing the windows touches neither the measured rows nor the residual ones. */
  method DescribeBeside(built: seq<Row>, windows: seq<DetailWindow>, left: seq<Row>)
    returns (rows: seq<Row>, detailGapMs: int, windowTotalMs: int,
             ghost shown: seq<seq<Interval>>, ghost undetailed: seq<seq<Interval>>)
    requires WindowsSound(windows) && ChildrenAmong(built, windows) && Tidy(MeasuredRows(built))
    requires forall k :: 0 <= k < |left| ==> left[k].kind == Residual
    modifies set row | row in built && row.kind == TickDerived
    ensures fresh(rows) && forall k :: 0 <= k < |rows| ==> rows[k].kind == NoDetail
    ensures Tidy(MeasuredRows(built)) && Spans(left) == old(Spans(left))
    ensures forall i :: 0 <= i < |windows| ==> IsClamped(ViewOf(windows[i]), old(Views(built, windows))[i])
    ensures Describes(old(Views(built, windows)), Spans(rows), detailGapMs, windowTotalMs, shown, undetailed)
  {
    rows, detailGapMs, windowTotalMs, shown, undetailed := DescribeWindows(built, windows);
  }

  lemma {:induction false} FreeWithinWindows(views: seq<View>)
    requires forall i :: 0 <= i < |views| ==> views[i].span.start <= views[i].span.end
    ensures 0 <= FreeMs(views) <= WindowMs(views)
  {
    if views != [] {
      var last := views[|views| - 1];
      FreeWithinWindows(views[..|views| - 1]);
      CellsAtMost(last.children, last.span.start, last.span.end);
    }
  }

  lemma {:induction false} ShortOnesAreShort(short: seq<Interval>)
    requires forall v :: v in short ==> 0 < Length(v) <= 2
    ensures 0 <= TotalLength(short) <= 2 * |short|
  {
    if short != [] {
      assert short == short[..|short| - 1] + [short[|short| - 1]];
      ShortOnesAreShort(short[..|short| - 1]);
    }
  }

  /** The rows fall short of the free time by at most the floor for every stretch left out. */
  lemma ExactGapsAreClose(covered: seq<Interval>, window: Interval, gaps: seq<Interval>, dropped: seq<Interval>)
    requires ExactGaps(covered, window, gaps, dropped)
    ensures 0 <= TotalLength(gaps)
    ensures 0 <= TotalLength(dropped) <= 2 * |dropped|
  {
    PositiveTotal(gaps);
    ShortOnesAreShort(dropped);
  }

  /** Over all windows too the detail falls short by at most the floor for every stretch left out. */
  lemma {:induction false} DetailIsClose(views: seq<View>, shown: seq<seq<Interval>>, dropped: seq<seq<Interval>>)
    requires AllShown(views, shown, dropped)
    ensures 0 <= TotalLength(Flat(shown))
    ensures 0 <= TotalLength(Flat(dropped)) <= 2 * |Flat(dropped)|
  {
    if views != [] {
      var n := |views| - 1;
      DetailIsClose(views[..n], shown[..n], dropped[..n]);
      TotalLengthConcat(Flat(shown[..n]), shown[n]);
      TotalLengthConcat(Flat(dropped[..n]), dropped[n]);
      if views[n].children != [] {
        ExactGapsAreClose(views[n].children, views[n].span, shown[n], dropped[n]);
      }
    }
  }

  /** What is shown and left out of a window, given only what its children cover. */
  lemma GapsAreDetermined(covered: seq<Interval>, window: Interval, gaps: seq<Interval>, dropped: seq<Interval>,
                          gaps': seq<Interval>, dropped': seq<Interval>)
    requires ExactGaps(covered, window, gaps, dropped) && ExactGaps(covered, window, gaps', dropped')
    ensures gaps == gaps' && dropped == dropped'
  {
    SameMembersSamePoints(gaps, gaps');
    SeparatedIsCanonical(gaps, gaps');
    SameMembersSamePoints(dropped, dropped');
    SeparatedIsCanonical(dropped, dropped');
  }

  lemma SameMembersSamePoints(a: seq<Interval>, b: seq<Interval>)
    requires forall v :: v in a <==> v in b
    ensures SamePoints(a, b)
  {
    forall t ensures Covers(a, t) <==> Covers(b, t) {
      if i :| 0 <= i < |a| && Has(a[i], t) {
        assert a[i] in b;
      }
      if i :| 0 <= i < |b| && Has(b[i], t) {
        assert b[i] in a;
      }
    }
  }

  /**
   The account of a transfer's time, in terms of the rows as they were pushed: the attributed time is the measure
   of the measured spans, the residual is the rest of the timeline and its rows are exactly its gaps above the
   floor, the overlap is what the lengths count more than once, and the detail rows are exactly the gaps above the
   floor that the children leave in their windows.
   */
  method AttributeTime(built: seq<Row>, windows: seq<DetailWindow>, totalMs: nat)
    returns (rows: seq<Row>, report: Attribution, ghost residual: seq<Row>, ghost detail: seq<Row>,
             ghost dropped: seq<Interval>, ghost shown: seq<seq<Interval>>, ghost undetailed: seq<seq<Interval>>)
    requires WellBuilt(built, windows)
    modifies built
    ensures rows == built + residual + detail && fresh(residual) && fresh(detail)
    ensures forall k :: 0 <= k < |residual| ==> residual[k].kind == Residual
    ensures forall k :: 0 <= k < |detail| ==> detail[k].kind == NoDetail
    ensures Tidy(MeasuredRows(built))
    ensures report.totalMs == totalMs == report.attributedMs + report.residualMs
    ensures AccountsFor(old(Spans(MeasuredRows(built))), totalMs, Spans(residual),
                        report.attributedMs, report.overlapTrimmedMs, dropped)
    ensures forall i :: 0 <= i < |windows| ==> IsClamped(ViewOf(windows[i]), old(Views(built, windows))[i])
    ensures Describes(old(Views(built, windows)), Spans(detail), report.detailGapMs,
                      WindowMs(old(Views(built, windows))), shown, undetailed)
    ensures 0.0 <= report.residualPct <= 100.0 && 0.0 <= report.detailGapPct <= 100.0
    ensures IsShare(report.residualPct, report.residualMs, report.totalMs)
    ensures IsShare(report.detailGapPct, report.detailGapMs, WindowMs(old(Views(built, windows))))
  {
    ghost var views := Views(built, windows);
    var left, attributedMs, overlapTrimmedMs;
    left, attributedMs, overlapTrimmedMs, dropped := AccountForMeasured(built, windows, totalMs);
    var unexplained, detailGapMs, windowTotalMs;
    unexplained, detailGapMs, windowTotalMs, shown, undetailed := DescribeBeside(built, windows, left);
    FreeWithinWindows(views);
    DetailIsClose(views, shown, undetailed);
    report := Report(totalMs, attributedMs, overlapTrimmedMs, detailGapMs, windowTotalMs);
    rows := built + left + unexplained;
    residual, detail := left, unexplained;
  }
}
