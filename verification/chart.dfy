/** The integer geometry of the reviews dashboard: one diverging horizontal bar per category
    (Negative to the left of zero, Positive to the right), a symmetric x axis rounded up to a
    multiple of ten, ticks every ten, each labelled with its distance from zero. Only the
    positions are modelled; nothing is drawn. */
module Chart {
  import opened Wrappers
  import opened Sentiment
  import Decimal

  /** Spacing of the x-axis ticks, and the unit the axis range is rounded up to. */
  const TickStep: int := 10

  /** The horizontal extent [lo, hi] of one bar segment (left edge, left edge + width). */
  datatype Interval = Interval(lo: int, hi: int)

  /** One series of bars drawn in one call of `barh`: its legend name and one segment per row
      of the score table. */
  datatype Series = Series(name: string, segments: seq<Interval>)

  /** Everything the dashboard positions: the row labels in score-table order, the drawn
      series, the x limits, the tick positions and the tick labels. `xMin` and `xMax` are the
      values passed to `set_xlim`, not the view limits matplotlib ends up with: when every count
      is zero both are 0, and matplotlib widens that empty range itself. */
  datatype Layout = Layout(
    labels: seq<string>,
    series: seq<Series>,
    xMin: int,
    xMax: int,
    ticks: seq<int>,
    tickLabels: seq<string>)

  /** Columns of the score matrix: every row is [negative, positive]. */
  const Columns: nat := 2

  function Abs(x: int): nat {
    if x < 0 then -x else x
  }

  predicate Within(x: int, iv: Interval) {
    iv.lo <= x <= iv.hi
  }

  // ---------------------------------------------------------------------------------------
  // Bars: starts from the cumulative sums of each row.
  // ---------------------------------------------------------------------------------------

  function Sum(row: seq<int>): int {
    if |row| == 0 then 0 else Sum(row[..|row| - 1]) + row[|row| - 1]
  }

  /** Running totals along one row of the score matrix. */
  function CumSum(row: seq<int>): (cum: seq<int>)
    ensures |cum| == |row|
    ensures forall i :: 0 <= i < |row| ==> cum[i] == Sum(row[..i + 1])
  {
    if |row| == 0 then []
    else
      var init := row[..|row| - 1];
      var cum := CumSum(init) + [Sum(row)];
      assert forall i :: 0 <= i < |row| ==> cum[i] == Sum(row[..i + 1]) by {
        forall i | 0 <= i < |init|
          ensures cum[i] == Sum(row[..i + 1])
        {
          assert init[..i + 1] == row[..i + 1];
        }
        assert row[..|row|] == row;
      }
      cum
  }

  /** Left edge of segment `i`: the first segment is moved left of zero by its cumulative
      width; every later segment starts at its cumulative sum minus itself, that is at zero. */
  function SegmentStart(i: nat, cum: seq<int>): (start: int)
    requires i < |cum|
    ensures i > 0 ==> start == 0
  {
    if i == 0 then -cum[i] else cum[i] - cum[i]
  }

  /** Segment `i` of a row spans from its start to its start plus the row's `i`-th count:
      the first segment ends at zero, every later one begins there. */
  function Segment(i: nat, row: seq<int>): (iv: Interval)
    requires i < |row|
    ensures i == 0 ==> iv == Interval(-row[0], 0)
    ensures i > 0 ==> iv == Interval(0, row[i])
  {
    var cum := CumSum(row);
    assert row[..1][..0] == [] && Sum(row[..1]) == row[0];
    var start := SegmentStart(i, cum);
    Interval(start, start + row[i])
  }

  /** The score-matrix row of one category. */
  function Row(s: CategoryScore): seq<int> {
    [s.negative as int, s.positive as int]
  }

  /** The Negative segment of a row spans [-negative, 0] and the Positive one [0, positive]:
      they meet at zero and share no other point. */
  lemma SegmentsMeetAtZero(s: CategoryScore)
    ensures Segment(0, Row(s)) == Interval(-(s.negative as int), 0)
    ensures Segment(1, Row(s)) == Interval(0, s.positive)
    ensures forall x :: Within(x, Segment(0, Row(s))) && Within(x, Segment(1, Row(s))) ==> x == 0
  {
  }

  /** The series drawn for column `i` under legend name `name`. */
  function SeriesOf(i: nat, name: string, scores: seq<CategoryScore>): (ser: Series)
    requires i < Columns
    ensures ser.name == name
    ensures |ser.segments| == |scores|
    ensures forall r :: 0 <= r < |scores| ==>
      ser.segments[r] == if i == 0 then Interval(-(scores[r].negative as int), 0) else Interval(0, scores[r].positive)
  {
    Series(name, seq(|scores|, r requires 0 <= r < |scores| => Segment(i, Row(scores[r]))))
  }

  // ---------------------------------------------------------------------------------------
  // X axis: range from the largest count, ticks every ten.
  // ---------------------------------------------------------------------------------------

  /** All counts of the table in one list: [neg0, pos0, neg1, pos1, ...]. */
  function Flatten(scores: seq<CategoryScore>): (xs: seq<nat>)
    ensures |xs| == 2 * |scores|
    ensures forall i :: 0 <= i < |scores| ==> xs[2 * i] == scores[i].negative && xs[2 * i + 1] == scores[i].positive
  {
    if |scores| == 0 then []
    else
      var rest := Flatten(scores[1..]);
      assert forall i :: 1 <= i < |scores| ==> scores[1..][i - 1] == scores[i];
      [scores[0].negative, scores[0].positive] + rest
  }

  function Max(xs: seq<nat>): (m: nat)
    requires |xs| > 0
    ensures m in xs
    ensures forall i :: 0 <= i < |xs| ==> xs[i] <= m
  {
    if |xs| == 1 then xs[0]
    else
      var m := Max(xs[..|xs| - 1]);
      assert xs[..|xs| - 1] + [xs[|xs| - 1]] == xs;
      if xs[|xs| - 1] > m then xs[|xs| - 1] else m
  }

  /** `ceil(m / 10) * 10`: the smallest multiple of ten that is at least `m`. */
  function RoundUpToTen(m: nat): (r: nat)
    ensures r % TickStep == 0
    ensures m <= r < m + TickStep
  {
    var q := (m + TickStep - 1) / TickStep;
    assert TickStep * q <= m + TickStep - 1 < TickStep * q + TickStep;
    TickStep * q
  }

  /** The values start, start + 10, start + 20, ... that lie below `stop`. */
  function Arange(start: int, stop: int): (xs: seq<int>)
    ensures forall j :: 0 <= j < |xs| ==> xs[j] == start + j * TickStep && xs[j] < stop
    ensures start + |xs| * TickStep >= stop
    decreases stop - start
  {
    if start >= stop then [] else [start] + Arange(start + TickStep, stop)
  }

  /** A tick is labelled with the canonical decimal numeral of its distance from zero (no
      leading zero, "0" only at zero), so the left half of the axis reads as counts too. */
  function TickLabel(t: int): (text: string)
    ensures Decimal.AllDigits(text)
    ensures |text| >= 1 && (text[0] == '0' <==> t == 0)
    ensures Decimal.ToNat(text) == Abs(t)
  {
    Decimal.RoundTrip(Abs(t));
    Decimal.FromNat(Abs(t))
  }

  /** The bars lie inside the x limits and the limits are the tightest multiple of ten. */
  predicate AxisFits(scores: seq<CategoryScore>, xMax: int) {
    && xMax % TickStep == 0
    && (forall i :: 0 <= i < |scores| ==> scores[i].negative <= xMax && scores[i].positive <= xMax)
    && (exists i :: 0 <= i < |scores| && (xMax < scores[i].negative + TickStep || xMax < scores[i].positive + TickStep))
  }

  /** Half the width of the x axis: the largest count rounded up to a multiple of ten. */
  function AxisRange(scores: seq<CategoryScore>): (maxRange: nat)
    requires |scores| > 0
    ensures AxisFits(scores, maxRange)
  {
    var counts := Flatten(scores);
    var top := Max(counts);
    var maxRange := RoundUpToTen(top);
    assert AxisFits(scores, maxRange) by {
      forall i | 0 <= i < |scores|
        ensures scores[i].negative <= maxRange && scores[i].positive <= maxRange
      {
        assert counts[2 * i] <= top && counts[2 * i + 1] <= top;
      }
      var w :| 0 <= w < |counts| && counts[w] == top;
      var i := w / 2;
      assert w == 2 * i || w == 2 * i + 1;
      assert maxRange < scores[i].negative + TickStep || maxRange < scores[i].positive + TickStep;
    }
    maxRange
  }

  /** The tick positions -maxRange, -maxRange + 10, ..., maxRange. */
  function Ticks(maxRange: nat): (ticks: seq<int>)
    requires maxRange % TickStep == 0
    ensures |ticks| == 2 * maxRange / TickStep + 1
    ensures forall j :: 0 <= j < |ticks| ==> ticks[j] == -(maxRange as int) + j * TickStep
  {
    var ticks := Arange(-(maxRange as int), maxRange + 1);
    var q := maxRange / TickStep;
    assert maxRange == q * TickStep;
    assert TickStep * |ticks| >= 2 * TickStep * q + 1;
    assert ticks[|ticks| - 1] < maxRange + 1;
    ticks
  }

  /** One row label per table row, in table order, and one series per legend name paired
      with a column: the first spans [-negative, 0] on every row, the second [0, positive]. */
  predicate BarsDrawn(scores: seq<CategoryScore>, names: seq<string>, labels: seq<string>, series: seq<Series>) {
    && |labels| == |scores|
    && (forall i :: 0 <= i < |scores| ==> labels[i] == scores[i].category)
    && |series| == Min(|names|, Columns)
    && (forall c :: 0 <= c < |series| ==> series[c].name == names[c] && |series[c].segments| == |scores|)
    && (|series| > 0 ==> forall i :: 0 <= i < |scores| ==>
          series[0].segments[i] == Interval(-(scores[i].negative as int), 0))
    && (|series| > 1 ==> forall i :: 0 <= i < |scores| ==>
          series[1].segments[i] == Interval(0, scores[i].positive))
  }

  /** Symmetric limits [-xMax, xMax], a tick every ten between them, each labelled with the
      numeral of its absolute value. */
  predicate AxisDrawn(xMin: int, xMax: int, ticks: seq<int>, tickLabels: seq<string>) {
    && xMin == -xMax
    && |ticks| == 2 * xMax / TickStep + 1
    && (forall j :: 0 <= j < |ticks| ==> ticks[j] == xMin + j * TickStep)
    && |tickLabels| == |ticks|
    && (forall j :: 0 <= j < |ticks| ==> tickLabels[j] == Decimal.FromNat(Abs(ticks[j])))
  }

  /** The row labels and the series drawn by the loop over `zip(category_names, colors)`. */
  function DrawBars(scores: seq<CategoryScore>, names: seq<string>): (drawn: (seq<string>, seq<Series>))
    ensures BarsDrawn(scores, names, drawn.0, drawn.1)
  {
    var labels := Categories(scores);
    var count := Min(|names|, Columns);
    var series := seq(count, c requires 0 <= c < count => SeriesOf(c, names[c], scores));
    (labels, series)
  }

  /** The geometry `plot_dashboard` gives a score table and the legend names. One series is
      drawn per name paired with a column, so at most two. None where `plot_dashboard` raises:
      on an empty table (the score matrix then has no second dimension), and on an empty list
      of names (the legend is then asked for zero columns). */
  function PlotLayout(scores: seq<CategoryScore>, categoryNames: seq<string>): (r: Option<Layout>)
    ensures r.None? <==> |scores| == 0 || |categoryNames| == 0
    ensures r.Some? ==> BarsDrawn(scores, categoryNames, r.value.labels, r.value.series)
    ensures r.Some? ==> AxisFits(scores, r.value.xMax)
    ensures r.Some? ==> AxisDrawn(r.value.xMin, r.value.xMax, r.value.ticks, r.value.tickLabels)
  {
    if |scores| == 0 || |categoryNames| == 0 then None
    else
      var drawn := DrawBars(scores, categoryNames);
      var maxRange := AxisRange(scores);
      var ticks := Ticks(maxRange);
      var tickLabels := seq(|ticks|, j requires 0 <= j < |ticks| => TickLabel(ticks[j]));
      Some(Layout(drawn.0, drawn.1, -(maxRange as int), maxRange, ticks, tickLabels))
  }

  // ---------------------------------------------------------------------------------------
  // Properties of the layout.
  // ---------------------------------------------------------------------------------------

  /** The ticks run from the left limit to the right limit and mirror each other about zero,
      and mirrored ticks carry the same label. */
  lemma TicksSymmetric(scores: seq<CategoryScore>, names: seq<string>)
    requires |scores| > 0 && |names| > 0
    ensures var l := PlotLayout(scores, names).value;
      var n := |l.ticks|;
      && l.ticks[0] == l.xMin
      && l.ticks[n - 1] == l.xMax
      && (forall j :: 0 <= j < n ==> l.ticks[n - 1 - j] == -l.ticks[j] && l.tickLabels[n - 1 - j] == l.tickLabels[j])
  {
    var l := PlotLayout(scores, names).value;
    var n := |l.ticks|;
    var q := l.xMax / TickStep;
    assert l.xMax == q * TickStep;
    assert n == 2 * q + 1;
    forall j | 0 <= j < n
      ensures l.ticks[n - 1 - j] == -l.ticks[j] && l.tickLabels[n - 1 - j] == l.tickLabels[j]
    {
      assert Abs(l.ticks[n - 1 - j]) == Abs(l.ticks[j]);
    }
  }

  /** Every drawn segment lies inside the x limits. */
  lemma BarsWithinAxis(scores: seq<CategoryScore>, names: seq<string>)
    requires |scores| > 0 && |names| > 0
    ensures var l := PlotLayout(scores, names).value;
      forall c, i :: 0 <= c < |l.series| && 0 <= i < |l.series[c].segments| ==>
        l.xMin <= l.series[c].segments[i].lo && l.series[c].segments[i].hi <= l.xMax
  {
    var l := PlotLayout(scores, names).value;
    forall c, i | 0 <= c < |l.series| && 0 <= i < |l.series[c].segments|
      ensures l.xMin <= l.series[c].segments[i].lo && l.series[c].segments[i].hi <= l.xMax
    {
      assert scores[i].negative <= l.xMax && scores[i].positive <= l.xMax;
    }
  }

  /** Reading a tick label back as a number gives the tick's distance from zero. */
  lemma TickLabelsReadBack(scores: seq<CategoryScore>, names: seq<string>)
    requires |scores| > 0 && |names| > 0
    ensures var l := PlotLayout(scores, names).value;
      forall j :: 0 <= j < |l.ticks| ==> Decimal.ToNat(l.tickLabels[j]) == Abs(l.ticks[j])
  {
    var l := PlotLayout(scores, names).value;
    forall j | 0 <= j < |l.ticks|
      ensures Decimal.ToNat(l.tickLabels[j]) == Abs(l.ticks[j])
    {
      Decimal.RoundTrip(Abs(l.ticks[j]));
    }
  }

  // ---------------------------------------------------------------------------------------
  // The two steps together.
  // ---------------------------------------------------------------------------------------

  /** Counts bounded by `n` keep the axis within `n` rounded up to ten. */
  lemma AxisBoundedBy(scores: seq<CategoryScore>, names: seq<string>, n: nat)
    requires |scores| > 0 && |names| > 0
    requires forall i :: 0 <= i < |scores| ==> scores[i].negative <= n && scores[i].positive <= n
    ensures PlotLayout(scores, names).value.xMax <= RoundUpToTen(n)
  {
    var xMax := PlotLayout(scores, names).value.xMax;
    var i :| 0 <= i < |scores| && (xMax < scores[i].negative + TickStep || xMax < scores[i].positive + TickStep);
    var bound := RoundUpToTen(n);
    var a, b := xMax / TickStep, bound / TickStep;
    assert xMax == a * TickStep && bound == b * TickStep;
    assert a < b + 1;
  }

  /** Feeding the aggregation's result to the dashboard fails only when its table is empty (its
      label pair never is), which happens exactly when k is 0 or no parsed record names a
      category. Otherwise both
      series are drawn, named Negative and Positive, and the axis never reaches past the
      number of parsed records rounded up to ten. */
  lemma AggregateThenPlot(entries: seq<Option<Record>>, k: nat)
    ensures var result := TopKCategoriesAndScore(entries, k);
      PlotLayout(result.scores, result.categoryNames).None? <==>
        (k == 0 || forall e :: e in entries && e.Some? ==> |e.value| == 0)
    ensures var result := TopKCategoriesAndScore(entries, k);
      var r := PlotLayout(result.scores, result.categoryNames);
      r.Some? ==>
        && |r.value.series| == 2
        && r.value.series[0].name == Negative
        && r.value.series[1].name == Positive
        && r.value.xMax <= RoundUpToTen(|Parsed(entries)|)
  {
    var result := TopKCategoriesAndScore(entries, k);
    EmptyScores(entries, k);
    if |result.scores| > 0 {
      ScoreBounds(entries, k);
      AxisBoundedBy(result.scores, result.categoryNames, |Parsed(entries)|);
    }
  }
}
