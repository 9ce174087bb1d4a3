/**
 * The geometry of the dashboard's three SVG charts and their legends:
 * where the line chart's points go, where each bar stands and how tall it
 * is, how the donut's arcs split its circumference, where the grid lines
 * sit, and which palette colour and escaped label each legend item gets.
 * Coordinates are `real`; the SVG markup around them is not modelled.
 */
module Charts {
  import opened Records
  import Text
  import Aggregation

  // The line and bar charts draw in a 320 x 160 view box with 20 units of
  // padding on every side.
  const Width: real := 320.0
  const Height: real := 160.0
  const Padding: real := 20.0
  const InnerWidth: real := Width - 2.0 * Padding
  const InnerHeight: real := Height - 2.0 * Padding
  // Space between two bars.
  const BarGap: real := 8.0
  // Narrowest bar.
  const MinBarWidth: real := 10.0
  // Radius of the donut ring.
  const DonutRadius: real := 52.0

  // ---------------------------------------------------------------------
  // Arithmetic helpers
  // ---------------------------------------------------------------------

  lemma FractionBounds(a: real, b: real)
    requires 0.0 <= a <= b && 0.0 < b
    ensures 0.0 <= a / b <= 1.0
  {
    assert a / b * b == a;
  }

  lemma DivideMonotone(a: real, c: real, b: real)
    requires a <= c && 0.0 < b
    ensures a / b <= c / b
  {
    assert (c - a) / b >= 0.0;
    assert c / b - a / b == (c - a) / b;
  }

  lemma ScaleMonotone(k: real, a: real, c: real)
    requires 0.0 <= k && a <= c
    ensures k * a <= k * c
  {
    assert k * c - k * a == k * (c - a);
  }

  lemma StrictScale(k: real, a: real, c: real)
    requires 0.0 < k && a < c
    ensures k * a < k * c
  {
    assert k * c - k * a == k * (c - a);
  }

  /** A quotient reaches `m` exactly when the dividend reaches `m` times
      the divisor. */
  lemma QuotientAtLeast(a: real, k: real, m: real)
    requires 0.0 < k
    ensures a / k >= m <==> a >= m * k
  {
    var q := a / k;
    assert k * q == a;
    if q >= m {
      ScaleMonotone(k, m, q);
      assert k * m <= a;
    } else {
      StrictScale(k, q, m);
      assert a < k * m;
    }
    assert m * k == k * m;
  }

  /** `Math.max(...xs, floor)`. */
  function MaxWith(xs: seq<real>, floor: real): (m: real)
    ensures floor <= m
    ensures forall i :: 0 <= i < |xs| ==> xs[i] <= m
    ensures m == floor || exists i :: 0 <= i < |xs| && xs[i] == m
  {
    if xs == [] then floor
    else
      var rest := MaxWith(xs[1..], floor);
      assert forall i :: 1 <= i < |xs| ==> xs[i] == xs[1..][i - 1];
      if xs[0] >= rest then xs[0] else rest
  }

  /** `Math.min(...xs, ceiling)`. */
  function MinWith(xs: seq<real>, ceiling: real): (m: real)
    ensures m <= ceiling
    ensures forall i :: 0 <= i < |xs| ==> m <= xs[i]
    ensures m == ceiling || exists i :: 0 <= i < |xs| && xs[i] == m
  {
    if xs == [] then ceiling
    else
      var rest := MinWith(xs[1..], ceiling);
      assert forall i :: 1 <= i < |xs| ==> xs[i] == xs[1..][i - 1];
      if xs[0] <= rest then xs[0] else rest
  }

  // ---------------------------------------------------------------------
  // Palette and legend
  // ---------------------------------------------------------------------

  /** `colors[index % colors.length]`; an empty palette yields no colour. */
  function ColorAt(colors: seq<string>, i: nat): (c: Option<string>)
    ensures c.None? <==> colors == []
    ensures c.Some? ==> c.value in colors
  {
    if colors == [] then None else Some(colors[i % |colors|])
  }

  /** The palette repeats: item `i` and item `i + |colors|` share a colour. */
  lemma PaletteCycles(colors: seq<string>, i: nat)
    ensures ColorAt(colors, i + |colors|) == ColorAt(colors, i)
    ensures i < |colors| ==> ColorAt(colors, i) == Some(colors[i])
  {
    if colors != [] {
      var m := |colors|;
      ModUnique(i + m, m, i / m + 1, i % m);
      if i < m {
        ModUnique(i, m, 0, i);
      }
    }
  }

  /** A remainder is determined by any quotient-remainder split. */
  lemma ModUnique(a: int, m: int, q: int, r: int)
    requires 0 < m && 0 <= r < m && a == q * m + r
    ensures a % m == r
  {
    var q', r' := a / m, a % m;
    assert (q - q') * m == r' - r;
    MultipleAtLeast(q - q', m);
    MultipleAtLeast(q' - q, m);
    assert (q' - q) * m == -((q - q') * m);
  }

  lemma MultipleAtLeast(d: int, m: int)
    requires 0 < m
    ensures d >= 1 ==> d * m >= m
  {
    if d >= 1 {
      assert d * m == (d - 1) * m + m;
      assert (d - 1) * m >= 0;
    }
  }

  /** One legend row: the escaped label, the value it shows (none when
      the value list is shorter than the label list) and its swatch
      colour. How the value is formatted is not modelled. */
  datatype LegendItem = LegendItem(caption: string, value: Option<real>, color: Option<string>)

  /** `buildLegend`: one row per label, none at all for no labels. */
  function BuildLegend(labels: seq<string>, values: seq<real>, colors: seq<string>): (items: seq<LegendItem>)
    ensures |items| == |labels|
  {
    seq(|labels|, i requires 0 <= i < |labels| =>
      LegendItem(Text.EscapeHtml(labels[i]), if i < |values| then Some(values[i]) else None, ColorAt(colors, i)))
  }

  /** Every legend label is markup-free and decodes back to the label it
      shows; values and colours go with their labels by position. */
  lemma LegendFaithful(labels: seq<string>, values: seq<real>, colors: seq<string>)
    requires |values| == |labels|
    ensures var items := BuildLegend(labels, values, colors);
      && (labels == [] ==> items == [])
      && forall i :: 0 <= i < |items| ==>
           && Text.Unescape(items[i].caption) == labels[i]
           && (forall k :: 0 <= k < |items[i].caption| ==> !Text.IsMarkupChar(items[i].caption[k]))
           && items[i].value == Some(values[i])
           && items[i].color == ColorAt(colors, i)
  {
    var items := BuildLegend(labels, values, colors);
    forall i | 0 <= i < |items|
      ensures Text.Unescape(items[i].caption) == labels[i]
      ensures forall k :: 0 <= k < |items[i].caption| ==> !Text.IsMarkupChar(items[i].caption[k])
    {
      Text.UnescapeEscapeHtml(labels[i]);
      Text.EscapeHtmlSafe(labels[i]);
    }
  }

  /** `.slice(-n)` for n > 0: the last n elements, or all of them. */
  function LastN<T>(s: seq<T>, n: nat): (r: seq<T>)
    requires n > 0
    ensures |r| == if |s| <= n then |s| else n
    ensures forall i :: 0 <= i < |r| ==> r[i] == s[|s| - |r| + i]
  {
    if |s| <= n then s else s[|s| - n..]
  }

  // ---------------------------------------------------------------------
  // Line chart
  // ---------------------------------------------------------------------

  datatype Point = Point(x: real, y: real)

  /** Horizontal distance between neighbouring points. */
  function Step(n: nat): real
  {
    if n > 1 then InnerWidth / (n - 1) as real else 0.0
  }

  /** The vertical span the values are scaled to: from the least value or
      0, whichever is lower, to the greatest value or 1, whichever is
      higher (`max - min || 1`). */
  function ValueRange(values: seq<real>): (r: real)
    ensures r >= 1.0
  {
    var lo, hi := MinWith(values, 0.0), MaxWith(values, 1.0);
    if hi - lo == 0.0 then 1.0 else hi - lo
  }

  /** The points of `renderLineChart`: evenly spaced from left to right,
      each value's height scaled into the inner area. */
  function LinePoints(values: seq<real>): (pts: seq<Point>)
    ensures |pts| == |values|
  {
    var lo := MinWith(values, 0.0);
    var range := ValueRange(values);
    seq(|values|, i requires 0 <= i < |values| =>
      Point(Padding + Step(|values|) * i as real, Padding + InnerHeight - (values[i] - lo) / range * InnerHeight))
  }

  /** Every point lies inside the padded area: x in [20, 300] and y in
      [20, 140]. */
  lemma LinePointsInBox(values: seq<real>)
    ensures var pts := LinePoints(values);
      forall i :: 0 <= i < |pts| ==>
        Padding <= pts[i].x <= Padding + InnerWidth && Padding <= pts[i].y <= Padding + InnerHeight
  {
    var pts := LinePoints(values);
    var lo, hi := MinWith(values, 0.0), MaxWith(values, 1.0);
    var range := ValueRange(values);
    var n := |values|;
    forall i | 0 <= i < n
      ensures Padding <= pts[i].x <= Padding + InnerWidth && Padding <= pts[i].y <= Padding + InnerHeight
    {
      FractionBounds(values[i] - lo, range);
      if n > 1 {
        ScaleMonotone(Step(n), i as real, (n - 1) as real);
        assert Step(n) * (n - 1) as real == InnerWidth;
      }
    }
  }

  /** With two or more points the first sits at x = 20 and the last at
      x = 300, and x grows strictly from each point to the next. */
  lemma LinePointsSpan(values: seq<real>)
    requires |values| > 1
    ensures var pts := LinePoints(values);
      && pts[0].x == Padding
      && pts[|pts| - 1].x == Padding + InnerWidth
      && forall i, j :: 0 <= i < j < |pts| ==> pts[i].x < pts[j].x
  {
    LineColumns(values);
    StepSpan(|values|);
    ColumnsSpan(LinePoints(values), Step(|values|));
  }

  /** Points one positive step apart that span the inner width start at
      x = 20, end at x = 300 and move strictly to the right. */
  lemma ColumnsSpan(pts: seq<Point>, step: real)
    requires |pts| > 1 && step > 0.0 && step * (|pts| - 1) as real == InnerWidth
    requires forall i :: 0 <= i < |pts| ==> pts[i].x == Padding + step * i as real
    ensures pts[0].x == Padding && pts[|pts| - 1].x == Padding + InnerWidth
    ensures forall i, j :: 0 <= i < j < |pts| ==> pts[i].x < pts[j].x
  {
    forall i, j | 0 <= i < j < |pts| ensures pts[i].x < pts[j].x {
      StrictScale(step, i as real, j as real);
    }
  }

  /** With two or more points the steps are positive and add up to the
      inner width. */
  lemma StepSpan(n: nat)
    requires n > 1
    ensures Step(n) > 0.0 && Step(n) * (n - 1) as real == InnerWidth
  {
  }

  /** Point i sits i steps to the right of x = 20. */
  lemma LineColumns(values: seq<real>)
    ensures var pts := LinePoints(values);
      forall i :: 0 <= i < |pts| ==> pts[i].x == Padding + Step(|values|) * i as real
  {
  }

  /** A larger value is drawn no lower than a smaller one. */
  lemma LinePointsOrder(values: seq<real>)
    ensures var pts := LinePoints(values);
      forall i, j :: 0 <= i < |pts| && 0 <= j < |pts| && values[i] <= values[j] ==> pts[j].y <= pts[i].y
  {
    var pts := LinePoints(values);
    var lo := MinWith(values, 0.0);
    var range := ValueRange(values);
    forall i, j | 0 <= i < |pts| && 0 <= j < |pts| && values[i] <= values[j] ensures pts[j].y <= pts[i].y {
      DivideMonotone(values[i] - lo, values[j] - lo, range);
      ScaleMonotone(InnerHeight, (values[i] - lo) / range, (values[j] - lo) / range);
    }
  }

  /** The chart `renderLineChart` draws: nothing for no values, otherwise
      the points and a legend of the last four labels and values in the
      stroke colour. */
  datatype LineChart = NoLineData | Line(points: seq<Point>, legend: seq<LegendItem>)

  function RenderLineChart(labels: seq<string>, values: seq<real>, stroke: string): (c: LineChart)
    ensures c.NoLineData? <==> values == []
  {
    if values == [] then NoLineData
    else Line(LinePoints(values), BuildLegend(LastN(labels, 4), LastN(values, 4), [stroke]))
  }

  /** The line chart's legend shows the most recent four months, each in
      the stroke colour. */
  lemma LineLegendShowsLatest(labels: seq<string>, values: seq<real>, stroke: string)
    requires |labels| == |values| > 0
    ensures var legend := RenderLineChart(labels, values, stroke).legend;
      && |legend| == (if |labels| < 4 then |labels| else 4)
      && forall i :: 0 <= i < |legend| ==>
           && Text.Unescape(legend[i].caption) == labels[|labels| - |legend| + i]
           && legend[i].value == Some(values[|values| - |legend| + i])
           && legend[i].color == Some(stroke)
  {
    var ls, vs := LastN(labels, 4), LastN(values, 4);
    LegendFaithful(ls, vs, [stroke]);
    forall i | 0 <= i < |ls| ensures ColorAt([stroke], i) == Some(stroke) {
      assert i % 1 == 0;
    }
  }

  // ---------------------------------------------------------------------
  // Bar chart
  // ---------------------------------------------------------------------

  datatype Bar = Bar(x: real, y: real, width: real, height: real, color: Option<string>)

  /** `Math.max(10, (innerWidth - gap * (n - 1)) / n)`: up to 16 bars share
      the inner width exactly; more get the minimum width. */
  function BarWidth(n: nat): (w: real)
    requires n > 0
    ensures w >= MinBarWidth
    ensures n <= 16 ==> n as real * w + BarGap * (n - 1) as real == InnerWidth
    ensures n > 16 ==> w == MinBarWidth
  {
    var share := (InnerWidth - BarGap * (n - 1) as real) / n as real;
    QuotientAtLeast(InnerWidth - BarGap * (n - 1) as real, n as real, MinBarWidth);
    assert share * n as real == InnerWidth - BarGap * (n - 1) as real;
    if MinBarWidth >= share then MinBarWidth else share
  }

  /** The bars of `renderBarChart`, left to right. */
  function BarLayout(values: seq<real>, colors: seq<string>): (bars: seq<Bar>)
    ensures |bars| == |values|
  {
    if values == [] then []
    else
      var w := BarWidth(|values|);
      var top := MaxWith(values, 1.0);
      seq(|values|, i requires 0 <= i < |values| =>
        var h := values[i] / top * InnerHeight;
        Bar(Padding + i as real * (w + BarGap), Padding + InnerHeight - h, w, h, ColorAt(colors, i)))
  }

  /** Every bar stands on the baseline y = 140, all bars are equally
      wide, and bar i takes palette colour i modulo the palette's length. */
  lemma BarsOnBaseline(values: seq<real>, colors: seq<string>)
    ensures var bars := BarLayout(values, colors);
      forall i :: 0 <= i < |bars| ==>
        && bars[i].y + bars[i].height == Padding + InnerHeight
        && bars[i].width == bars[0].width
        && bars[i].color == ColorAt(colors, i)
  {
  }

  /** The bars start at x = 20 and stand `BarGap` apart. */
  lemma BarsSpaced(values: seq<real>, colors: seq<string>)
    ensures var bars := BarLayout(values, colors);
      && (bars != [] ==> bars[0].x == Padding)
      && forall i :: 0 <= i < |bars| - 1 ==> bars[i + 1].x == bars[i].x + bars[i].width + BarGap
  {
    var bars := BarLayout(values, colors);
    if values != [] {
      var w := BarWidth(|values|);
      forall i | 0 <= i < |bars| - 1 ensures bars[i + 1].x == bars[i].x + bars[i].width + BarGap {
        var k := i as real;
        assert (i + 1) as real == k + 1.0;
        assert (k + 1.0) * (w + BarGap) == k * (w + BarGap) + (w + BarGap);
      }
    }
  }

  /** A bar for a value of 0 or more is between 0 and 120 tall, and a
      larger value never gets a shorter bar. */
  lemma BarHeights(values: seq<real>, colors: seq<string>)
    ensures var bars := BarLayout(values, colors);
      && (forall i :: 0 <= i < |bars| && values[i] >= 0.0 ==> 0.0 <= bars[i].height <= InnerHeight)
      && (forall i, j :: 0 <= i < |bars| && 0 <= j < |bars| && values[i] <= values[j] ==>
            bars[i].height <= bars[j].height)
  {
    var bars := BarLayout(values, colors);
    if values != [] {
      var top := MaxWith(values, 1.0);
      forall i | 0 <= i < |bars| && values[i] >= 0.0 ensures 0.0 <= bars[i].height <= InnerHeight {
        FractionBounds(values[i], top);
        ScaleMonotone(InnerHeight, values[i] / top, 1.0);
      }
      forall i, j | 0 <= i < |bars| && 0 <= j < |bars| && values[i] <= values[j]
        ensures bars[i].height <= bars[j].height
      {
        DivideMonotone(values[i], values[j], top);
        ScaleMonotone(InnerHeight, values[i] / top, values[j] / top);
      }
    }
  }

  /** Up to 16 bars span the inner width exactly: the last one ends at
      x = 300. */
  lemma BarsFillInnerWidth(values: seq<real>, colors: seq<string>)
    requires 0 < |values| <= 16
    ensures var bars := BarLayout(values, colors);
      bars[|bars| - 1].x + bars[|bars| - 1].width == Padding + InnerWidth
  {
    BarPositions(values, colors);
    RowEnd(BarLayout(values, colors), BarWidth(|values|));
  }

  /** A row of bars of width w spaced `BarGap` apart from x = 20, whose
      widths and gaps add up to the inner width, ends at x = 300. */
  lemma RowEnd(bars: seq<Bar>, w: real)
    requires bars != [] && |bars| as real * w + BarGap * (|bars| - 1) as real == InnerWidth
    requires forall i :: 0 <= i < |bars| ==> bars[i].width == w && bars[i].x == Padding + i as real * (w + BarGap)
    ensures bars[|bars| - 1].x + bars[|bars| - 1].width == Padding + InnerWidth
  {
    LastBarEnd(|bars|, w);
  }

  /** Bar i starts i steps of width plus gap to the right of x = 20, and
      every bar is `BarWidth` wide. */
  lemma BarPositions(values: seq<real>, colors: seq<string>)
    ensures var bars := BarLayout(values, colors);
      forall i :: 0 <= i < |bars| ==>
        bars[i].width == BarWidth(|values|) && bars[i].x == Padding + i as real * (bars[i].width + BarGap)
  {
  }

  /** Where the last of n bars of width w ends. */
  lemma LastBarEnd(n: nat, w: real)
    requires n > 0
    ensures Padding + (n - 1) as real * (w + BarGap) + w == Padding + n as real * w + BarGap * (n - 1) as real
  {
    var k := (n - 1) as real;
    assert n as real == k + 1.0;
    assert k * (w + BarGap) == k * w + k * BarGap;
    assert (k + 1.0) * w == k * w + w;
  }

  /** From 17 bars on, the minimum width pushes the last bar past x = 300,
      and from 18 on past the view box's right edge at 320. */
  lemma BarsOverflow(values: seq<real>, colors: seq<string>)
    requires |values| > 16
    ensures var bars := BarLayout(values, colors);
      var right := bars[|bars| - 1].x + bars[|bars| - 1].width;
      && right == 12.0 + 18.0 * |values| as real
      && right > Padding + InnerWidth
      && (|values| > 17 ==> right > Width)
  {
    var n := |values|;
    var bars := BarLayout(values, colors);
    assert BarWidth(n) == MinBarWidth;
    assert (n - 1) as real == n as real - 1.0;
    assert bars[n - 1].x == Padding + (n as real - 1.0) * (MinBarWidth + BarGap);
  }

  /** The chart `renderBarChart` draws. */
  datatype BarChart = NoBarData | Bars(bars: seq<Bar>, legend: seq<LegendItem>)

  function RenderBarChart(labels: seq<string>, values: seq<real>, colors: seq<string>): (c: BarChart)
    ensures c.NoBarData? <==> values == []
    ensures c.Bars? ==> |c.bars| == |values| && |c.legend| == |labels|
  {
    if values == [] then NoBarData
    else Bars(BarLayout(values, colors), BuildLegend(labels, values, colors))
  }

  // ---------------------------------------------------------------------
  // Donut chart
  // ---------------------------------------------------------------------

  /** The ring's circumference, 2 pi r with r = 52; `pi` stands for
      `Math.PI`. */
  function Circumference(pi: real): real
  {
    2.0 * pi * DonutRadius
  }

  /** One arc: its dash length, the gap that completes the circle, the
      length of ring before it (the negated `stroke-dashoffset`) and its
      colour. */
  datatype Arc = Arc(dash: real, gap: real, offset: real, color: Option<string>)

  /** What `renderDonutChart` draws: nothing when there are no values or
      all are 0; when the values are not all 0 but add up to 0, every
      fraction divides by 0 and the geometry is not a number, though the
      legend is still drawn; otherwise the arcs, the legend and the total
      shown in the centre. */
  datatype Donut =
    | NoDonutData
    | NonFinite(legend: seq<LegendItem>)
    | Ring(arcs: seq<Arc>, legend: seq<LegendItem>, total: real)

  predicate AllZero(values: seq<real>)
  {
    forall i :: 0 <= i < |values| ==> values[i] == 0.0
  }

  /** Each value's share of the circumference. */
  function Shares(values: seq<real>, total: real, circumference: real): (r: seq<real>)
    requires total != 0.0
    ensures |r| == |values|
    ensures forall i :: 0 <= i < |r| ==> r[i] == values[i] / total * circumference
  {
    if values == [] then []
    else [values[0] / total * circumference] + Shares(values[1..], total, circumference)
  }

  /** The shares add up to the circumference scaled by the values' sum over
      the total. */
  lemma {:induction false} SharesSum(values: seq<real>, total: real, circumference: real)
    requires total != 0.0
    ensures Aggregation.Sum(Shares(values, total, circumference)) == Aggregation.Sum(values) / total * circumference
  {
    if values != [] {
      var s := Shares(values, total, circumference);
      assert s[1..] == Shares(values[1..], total, circumference);
      SharesSum(values[1..], total, circumference);
      var a, rest := values[0], Aggregation.Sum(values[1..]);
      assert (a + rest) / total * circumference == a / total * circumference + rest / total * circumference;
    }
  }

  /** The ring the shares make: each arc starts where the arcs before it
      end, and its gap completes the circle. */
  function RingArcs(shares: seq<real>, colors: seq<string>, circumference: real): (arcs: seq<Arc>)
    ensures |arcs| == |shares|
  {
    seq(|shares|, j requires 0 <= j < |shares| =>
      Arc(shares[j], circumference - shares[j], Aggregation.Sum(shares[..j]), ColorAt(colors, j)))
  }

  /** `renderDonutChart`'s arcs, built with its running `offset`. */
  method DonutArcs(labels: seq<string>, values: seq<real>, colors: seq<string>, pi: real) returns (d: Donut)
    ensures d == NoDonutData <==> values == [] || AllZero(values)
    ensures d.NonFinite? <==> !(values == [] || AllZero(values)) && Aggregation.Sum(values) == 0.0
    ensures d.Ring? <==> !(values == [] || AllZero(values)) && Aggregation.Sum(values) != 0.0
    ensures d.Ring? ==>
      && d.total == Aggregation.Sum(values) != 0.0
      && d.arcs == RingArcs(Shares(values, d.total, Circumference(pi)), colors, Circumference(pi))
    ensures !d.NoDonutData? ==> d.legend == BuildLegend(labels, values, colors) && |d.legend| == |labels|
  {
    if values == [] || AllZero(values) {
      return NoDonutData;
    }
    var total := Aggregation.Sum(values);
    var legend := BuildLegend(labels, values, colors);
    if total == 0.0 {
      return NonFinite(legend);
    }
    var circumference := Circumference(pi);
    ghost var shares := Shares(values, total, circumference);
    ghost var ring := RingArcs(shares, colors, circumference);
    var offset := 0.0;
    var arcs: seq<Arc> := [];
    var i := 0;
    while i < |values|
      invariant 0 <= i <= |values|
      invariant arcs == ring[..i]
      invariant offset == Aggregation.Sum(shares[..i])
    {
      var dash := values[i] / total * circumference;
      assert shares[i] == dash;
      assert ring[i] == Arc(dash, circumference - dash, offset, ColorAt(colors, i));
      assert ring[..i + 1] == ring[..i] + [ring[i]];
      arcs := arcs + [Arc(dash, circumference - dash, offset, ColorAt(colors, i))];
      ArcEndsAt(shares, i);
      offset := offset + dash;
      i := i + 1;
    }
    assert ring[..i] == ring;
    d := Ring(arcs, legend, total);
  }

  /** An arc ends where the next one starts. */
  lemma ArcEndsAt(shares: seq<real>, i: nat)
    requires i < |shares|
    ensures Aggregation.Sum(shares[..i + 1]) == Aggregation.Sum(shares[..i]) + shares[i]
  {
    assert shares[..i + 1] == shares[..i] + [shares[i]];
    Aggregation.SumAppend(shares[..i], [shares[i]]);
    assert [shares[i]][1..] == [];
  }

  /** The arcs follow each other round the ring: the first starts at 0,
      each next one starts where the one before it ends, each dash and its
      gap make up the whole circle, and the last arc ends at the sum of
      all dashes. */
  lemma RingArcsChain(shares: seq<real>, colors: seq<string>, c: real)
    requires shares != []
    ensures var arcs := RingArcs(shares, colors, c);
      && arcs[0].offset == 0.0
      && (forall i :: 0 <= i < |arcs| ==> arcs[i].dash == shares[i] && arcs[i].dash + arcs[i].gap == c)
      && (forall i :: 0 <= i < |arcs| - 1 ==> arcs[i + 1].offset == arcs[i].offset + arcs[i].dash)
      && arcs[|arcs| - 1].offset + arcs[|arcs| - 1].dash == Aggregation.Sum(shares)
  {
    var arcs := RingArcs(shares, colors, c);
    assert shares[..0] == [];
    forall i | 0 <= i < |arcs| - 1 ensures arcs[i + 1].offset == arcs[i].offset + arcs[i].dash {
      ArcEndsAt(shares, i);
    }
    var n := |shares|;
    ArcEndsAt(shares, n - 1);
    assert shares[..n] == shares;
  }

  /** The donut's ring closes: the last arc ends exactly one
      circumference from where the first begins. */
  lemma RingCloses(values: seq<real>, colors: seq<string>, pi: real)
    requires values != [] && Aggregation.Sum(values) != 0.0
    ensures var c := Circumference(pi);
      var arcs := RingArcs(Shares(values, Aggregation.Sum(values), c), colors, c);
      arcs[|arcs| - 1].offset + arcs[|arcs| - 1].dash == c
  {
    var c := Circumference(pi);
    var shares := Shares(values, Aggregation.Sum(values), c);
    RingArcsChain(shares, colors, c);
    DashesFillRing(values, pi);
  }

  /** The dashes add up to the circumference. */
  lemma DashesFillRing(values: seq<real>, pi: real)
    requires Aggregation.Sum(values) != 0.0
    ensures Aggregation.Sum(Shares(values, Aggregation.Sum(values), Circumference(pi))) == Circumference(pi)
  {
    var t := Aggregation.Sum(values);
    SharesSum(values, t, Circumference(pi));
    assert t / t == 1.0;
  }

  /** With no negative value, the donut is either empty or a proper ring:
      the not-a-number case needs values of both signs. */
  lemma NonNegativeDonutIsFinite(values: seq<real>)
    requires forall i :: 0 <= i < |values| ==> values[i] >= 0.0
    requires values != [] && !AllZero(values)
    ensures Aggregation.Sum(values) > 0.0
  {
    var k :| 0 <= k < |values| && values[k] != 0.0;
    PositiveSum(values, k);
  }

  lemma {:induction false} PositiveSum(values: seq<real>, k: nat)
    requires forall i :: 0 <= i < |values| ==> values[i] >= 0.0
    requires k < |values| && values[k] > 0.0
    ensures Aggregation.Sum(values) > 0.0
  {
    assert forall i :: 0 <= i < |values[1..]| ==> values[1..][i] == values[i + 1];
    if k == 0 {
      NonNegativeSum(values[1..]);
    } else {
      PositiveSum(values[1..], k - 1);
    }
  }

  lemma {:induction false} NonNegativeSum(values: seq<real>)
    requires forall i :: 0 <= i < |values| ==> values[i] >= 0.0
    ensures Aggregation.Sum(values) >= 0.0
  {
    if values != [] {
      assert forall i :: 0 <= i < |values[1..]| ==> values[1..][i] == values[i + 1];
      NonNegativeSum(values[1..]);
    }
  }

  /** Values 5, -5 and 0 (counts a restock with a negative field can
      leave behind) are not all 0 but add up to 0. */
  lemma CancellingValuesAreNonFinite()
    ensures !AllZero([5.0, -5.0, 0.0]) && Aggregation.Sum([5.0, -5.0, 0.0]) == 0.0
  {
    assert [5.0, -5.0, 0.0][0] != 0.0;
    assert [5.0, -5.0, 0.0][1..] == [-5.0, 0.0] && [-5.0, 0.0][1..] == [0.0] && [0.0][1..] == [];
  }

  // ---------------------------------------------------------------------
  // Grid lines
  // ---------------------------------------------------------------------

  /** A horizontal grid line from x1 to x2 at height y. */
  datatype GridLine = GridLine(x1: real, x2: real, y: real)

  /** `count` lines that split the inner height into `count + 1` equal
      bands, top to bottom, each spanning the inner width. */
  function GridSpec(width: real, height: real, padding: real, count: nat): (lines: seq<GridLine>)
    ensures |lines| == count
  {
    var band := (height - 2.0 * padding) / (count + 1) as real;
    seq(count, i requires 0 <= i < count => GridLine(padding, width - padding, padding + band * (i + 1) as real))
  }

  /** Consecutive lines, and the outer lines and the padded edges, are one
      band apart. */
  lemma GridSpecEvenlySpaced(width: real, height: real, padding: real, count: nat)
    requires count > 0
    ensures var lines := GridSpec(width, height, padding, count);
      var band := (height - 2.0 * padding) / (count + 1) as real;
      && lines[0].y == padding + band
      && lines[count - 1].y + band == height - padding
      && forall i :: 0 <= i < count - 1 ==> lines[i + 1].y - lines[i].y == band
  {
    var band := (height - 2.0 * padding) / (count + 1) as real;
    assert band * (count + 1) as real == height - 2.0 * padding;
    assert band * count as real + band == band * (count + 1) as real;
    var lines := GridSpec(width, height, padding, count);
    forall i | 0 <= i < count - 1 ensures lines[i + 1].y - lines[i].y == band {
      var k := (i + 1) as real;
      assert (i + 2) as real == k + 1.0;
      assert band * (k + 1.0) == band * k + band;
    }
  }

  /** `renderGridLines`, with its counting loop. */
  method GridLines(width: real, height: real, padding: real, count: nat) returns (lines: seq<GridLine>)
    ensures lines == GridSpec(width, height, padding, count)
  {
    lines := [];
    var i := 1;
    while i <= count
      invariant 1 <= i <= count + 1
      invariant lines == GridSpec(width, height, padding, count)[..i - 1]
    {
      var y := padding + ((height - 2.0 * padding) / (count + 1) as real) * i as real;
      ghost var spec := GridSpec(width, height, padding, count);
      assert spec[i - 1] == GridLine(padding, width - padding, y);
      assert spec[..i] == spec[..i - 1] + [spec[i - 1]];
      lines := lines + [GridLine(padding, width - padding, y)];
      i := i + 1;
    }
  }

  /** The charts' three grid lines sit at y = 50, 80 and 110, from x = 20
      to x = 300. */
  lemma ChartGridLines()
    ensures GridSpec(Width, Height, Padding, 3) ==
      [GridLine(20.0, 300.0, 50.0), GridLine(20.0, 300.0, 80.0), GridLine(20.0, 300.0, 110.0)]
  {
    var lines := GridSpec(Width, Height, Padding, 3);
    assert lines[0].y == 50.0 && lines[1].y == 80.0 && lines[2].y == 110.0;
  }
}
