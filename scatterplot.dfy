/**
 * The numbers behind the scatter plot: plot area, the two affine scales,
 * heatmap colour channels, tick lists, the procedural background, point
 * markers and residual segments. The SVG output itself is not modelled.
 */
module ScatterPlot {
  import opened Types
  import opened Constants
  import opened Numeric

  /** Width of the drawing area inside the margins. */
  function PlotWidth(c: PlotConfig): real
  {
    c.width - c.margin.left - c.margin.right
  }

  /** Height of the drawing area inside the margins. */
  function PlotHeight(c: PlotConfig): real
  {
    c.height - c.margin.top - c.margin.bottom
  }

  /** Non-empty domains and a positive drawing area: what the scales divide by. */
  predicate WellFormed(c: PlotConfig)
  {
    c.xDomain.lo < c.xDomain.hi && c.yDomain.lo < c.yDomain.hi && PlotWidth(c) > 0.0 && PlotHeight(c) > 0.0
  }

  /** The plot's drawing area is 800-70-40 = 690 by 500-40-60 = 400. */
  lemma PlotArea()
    ensures PlotWidth(ScatterPlotConfig) == 690.0 && PlotHeight(ScatterPlotConfig) == 400.0
    ensures WellFormed(ScatterPlotConfig)
  {
  }

  /** `xScale`: a credit score to a pixel column, the domain's ends to the area's edges. */
  function XScale(c: PlotConfig, v: real): (px: real)
    requires c.xDomain.lo < c.xDomain.hi
    ensures v == c.xDomain.lo ==> px == 0.0
    ensures v == c.xDomain.hi ==> px == PlotWidth(c)
  {
    ((v - c.xDomain.lo) / (c.xDomain.hi - c.xDomain.lo)) * PlotWidth(c)
  }

  /** `yScale`: an income to a pixel row; larger incomes are higher up, at smaller rows. */
  function YScale(c: PlotConfig, v: real): (py: real)
    requires c.yDomain.lo < c.yDomain.hi
    ensures v == c.yDomain.lo ==> py == PlotHeight(c)
    ensures v == c.yDomain.hi ==> py == 0.0
  {
    PlotHeight(c) - ((v - c.yDomain.lo) / (c.yDomain.hi - c.yDomain.lo)) * PlotHeight(c)
  }

  /** `xScale` is affine with a positive slope, hence strictly increasing. */
  lemma XScaleIncreasing(c: PlotConfig, u: real, v: real)
    requires WellFormed(c)
    ensures XScale(c, v) - XScale(c, u) == (v - u) * (PlotWidth(c) / (c.xDomain.hi - c.xDomain.lo))
    ensures u < v ==> XScale(c, u) < XScale(c, v)
  {
    var span := c.xDomain.hi - c.xDomain.lo;
    var slope := PlotWidth(c) / span;
    assert XScale(c, u) == (u - c.xDomain.lo) * slope;
    assert XScale(c, v) == (v - c.xDomain.lo) * slope;
    assert slope > 0.0;
    assert (v - c.xDomain.lo) * slope - (u - c.xDomain.lo) * slope == (v - u) * slope;
    if u < v {
      calc {
        XScale(c, v) - XScale(c, u);
      ==
        (v - u) * slope;
      > { MulPositive(v - u, slope); }
        0.0;
      }
    }
  }

  /** `yScale` is affine with a negative slope, hence strictly decreasing. */
  lemma YScaleDecreasing(c: PlotConfig, u: real, v: real)
    requires WellFormed(c)
    ensures YScale(c, v) - YScale(c, u) == -(v - u) * (PlotHeight(c) / (c.yDomain.hi - c.yDomain.lo))
    ensures u < v ==> YScale(c, u) > YScale(c, v)
  {
    var span := c.yDomain.hi - c.yDomain.lo;
    var slope := PlotHeight(c) / span;
    assert YScale(c, u) == PlotHeight(c) - (u - c.yDomain.lo) * slope;
    assert YScale(c, v) == PlotHeight(c) - (v - c.yDomain.lo) * slope;
    assert slope > 0.0;
    assert (v - c.yDomain.lo) * slope - (u - c.yDomain.lo) * slope == (v - u) * slope;
    if u < v {
      calc {
        YScale(c, u) - YScale(c, v);
      ==
        (v - u) * slope;
      > { MulPositive(v - u, slope); }
        0.0;
      }
    }
  }

  /** Red channel of a heatmap cell of risk `v`: the nearest integer to 2.55 v. */
  function HeatRed(v: real): (red: int)
    ensures red as real - 0.5 <= 2.55 * v < red as real + 0.5
  {
    Round(255.0 * (v / 100.0))
  }

  /** Blue channel of a heatmap cell of risk `v`: the nearest integer to 255 - 2.55 v. */
  function HeatBlue(v: real): (blue: int)
    ensures blue as real - 0.5 <= 255.0 - 2.55 * v < blue as real + 0.5
  {
    Round(255.0 * (1.0 - v / 100.0))
  }

  /**
   * For a risk in [0, 100] both channels are in [0, 255]; risk 0 is pure
   * blue and risk 100 pure red, red grows and blue shrinks with the risk.
   */
  lemma HeatChannels(v: real, w: real)
    ensures 0.0 <= v <= 100.0 ==> 0 <= HeatRed(v) <= 255 && 0 <= HeatBlue(v) <= 255
    ensures HeatRed(0.0) == 0 && HeatBlue(0.0) == 255
    ensures HeatRed(100.0) == 255 && HeatBlue(100.0) == 0
    ensures v <= w ==> HeatRed(v) <= HeatRed(w) && HeatBlue(w) <= HeatBlue(v)
  {
    if v <= w {
      RoundMonotone(255.0 * (v / 100.0), 255.0 * (w / 100.0));
      RoundMonotone(255.0 * (1.0 - w / 100.0), 255.0 * (1.0 - v / 100.0));
    }
    if 0.0 <= v <= 100.0 {
      RoundMonotone(0.0, 255.0 * (v / 100.0));
      RoundMonotone(255.0 * (v / 100.0), 255.0);
      RoundMonotone(0.0, 255.0 * (1.0 - v / 100.0));
      RoundMonotone(255.0 * (1.0 - v / 100.0), 255.0);
    }
  }

  /** Nothing clamps the risk: a value of 103 gives channels outside [0, 255]. */
  lemma HeatChannelsUnclamped()
    ensures HeatRed(103.0) == 263 && HeatBlue(103.0) == -8
  {
  }

  /** X-axis ticks: 7 values every 50 from the start of the score domain. */
  function XTicks(c: PlotConfig): (ticks: seq<real>)
    ensures |ticks| == 7
  {
    seq(7, i requires 0 <= i < 7 => c.xDomain.lo + i as real * 50.0)
  }

  /** Y-axis ticks: 8 values every 20 from the start of the income domain. */
  function YTicks(c: PlotConfig): (ticks: seq<real>)
    ensures |ticks| == 8
  {
    seq(8, i requires 0 <= i < 8 => c.yDomain.lo + i as real * 20.0)
  }

  /** On the fixed plot the last score tick, 840, lies beyond the domain's end at 830. */
  lemma TicksOfScatterPlot()
    ensures XTicks(ScatterPlotConfig) == [540.0, 590.0, 640.0, 690.0, 740.0, 790.0, 840.0]
    ensures XTicks(ScatterPlotConfig)[6] > ScatterPlotConfig.xDomain.hi
    ensures YTicks(ScatterPlotConfig) == [20.0, 40.0, 60.0, 80.0, 100.0, 120.0, 140.0, 160.0]
    ensures YTicks(ScatterPlotConfig)[7] == ScatterPlotConfig.yDomain.hi
  {
  }

  datatype Stroke = NoStroke | YellowStroke

  /** The circle drawn for a data point. */
  datatype Marker = Marker(radius: real, stroke: Stroke)

  /** Highlighted points are drawn 1.5 times larger, with a yellow outline. */
  function PointMarker(displaySize: real, highlight: bool): (m: Marker)
    ensures m.stroke == YellowStroke <==> highlight
    ensures m.radius == if highlight then 1.5 * displaySize else displaySize
    ensures displaySize > 0.0 ==> (m.radius > displaySize <==> highlight) && m.radius <= 1.5 * displaySize
  {
    Marker(if highlight then displaySize * 1.5 else displaySize, if highlight then YellowStroke else NoStroke)
  }

  /** A line from (x1, y1) to (x2, y2) in pixels. */
  datatype Segment = Segment(x1: real, y1: real, x2: real, y2: real)

  /**
   * The residual line of a point: drawn only when residuals are shown and the
   * point has one; vertical at the point, a fifth of the residual long,
   * upwards for a positive residual.
   */
  function ResidualSegment(c: PlotConfig, showResiduals: bool, score: real, income: real,
                           residual: Option<real>): (seg: Option<Segment>)
    requires c.xDomain.lo < c.xDomain.hi && c.yDomain.lo < c.yDomain.hi
    ensures seg.Some? <==> showResiduals && residual.Some?
    ensures seg.Some? ==>
      && seg.value.x1 == seg.value.x2 == XScale(c, score)
      && seg.value.y1 == YScale(c, income)
      && seg.value.y1 - seg.value.y2 == 0.2 * residual.value
  {
    if showResiduals && residual.Some? then
      var lineLength := residual.value * 0.2;
      Some(Segment(XScale(c, score), YScale(c, income), XScale(c, score), YScale(c, income) - lineLength))
    else None
  }

  /** Cells per axis of the procedural background. */
  const BackgroundCells: nat := 20

  /** A rectangle of the procedural background with its decorative risk and colour. */
  datatype BgCell = BgCell(x: real, y: real, width: real, height: real, risk: real, red: int, blue: int)

  /** The decorative risk of cell (i, j): highest at the left and bottom. */
  function BackgroundRisk(i: nat, j: nat): real
  {
    var xRatio := i as real / 20.0;
    var yRatio := j as real / 20.0;
    (1.0 - xRatio) * (1.0 - yRatio) * 100.0
  }

  /** Every background risk is in (0, 100], and 100 only at the bottom-left cell. */
  lemma BackgroundRiskRange(i: nat, j: nat)
    requires i < 20 && j < 20
    ensures 0.0 < BackgroundRisk(i, j) <= 100.0
    ensures BackgroundRisk(i, j) == 100.0 <==> i == 0 && j == 0
  {
    var a := 1.0 - i as real / 20.0;
    var b := 1.0 - j as real / 20.0;
    assert BackgroundRisk(i, j) == (a * b) * 100.0;
    assert 0.0 < a <= 1.0 && 0.0 < b <= 1.0;
    MulPositive(a, b);
    MulAtMostOne(a, b);
    MulAtMostOne(b, a);
    assert a * b == b * a;
    if i == 0 && j == 0 {
      assert a == 1.0 && b == 1.0;
    } else if i != 0 {
      assert a < 1.0;
    } else {
      assert b < 1.0;
    }
  }

  /**
   * The background cell as the source places it: column i starts at the
   * i-th twentieth of the width, and the top edge of row j is drawn at the
   * scaled position of its own lower sample, the j-th twentieth of the height
   * counted from the bottom.
   */
  function BackgroundCellAsWritten(c: PlotConfig, i: nat, j: nat): (cell: BgCell)
    requires WellFormed(c)
    ensures cell.x == PlotWidth(c) * (i as real / 20.0)
    ensures cell.y == PlotHeight(c) * (1.0 - j as real / 20.0)
    ensures cell.width == PlotWidth(c) / 20.0 && cell.height == PlotHeight(c) / 20.0
    ensures cell.risk == BackgroundRisk(i, j)
    ensures cell.red == HeatRed(cell.risk) && cell.blue == HeatBlue(cell.risk)
  {
    var x := c.xDomain.lo + (i as real / 20.0) * (c.xDomain.hi - c.xDomain.lo);
    var y := c.yDomain.lo + (j as real / 20.0) * (c.yDomain.hi - c.yDomain.lo);
    var risk := BackgroundRisk(i, j);
    ScaledFraction(c.xDomain.hi - c.xDomain.lo, i as real / 20.0, PlotWidth(c));
    ScaledFraction(c.yDomain.hi - c.yDomain.lo, j as real / 20.0, PlotHeight(c));
    BgCell(XScale(c, x), YScale(c, y), PlotWidth(c) / 20.0, PlotHeight(c) / 20.0,
           risk, Round(255.0 * (risk / 100.0)), Round(255.0 * (1.0 - risk / 100.0)))
  }

  /** A fraction t of a span, divided by the span and scaled to a length, is t of that length. */
  lemma ScaledFraction(span: real, t: real, length: real)
    requires span > 0.0
    ensures ((t * span) / span) * length == t * length
  {
    assert (t * span) / span == t;
  }

  /**
   * As written, the bottom row of the background hangs below the x axis
   * (rows 400 to 420 of a 400-row area) and no cell reaches the top 20 rows.
   */
  lemma BackgroundOffByOneRow(i: nat, j: nat)
    requires i < 20 && j < 20
    ensures BackgroundCellAsWritten(ScatterPlotConfig, i, 0).y == PlotHeight(ScatterPlotConfig)
    ensures BackgroundCellAsWritten(ScatterPlotConfig, i, 0).height == 20.0
    ensures BackgroundCellAsWritten(ScatterPlotConfig, i, j).y >= 20.0
  {
  }

  /**
   * The background cell with its top edge at the scaled position of its
   * upper sample, the (j+1)-th twentieth of the height from the bottom.
   */
  function BackgroundCellAt(c: PlotConfig, i: nat, j: nat): (cell: BgCell)
    requires WellFormed(c)
    ensures cell.x == PlotWidth(c) * (i as real / 20.0)
    ensures cell.y == PlotHeight(c) * (1.0 - (j + 1) as real / 20.0)
    ensures cell.width == PlotWidth(c) / 20.0 && cell.height == PlotHeight(c) / 20.0
    ensures cell.risk == BackgroundRisk(i, j)
  {
    var x := c.xDomain.lo + (i as real / 20.0) * (c.xDomain.hi - c.xDomain.lo);
    var yTop := c.yDomain.lo + ((j + 1) as real / 20.0) * (c.yDomain.hi - c.yDomain.lo);
    var risk := BackgroundRisk(i, j);
    ScaledFraction(c.xDomain.hi - c.xDomain.lo, i as real / 20.0, PlotWidth(c));
    ScaledFraction(c.yDomain.hi - c.yDomain.lo, (j + 1) as real / 20.0, PlotHeight(c));
    BgCell(XScale(c, x), YScale(c, yTop), PlotWidth(c) / 20.0, PlotHeight(c) / 20.0,
           risk, Round(255.0 * (risk / 100.0)), Round(255.0 * (1.0 - risk / 100.0)))
  }

  /**
   * With the top edge placed at the upper sample, the 20x20 cells tile the
   * drawing area exactly: cell (i, j) covers columns 34.5 i to 34.5 (i+1)
   * and rows 400 - 20 (j+1) to 400 - 20 j.
   */
  lemma BackgroundTilesPlot(i: nat, j: nat)
    requires i < 20 && j < 20
    ensures var cell := BackgroundCellAt(ScatterPlotConfig, i, j);
      && cell.x == 34.5 * i as real && cell.width == 34.5
      && cell.y == 400.0 - 20.0 * (j + 1) as real && cell.height == 20.0
      && 0.0 <= cell.x && cell.x + cell.width <= PlotWidth(ScatterPlotConfig)
      && 0.0 <= cell.y && cell.y + cell.height <= PlotHeight(ScatterPlotConfig)
  {
  }

  /**
   * `createGradientBackground`: 400 cells, column by column, each column's
   * cells from the bottom row up, every cell placed as the source places it.
   */
  method CreateGradientBackground(c: PlotConfig) returns (cells: seq<BgCell>)
    requires WellFormed(c)
    ensures |cells| == BackgroundCells * BackgroundCells
    ensures forall i, j :: 0 <= i < BackgroundCells && 0 <= j < BackgroundCells ==>
      cells[BackgroundCells * i + j] == BackgroundCellAsWritten(c, i, j)
  {
    cells := [];
    var i := 0;
    while i < BackgroundCells
      invariant 0 <= i <= BackgroundCells
      invariant |cells| == BackgroundCells * i
      invariant forall a, b :: 0 <= a < i && 0 <= b < BackgroundCells ==>
        cells[BackgroundCells * a + b] == BackgroundCellAsWritten(c, a, b)
    {
      var j := 0;
      while j < BackgroundCells
        invariant 0 <= j <= BackgroundCells
        invariant |cells| == BackgroundCells * i + j
        invariant forall a, b :: 0 <= a < i && 0 <= b < BackgroundCells ==>
          cells[BackgroundCells * a + b] == BackgroundCellAsWritten(c, a, b)
        invariant forall b :: 0 <= b < j ==> cells[BackgroundCells * i + b] == BackgroundCellAsWritten(c, i, b)
      {
        cells := cells + [BackgroundCellAsWritten(c, i, j)];
        j := j + 1;
      }
      i := i + 1;
    }
  }

  /**
   * On the fixed plot the built background has one cell below the x axis in
   * every column (row 0, from y = 400 to 420) and none reaching above y = 20.
   */
  lemma BuiltBackgroundOverhangs(cells: seq<BgCell>, i: nat, j: nat)
    requires |cells| == BackgroundCells * BackgroundCells
    requires forall a, b :: 0 <= a < BackgroundCells && 0 <= b < BackgroundCells ==>
      cells[BackgroundCells * a + b] == BackgroundCellAsWritten(ScatterPlotConfig, a, b)
    requires i < BackgroundCells && j < BackgroundCells
    ensures cells[BackgroundCells * i].y == PlotHeight(ScatterPlotConfig)
    ensures cells[BackgroundCells * i].y + cells[BackgroundCells * i].height > PlotHeight(ScatterPlotConfig)
    ensures cells[BackgroundCells * i + j].y >= 20.0
  {
    BackgroundOffByOneRow(i, j);
    assert cells[BackgroundCells * i + 0] == BackgroundCellAsWritten(ScatterPlotConfig, i, 0);
    assert cells[BackgroundCells * i + j] == BackgroundCellAsWritten(ScatterPlotConfig, i, j);
  }
}
