/**
 * The XGBoost dashboard: the loans drawn as they are, and from scene 3 the
 * 20x20 heatmap of a closed-form risk clamped to [0, 100].
 */
module XGBoostDashboard {
  import opened Types
  import opened Constants
  import opened Numeric
  import opened HeatGrid
  import Scenes

  /** The dashboard has four scenes. */
  const SceneCount: nat := 4

  /** The dashboard's own scene state, starting at the first scene. */
  method Open() returns (cursor: Scenes.SceneCursor)
    ensures fresh(cursor) && cursor.Valid()
    ensures cursor.count == SceneCount && cursor.scene == 0
  {
    cursor := new Scenes.SceneCursor(SceneCount);
  }

  /** A plotted loan: colour by outcome, fixed size. */
  datatype XPoint = XPoint(loan: Loan, displayColor: DotColor, displaySize: real)

  /** `plotData`: every loan in order, size 5, coloured by outcome, whatever the scene. */
  function PlotData(): (points: seq<XPoint>)
    ensures |points| == |LoanData|
    ensures forall i :: 0 <= i < |points| ==>
      && points[i].loan == LoanData[i]
      && points[i].displaySize == 5.0
      && (points[i].displayColor == PaidBlue <==> LoanData[i].paidBack)
  {
    seq(|LoanData|, i requires 0 <= i < |LoanData| =>
      XPoint(LoanData[i], DotColorOf(LoanData[i].paidBack), 5.0))
  }

  /**
   * The risk before the clamp: base 20, a score term, an income term and a
   * bonus for strong applicants. It takes one of four values, the highest
   * only for a low score with a low income and the lowest only in the
   * strong-applicant corner.
   */
  function RawRisk(score: real, income: real): (r: real)
    ensures r == 75.0 || r == 40.0 || r == 5.0 || r == -15.0
    ensures r == 75.0 <==> score < 650.0 && income < 55.0
    ensures r == -15.0 <==> score > 750.0 && income > 100.0
  {
    20.0
      + (if score < 650.0 then 30.0 else -5.0)
      + (if income < 55.0 then 25.0 else -10.0)
      - (if score > 750.0 && income > 100.0 then 20.0 else 0.0)
  }

  /** The heatmap's risk at a point: the raw risk clamped to [0, 100]. */
  function Risk(score: real, income: real): (v: real)
    ensures 0.0 <= v <= 100.0
    ensures v == 0.0 || v == 5.0 || v == 40.0 || v == 75.0
  {
    Max(0.0, Min(100.0, RawRisk(score, income)))
  }

  /** The clamp changes the raw risk only where it is -15, the strong-applicant corner. */
  lemma ClampOnlyAtStrongCorner(score: real, income: real)
    ensures Risk(score, income) != RawRisk(score, income) <==> RawRisk(score, income) == -15.0
    ensures RawRisk(score, income) == -15.0 <==> score > 750.0 && income > 100.0
  {
  }

  /** A better score or a higher income never raises the risk. */
  lemma RiskMonotone(s1: real, s2: real, i1: real, i2: real)
    requires s1 <= s2 && i1 <= i2
    ensures Risk(s2, i1) <= Risk(s1, i1)
    ensures Risk(s1, i2) <= Risk(s1, i1)
  {
  }

  /** The grid cell of row `i` (income) and column `j` (score) before the rows are reversed. */
  function CellAt(i: nat, j: nat): HeatCell
  {
    var score := SampleAt(ScatterPlotConfig.xDomain, j);
    var income := SampleAt(ScatterPlotConfig.yDomain, i);
    HeatCell(score, income, Risk(score, income))
  }

  /**
   * `heatmapData`: nothing before scene 3; otherwise 20 rows of 20 cells
   * whose risk is adjusted term by term and clamped, then the rows reversed.
   */
  method BuildHeatmap(scene: nat) returns (heatmap: Option<seq<seq<HeatCell>>>)
    ensures heatmap.None? <==> scene < 3
    ensures heatmap.Some? ==> IsGrid(heatmap.value, GridSize, GridSize)
    ensures heatmap.Some? ==> forall k, j :: 0 <= k < GridSize && 0 <= j < GridSize ==>
      heatmap.value[k][j] == CellAt(GridSize - 1 - k, j)
  {
    if scene < 3 {
      return None;
    }
    var grid: seq<seq<HeatCell>> := [];
    var i := 0;
    while i < GridSize
      invariant 0 <= i <= GridSize
      invariant IsGrid(grid, i, GridSize)
      invariant forall r, j :: 0 <= r < i && 0 <= j < GridSize ==> grid[r][j] == CellAt(r, j)
    {
      var row: seq<HeatCell> := [];
      var j := 0;
      while j < GridSize
        invariant 0 <= j <= GridSize
        invariant |row| == j
        invariant forall c :: 0 <= c < j ==> row[c] == CellAt(i, c)
      {
        var score := SampleAt(ScatterPlotConfig.xDomain, j);
        var income := SampleAt(ScatterPlotConfig.yDomain, i);
        var prediction := 20.0;
        prediction := prediction + (if score < 650.0 then 30.0 else -5.0);
        prediction := prediction + (if income < 55.0 then 25.0 else -10.0);
        prediction := prediction - (if score > 750.0 && income > 100.0 then 20.0 else 0.0);
        prediction := Max(0.0, Min(100.0, prediction));
        row := row + [HeatCell(score, income, prediction)];
        j := j + 1;
      }
      grid := grid + [row];
      i := i + 1;
    }
    heatmap := Some(Reversed(grid));
  }

  /** The heatmap reaches the plot only at scene 3, the last one. */
  function PlotHeatmap(scene: nat, heatmap: Option<seq<seq<HeatCell>>>): (shown: Option<seq<seq<HeatCell>>>)
    ensures shown.Some? ==> scene == 3 && shown == heatmap
    ensures scene == 3 ==> shown == heatmap
  {
    if scene == 3 then heatmap else None
  }
}
