/**
 * The Gradient Boosting dashboard: an additive risk score (the default
 * rate plus banded corrections), the residual of every loan against its
 * true risk, the legend, and the 20x20 heatmap of the final predictor.
 */
module GradientBoostDashboard {
  import opened Types
  import opened Constants
  import opened HeatGrid
  import Scenes
  import ScatterPlot

  /** The dashboard has five scenes. */
  const SceneCount: nat := 5

  /** The dashboard's own scene state, starting at the first scene. */
  method Open() returns (cursor: Scenes.SceneCursor)
    ensures fresh(cursor) && cursor.Valid()
    ensures cursor.count == SceneCount && cursor.scene == 0
  {
    cursor := new Scenes.SceneCursor(SceneCount);
  }

  /** The outcome as a risk: 0 for a loan paid back, 100 for a default. */
  function TrueRisk(loan: Loan): (risk: real)
    ensures risk == 0.0 || risk == 100.0
    ensures risk == 0.0 <==> loan.paidBack
  {
    if loan.paidBack then 0.0 else 100.0
  }

  /** Percentage of defaulted loans in a non-empty set of loans. */
  function DefaultRate(loans: seq<Loan>): (rate: real)
    requires |loans| > 0
    ensures 0.0 <= rate <= 100.0
  {
    (DefaultCount(loans) as real / |loans| as real) * 100.0
  }

  /** `AVERAGE_RISK`: the default rate of the data set, 12 out of 25. */
  function AverageRisk(): (risk: real)
    ensures risk == 48.0
  {
    DefaultCountOfLoanData();
    DefaultRate(LoanData)
  }

  /** The second officer's correction, banded on the credit score. */
  function ScoreCorrection(loan: Loan): real
  {
    if loan.creditScore > 700.0 then -20.0
    else if loan.creditScore < 620.0 then 30.0
    else 5.0
  }

  /** The third officer's correction, banded on the income. */
  function IncomeCorrection(loan: Loan): real
  {
    if loan.annualIncome > 100.0 then -15.0
    else if loan.annualIncome < 45.0 then 25.0
    else 0.0
  }

  /** `getPrediction`: the ensemble's risk estimate at a scene; `None` before the first officer. */
  function Prediction(loan: Loan, scene: nat): (p: Option<real>)
    ensures p.None? <==> scene == 0
    ensures scene == 1 ==> p == Some(AverageRisk())
    ensures scene == 2 || scene == 3 ==> p == Some(AverageRisk() + ScoreCorrection(loan))
    ensures scene >= 4 ==> p == Some(AverageRisk() + ScoreCorrection(loan) + IncomeCorrection(loan))
    ensures p.Some? ==> AverageRisk() - 35.0 <= p.value <= AverageRisk() + 55.0
  {
    if scene == 0 then None
    else if scene == 1 then Some(AverageRisk())
    else
      var officer2 := ScoreCorrection(loan);
      if scene == 2 || scene == 3 then Some(AverageRisk() + officer2)
      else
        var officer3 := IncomeCorrection(loan);
        Some(AverageRisk() + officer2 + officer3)
  }

  /** The first officer guesses the same 48% for every loan, and scenes 2 and 3 agree everywhere. */
  lemma BaselineAndPlateau(a: Loan, b: Loan)
    ensures Prediction(a, 1) == Prediction(b, 1) == Some(48.0)
    ensures Prediction(a, 2) == Prediction(a, 3)
  {
  }

  /** The gap between the true risk and the prediction, where there is a prediction. */
  function Residual(loan: Loan, scene: nat): (r: Option<real>)
    ensures r.Some? <==> Prediction(loan, scene).Some?
    ensures r.Some? ==> Prediction(loan, scene).value + r.value == TrueRisk(loan)
  {
    var prediction := Prediction(loan, scene);
    if prediction.Some? then Some(TrueRisk(loan) - prediction.value) else None
  }

  /** A plotted loan with its residual at the current scene. */
  datatype GBPoint = GBPoint(loan: Loan, displayColor: DotColor, displaySize: real, residual: Option<real>)

  /** `plotData`: one point per loan in data-set order, size 5, coloured by outcome. */
  function PlotData(scene: nat): (points: seq<GBPoint>)
    ensures |points| == |LoanData|
    ensures forall i :: 0 <= i < |points| ==>
      && points[i].loan == LoanData[i]
      && points[i].displaySize == 5.0
      && (points[i].displayColor == PaidBlue <==> LoanData[i].paidBack)
      && points[i].residual == Residual(LoanData[i], scene)
  {
    seq(|LoanData|, i requires 0 <= i < |LoanData| =>
      GBPoint(LoanData[i], DotColorOf(LoanData[i].paidBack), 5.0, Residual(LoanData[i], scene)))
  }

  const ErrorItem := LegendItem("#94a3b8", "Prediction Error", Line)

  /** The legend: the two outcome entries, plus the error line at scenes 1 to 4. */
  function LegendItems(scene: nat): (items: seq<LegendItem>)
    ensures |items| >= 2 && items[..2] == BaseLegend
    ensures ErrorItem in items <==> 0 < scene < 5
    ensures |items| == if 0 < scene < 5 then 3 else 2
  {
    BaseLegend + (if scene > 0 && scene < 5 then [ErrorItem] else [])
  }

  /**
   * Whether residual segments are drawn: at scenes 1 to 3, the scenes that
   * have a prediction but are not the last. The legend keeps its error entry
   * at the last scene although no segment is drawn there.
   */
  function ShowResiduals(scene: nat): (shown: bool)
    ensures shown <==> 0 < scene < SceneCount - 1
    ensures shown ==> ErrorItem in LegendItems(scene)
    ensures !shown && ErrorItem in LegendItems(scene) <==> scene == SceneCount - 1
  {
    scene > 0 && scene < 4
  }

  /**
   * While residuals are shown, the segment of a defaulted loan points up
   * (towards a smaller pixel y) and that of a repaid loan points down:
   * every prediction there lies strictly between 0 and 100.
   */
  lemma ResidualSegmentDirection(loan: Loan, scene: nat)
    requires ShowResiduals(scene)
    ensures var seg := ScatterPlot.ResidualSegment(ScatterPlotConfig, ShowResiduals(scene),
                                                   loan.creditScore, loan.annualIncome, Residual(loan, scene));
      seg.Some? && (seg.value.y2 < seg.value.y1 <==> !loan.paidBack)
  {
  }

  /** The heatmap's domains, written out in the dashboard; they equal the plot's. */
  const HeatmapXDomain := Domain(540.0, 830.0)
  const HeatmapYDomain := Domain(20.0, 160.0)

  /** The grid cell of row `i` (income) and column `j` (score) before the rows are reversed. */
  function CellAt(i: nat, j: nat): HeatCell
  {
    var score := SampleAt(HeatmapXDomain, j);
    var income := SampleAt(HeatmapYDomain, i);
    HeatCell(score, income, OrZero(Prediction(Loan(-1, score, income, true), 4)))
  }

  /** `prediction || 0`: a missing prediction (and a zero one) gives 0. */
  function OrZero(p: Option<real>): real
  {
    if p.Some? then p.value else 0.0
  }

  /**
   * Each heatmap value is the final-scene prediction at that point, within
   * [48 - 35, 48 + 55]; it is not clamped to 100.
   */
  lemma HeatValueIsFinalPrediction(i: nat, j: nat)
    ensures ScatterPlotConfig.xDomain == HeatmapXDomain && ScatterPlotConfig.yDomain == HeatmapYDomain
    ensures var c := CellAt(i, j);
      && c.value == Prediction(Loan(-1, c.x, c.y, true), 4).value
      && 13.0 <= c.value <= 103.0
  {
  }

  /** The bottom-left sample (score 540, income 20) has risk 103, above 100. */
  lemma CornerExceeds100()
    ensures CellAt(0, 0) == HeatCell(540.0, 20.0, 103.0)
  {
  }

  /**
   * `heatmapData`: nothing before scene 4; otherwise 20 rows of 20 cells,
   * built row by row and then reversed, so that row 0 is the top (income 160).
   */
  method BuildHeatmap(scene: nat) returns (heatmap: Option<seq<seq<HeatCell>>>)
    ensures heatmap.None? <==> scene < 4
    ensures heatmap.Some? ==> IsGrid(heatmap.value, GridSize, GridSize)
    ensures heatmap.Some? ==> forall k, j :: 0 <= k < GridSize && 0 <= j < GridSize ==>
      heatmap.value[k][j] == CellAt(GridSize - 1 - k, j)
  {
    if scene < 4 {
      return None;
    }
    var grid: seq<seq<HeatCell>> := [];
    var i := 0;
    while i < GridSize
      invariant 0 <= i <= GridSize
      invariant IsGrid(grid, i, GridSize)
      invariant forall r, j :: 0 <= r < i && 0 <= j < GridSize ==> grid[r][j] == CellAt(r, j)
    {
      var row: seq<HeatCell> := [];
      var j := 0;
      while j < GridSize
        invariant 0 <= j <= GridSize
        invariant |row| == j
        invariant forall c :: 0 <= c < j ==> row[c] == CellAt(i, c)
      {
        var score := SampleAt(HeatmapXDomain, j);
        var income := SampleAt(HeatmapYDomain, i);
        var probe := Loan(-1, score, income, true);
        var prediction := Prediction(probe, 4);
        row := row + [HeatCell(score, income, OrZero(prediction))];
        j := j + 1;
      }
      grid := grid + [row];
      i := i + 1;
    }
    heatmap := Some(Reversed(grid));
  }

  /** After the reversal the first row is the top of the plot (income 160) and the last the bottom. */
  lemma HeatmapRowsTopDown(j: nat)
    ensures CellAt(GridSize - 1, j).y == 160.0 && CellAt(0, j).y == 20.0
    ensures CellAt(GridSize - 1, j).x == CellAt(0, j).x == SampleAt(HeatmapXDomain, j)
  {
  }
}
