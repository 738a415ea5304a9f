/**
 * The AdaBoost dashboard: a vote built from one threshold rule, then from
 * the OR of two, the view model of every loan, the legend and the drawn
 * decision boundaries, all as functions of the scene index.
 */
module AdaBoostDashboard {
  import opened Types
  import opened Constants
  import Scenes

  /** The dashboard has five scenes. */
  const SceneCount: nat := 5

  /** The dashboard's own scene state, starting at the first scene. */
  method Open() returns (cursor: Scenes.SceneCursor)
    ensures fresh(cursor) && cursor.Valid()
    ensures cursor.count == SceneCount && cursor.scene == 0
  {
    cursor := new Scenes.SceneCursor(SceneCount);
  }

  /** Officer Alex's rule: approve when the credit score is above 680. */
  predicate AlexRule(loan: Loan)
  {
    loan.creditScore > 680.0
  }

  /** Officer Betty's rule: approve when the income is above 80k. */
  predicate BettyRule(loan: Loan)
  {
    loan.annualIncome > 80.0
  }

  /** The team's vote on a loan at a scene; `None` before any officer exists. */
  function Classification(loan: Loan, scene: nat): (vote: Option<bool>)
    ensures vote.None? <==> scene == 0
    ensures scene == 1 || scene == 2 ==> vote == Some(loan.creditScore > 680.0)
    ensures scene >= 3 ==> vote == Some(loan.creditScore > 680.0 || loan.annualIncome > 80.0)
  {
    if scene == 0 then None
    else if scene == 1 then Some(AlexRule(loan))
    else if scene == 2 then Some(AlexRule(loan))
    else Some(AlexRule(loan) || BettyRule(loan))
  }

  /** Adding Betty's rule only adds approvals: an approval at scene 1 or 2 stands at every later scene. */
  lemma ApprovalMonotone(loan: Loan, early: nat, late: nat)
    requires 1 <= early <= late
    ensures Classification(loan, early) == Some(true) ==> Classification(loan, late) == Some(true)
  {
  }

  /** A plotted loan with its verdict at the current scene. */
  datatype AdaPoint = AdaPoint(loan: Loan, displayColor: DotColor, displaySize: real,
                               highlight: bool, isMistake: bool, isCorrect: bool)

  /** The view model of one loan at a scene. */
  function PointFor(loan: Loan, scene: nat): (p: AdaPoint)
    ensures p.loan == loan
  {
    var prediction := Classification(loan, scene);
    var isMistake := prediction.Some? && prediction.value != loan.paidBack;
    var isCorrect := prediction.Some? && prediction.value == loan.paidBack;
    var displaySize := if (scene == 1 || scene == 2) && isMistake then 12.0 else 5.0;
    AdaPoint(loan, DotColorOf(loan.paidBack), displaySize,
             (scene == 1 || scene == 2) && isMistake, isMistake, isCorrect)
  }

  /** A point is a mistake or correct, never both, and neither exactly when there is no vote yet. */
  lemma VerdictsExclusive(loan: Loan, scene: nat)
    ensures var p := PointFor(loan, scene);
      && !(p.isMistake && p.isCorrect)
      && (!p.isMistake && !p.isCorrect <==> scene == 0)
      && (p.isMistake <==> scene > 0 && Classification(loan, scene).value != loan.paidBack)
  {
  }

  /**
   * Only the mistakes of scenes 1 and 2 are enlarged and highlighted
   * (size 12), every other point has size 5, and the colour follows the
   * outcome alone.
   */
  lemma HighlightRule(loan: Loan, scene: nat)
    ensures var p := PointFor(loan, scene);
      && (p.highlight <==> (scene == 1 || scene == 2) && p.isMistake)
      && (p.displaySize == if p.highlight then 12.0 else 5.0)
      && p.displayColor == PointFor(loan, 0).displayColor
      && (p.displayColor == PaidBlue <==> loan.paidBack)
  {
  }

  /** Loan 9 (score 700, income 45k, defaulted) is approved by the team at scene 3: a mistake. */
  lemma Loan9IsMistakeAtScene3()
    ensures LoanData[8].id == 9
    ensures Classification(LoanData[8], 3) == Some(true)
    ensures PointFor(LoanData[8], 3).isMistake && !PointFor(LoanData[8], 3).highlight
  {
  }

  /** `plotData`: one point per loan, in the order of the data set. */
  function PlotData(scene: nat): (points: seq<AdaPoint>)
    ensures |points| == |LoanData|
    ensures forall i :: 0 <= i < |points| ==> points[i].loan == LoanData[i]
    ensures forall i :: 0 <= i < |points| ==> points[i] == PointFor(LoanData[i], scene)
  {
    seq(|LoanData|, i requires 0 <= i < |LoanData| => PointFor(LoanData[i], scene))
  }

  /**
   * On the data set the score rule alone (scenes 1 and 2) gets loans
   * 7, 8, 9, 10, 13, 17, 20, 21 and 24 wrong, and those are the highlighted
   * points.
   */
  lemma HighlightedOnLoanData()
    ensures forall i :: 0 <= i < |LoanData| ==>
      (PlotData(2)[i].highlight <==> LoanData[i].id in {7, 8, 9, 10, 13, 17, 20, 21, 24})
  {
  }

  /** The two-rule vote of scene 3 still gets loans 9, 10, 13, 17 and 20 wrong. */
  lemma MistakesOnLoanData()
    ensures forall i :: 0 <= i < |LoanData| ==>
      (PlotData(3)[i].isMistake <==> LoanData[i].id in {9, 10, 13, 17, 20})
  {
  }

  const MistakesItem := LegendItem("yellow", "Mistakes (Bigger Weight)", Square)
  const BoundaryItem := LegendItem("white", "Prediction Boundary", Line)

  /** The legend: the two outcome entries, then the extras of the scene. */
  function LegendItems(scene: nat): (items: seq<LegendItem>)
    ensures |items| >= 2 && items[..2] == BaseLegend
    ensures MistakesItem in items <==> scene == 1 || scene == 2
    ensures BoundaryItem in items <==> scene == 4
    ensures |items| == if scene == 1 || scene == 2 || scene == 4 then 3 else 2
  {
    BaseLegend
      + (if scene == 1 || scene == 2 then [MistakesItem] else [])
      + (if scene == 4 then [BoundaryItem] else [])
  }

  /** The dashed threshold lines of a scene. */
  function DecisionBoundaries(scene: nat): (bs: seq<DecisionBoundary>)
    ensures scene == 0 || scene == 4 ==> bs == []
    ensures scene == 1 || scene == 2 ==> bs == [DecisionBoundary(Vertical, 680.0, "Alex's Rule")]
    ensures scene == 3 ==>
      bs == [DecisionBoundary(Vertical, 680.0, "Alex"), DecisionBoundary(Horizontal, 80.0, "Betty")]
  {
    if scene == 0 || scene == 4 then []
    else if scene == 1 || scene == 2 then [DecisionBoundary(Vertical, 680.0, "Alex's Rule")]
    else [DecisionBoundary(Vertical, 680.0, "Alex"), DecisionBoundary(Horizontal, 80.0, "Betty")]
  }

  /** Whether a loan lies to the right of, or above, some boundary line. */
  predicate BeyondSome(bs: seq<DecisionBoundary>, loan: Loan)
  {
    exists k :: 0 <= k < |bs| &&
      (if bs[k].orientation == Vertical then loan.creditScore > bs[k].value
       else loan.annualIncome > bs[k].value)
  }

  /**
   * At scenes 1 to 3 the drawn lines are the decision rule: the team approves
   * a loan exactly when it lies beyond one of the lines.
   */
  lemma BoundariesDrawTheRule(loan: Loan, scene: nat)
    requires 1 <= scene <= 3
    ensures Classification(loan, scene) == Some(BeyondSome(DecisionBoundaries(scene), loan))
  {
    var bs := DecisionBoundaries(scene);
    if AlexRule(loan) {
      assert bs[0].orientation == Vertical;
    } else if scene == 3 && BettyRule(loan) {
      assert bs[1].orientation == Horizontal;
    }
  }

  /**
   * Whether the scatter plot draws its decorative gradient background: only
   * at the final scene, the one whose legend names the prediction boundary
   * and which draws no threshold lines.
   */
  function ShowGradientBackground(scene: nat): (shown: bool)
    ensures shown <==> scene == SceneCount - 1
    ensures shown <==> BoundaryItem in LegendItems(scene)
    ensures shown ==> DecisionBoundaries(scene) == []
  {
    scene == 4
  }
}
