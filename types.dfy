/** The record and display types shared by the dashboards and the scatter plot (types.ts). */
module Types {

  /** A value that may be absent (`undefined` in the source). */
  datatype Option<T> = None | Some(value: T)

  /**
   * One loan application of the training set. Credit scores and incomes
   * (in thousands) are reals because the heatmaps evaluate the models on
   * fractional grid coordinates.
   */
  datatype Loan = Loan(id: int, creditScore: real, annualIncome: real, paidBack: bool)

  /** Fill of a data point: blue for a loan that was paid back, red for a default. */
  datatype DotColor = PaidBlue | DefaultRed

  /** The colour every dashboard gives a point; it depends on the outcome only. */
  function DotColorOf(paidBack: bool): (c: DotColor)
    ensures c.PaidBlue? <==> paidBack
  {
    if paidBack then PaidBlue else DefaultRed
  }

  datatype Shape = Circle | Square | Line

  /** One row of the floating legend panel. */
  datatype LegendItem = LegendItem(color: string, caption: string, shape: Shape)

  /** The two entries every dashboard legend starts with. */
  const PaidBackItem := LegendItem("rgba(59, 130, 246, 1)", "Paid Back (Risk 0%)", Circle)
  const DefaultedItem := LegendItem("rgba(239, 68, 68, 1)", "Defaulted (Risk 100%)", Circle)
  const BaseLegend: seq<LegendItem> := [PaidBackItem, DefaultedItem]

  datatype Orientation = Vertical | Horizontal

  /** A dashed threshold line drawn over the plot. */
  datatype DecisionBoundary = DecisionBoundary(orientation: Orientation, value: real, caption: string)

  /** One sample of a risk heatmap: domain coordinates and the risk there. */
  datatype HeatCell = HeatCell(x: real, y: real, value: real)
}
