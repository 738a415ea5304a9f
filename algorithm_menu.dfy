/**
 * The algorithm menu: a fixed table of the three algorithms and buttons
 * that hand fixed view names to the navigator. It keeps no state.
 */
module AlgorithmMenu {

  /** One card of the menu: the visual dashboard's id and the technical view's id. */
  datatype AlgorithmEntry = AlgorithmEntry(id: string, title: string, technical: string)

  /** The `algorithms` table. */
  const Algorithms: seq<AlgorithmEntry> := [
    AlgorithmEntry("adaboost", "AdaBoost", "adaboost-technical"),
    AlgorithmEntry("gradientboost", "Gradient Boosting", "gradientboost-technical"),
    AlgorithmEntry("xgboost", "XGBoost", "xgboost-technical")
  ]

  /** The buttons of the menu; `Visual` and `DeepDive` belong to the card at `index`. */
  datatype MenuButton =
    | HeaderSummary
    | BannerSummary
    | BackButton
    | VisualLearning(index: nat)
    | DeepDive(index: nat)

  /** What a button asks of the navigator: a view by name, or going back. */
  datatype MenuEffect = Navigate(target: string) | GoBack

  /** Whether the menu shows the button (a card button needs a card). */
  predicate Shown(b: MenuButton)
  {
    (b.VisualLearning? ==> b.index < |Algorithms|) && (b.DeepDive? ==> b.index < |Algorithms|)
  }

  /** The callback each button makes. */
  function Press(b: MenuButton): (e: MenuEffect)
    requires Shown(b)
    ensures e.GoBack? <==> b == BackButton
    ensures b.VisualLearning? ==> e == Navigate(Algorithms[b.index].id)
    ensures b.DeepDive? ==> e == Navigate(Algorithms[b.index].technical)
  {
    match b
    case HeaderSummary => Navigate("interactive-summary")
    case BannerSummary => Navigate("interactive-summary")
    case BackButton => GoBack
    case VisualLearning(k) => Navigate(Algorithms[k].id)
    case DeepDive(k) => Navigate(Algorithms[k].technical)
  }

  /** Three algorithms with distinct ids, each technical id its id followed by "-technical". */
  lemma AlgorithmTable()
    ensures |Algorithms| == 3
    ensures Algorithms[0].id == "adaboost" && Algorithms[1].id == "gradientboost" && Algorithms[2].id == "xgboost"
    ensures forall i, j :: 0 <= i < j < |Algorithms| ==> Algorithms[i].id != Algorithms[j].id
    ensures forall i :: 0 <= i < |Algorithms| ==> Algorithms[i].technical == Algorithms[i].id + "-technical"
  {
  }

  /** Both summary buttons lead to the same view. */
  lemma SummaryButtonsAgree()
    ensures Press(HeaderSummary) == Press(BannerSummary) == Navigate("interactive-summary")
  {
  }
}
