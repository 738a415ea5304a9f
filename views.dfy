/** The screens of the application and their string names (types.ts `AlgorithmView` and App.tsx). */
module Views {
  import opened Types

  /** The three boosting algorithms the application teaches. */
  datatype Algo = AdaBoost | GradientBoost | XGBoost

  /** Every value the top-level `view` state can hold. */
  datatype View =
    | Intro
    | Menu
    | AlgorithmMenu
    | Summary
    | EnhancedSummary
    | InteractiveSummary
    | Visual(algo: Algo)
    | Technical(algo: Algo)

  /**
   * The id of an algorithm, which is also the name of its visual dashboard.
   * No id holds a hyphen, so an id followed by "-technical" is never an id.
   */
  function AlgoId(a: Algo): (s: string)
    ensures |s| > 0 && '-' !in s
  {
    match a
    case AdaBoost => "adaboost"
    case GradientBoost => "gradientboost"
    case XGBoost => "xgboost"
  }

  /**
   * The string the source stores for each view: an algorithm's visual page
   * is named by its id, its technical page by the id and "-technical".
   */
  function ViewName(v: View): (s: string)
    ensures |s| > 0
    ensures v.Technical? ==> s == AlgoId(v.algo) + "-technical"
  {
    match v
    case Intro => "intro"
    case Menu => "menu"
    case AlgorithmMenu => "algorithm-menu"
    case Summary => "summary"
    case EnhancedSummary => "enhanced-summary"
    case InteractiveSummary => "interactive-summary"
    case Visual(a) => AlgoId(a)
    case Technical(a) => TechnicalIdSuffix(a); TechnicalId(a)
  }

  /** The name of an algorithm's technical page. */
  function TechnicalId(a: Algo): string
  {
    match a
    case AdaBoost => "adaboost-technical"
    case GradientBoost => "gradientboost-technical"
    case XGBoost => "xgboost-technical"
  }

  /** A technical page is named by its algorithm's id followed by "-technical". */
  lemma TechnicalIdSuffix(a: Algo)
    ensures TechnicalId(a) == AlgoId(a) + "-technical"
  {
    match a
    case AdaBoost =>
    case GradientBoost =>
    case XGBoost =>
  }

  /**
   * The view a string names, if any: every string it recognises is the name
   * of the view it selects, so names and views correspond one to one.
   */
  function ParseView(s: string): (v: Option<View>)
    ensures v.Some? ==> ViewName(v.value) == s
  {
    if s == "intro" then Some(Intro)
    else if s == "menu" then Some(Menu)
    else if s == "algorithm-menu" then Some(AlgorithmMenu)
    else if s == "summary" then Some(Summary)
    else if s == "enhanced-summary" then Some(EnhancedSummary)
    else if s == "interactive-summary" then Some(InteractiveSummary)
    else if s == "adaboost" then Some(Visual(AdaBoost))
    else if s == "gradientboost" then Some(Visual(GradientBoost))
    else if s == "xgboost" then Some(Visual(XGBoost))
    else if s == "adaboost-technical" then Some(Technical(AdaBoost))
    else if s == "gradientboost-technical" then Some(Technical(GradientBoost))
    else if s == "xgboost-technical" then Some(Technical(XGBoost))
    else None
  }

  /** Naming a view and reading the name back gives the same view. */
  lemma ParseViewName(v: View)
    ensures ParseView(ViewName(v)) == Some(v)
  {
    match v
    case Visual(a) =>
      match a {
        case AdaBoost =>
        case GradientBoost =>
        case XGBoost =>
      }
    case Technical(a) =>
      match a {
        case AdaBoost =>
        case GradientBoost =>
        case XGBoost =>
      }
    case _ =>
  }
}
