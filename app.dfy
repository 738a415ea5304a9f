/**
 * The top-level navigator: one `view` value, replaced by the callbacks each
 * screen is given. `Step` is the switch that decides which controls a view
 * offers and where they lead; `AppState` holds the mutable field.
 */
module App {
  import opened Types
  import opened Views
  import Menu = AlgorithmMenu

  /** The controls that the screens hand back to the navigator. */
  datatype Action =
    | Start                   // intro page: start the course
    | OpenInteractiveSummary  // intro page: go straight to the overview
    | Back                    // the back button of every other page
    | MenuPress(button: Menu.MenuButton)  // a button of the algorithm menu
    | Explore(algo: Algo)     // enhanced summary: "Explore <algorithm>"
    | SelectIntro             // main menu: back to the intro
    | SelectCard(card: Algo)  // main menu: an algorithm card
    | SelectSummary           // main menu: the summary button

  /**
   * The view a string sets. Any value the switch does not list is drawn by
   * its default branch, the main menu.
   */
  function Rendered(name: string): (v: View)
    ensures ParseView(name).Some? ==> v == ParseView(name).value
    ensures ParseView(name).None? ==> v == Menu
  {
    match ParseView(name)
    case Some(w) => w
    case None => Menu
  }

  /** Every target the algorithm menu can pass is a listed view: a dashboard or a technical page. */
  lemma MenuTargetsAreViews(b: Menu.MenuButton)
    requires Menu.Shown(b) && Menu.Press(b).Navigate?
    ensures ParseView(Menu.Press(b).target).Some?
    ensures Rendered(Menu.Press(b).target) ==
      match b
      case VisualLearning(k) => Visual(CardAlgo(k))
      case DeepDive(k) => Technical(CardAlgo(k))
      case _ => InteractiveSummary
  {
    Menu.AlgorithmTable();
    match b
    case HeaderSummary =>
    case BannerSummary =>
    case BackButton =>
    case VisualLearning(k) =>
      assert k == 0 || k == 1 || k == 2;
    case DeepDive(k) =>
      assert k == 0 || k == 1 || k == 2;
      ParseViewName(Technical(CardAlgo(k)));
  }

  /** The algorithm of the menu card at `k`, in table order. */
  function CardAlgo(k: nat): (a: Algo)
    ensures k < |Menu.Algorithms| ==> AlgoId(a) == Menu.Algorithms[k].id
  {
    if k == 0 then AdaBoost else if k == 1 then GradientBoost else XGBoost
  }

  /**
   * The view after pressing control `a` on view `v`, or `None` when that
   * view shows no such control.
   */
  function Step(v: View, a: Action): (r: Option<View>)
    ensures a == Back && v !in {Intro, Menu, AlgorithmMenu} ==> r == Some(AlgorithmMenu)
    ensures v == AlgorithmMenu && a == MenuPress(Menu.BackButton) ==> r == Some(Intro)
    ensures r.Some? ==> r.value != Summary
  {
    match v
    case Intro =>
      if a == Start then Some(AlgorithmMenu)
      else if a == OpenInteractiveSummary then Some(InteractiveSummary)
      else None
    case Summary => if a == Back then Some(AlgorithmMenu) else None
    case InteractiveSummary => if a == Back then Some(AlgorithmMenu) else None
    case Visual(_) => if a == Back then Some(AlgorithmMenu) else None
    case Technical(_) => if a == Back then Some(AlgorithmMenu) else None
    case EnhancedSummary =>
      if a == Back then Some(AlgorithmMenu)
      else if a.Explore? then Some(Visual(a.algo))
      else None
    case AlgorithmMenu =>
      if a.MenuPress? && Menu.Shown(a.button) then
        match Menu.Press(a.button)
        case GoBack => Some(Intro)
        case Navigate(t) => (MenuTargetsAreViews(a.button); Some(Rendered(t)))
      else None
    case Menu =>
      if a == SelectIntro then Some(Intro)
      else if a.SelectCard? then Some(Visual(a.card))
      else if a == SelectSummary then Some(EnhancedSummary)
      else None
  }

  /** The views a visitor can reach from the intro page. */
  predicate Reachable(v: View)
  {
    v == Intro || v == AlgorithmMenu || v == InteractiveSummary || v.Visual? || v.Technical?
  }

  /** No control leads out of the reachable views. */
  lemma StepClosed(v: View, a: Action)
    requires Reachable(v) && Step(v, a).Some?
    ensures Reachable(Step(v, a).value)
  {
    if v == AlgorithmMenu && a.MenuPress? && Menu.Press(a.button).Navigate? {
      MenuTargetsAreViews(a.button);
    }
  }

  /** The view after a sequence of controls, or `None` if one of them is not on screen. */
  function Run(v: View, actions: seq<Action>): (r: Option<View>)
    decreases |actions|
  {
    if |actions| == 0 then Some(v)
    else match Step(v, actions[0])
      case None => None
      case Some(w) => Run(w, actions[1..])
  }

  /** Whatever a visitor does from a reachable view, they stay among the reachable views. */
  lemma {:induction false} RunStaysReachable(v: View, actions: seq<Action>)
    requires Reachable(v) && Run(v, actions).Some?
    ensures Reachable(Run(v, actions).value)
    decreases |actions|
  {
    if |actions| > 0 {
      var w := Step(v, actions[0]).value;
      StepClosed(v, actions[0]);
      RunStaysReachable(w, actions[1..]);
    }
  }

  /** A way to reach each reachable view from the intro page. */
  function PathTo(v: View): (path: seq<Action>)
    requires Reachable(v)
    ensures Run(Intro, path) == Some(v)
  {
    match v
    case Intro => []
    case InteractiveSummary => [OpenInteractiveSummary]
    case AlgorithmMenu => [Start]
    case Visual(a) =>
      var k := CardIndex(a);
      MenuTargetsAreViews(Menu.VisualLearning(k));
      ViaMenu(Menu.VisualLearning(k));
      [Start, MenuPress(Menu.VisualLearning(k))]
    case Technical(a) =>
      var k := CardIndex(a);
      MenuTargetsAreViews(Menu.DeepDive(k));
      ViaMenu(Menu.DeepDive(k));
      [Start, MenuPress(Menu.DeepDive(k))]
  }

  /** Start, then a menu button: the view is the one that button leads to. */
  lemma ViaMenu(b: Menu.MenuButton)
    requires Step(AlgorithmMenu, MenuPress(b)).Some?
    ensures Run(Intro, [Start, MenuPress(b)]) == Step(AlgorithmMenu, MenuPress(b))
  {
    var p := [Start, MenuPress(b)];
    var w := Step(AlgorithmMenu, MenuPress(b)).value;
    assert Step(Intro, p[0]) == Some(AlgorithmMenu);
    assert Run(Intro, p) == Run(AlgorithmMenu, p[1..]);
    assert p[1..] == [MenuPress(b)];
    assert Run(AlgorithmMenu, [MenuPress(b)]) == Run(w, [MenuPress(b)][1..]);
    assert [MenuPress(b)][1..] == [];
  }

  /** The position of an algorithm's card in the menu. */
  function CardIndex(a: Algo): (k: nat)
    ensures k < |Menu.Algorithms| && CardAlgo(k) == a
  {
    match a
    case AdaBoost => 0
    case GradientBoost => 1
    case XGBoost => 2
  }

  /**
   * From the intro page the reachable views are exactly the intro, the
   * algorithm menu, the interactive summary and the six dashboards; the
   * summary, the main menu and the enhanced summary are never shown.
   */
  lemma ReachableExactly(v: View)
    ensures Reachable(v) <==> exists path :: Run(Intro, path) == Some(v)
    ensures v in {Summary, Menu, EnhancedSummary} ==> !Reachable(v)
  {
    if Reachable(v) {
      assert Run(Intro, PathTo(v)) == Some(v);
    }
    if exists path :: Run(Intro, path) == Some(v) {
      var path :| Run(Intro, path) == Some(v);
      RunStaysReachable(Intro, path);
    }
  }

  /** Intro, Start, the AdaBoost dashboard, Back, Back: the visitor is on the intro page again. */
  lemma RoundTrip()
    ensures Run(Intro, [Start]) == Some(AlgorithmMenu)
    ensures Run(Intro, [Start, MenuPress(Menu.VisualLearning(0))]) == Some(Visual(AdaBoost))
    ensures Run(Intro, [Start, MenuPress(Menu.VisualLearning(0)), Back]) == Some(AlgorithmMenu)
    ensures Run(Intro, [Start, MenuPress(Menu.VisualLearning(0)), Back, MenuPress(Menu.BackButton)]) == Some(Intro)
  {
    var p := [Start, MenuPress(Menu.VisualLearning(0)), Back, MenuPress(Menu.BackButton)];
    MenuTargetsAreViews(Menu.VisualLearning(0));
    assert p[1..] == [MenuPress(Menu.VisualLearning(0)), Back, MenuPress(Menu.BackButton)];
    assert p[2..] == [Back, MenuPress(Menu.BackButton)];
    assert p[3..] == [MenuPress(Menu.BackButton)];
    assert [Start, MenuPress(Menu.VisualLearning(0))][1..] == [MenuPress(Menu.VisualLearning(0))];
    assert [Start, MenuPress(Menu.VisualLearning(0)), Back][1..] == [MenuPress(Menu.VisualLearning(0)), Back];
    assert [MenuPress(Menu.VisualLearning(0)), Back][1..] == [Back];
  }

  /** The application's single piece of navigation state. */
  class AppState {
    var view: View

    /** The application opens on the intro page. */
    constructor ()
      ensures view == Intro
    {
      view := Intro;
    }

    /** A control on the current screen sets the view it names. */
    method Dispatch(a: Action)
      requires Step(view, a).Some?
      modifies this
      ensures view == Step(old(view), a).value
    {
      view := Step(view, a).value;
    }
  }
}
