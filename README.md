# Boosting, explained with loans — a verified model

The application teaches three boosting algorithms (AdaBoost, Gradient
Boosting, XGBoost) with one story: a bank's loan officers look at 25 past
loan applications, each with a credit score, an annual income and an
outcome (paid back or defaulted). The officers are weak rules, and they work
as a team. Each algorithm has a dashboard of scenes. Each scene shows the
loans on a scatter plot together with what the team predicts at that scene:
a vote, residual errors, or a risk heatmap. A top-level navigator switches
between the intro page, an algorithm menu, summaries and the dashboards. An
animated "specialist team" carousel and a parameter-tuning playground round
out the lessons.

This project models the logic behind those screens in Dafny and proves what
it promises:

- `types.dfy`, `constants.dfy`: the records, the fixed data set of 25 loans and the plot configuration, with facts checked about the data.
- `adaboost.dfy`, `gradientboost.dfy`, `xgboost.dfy`: the per-scene predictors of the three dashboards, and the view models built from them (plotted points, legends, decision boundaries, residuals, heatmap grids).
- `heatgrid.dfy`: the sampling of a domain into 20 grid steps, and the row reversal, shared by both heatmaps.
- `scatterplot.dfy`: the plot's numbers: drawing area, the two affine scales, colour channels, ticks, markers, residual segments and the procedural background.
- `scenes.dfy`: the wrapping scene index shared by the dashboards (a class with `Next` and `Jump`).
- `animation.dfy`: the carousel's step and auto-play machine (a class), its layer opacities and its progress label.
- `views.dfy`, `algorithm_menu.dfy`, `app.dfy`: the view names, the algorithm menu's buttons, and the navigator as a transition function plus a class holding the `view` field, with the reachable views characterised.
- `numeric.dfy`: `Math.min`, `Math.max` and `Math.round` on reals.
- `tuning.dfy`: the clamped accuracy formula of the playground and its state (a class).

Scores, incomes, risks and pixels are exact Dafny `real`s. A few
computations are nonlinear: the training time (rounds times depth), the
background risk (a product of two ratios), the heatmap samples, and the two
scales, which divide by a span taken from the configuration. The sign and
order facts about the last four are proved through the multiplication lemmas
in `numeric.dfy`. How these values differ from JavaScript doubles is listed
under "Left out". Where
the source computes with a loop (the two heatmaps and the background cells),
the model keeps the loop as a method. The method is proved equal, cell by
cell, to a specification function, and the lemmas are stated about that
function. The background method builds the cells where the source places
them. A separate function gives the corrected placement and carries the
tiling lemma (see Findings). The playground's accuracy estimate is
straight-line code with no loop; it is a method of the playground class
because it reads the class's fields.

## Model

| member | source | states |
|---|---|---|
| Types.DotColorOf | components/AdaBoostDashboard.tsx:73 | a point is drawn blue exactly when its loan was paid back, red otherwise |
| Numeric.Round | components/ScatterPlot.tsx:32 | `Math.round`: the result is the integer within half a unit of x, with halves rounded up |
| Constants.CreateLoan | constants.ts:3-5 | the record holds the four arguments unchanged |
| Constants.DefaultCount | components/GradientBoostDashboard.tsx:49 | the number of defaulted loans, never more than the number of loans |
| Constants.LoanDataIds | constants.ts:8-51 | exactly 25 records with ids 1..25 in order, so no two records share an id |
| Constants.LoanDataInDomain | constants.ts:8-59 | every score is in [550, 820] and every income in [25, 150], both strictly inside the plot's domains [540, 830] and [20, 160] |
| Constants.DefaultedIds | constants.ts:8-51 | a record is defaulted exactly when its id is one of 4, 5, 6, 9, 10, 12, 14, 18, 19, 20, 22, 25 |
| Constants.DefaultCountOfLoanData | constants.ts:8-51 | exactly 12 of the 25 loans defaulted |
| Constants.StoryRecords | constants.ts:19-26 | records 7 and 8 have score ≤ 680, income > 80 and were paid back; records 9 and 10 have score > 680, income ≤ 80 and defaulted, as the comments say |
| Views.AlgoId | types.ts:11-19 | every algorithm id is non-empty and holds no hyphen, so an id followed by "-technical" is never itself an id |
| Views.ViewName | App.tsx:70-72 | every view has a non-empty name, and a technical page is named by its algorithm's id followed by "-technical" |
| Views.TechnicalIdSuffix | components/AlgorithmMenu.tsx:19 | a technical page's name is its algorithm's id followed by "-technical" |
| Views.ParseViewName | App.tsx:70-72 | reading back the name of any view gives that view |
| Views.ParseView | App.tsx:75-104 | every string `ParseView` recognises (the switch's cases, plus "menu", which the switch reaches through its default) is the name of the view it selects, so names and views correspond one to one |
| Scenes.NextScene | components/AdaBoostDashboard.tsx:188 | Next moves one scene forward, and from the last scene back to the first; the result is a valid scene |
| Scenes.Advance | components/AdaBoostDashboard.tsx:188 | any number of Next presses keeps the scene valid |
| Scenes.AdvanceCompose | components/AdaBoostDashboard.tsx:188 | pressing Next a times and then b times is pressing it a + b times |
| Scenes.AdvanceNoWrap | components/AdaBoostDashboard.tsx:188 | until the last scene, each press moves exactly one scene forward |
| Scenes.CycleReturns | components/AdaBoostDashboard.tsx:188-191 | pressing Next once per scene returns to the starting scene |
| Scenes.NoEarlyReturn | components/AdaBoostDashboard.tsx:188-191 | no positive number of presses smaller than the scene count returns to the starting scene |
| Scenes.FullCycle | components/AdaBoostDashboard.tsx:188-191 | one press per scene returns to the starting scene, and no smaller positive number of presses does |
| Scenes.SceneCursor.constructor | components/AdaBoostDashboard.tsx:15 | a dashboard opens on scene 0 |
| Scenes.SceneCursor.Next | components/AdaBoostDashboard.tsx:188 | the scene becomes NextScene of the old scene and stays valid |
| Scenes.SceneCursor.Jump | components/AdaBoostDashboard.tsx:180 | a step indicator sets the scene to its own index |
| AdaBoostDashboard.Open | components/AdaBoostDashboard.tsx:15-45 | a fresh scene cursor over the 5 scenes, at scene 0 |
| AdaBoostDashboard.Classification | components/AdaBoostDashboard.tsx:56-64 | no vote exactly at scene 0; score > 680 at scenes 1–2; score > 680 or income > 80 from scene 3 |
| AdaBoostDashboard.ApprovalMonotone | components/AdaBoostDashboard.tsx:57-62 | a loan approved at a scene ≥ 1 stays approved at every later scene |
| AdaBoostDashboard.PointFor | components/AdaBoostDashboard.tsx:66-82 | the point carries its loan unchanged |
| AdaBoostDashboard.VerdictsExclusive | components/AdaBoostDashboard.tsx:69-70 | a point is never both a mistake and correct; it is neither exactly at scene 0; it is a mistake exactly when the vote differs from the outcome |
| AdaBoostDashboard.HighlightRule | components/AdaBoostDashboard.tsx:71-78 | highlight holds exactly for mistakes at scenes 1–2; size is 12 when highlighted and 5 otherwise; the colour does not depend on the scene and is blue exactly for paid-back loans |
| AdaBoostDashboard.Loan9IsMistakeAtScene3 | components/AdaBoostDashboard.tsx:56-78 | loan 9 (700, 45, defaulted) is approved at scene 3, so it is a mistake, and it is not highlighted there |
| AdaBoostDashboard.PlotData | components/AdaBoostDashboard.tsx:66-82 | one point per record, in data-set order, each carrying its record unchanged |
| AdaBoostDashboard.HighlightedOnLoanData | components/AdaBoostDashboard.tsx:66-82 | on the data set the highlighted points at scene 2 are exactly loans 7, 8, 9, 10, 13, 17, 20, 21, 24 |
| AdaBoostDashboard.MistakesOnLoanData | components/AdaBoostDashboard.tsx:66-82 | on the data set the mistakes at scene 3 are exactly loans 9, 10, 13, 17, 20 |
| AdaBoostDashboard.LegendItems | components/AdaBoostDashboard.tsx:85-93 | the legend starts with the two outcome entries; the yellow mistakes square appears exactly at scenes 1–2 and the boundary line exactly at scene 4 |
| AdaBoostDashboard.ShowGradientBackground | components/AdaBoostDashboard.tsx:143 | the background is shown exactly at the last scene, exactly when the legend names the prediction boundary, and then no threshold line is drawn |
| AdaBoostDashboard.DecisionBoundaries | components/AdaBoostDashboard.tsx:95-104 | no lines at scenes 0 and 4; the vertical 680 line at scenes 1–2; vertical 680 and horizontal 80 at scene 3 |
| AdaBoostDashboard.BoundariesDrawTheRule | components/AdaBoostDashboard.tsx:95-104 | at scenes 1–3 the team approves a loan exactly when the loan lies beyond one of the drawn lines |
| GradientBoostDashboard.Open | components/GradientBoostDashboard.tsx:13 | a fresh scene cursor over the 5 scenes, at scene 0 |
| GradientBoostDashboard.TrueRisk | components/GradientBoostDashboard.tsx:48 | the true risk is 0 or 100, and 0 exactly for a paid-back loan |
| GradientBoostDashboard.DefaultRate | components/GradientBoostDashboard.tsx:49 | the percentage of defaulted loans is in [0, 100] |
| GradientBoostDashboard.AverageRisk | components/GradientBoostDashboard.tsx:49 | on the data set the average risk is 48 |
| GradientBoostDashboard.Prediction | components/GradientBoostDashboard.tsx:51-62 | undefined exactly at scene 0; the average at scene 1; plus the score band at scenes 2–3; plus the income band from scene 4; always within [48 − 35, 48 + 55] |
| GradientBoostDashboard.BaselineAndPlateau | components/GradientBoostDashboard.tsx:53-56 | scene 1 predicts 48 for every loan, and scenes 2 and 3 predict the same for each loan |
| GradientBoostDashboard.Residual | components/GradientBoostDashboard.tsx:66-67 | the residual is defined exactly when the prediction is, and prediction + residual = true risk |
| GradientBoostDashboard.PlotData | components/GradientBoostDashboard.tsx:64-75 | one point per record in order, size 5, blue exactly when paid back, carrying that loan's residual |
| GradientBoostDashboard.LegendItems | components/GradientBoostDashboard.tsx:77-86 | the two outcome entries first; the error line exactly at scenes 1–4 |
| GradientBoostDashboard.ShowResiduals | components/GradientBoostDashboard.tsx:143 | residuals are drawn exactly at scenes 1–3, always with the error entry in the legend; the last scene keeps the legend entry with no segment drawn |
| GradientBoostDashboard.ResidualSegmentDirection | components/GradientBoostDashboard.tsx:143 | while residuals are shown (scenes 1–3) every loan gets a segment, and it points upward exactly for defaulted loans |
| GradientBoostDashboard.HeatValueIsFinalPrediction | components/GradientBoostDashboard.tsx:91-99 | each heatmap value is the scene-4 prediction at that cell's score and income, within [13, 103]; the written-out domains equal the plot's |
| GradientBoostDashboard.CornerExceeds100 | components/GradientBoostDashboard.tsx:95-99 | the cell at score 540 and income 20 has value 103, beyond 100, since nothing clamps it |
| GradientBoostDashboard.BuildHeatmap | components/GradientBoostDashboard.tsx:88-104 | nothing exactly before scene 4; otherwise 20 rows of 20 cells, where row k holds the samples of income row 19 − k |
| GradientBoostDashboard.HeatmapRowsTopDown | components/GradientBoostDashboard.tsx:96-103 | the last built row (the first after reversal) lies at income 160 and the first built row at income 20, over the same scores |
| HeatGrid.SampleAt | components/GradientBoostDashboard.tsx:95-96 | sample 0 is the domain's start, sample 19 its end, and every sample in between lies within the domain |
| HeatGrid.SampleIncreasing | components/XGBoostDashboard.tsx:57-58 | samples strictly increase with their index |
| HeatGrid.Reversed | components/GradientBoostDashboard.tsx:103 | `reverse()` keeps the length |
| HeatGrid.ReversedTwice | components/XGBoostDashboard.tsx:68 | reversing twice gives back the original order |
| XGBoostDashboard.Open | components/XGBoostDashboard.tsx:12-38 | a fresh scene cursor over the 4 scenes, at scene 0 |
| XGBoostDashboard.PlotData | components/XGBoostDashboard.tsx:40-48 | every record in order, size 5, blue exactly when paid back, whatever the scene |
| XGBoostDashboard.RawRisk | components/XGBoostDashboard.tsx:59-62 | before the clamp the risk is one of 75, 40, 5, −15; 75 exactly for score < 650 with income < 55, −15 exactly for score > 750 with income > 100 |
| XGBoostDashboard.Risk | components/XGBoostDashboard.tsx:59-63 | the clamped risk is in [0, 100] and always one of 0, 5, 40, 75 |
| XGBoostDashboard.ClampOnlyAtStrongCorner | components/XGBoostDashboard.tsx:59-63 | the clamp changes the value exactly where the raw sum is −15, which happens exactly for score > 750 and income > 100 |
| XGBoostDashboard.RiskMonotone | components/XGBoostDashboard.tsx:59-63 | a higher score or a higher income never raises the risk |
| XGBoostDashboard.BuildHeatmap | components/XGBoostDashboard.tsx:50-69 | nothing exactly before scene 3; otherwise 20 rows of 20 cells, where row k holds the clamped risk of income row 19 − k |
| XGBoostDashboard.PlotHeatmap | components/XGBoostDashboard.tsx:71-80 | the heatmap reaches the plot at scene 3 and at no other scene |
| ScatterPlot.PlotArea | components/ScatterPlot.tsx:24-25 | the drawing area is 690 by 400 and the configuration is well formed |
| ScatterPlot.XScale | components/ScatterPlot.tsx:27 | the start of the score domain maps to 0 and its end to the plot width |
| ScatterPlot.YScale | components/ScatterPlot.tsx:28 | the start of the income domain maps to the plot height and its end to 0 |
| ScatterPlot.XScaleIncreasing | components/ScatterPlot.tsx:27 | the x scale is affine with slope width / span, hence strictly increasing |
| ScatterPlot.YScaleDecreasing | components/ScatterPlot.tsx:28 | the y scale is affine with slope −height / span, hence strictly decreasing |
| ScatterPlot.HeatRed | components/ScatterPlot.tsx:94 | the red channel is the integer nearest 2.55 × value, halves rounded up |
| ScatterPlot.HeatBlue | components/ScatterPlot.tsx:95 | the blue channel is the integer nearest 255 − 2.55 × value, halves rounded up |
| ScatterPlot.HeatChannels | components/ScatterPlot.tsx:94-95 | for a value in [0, 100] both channels are in [0, 255]; 0 gives (0, 255) and 100 gives (255, 0); red rises and blue falls with the value |
| ScatterPlot.HeatChannelsUnclamped | components/ScatterPlot.tsx:94-95 | nothing clamps the value: 103 gives red 263 and blue −8 |
| ScatterPlot.XTicks | components/ScatterPlot.tsx:116 | seven x ticks |
| ScatterPlot.YTicks | components/ScatterPlot.tsx:135 | eight y ticks |
| ScatterPlot.TicksOfScatterPlot | components/ScatterPlot.tsx:116-135 | the x ticks are 540 … 840, the last beyond the domain's end 830; the y ticks are 20 … 160, the last at the domain's end |
| ScatterPlot.PointMarker | components/ScatterPlot.tsx:220-228 | a highlighted point has radius 1.5 × its size and a yellow stroke; any other point has its own size and no stroke |
| ScatterPlot.ResidualSegment | components/ScatterPlot.tsx:201-216 | a segment exists exactly when residuals are shown and the point has one; it is vertical at the point's x, starts at the point, and is 0.2 × residual long, upward for a positive residual |
| ScatterPlot.BackgroundRiskRange | components/ScatterPlot.tsx:48-50 | every background risk is in (0, 100], and 100 exactly at cell (0, 0) |
| ScatterPlot.BackgroundCellAsWritten | components/ScatterPlot.tsx:44-65 | cell (i, j) as written: x = width × i / 20, top edge y = height × (1 − j / 20), size width / 20 × height / 20, risk `BackgroundRisk(i, j)` and the heat colour of that risk |
| ScatterPlot.BackgroundCellAt | components/ScatterPlot.tsx:44-65 | the corrected cell (i, j): same column, size and risk, with its top edge at y = height × (1 − (j + 1) / 20) |
| ScatterPlot.BackgroundOffByOneRow | components/ScatterPlot.tsx:45-64 | as written, the bottom row's cells start at y = 400, the lower edge of the area, so they lie below it; no cell starts above y = 20 |
| ScatterPlot.BackgroundTilesPlot | components/ScatterPlot.tsx:44-64 | with each cell's top at its upper sample, cell (i, j) covers x in [34.5 i, 34.5 (i+1)] and y in [400 − 20 (j+1), 400 − 20 j], inside the drawing area |
| ScatterPlot.CreateGradientBackground | components/ScatterPlot.tsx:37-70 | 400 cells, column by column and each column from the bottom row up: position 20 i + j holds cell (i, j) placed as the source places it (`BackgroundCellAsWritten`), not the corrected placement |
| ScatterPlot.BuiltBackgroundOverhangs | components/ScatterPlot.tsx:37-70 | on the fixed plot, the built background's bottom cell in every column starts at y = 400 and extends below the drawing area, and no built cell starts above y = 20 |
| SpecialistTeamAnimation.PrevStep | components/SpecialistTeamAnimation.tsx:75 | Prev moves one step back, and from step 0 to step 4 |
| SpecialistTeamAnimation.NextPrevInverse | components/SpecialistTeamAnimation.tsx:69-77 | Prev after Next and Next after Prev both restore the step |
| SpecialistTeamAnimation.TeamAnimation.constructor | components/SpecialistTeamAnimation.tsx:15-16 | the carousel starts at step 0 with auto-play on |
| SpecialistTeamAnimation.TeamAnimation.Next | components/SpecialistTeamAnimation.tsx:69-72 | the step advances with wrap-around and auto-play turns off |
| SpecialistTeamAnimation.TeamAnimation.Prev | components/SpecialistTeamAnimation.tsx:74-77 | the step goes back with wrap-around and auto-play turns off |
| SpecialistTeamAnimation.TeamAnimation.Jump | components/SpecialistTeamAnimation.tsx:562-565 | an indicator sets its own step and turns auto-play off |
| SpecialistTeamAnimation.TeamAnimation.TogglePlay | components/SpecialistTeamAnimation.tsx:590 | auto-play flips and the step is unchanged |
| SpecialistTeamAnimation.TeamAnimation.Tick | components/SpecialistTeamAnimation.tsx:61-67 | the timer advances the step only while auto-play is on, and never changes auto-play; the step stays in [0, 5) |
| SpecialistTeamAnimation.Opacity | components/SpecialistTeamAnimation.tsx:80-82 | the chassis is always fully opaque |
| SpecialistTeamAnimation.OpacityMonotone | components/SpecialistTeamAnimation.tsx:80-87 | no layer fades as the step grows; wheels, body and details are fully opaque from steps 1, 2 and 3; the glow shows only at step 4 |
| SpecialistTeamAnimation.ProgressPercent | components/SpecialistTeamAnimation.tsx:546 | at every step the progress is in (0, 100] and the last step reads 100 |
| SpecialistTeamAnimation.ProgressValues | components/SpecialistTeamAnimation.tsx:546 | the progress label reads 20 (step + 1) percent |
| AlgorithmMenu.Press | components/AlgorithmMenu.tsx:47-119 | only Back calls `onBack`; Visual Learning navigates to the card's id and Deep Dive to the card's technical target |
| AlgorithmMenu.AlgorithmTable | components/AlgorithmMenu.tsx:12-37 | three cards, with the distinct ids adaboost, gradientboost and xgboost; each technical target is its id followed by "-technical" |
| AlgorithmMenu.SummaryButtonsAgree | components/AlgorithmMenu.tsx:47-65 | the header button and the banner button both navigate to "interactive-summary" |
| App.Rendered | App.tsx:103-104 | a recognised name sets its own view; any other value falls to the main menu |
| App.MenuTargetsAreViews | App.tsx:88 | every target the menu can pass is a recognised view: the card's dashboard, its technical page or the interactive summary |
| App.Step | App.tsx:74-106 | Back from every page other than the intro, the main menu and the algorithm menu leads to the algorithm menu; Back on the algorithm menu leads to the intro; no control ever leads to the summary page |
| App.StepClosed | App.tsx:76-102 | no control leads from a reachable view to an unreachable one |
| App.RunStaysReachable | App.tsx:76-102 | any sequence of controls from a reachable view ends at a reachable view |
| App.PathTo | App.tsx:76-102 | each reachable view is reached from the intro by an explicit sequence of controls |
| App.ReachableExactly | App.tsx:70-104 | from the intro the reachable views are exactly the intro, the algorithm menu, the interactive summary and the six dashboards; the summary, the main menu and the enhanced summary are never reached |
| App.RoundTrip | App.tsx:79-90 | intro → Start → algorithm menu → AdaBoost → Back → Back ends at the intro, through the views named at each step |
| App.AppState.constructor | App.tsx:70-72 | the application opens on the intro page |
| App.AppState.Dispatch | App.tsx:74-106 | a control on the current screen sets the view that Step gives |
| ParameterTuning.WithParam | components/ParameterTuningPlayground.tsx:37-42 | the named field takes the new value and the other three keep theirs |
| ParameterTuning.DepthPenalty | components/ParameterTuningPlayground.tsx:25 | 0 for depth ≤ 10, and 2 (depth − 10) above that |
| ParameterTuning.RoundsBoost | components/ParameterTuningPlayground.tsx:26 | rounds / 10, capped at 15 |
| ParameterTuning.AlgorithmBonus | components/ParameterTuningPlayground.tsx:32-33 | the bonus is in [0, 8]: 8 exactly for XGBoost, 0 exactly for AdaBoost |
| ParameterTuning.Performance | components/ParameterTuningPlayground.tsx:22-35 | always in [70, 99.9]; equal to the raw sum inside that range, 70 below it and 99.9 above it |
| ParameterTuning.DefaultPerformance | components/ParameterTuningPlayground.tsx:14-35 | the starting sliders with Gradient Boosting give a raw 104, clamped to 99.9 |
| ParameterTuning.PerformanceMonotone | components/ParameterTuningPlayground.tsx:35 | a larger raw sum never gives a smaller prediction |
| ParameterTuning.AlgorithmOrdering | components/ParameterTuningPlayground.tsx:29-34 | for the same sliders, XGBoost ≥ Gradient Boosting ≥ AdaBoost |
| ParameterTuning.TrainingTime | components/ParameterTuningPlayground.tsx:45 | the training time is rounds × depth / 50 |
| ParameterTuning.TrainingTimeScales | components/ParameterTuningPlayground.tsx:45 | training time is proportional to rounds and to depth; the starting sliders give 10 |
| ParameterTuning.ComplexityOf | components/ParameterTuningPlayground.tsx:203 | High exactly for depth > 10, Low exactly for depth ≤ 5, Medium in between |
| ParameterTuning.Recommendations | components/ParameterTuningPlayground.tsx:218-220 | the "too high" line appears exactly above 0.3 and the "too low" line exactly below 0.05, never both |
| ParameterTuning.ExactlyOneRecommendation | components/ParameterTuningPlayground.tsx:218-220 | every learning rate shows exactly one line of advice, and it is "good" exactly in [0.05, 0.3] |
| ParameterTuning.Playground.constructor | components/ParameterTuningPlayground.tsx:14-20 | the playground opens on Gradient Boosting with learning rate 0.1, depth 5, 100 rounds and regularisation 0.5 |
| ParameterTuning.Playground.SelectAlgorithm | components/ParameterTuningPlayground.tsx:64 | an algorithm button selects it and keeps the sliders |
| ParameterTuning.Playground.UpdateParam | components/ParameterTuningPlayground.tsx:37-42 | a slider sets its own field and nothing else |
| ParameterTuning.Playground.PredictPerformance | components/ParameterTuningPlayground.tsx:22-35 | the accuracy summed term by term equals Performance, so it lies in [70, 99.9] |

## Left out

- JavaScript numbers are doubles; the model computes with exact reals. Rounding in `/19`, `/20` and `* 0.2`, and `toFixed` in labels, are not modelled.
- SVG and JSX output, Tailwind classes, transitions and `rgba` strings are not modelled. Colours are an enum, or the red and blue channels as integers.
- The placement of the heatmap rectangles in components/ScatterPlot.tsx:90-110 (each cell is centred on its sample and sized plotWidth / 19 × plotHeight / 19) is not modelled; only the cell values and their colour channels are.
- The dashboards' progress bars and scene texts, the narration hook (hooks/useNarration.ts, components/NarrationControls.tsx) and its `onAdvance` callback: they drive speech synthesis through browser callbacks. `onAdvance` performs the same `(scene + 1) % length` update that `Scenes.SceneCursor.Next` models.
- components/InteractiveSimulator.tsx: its logic is floating-point decay with `Math.pow`, `toFixed` and `isFinite` guards.
- The tabs and the simulator inside components/EnhancedSummaryPage.tsx: the simulator draws on `Math.random` and divides by a regularisation that can be 0. Its "Explore" buttons are modelled as the `Explore` action of `App.Step`.
- Static pages (SummaryPage, the three technical dashboards, FutureImprovements, IntroPage, InteractiveSummaryPage, AlgorithmComparison and the three *Visuals components) carry no behaviour beyond the navigation callbacks modelled in `App.Step`.
- React's state and effect mechanics are not modelled. The 4.5-second timer is the `Tick` method, and a state setter is a field assignment.
- ParameterTuning.Playground.UpdateParam: the sliders limit values to the ranges 0.01–0.5, 1–15, 10–500 and 0–1. The model accepts any real, as `updateParam` itself does, so the contracts hold for every value.

## Findings

| source | as written | input that shows it | evidently intended | confidence | as-written member | corrected member |
|---|---|---|---|---|---|---|
| components/ScatterPlot.tsx:45-62 | each background rectangle's top edge is placed at `yScale` of its own lower sample `j / 20`, and the rectangle extends 20 px downwards | cell (i, 0): y = yScale(20) = 400, so the bottom row covers rows 400–420, below the x axis; no cell covers rows 0–20 at the top | the top edge at the upper sample `(j + 1) / 20`, so that the 20 × 20 cells tile the 690 × 400 area | medium (not executed) | ScatterPlot.BackgroundOffByOneRow | ScatterPlot.BackgroundTilesPlot |
