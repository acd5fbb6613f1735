# Axis switching of the D3 health/poverty scatter plot

This project models the state logic of `app.js`, a D3 scatter plot with one
circle per US state. The user picks which data column drives each axis by
clicking one of six axis labels. The horizontal labels are poverty, median
age and median household income. The vertical labels are lack of healthcare,
smoking and obesity. The modelled core is:

- the domain calculation of `findMinAndMax_X` / `findMinAndMax_Y`. `d3.min`
  and `d3.max` fold over the rows of the active column. The horizontal
  domain is `[min(0.8·v), max(1.1·v)]`. The vertical domain is
  `[0, max(1.1·v)]`.
- the click handler of the `.axis-text` labels and `labelChange`. State:
  `currentAxisLabelX`, `currentAxisLabelY`, `xMin`, `xMax`, `yMax`, the two
  scale domains, and the `active`/`inactive` class of each label.
- the tooltip text built from the current keys.

Layout:

- `columns.dfy` (`Columns`): rows, the six keys, their groups, and a registry
  giving each key its axis and tooltip prefix.
- `domain.dfy` (`Domain`): `MinOf` / `MaxOf` as the `d3.min` / `d3.max`
  folds, the padded bounds, and lemmas about them.
- `axes.dfy` (`Axes`): the state machine as a pure value `Chart`, with
  `Init`, `Click` and `Run` (a sequence of clicks), the invariant `Inv` of
  reachable charts, and lemmas.
- `chart_state.dfy` (`App`): class `ChartState`, which holds the closure
  variables as fields. Its constructor and methods are proved against
  `Axes.Init` and `Axes.Click`.
- `tooltip.dfy` (`Tooltip`): prefix choice and the tooltip HTML.
- `scenario.dfy` (`Scenario`): a worked two-state example (Alabama, Alaska).

Modelling choices:

- Values are exact reals.
- A bound of an empty dataset is `None`. This stands for the `undefined`
  that `d3.min` / `d3.max` return when there are no values.
- Each label carries exactly one of the classes `active` and `inactive`. So
  the six flags are the set of labels flagged active.
- Turning a number into text is the parameter `show: real -> string`.

Points where the code behaves differently from what a reader of the chart might expect; the model follows the code:

- `labelChange` (app.js:250-258) clears the `active` class of every label on
  both axes, as its own comment says (app.js:248-249), not just the label of
  the clicked axis. So after any successful switch exactly one label is active in
  all, not one per axis. The model keeps this. `Axes.ReachedActiveLabels`
  proves the property that does hold: at most one active label per axis, at
  least one overall, and only current keys flagged.
  `Axes.OtherAxisLabelClickableAfterSwitch` proves the consequence: the other
  axis's current label, after a switch on either axis, is clickable again.
- The code does not guard against an empty dataset: `d3.min` and `d3.max`
  then yield `undefined` bounds, and the model yields `None`.
- The handler never rejects a key: every key that is not a vertical key
  goes to the horizontal axis (app.js:305). Keys here come from a closed set
  of six, so no unknown key can reach the handler.
- The income prefix is `"Income:"`, with no trailing space, as in the code.

## Model

| member | source | states |
|---|---|---|
| `Columns.Describe` | app.js:186-246 | each key's registry entry puts it on the vertical axis exactly when it is one of the three vertical keys, and on the horizontal axis otherwise |
| `Columns.GroupsPartitionKeys` | app.js:275 | the handler's vertical test holds for exactly the three vertical keys; the horizontal and vertical groups split the six keys |
| `Domain.MinOf` | app.js:57-59 | the `d3.min` fold is `undefined` exactly on no values; otherwise it is one of the values and at most every value |
| `Domain.MaxOf` | app.js:61-63 | the `d3.max` fold is `undefined` exactly on no values; otherwise it is one of the values and at least every value |
| `Domain.MinOfScaled` | app.js:57-59 | the minimum of values scaled by a non-negative factor is the factor times the minimum |
| `Domain.MaxOfScaled` | app.js:61-63 | the maximum of values scaled by a non-negative factor is the factor times the maximum |
| `Domain.XBoundsArePaddedExtremes` | app.js:56-64 | `xMin` is 0.8 times the column's minimum and `xMax` is 1.1 times its maximum |
| `Domain.YBoundIsPaddedMaximum` | app.js:70-74 | `yMax` is 1.1 times the column's maximum |
| `Domain.XDomainCoversColumn` | app.js:56-64 | for non-empty, non-negative data every value of the column lies in `[xMin, xMax]` |
| `Domain.YDomainCoversColumn` | app.js:70-74 | for non-empty, non-negative data every value of the column lies in `[0, yMax]` |
| `Domain.NegativeValueBelowXMin` | app.js:57-59 | a negative value falls below its own padded `xMin`, so non-negativity is needed for the no-clipping property |
| `Axes.Init` | app.js:79-88 | the initial chart has keys poverty and hasHealthcare, the bounds of those columns, and exactly those two labels active; it satisfies the invariant |
| `Axes.LabelChange` | app.js:250-258 | afterwards the clicked label is active and every other label, on either axis, is inactive |
| `Axes.Click` | app.js:260-335 | a click on a label not flagged inactive changes nothing; a vertical key changes only `currentAxisLabelY` and `yMax`; any other key changes only `currentAxisLabelX`, `xMin` and `xMax`; after a switch the clicked label is the only active one; the invariant is preserved |
| `Axes.RunKeepsInv` | app.js:260-335 | every sequence of clicks preserves the invariant: keys in their groups, bounds those of the current columns, active labels a non-empty subset of the current keys |
| `Axes.ReachedKeysStayInGroups` | app.js:273-310 | in every reachable chart `currentAxisLabelX` is a horizontal key, `currentAxisLabelY` is a vertical key, and the stored bounds are those of these keys |
| `Axes.ReachedActiveLabels` | app.js:250-258 | in every reachable chart some label is active, only current keys are active, and at most one label per axis is active |
| `Axes.OtherAxisLabelClickableAfterSwitch` | app.js:264-273 | after a switch on either axis the other axis's current label is inactive, so clicking it is not ignored: it only makes that label the only active one |
| `Axes.RepeatedClickIdempotent` | app.js:271-273 | clicking the same label any number of times in a row leaves the chart as one click does |
| `Axes.SwitchMovesMarksAlongOneAxis` | app.js:292-330 | a switch moves every mark only along the switched axis, to the clicked column's value |
| `Axes.ReachedMarksInsideDomain` | app.js:83-88 | for non-empty, non-negative data, in every reachable chart every mark lies inside `[xMin, xMax]` × `[0, yMax]` |
| `Tooltip.PrefixX` | app.js:104-112 | a horizontal key gets its registry prefix ("Poverty: ", "Age: ", "Income:"); any other key gets "undefined" |
| `Tooltip.PrefixY` | app.js:114-122 | a vertical key gets its registry prefix ("Lacks Healthcare: ", "Smoker: ", "Obese: "); any other key gets "undefined" |
| `Tooltip.Html` | app.js:97-131 | with each key in its own group, the tooltip is the state name in bold, then the registry prefix and value of the horizontal column, then those of the vertical column |
| `Tooltip.ReachedTooltipMatchesRegistry` | app.js:97-131 | in every reachable chart the tooltip uses the registry prefixes of the current columns, never "undefined" |
| `Tooltip.TooltipFollowsSwitch` | app.js:97-131 | after a switch the tooltip shows the clicked column's prefix and value on its axis's line, and the other line is unchanged |
| `App.ChartState.constructor` | app.js:79-88 | the loaded object is in the initial chart state, with scale domains `[xMin, xMax]` and `[0, yMax]` |
| `App.ChartState.FindMinAndMaxX` | app.js:56-68 | sets `xMin` to 0.8 times the column's minimum and `xMax` to 1.1 times its maximum, and nothing else |
| `App.ChartState.FindMinAndMaxY` | app.js:70-74 | sets `yMax` to 1.1 times the column's maximum, and nothing else |
| `App.ChartState.LabelChange` | app.js:250-258 | the clicked label becomes the only active label |
| `App.ChartState.HandleClick` | app.js:260-335 | the new state is `Axes.Click` of the old one; the invariant holds; the scale domains stay `[xMin, xMax]` and `[0, yMax]`; the other axis's domain is untouched |
| `Scenario.TwoStatesInitialDomains` | app.js:79-88 | for Alabama and Alaska the initial domains are `[8.64, 20.35]` and `[0, 16.06]` |
| `Scenario.TwoStatesObeseBound` | app.js:70-74 | for Alabama and Alaska the obesity column's `yMax` is 39.16 |
| `Scenario.TwoStatesClickObese` | app.js:273-303 | clicking "obese" sets the vertical key to obese with domain `[0, 39.16]`, keeps the horizontal key and domain, and leaves only "obese" active |
| `Scenario.TwoStatesAlabamaAfterObese` | app.js:97-131 | after that click Alabama's mark is at (18.5, 35.6) and its tooltip reads "Poverty: " and "Obese: " with those values |
| `Scenario.TwoStatesClickObeseTwice` | app.js:271-273 | a second click on "obese" changes nothing |

## Left out

- SVG setup and margin arithmetic (app.js:1-23): rendering scaffolding with no state logic.
- CSV loading, the load error, and the `+` numeric coercion (app.js:26-37): rows arrive as typed reals. So `NaN` values are not modelled, nor `d3.min` / `d3.max` skipping them.
- The linear scales' mapping from domain to pixels and the axis generators (app.js:40-46, 142-147, 164-169): these are library calls. Only the domains handed to the scales are kept, and marks are placed in data units (`Axes.Mark`).
- The 1800-unit transitions of the axis and the circles (app.js:283-301, 312-330): asynchronous animation. The model keeps only the new targets they move to.
- Rendering defects with no state effect: the vertical axis group never gets the class `y-axis` that the transition selects (app.js:183, 284), and the abbreviation labels do not move on a switch (app.js:160-173).
- Tooltip show, hide and offset (app.js:91-95, 135, 151-157) and `console.log` (app.js:269): widget and logging side effects.
- Number-to-text formatting in the tooltip: a parameter `show`, not JavaScript's number formatting.
- IEEE rounding of the 0.8 and 1.1 products: the model uses exact reals.
- The unused variable `yMin` and its commented-out computation (app.js:52, 65-67).
- Clicks on elements other than the six labels: keys form a closed set of six, so no other `data-axis-name` can reach the handler.
