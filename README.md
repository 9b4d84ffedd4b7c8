# Trendlines, axis labels and line points of a Vega spec builder

This project models three parts of a charting library that turns React
chart elements into a Vega specification:

- **The trendline builder.** For each `Trendline` child of a line or bar mark, it emits data sources, marks, scales and signals. It covers:
  - method classification and parameter parsing (`polynomial-<n>`, `movingAverage-<n>`, …);
  - the statistical transforms (join-aggregate mean, regression, window);
  - the dimension-range filters;
  - the coefficient formulas that evaluate a fitted curve;
  - the normalised time dimension;
  - the concatenated and highlighted trendline data used for hover and selection.
- **The axis label utilities.** Label values, time label formats, label alignment and baseline, label offset, number formats, and the label encoding driven by a label signal.
- **The line point utilities.** The symbol marks drawn on a line: static points, the highlight point with its background, the secondary point and the selection ring, and the production rules that style them.

The model is written on values. The builder's own functions become Dafny
functions over datatypes that hold the props the builder reads; an array a
function fills locally and returns (the range filters of
`getTrendlineDimensionRangeTransforms`, say) becomes a function too. The
builders that push step by step onto the array they return, and the one
that edits the data it is given, become methods proved against those
functions:
- `getTrendlineMarks`, with its loop over the trendlines (`TrendlineMarks.GetTrendlineMarks`);
- `getTrendlineSignals` (`TrendlineMarks.GetTrendlineSignals`);
- the loop of `getTrendlineData` (`TrendlineDataBuilder.CollectTrendlineSources`), followed by the interactive sources (`TrendlineDataBuilder.GetTrendlineData`);
- `addTrendlineData`, which mutates the list of data sources it is given, modelled as a class holding that list.

Errors the builder throws are results (`Result<_, BuildError>`):
- an invalid polynomial order;
- an invalid moving-average width;
- the `RangeError` of `Array(n)`;
- the `TypeError` of reading `transform` on a missing table.

JavaScript's `parseInt` is modelled: leading white space, sign, `0x` prefix,
leading digits, otherwise `NaN`. So is `String.prototype.split('-')[1]`
(`undefined` when there is no dash).

Vega production rules are lists of rules, each guarded by an optional test.
Whether a test holds for a datum is decided by Vega's expression evaluator,
so the lemmas about which value a rule list yields take the set of test
texts that hold as a parameter (`ProductionRules.Pick`).

Two places where the code accepts more than its own error messages say:
- `getPolynomialOrder` throws "order must be an interger greater than 0" (`trendlineUtils.ts:563`). It does not reject a non-numeric order: `parseInt` gives `NaN`, and `NaN < 1` is false, so `polynomial-x` yields `NaN`. The regression transform then carries order `NaN`, and the formula transform of an interactive trendline fails in `Array(NaN)` (`TrendlineMethod.PolynomialOrderNaNPassesThrough`, `TrendlineTransforms.ParamFormulaTransforms`). The moving average, whose message says "frame width must be an integer greater than 0" (`trendlineUtils.ts:579`), does reject `NaN`.
- The order and the window width are the leading digits of the text after the first dash. `polynomial-3abc`, `polynomial- 3` and `polynomial-3-1` all give 3. The model follows the code.

A time-scale trendline line and the `xTrendline` scale read `<dimension>Normalized`, but `addTrendlineData` computes that field only when some trendline is a regression (`TrendlineMarks.TimeLinesNeedRegressionForNormalizedField`). With only average and moving-average trendlines on a time scale, this builder never computes the field they read.

## Model

| member | source | states |
|---|---|---|
| TrendlineProps.ApplyTrendlinePropDefaults | src/specBuilder/trendline/trendlineUtils.ts:65-91 | every omitted prop takes its default: range `[null, null]`, no display on hover, no raw-point highlight, `dashed`, `M`, `linear`, opacity 1. Metric is the trendline value field and the name is `<mark>Trendline<index>`. Children and colour pass through |
| TrendlineProps.TrendlineNameInjective | src/specBuilder/trendline/trendlineUtils.ts:88 | two trendlines of one mark have the same name only if they have the same index |
| TrendlineProps.TrendlineElements | src/specBuilder/trendline/trendlineUtils.ts:61 | keeps exactly the props of the trendline children and nothing else; one trendline child gives its props, any other child nothing |
| TrendlineProps.TrendlineElementsAppend | src/specBuilder/trendline/trendlineUtils.ts:61 | filtering distributes over concatenation, so the trendline props keep the children's order |
| TrendlineProps.GetTrendlines | src/specBuilder/trendline/trendlineUtils.ts:60-63 | one spec per trendline child, in child order; the i-th gets the defaults with index i; all names are pairwise distinct |
| TrendlineMethod.PolynomialIsRegression | src/specBuilder/trendline/trendlineUtils.ts:427-437 | every polynomial method is a regression method |
| TrendlineMethod.WindowAndRegressionDisjoint | src/specBuilder/trendline/trendlineUtils.ts:427-445 | no method is both a moving average and a regression |
| TrendlineMethod.AverageIsUnclassified | src/specBuilder/trendline/trendlineUtils.ts:427-445 | `average` is neither polynomial, regression nor window, so it takes its own branch |
| TrendlineMethod.MethodParameterOf | src/specBuilder/trendline/trendlineUtils.ts:561 | for `<word>-<n><rest>` whose rest does not continue the number, `parseInt(method.split('-')[1])` is n |
| TrendlineMethod.GetPolynomialOrder | src/specBuilder/trendline/trendlineUtils.ts:551-566 | `linear` gives 1, `quadratic` gives 2; fails exactly when the parsed order is an integer below 1; a successful integer order is at least 1; NaN passes only when parsing gave NaN |
| TrendlineMethod.PolynomialOrderOf | src/specBuilder/trendline/trendlineUtils.ts:551-566 | `polynomial-<n>` gives order n for n ≥ 1 and fails with order 0 for n = 0 |
| TrendlineMethod.PolynomialOrderNaNPassesThrough | src/specBuilder/trendline/trendlineUtils.ts:561-565 | a polynomial method whose suffix does not parse yields NaN instead of failing |
| TrendlineTransforms.DimensionRangeTransforms | src/specBuilder/trendline/trendlineUtils.ts:327-347 | no transform iff both bounds are null; otherwise a single filter holding the lower-bound clause, the upper-bound clause, or both joined by ` && ` |
| TrendlineTransforms.RangeFilterRoundTrip | src/specBuilder/trendline/trendlineUtils.ts:327-347 | the filter emitted for a range with a bound decodes back to exactly that range, so the expression loses no bound |
| TrendlineTransforms.DecodeBothBounds | src/specBuilder/trendline/trendlineUtils.ts:332-342 | the two-sided filter text decodes to both of its bounds |
| TrendlineTransforms.TrendlineDimension | src/specBuilder/trendline/trendlineUtils.ts:375 | the curve's x field is `<dimension>Normalized` exactly on a time scale |
| TrendlineTransforms.PolynomialTermsRender | src/specBuilder/trendline/trendlineUtils.ts:378-383 | the `order + 1` joined terms are the text of the polynomial `coef[0] + coef[1]·x + … + coef[order]·x^order` |
| TrendlineTransforms.PolynomialExprValue | src/specBuilder/trendline/trendlineUtils.ts:378-383 | that polynomial evaluates to Σ coef[i]·x^i for i ≤ order |
| TrendlineTransforms.FittedCurveRender | src/specBuilder/trendline/trendlineUtils.ts:384-389 | the exponential, logarithmic and power formulas are the texts of `c0 + exp(c1·x)`, `c0 + c1·log(x)` and `c0·x^c1` |
| TrendlineTransforms.ArrayLength | src/specBuilder/trendline/trendlineUtils.ts:380 | `Array(n)` succeeds exactly for an integer n in [0, 2^32) and then has length n |
| TrendlineTransforms.ParamFormulaTransforms | src/specBuilder/trendline/trendlineUtils.ts:369-400 | no formula for a non-regression method; the fitted curve for exponential, logarithmic and power. For a polynomial: success exactly when the order parses to an integer below 2^32, and then the polynomial of that order (at least 1), written to the trendline value field |
| TrendlineTransforms.AverageTransform | src/specBuilder/trendline/trendlineUtils.ts:477-490 | a join-aggregate mean of the metric over the facets into the trendline value field |
| TrendlineTransforms.RegressionTransform | src/specBuilder/trendline/trendlineUtils.ts:501-543 | `exp`, `log` or `pow` for the named methods, otherwise `poly` with the polynomial order, whose failure it propagates. x is the trendline dimension and y the metric. Output fields are given only without `params`. An order is present exactly for `poly` |
| TrendlineTransforms.MovingAverageTransform | src/specBuilder/trendline/trendlineUtils.ts:568-590 | succeeds exactly when the width parses to an integer ≥ 1; the window mean has frame `[width - 1, 0]`; otherwise fails with that width |
| TrendlineTransforms.MovingAverageFrameOf | src/specBuilder/trendline/trendlineUtils.ts:572-588 | `movingAverage-<w>` gives frame `[w - 1, 0]` for w ≥ 1 and fails for w = 0 |
| TrendlineTransforms.StatisticalTransforms | src/specBuilder/trendline/trendlineUtils.ts:453-469 | average, regression and window methods each give their single transform (or its error); any other method gives none |
| TrendlineTransforms.ParamLookupTransform | src/specBuilder/trendline/trendlineUtils.ts:349-361 | a lookup of `coef` in the trendline's `_params` data over the facets |
| TrendlineTransforms.FindIndexByAs | src/specBuilder/trendline/trendlineUtils.ts:204 | the first index whose transform writes the field, or -1 exactly when none does |
| TrendlineTransforms.AddNormalizedDimensionTransform | src/specBuilder/trendline/trendlineUtils.ts:203-217 | unchanged when some transform already writes `<d>Normalized`, otherwise the min join-aggregate and the normalising formula appended; afterwards the field is always written |
| TrendlineTransforms.AddNormalizedDimensionIdempotent | src/specBuilder/trendline/trendlineUtils.ts:203-217 | adding the normalised dimension twice is the same as adding it once |
| TrendlineDataBuilder.TrendlineSourcesNames | src/specBuilder/trendline/trendlineUtils.ts:235-290 | each source one trendline adds reads the filtered table, has transforms, and is named by the trendline name plus `_highResolutionData`, `_params` or `_data`, with no name twice |
| TrendlineDataBuilder.TrendlineSourcesPresence | src/specBuilder/trendline/trendlineUtils.ts:240-290 | `_highResolutionData` iff regression; `_params` iff interactive regression; `_data` iff average, window, or interactive regression; nothing for an unrecognised method |
| TrendlineDataBuilder.TrendlineSourcesErrors | src/specBuilder/trendline/trendlineUtils.ts:240-290 | a trendline fails exactly when its statistical transform fails, or when it is an interactive regression whose formula fails; the statistical error comes first |
| TrendlineDataBuilder.TrendlineSourcesOrder | src/specBuilder/trendline/trendlineUtils.ts:240-290 | range filters precede the regression or average transform, but follow the moving-average window. A regression's `_highResolutionData` is the ranges, its single regression transform and the series id. An interactive regression's `_params` is the ranges and the regression in parameter form. Its `_data` is the ranges, a lookup of `_params`, and the parameter formulas |
| TrendlineDataBuilder.InteractiveDataNames | src/specBuilder/trendline/trendlineUtils.ts:291-293 | the concatenation lists exactly the `_data` names of the interactive trendlines; one trendline contributes its name exactly when it is interactive |
| TrendlineDataBuilder.InteractiveDataNamesAppend | src/specBuilder/trendline/trendlineUtils.ts:291-293 | the names of two runs of trendlines are the names of the first then those of the second, so they follow the trendlines' order |
| TrendlineDataBuilder.InteractiveDataNamesDistinct | src/specBuilder/trendline/trendlineUtils.ts:291-293 | trendlines with distinct names list no `_data` name twice |
| TrendlineDataBuilder.HighlightFilterSignals | src/specBuilder/trendline/trendlineUtils.ts:299-304 | the highlight filter tests `<mark>Trendline_hoveredId` in both forms and `<mark>Trendline_selectedId` exactly when some trendline has a popover |
| TrendlineDataBuilder.CollectTrendlineSources | src/specBuilder/trendline/trendlineUtils.ts:235-294 | the loop yields the trendlines' sources in order, or the first trendline's error, and collects the interactive `_data` names |
| TrendlineDataBuilder.GetTrendlineData | src/specBuilder/trendline/trendlineUtils.ts:224-319 | the method computes `TrendlineData`, whose shape the next row states |
| TrendlineDataBuilder.TrendlineDataShape | src/specBuilder/trendline/trendlineUtils.ts:224-319 | fails exactly when some trendline fails, with the first failure. Otherwise the trendline sources come first. The concatenation `<mark>_allTrendlineData` and `<mark>Trendline_highlightedData` follow exactly when some trendline is interactive; the latter reads the concatenation through the highlight filter for the popover case at hand |
| TrendlineDataBuilder.SourcesOfNames | src/specBuilder/trendline/trendlineUtils.ts:235-294 | across all trendlines, source names are distinct and each belongs to one trendline |
| TrendlineDataBuilder.TrendlineDataNamesDistinct | src/specBuilder/trendline/trendlineUtils.ts:224-319 | no two emitted data sources share a name |
| TrendlineDataBuilder.TrendlineSourcesIncluded | src/specBuilder/trendline/trendlineUtils.ts:235-294 | when the build succeeds, every source of every trendline is among the emitted data |
| TrendlineDataBuilder.TrendlineDataReferences | src/specBuilder/trendline/trendlineUtils.ts:291-297 | every name the concatenation reads is an emitted source, for recognised methods |
| TrendlineDataBuilder.FindSourceIndex | src/specBuilder/trendline/trendlineUtils.ts:198 | the first source with the name, or -1 exactly when there is none |
| TrendlineDataBuilder.NormalizeTable | src/specBuilder/trendline/trendlineUtils.ts:197-199 | fails exactly when there is no `table` source. Otherwise only the first `table` changes: its transforms are extended and then write the normalised dimension |
| TrendlineDataBuilder.NormalizeTableIdempotent | src/specBuilder/trendline/trendlineUtils.ts:197-199 | normalising the table a second time changes nothing |
| TrendlineDataBuilder.DataList.AddTrendlineData | src/specBuilder/trendline/trendlineUtils.ts:188-201 | the list gains the trendline data, or is left as it was when building it fails. The table is then normalised when the mark has a time scale and a regression trendline. A missing table fails after the push |
| TrendlineMarks.TrendlineLineMark | src/specBuilder/trendline/trendlineUtils.ts:128-159 | a non-interactive line from the trendline's facet. It is stroked with the trendline colour when that is truthy, else the mark colour. x is the normalised dimension on the trendline scale exactly on a time scale. Dash, width, display on hover and opacity are the trendline's |
| TrendlineMarks.FacetData | src/specBuilder/trendline/trendlineUtils.ts:100 | a regression line is drawn from `_highResolutionData`, every other from `_data` |
| TrendlineMarks.TrendlineGroupMark | src/specBuilder/trendline/trendlineUtils.ts:99-113 | a clipped group that facets the trendline's data by the mark's facets into the facet its line reads |
| TrendlineMarks.TrendlineHoverGroup | src/specBuilder/trendline/trendlineUtils.ts:161-180 | a clipped hover group over `<mark>_allTrendlineData`. Its hover line is named `<mark>Trendline` and plots the trendline value. It has a popover exactly when some trendline does. It highlights the mark's metric exactly when raw points are highlighted |
| TrendlineMarks.GetTrendlineMarks | src/specBuilder/trendline/trendlineUtils.ts:93-126 | one group per trendline in order, plus the hover group exactly when some trendline has a tooltip |
| TrendlineMarks.FacetDataEmitted | src/specBuilder/trendline/trendlineUtils.ts:100-108 | the data a trendline group facets is emitted, for recognised methods |
| TrendlineMarks.MarksReadEmittedData | src/specBuilder/trendline/trendlineUtils.ts:93-126 | every data source the trendline marks read is emitted by the data builder: each group's facet data, and the hover group's concatenation |
| TrendlineMarks.AllTrendlineDataEmitted | src/specBuilder/trendline/trendlineUtils.ts:296-297 | with an interactive trendline, the concatenated data is emitted |
| TrendlineMarks.HighlightedDataEmitted | src/specBuilder/trendline/trendlineUtils.ts:306-315 | with an interactive trendline, the highlighted data is emitted |
| TrendlineMarks.HoverPointsReadHighlightedData | src/specBuilder/trendline/trendlineUtils.ts:161-180 | the point marks drawn with the hover line's props read `<mark>Trendline_highlightedData` and plot the trendline value. The highlight point tests the selection exactly when some trendline has a popover, and then the signal that test reads is declared |
| TrendlineMarks.TrendlineScales | src/specBuilder/trendline/trendlineUtils.ts:402-419 | the `xTrendline` linear scale over the normalised dimension exactly when the mark has trendlines and a time scale |
| TrendlineMarks.TimeLinesUseDeclaredScale | src/specBuilder/trendline/trendlineUtils.ts:131-134 | on a time scale every trendline's x reads a declared scale over a field of its domain |
| TrendlineMarks.TimeLinesNeedRegressionForNormalizedField | src/specBuilder/trendline/trendlineUtils.ts:193-199 | gathers, to record a gap, three facts stated by `TrendlineLineMark`, `TrendlineScales` and `NeedsNormalizedDimension`: time-scale lines and the `xTrendline` domain read `<d>Normalized`, which is added to the table exactly when some trendline is a regression |
| TrendlineMarks.GetTrendlineSignals | src/specBuilder/trendline/trendlineUtils.ts:592-611 | in order: the two hover signals when some trendline has a tooltip; the series-hover signal when some displays on hover; the selection id and series signals when some has a popover |
| TrendlineMarks.SelectionSignalDeclared | src/specBuilder/trendline/trendlineUtils.ts:606-607 | with a popover, `<mark>Trendline_selectedId` is among the signals |
| AxisLabels.LabelValue | src/specBuilder/axis/axisLabelUtils.ts:34-39 | the value of a label object, or the bare label itself |
| AxisLabels.TimeLabelFormats | src/specBuilder/axis/axisLabelUtils.ts:46-63 | a step is used exactly for quarters (every 3 months); each known granularity ticks on itself; an unknown one formats as days; the two formats differ |
| AxisLabels.UnknownGranularityIsDay | src/specBuilder/axis/axisLabelUtils.ts:46-63 | an unknown granularity is formatted exactly as `day` |
| AxisLabels.LabelAlign | src/specBuilder/axis/axisLabelUtils.ts:90-108 | a truthy override wins. Otherwise an alignment is given exactly for a set label align on a horizontal axis, with `start` ↔ `left` and `end` ↔ `right` |
| AxisLabels.LabelBaseline | src/specBuilder/axis/axisLabelUtils.ts:115-133 | a truthy override wins. Otherwise a baseline is given exactly for a set label align on a vertical axis, with `start` ↔ `top` and `end` ↔ `bottom` |
| AxisLabels.AlignBaselineComplementary | src/specBuilder/axis/axisLabelUtils.ts:90-133 | one label align gives an align only on horizontal axes and a baseline only on vertical ones, and the two agree edge for edge |
| AxisLabels.LabelBaselineAlign | src/specBuilder/axis/axisLabelUtils.ts:71-83 | the align on horizontal axes and the baseline on vertical ones; defined exactly when the label align is set |
| AxisLabels.LabelOffset | src/specBuilder/axis/axisLabelUtils.ts:141-155 | any defined override wins, zero included. Otherwise half a band back for `start` and forward for `end`, and nothing for other aligns |
| AxisLabels.LabelFormat | src/specBuilder/axis/axisLabelUtils.ts:162-175 | a guarded format (percent, or short large numbers) before the raw value |
| AxisLabels.LabelFormatShows | src/specBuilder/axis/axisLabelUtils.ts:162-175 | a label shows the formatted value when its format test holds, and the raw value otherwise |
| AxisLabels.EncodedLabelBaselineAlign | src/specBuilder/axis/axisLabelUtils.ts:223-246 | the `baseline` key on vertical axes and the `align` key on horizontal ones. Its rules take the label signal's own entry when it has one, then fall back to the default label align |
| AxisLabels.EncodedAlignFallsBackToDefault | src/specBuilder/axis/axisLabelUtils.ts:223-246 | without an entry in the signal, a label is aligned by the (defined) default |
| AxisLabels.AxisLabelsEncoding | src/specBuilder/axis/axisLabelUtils.ts:186-211 | text and font weight are each one rule guarded by the label signal's entry, ending in a fallback; alignment is the encoded baseline or align entry |
| AxisLabels.AxisLabelsEncodingShows | src/specBuilder/axis/axisLabelUtils.ts:186-211 | a label with an entry in the label signal shows the entry's text, any other label its raw value. Its weight is the entry's weight when the entry sets one, else the axis label weight |
| LinePoints.StaticPointTestInjective | src/specBuilder/line/linePointUtils.ts:14 | distinct static-point fields give distinct tests, so a test names the one field it reads |
| LinePoints.SelectedTestInjective | src/specBuilder/line/linePointUtils.ts:15 | distinct lines give distinct selection tests |
| LinePoints.StaticAndSelectedTestsDiffer | src/specBuilder/line/linePointUtils.ts:14-15 | no static-point test is ever a selection test |
| LinePoints.SelectionRulesOnlyWithPopover | src/specBuilder/line/linePointUtils.ts:138-175 | the highlight point's fill and stroke test the selection exactly when the line has a popover |
| LinePoints.HighlightPointFill | src/specBuilder/line/linePointUtils.ts:138-153 | the static-point test, then the selection test with a popover, each filling with the line colour, before the background fallback |
| LinePoints.HighlightPointStroke | src/specBuilder/line/linePointUtils.ts:160-175 | the static-point test stroking with the line colour, then the selection test stroking with the background, before the colour fallback |
| LinePoints.HighlightPointStrokeOpacity | src/specBuilder/line/linePointUtils.ts:182-195 | the highlight opacity for static points before the opacity rule |
| LinePoints.HighlightPointSize | src/specBuilder/line/linePointUtils.ts:202-212 | size 64 for static points before the default symbol size |
| LinePoints.HighlightPointStrokeWidth | src/specBuilder/line/linePointUtils.ts:219-229 | stroke width 6 for static points before the default stroke width |
| LinePoints.PickStaticSelected | src/specBuilder/line/linePointUtils.ts:138-175 | a static-then-selected rule list yields the static value when its test holds, else the selected value when selected, else the fallback |
| LinePoints.HighlightFillShows | src/specBuilder/line/linePointUtils.ts:138-153 | a highlight point is filled with the line colour when static or selected, else with the background |
| LinePoints.HighlightStrokeShows | src/specBuilder/line/linePointUtils.ts:160-175 | the stroke is the background only for a selected point that is not static, else the line colour |
| LinePoints.PickStatic | src/specBuilder/line/linePointUtils.ts:182-229 | a static rule list yields the static value exactly when the static test holds |
| LinePoints.StaticPointStyle | src/specBuilder/line/linePointUtils.ts:182-229 | static points are drawn at size 64 with stroke width 6 and the highlight opacity; other points use the defaults |
| LinePoints.LineStaticPoint | src/specBuilder/line/linePointUtils.ts:22-46 | a non-interactive symbol over `<line>_staticPointData`, filled with the line colour and stroked with the background |
| LinePoints.HighlightBackgroundPoint | src/specBuilder/line/linePointUtils.ts:53-73 | a background-coloured symbol over the highlighted data, sized like the highlight point |
| LinePoints.HighlightPoint | src/specBuilder/line/linePointUtils.ts:80-102 | the highlight symbol over the highlighted data, with the fill, stroke, opacity, size and width rules above |
| LinePoints.SecondaryHighlightPoint | src/specBuilder/line/linePointUtils.ts:110-131 | a symbol at the secondary metric over the highlighted data |
| LinePoints.SelectRingPoint | src/specBuilder/line/linePointUtils.ts:236-256 | a ring in the scheme's static blue over the highlighted data, size 196 and the default stroke width when selected, else 0 |
| LinePoints.SelectRingOnlyWhenSelected | src/specBuilder/line/linePointUtils.ts:236-256 | the ring has size and width exactly when the selection test holds |
| LinePoints.BackgroundCoversPoint | src/specBuilder/line/linePointUtils.ts:53-102 | the background point always has the size and stroke width of the highlight point |
| LinePoints.PointMarkNamesDistinct | src/specBuilder/line/linePointUtils.ts:22-256 | the background, highlight, secondary, ring and static point marks of a line have pairwise distinct names |
| LinePoints.HighlightMarksReadHighlightedData | src/specBuilder/line/linePointUtils.ts:53-256 | every highlight mark is non-interactive, reads `<line>_highlightedData`, and sets each channel by a rule list that ends in a fallback; all but the secondary point plot the line's metric, the secondary point the secondary metric |

## Left out

- Collaborators outside these files are represented by inputs or by symbolic values that record their arguments:
  - `getFacetsFromProps` is the mark's `facets` input.
  - `sanitizeTrendlineChildren`, `hasTooltip`, `hasPopover` and `hasInteractiveChildren` are the trendline's `ChildTraits` flags.
  - The colour, stroke-dash, line-width, stroke-opacity, opacity and x production rules, the series-id transform, the signal builders and `getLineHoverMarks` are symbolic.
  - A symbolic value records the arguments of its builder, not the Vega value that builder returns.
- `getTableData` is not part of this model. It is taken to return the first source named `table` and nothing when there is none.
- `immer`'s `produce` is modelled as a pure function returning the new transform list. Structural sharing and freezing are not modelled.
- Vega's expression evaluation is not modelled. Rule-list lemmas take the set of tests that hold, and the fitted formulas are related to an expression tree and its evaluation over reals (`VegaExpr`).
- Dimension-range bounds are integers, so JavaScript's rendering of fractional or non-finite numbers is not modelled. Opacity is a real that is passed through unchanged.
- Constants are taken to have these values: the trendline value field, the filtered table and table names, the mark-id and series-id fields, the milliseconds per day, the linear padding, the background colour signal, the default symbol size and stroke width. The module that defines them is not part of this model.
- TrendlineMarks.MarksReadEmittedData: stated only when every method is recognised, and when every trendline with a tooltip is interactive. An unrecognised method still gets a group whose facet data no source provides. A tooltip child is taken to count as interactive.
- TrendlineDataBuilder.TrendlineDataReferences: stated only for recognised methods. An interactive trendline with an unrecognised method is listed in the concatenation without a `_data` source.
- TrendlineMarks.TrendlineHoverGroup: the hover props passed to `getLineHoverMarks` also spread the mark's own props: dimension, scale type, colour, scheme, opacity and the rest. The group records only the hover line's name and metric and whether its children hold a popover. The other children and spread props are not recorded.
- JsNumber.ParseInt: JavaScript's `parseInt` returns a double, so digit strings above 2^53 lose precision there. The model reads them as exact unbounded integers.
- AxisLabels.IsVerticalAxis: the axis utilities' `isVerticalAxis` is taken as left or right. Its file is not part of this model.
- LinePoints.HighlightPointFill: the `{ test, ...getColorProductionRule(...) }` spreads are taken not to carry a test of their own. An empty colour or static-point name counts as falsy, as in JavaScript.
