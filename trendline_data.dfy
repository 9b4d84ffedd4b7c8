/**
 * The data sources a mark's trendlines add to the specification: per
 * trendline a high-resolution regression source, the regression parameters
 * and the re-evaluated points, or the averaged points; then, when any
 * trendline is interactive, the concatenation of their points and the
 * highlighted subset.
 */
module TrendlineDataBuilder {
  import opened Results
  import opened Text
  import opened Constants
  import opened VegaSpec
  import opened TrendlineMethod
  import opened TrendlineProps
  import opened TrendlineTransforms

  const HIGH_RESOLUTION_SUFFIX: string := "_highResolutionData"
  const PARAMS_SUFFIX: string := "_params"
  const DATA_SUFFIX: string := "_data"

  predicate IsInteractive(t: TrendlineSpec) {
    t.children.hasInteractiveChildren
  }

  /** The methods the builder knows how to compute. */
  predicate IsRecognisedMethod(methodName: string) {
    IsRegressionMethod(methodName) || methodName == "average" || IsWindowMethod(methodName)
  }

  /** A data source derived from the filtered table. */
  function FilteredTableSource(name: string, transforms: seq<Transform>): DataSource {
    DataSource(name, SourceName(FILTERED_TABLE), Some(transforms))
  }

  /** `name` is one of the three data names a trendline called `trendlineName` may own. */
  predicate OwnedBy(name: string, trendlineName: string) {
    || name == trendlineName + HIGH_RESOLUTION_SUFFIX
    || name == trendlineName + PARAMS_SUFFIX
    || name == trendlineName + DATA_SUFFIX
  }

  predicate HasSourceNamed(sources: seq<DataSource>, name: string) {
    exists k :: 0 <= k < |sources| && sources[k].name == name
  }

  predicate NamesDistinct(sources: seq<DataSource>) {
    forall i, j :: 0 <= i < j < |sources| ==> sources[i].name != sources[j].name
  }

  /**
   * The sources one trendline adds (one pass of the loop in
   * `getTrendlineData`). Regression lines are computed on the whole filtered
   * table and then restricted to the dimension range; a moving average is
   * computed first and restricted afterwards, so that the window sees the
   * rows outside the range. Its properties are the TrendlineSources lemmas
   * below.
   */
  function TrendlineSources(mark: MarkProps, t: TrendlineSpec): Result<seq<DataSource>, BuildError> {
    var ranges := DimensionRangeTransforms(mark.dimension, t.dimensionRange);
    if IsRegressionMethod(t.methodName) then
      var stats :- StatisticalTransforms(mark, t.methodName, false);
      var high := FilteredTableSource(t.name + HIGH_RESOLUTION_SUFFIX, ranges + stats + [SeriesId(mark.facets)]);
      if IsInteractive(t) then
        var paramStats :- StatisticalTransforms(mark, t.methodName, true);
        var formulas :- ParamFormulaTransforms(mark.dimension, t.methodName, mark.scaleType);
        Ok([high,
            FilteredTableSource(t.name + PARAMS_SUFFIX, ranges + paramStats),
            FilteredTableSource(t.name + DATA_SUFFIX, ranges + [ParamLookupTransform(mark, t)] + formulas)])
      else
        Ok([high])
    else if t.methodName == "average" then
      // the statistical transforms of an average are its join-aggregate alone
      Ok([FilteredTableSource(t.name + DATA_SUFFIX, ranges + [AverageTransform(mark)])])
    else if IsWindowMethod(t.methodName) then
      var stats :- StatisticalTransforms(mark, t.methodName, false);
      Ok([FilteredTableSource(t.name + DATA_SUFFIX, stats + ranges)])
    else
      Ok([])
  }

  /** Every source a trendline adds reads the filtered table and carries a name it owns; the names differ. */
  lemma TrendlineSourcesNames(mark: MarkProps, t: TrendlineSpec)
    ensures var r := TrendlineSources(mark, t);
            r.Ok? ==>
              && NamesDistinct(r.value)
              && forall k :: 0 <= k < |r.value| ==>
                   && OwnedBy(r.value[k].name, t.name)
                   && r.value[k].source == SourceName(FILTERED_TABLE)
                   && r.value[k].transform.Some?
  {
    WindowAndRegressionDisjoint(t.methodName);
    AverageIsUnclassified();
    if IsRegressionMethod(t.methodName) {
      RegressionSourcesNames(mark, t);
    }
  }

  lemma RegressionSourcesNames(mark: MarkProps, t: TrendlineSpec)
    requires IsRegressionMethod(t.methodName)
    ensures var r := TrendlineSources(mark, t);
            r.Ok? ==>
              && NamesDistinct(r.value)
              && forall k :: 0 <= k < |r.value| ==>
                   && OwnedBy(r.value[k].name, t.name)
                   && r.value[k].source == SourceName(FILTERED_TABLE)
                   && r.value[k].transform.Some?
  {
    var r := TrendlineSources(mark, t);
    if r.Ok? && IsInteractive(t) {
      OwnedNamesDiffer(t.name);
      assert |r.value| == 3;
      assert r.value[0].name == t.name + HIGH_RESOLUTION_SUFFIX;
      assert r.value[1].name == t.name + PARAMS_SUFFIX;
      assert r.value[2].name == t.name + DATA_SUFFIX;
    }
  }

  /** The three names a trendline owns differ from each other. */
  lemma OwnedNamesDiffer(trendlineName: string)
    ensures trendlineName + HIGH_RESOLUTION_SUFFIX != trendlineName + PARAMS_SUFFIX
    ensures trendlineName + HIGH_RESOLUTION_SUFFIX != trendlineName + DATA_SUFFIX
    ensures trendlineName + PARAMS_SUFFIX != trendlineName + DATA_SUFFIX
  {
    var p := |trendlineName| + 1;
    assert (trendlineName + HIGH_RESOLUTION_SUFFIX)[p] == 'h';
    assert (trendlineName + PARAMS_SUFFIX)[p] == 'p';
    assert (trendlineName + DATA_SUFFIX)[p] == 'd';
  }

  /**
   * Which sources exist: `_highResolutionData` exactly for a regression,
   * `_data` for an average, a moving average, or an interactive regression,
   * and nothing for a method the builder does not know.
   */
  lemma TrendlineSourcesPresence(mark: MarkProps, t: TrendlineSpec)
    ensures var r := TrendlineSources(mark, t);
            && (r.Ok? ==>
                  (HasSourceNamed(r.value, t.name + DATA_SUFFIX)
                   <==> t.methodName == "average" || IsWindowMethod(t.methodName)
                        || (IsRegressionMethod(t.methodName) && IsInteractive(t))))
            && (r.Ok? ==>
                  (HasSourceNamed(r.value, t.name + HIGH_RESOLUTION_SUFFIX) <==> IsRegressionMethod(t.methodName)))
            && (r.Ok? ==> (HasSourceNamed(r.value, t.name + PARAMS_SUFFIX)
                           <==> IsRegressionMethod(t.methodName) && IsInteractive(t)))
            && (!IsRecognisedMethod(t.methodName) ==> r == Ok([]))
  {
    WindowAndRegressionDisjoint(t.methodName);
    AverageIsUnclassified();
    var r := TrendlineSources(mark, t);
    if r.Ok? && r.value != [] {
      assert r.value[0].name == t.name + HIGH_RESOLUTION_SUFFIX || r.value[0].name == t.name + DATA_SUFFIX;
      if |r.value| == 3 {
        assert r.value[1].name == t.name + PARAMS_SUFFIX;
        assert r.value[2].name == t.name + DATA_SUFFIX;
      }
    }
  }

  /**
   * A trendline fails exactly when its statistical transform fails (an
   * invalid polynomial order or frame width) or, for an interactive
   * polynomial, when the order is not a valid array length.
   */
  lemma TrendlineSourcesErrors(mark: MarkProps, t: TrendlineSpec)
    ensures var r := TrendlineSources(mark, t);
            && (r.Err? <==>
                  || StatisticalTransforms(mark, t.methodName, false).Err?
                  || (IsRegressionMethod(t.methodName) && IsInteractive(t)
                      && ParamFormulaTransforms(mark.dimension, t.methodName, mark.scaleType).Err?))
            && (r.Err? && StatisticalTransforms(mark, t.methodName, false).Err? ==>
                  r.error == StatisticalTransforms(mark, t.methodName, false).error)
  {
    WindowAndRegressionDisjoint(t.methodName);
    AverageIsUnclassified();
  }

  /**
   * Transform order: a range filter comes before a regression or an average
   * and after a moving average. A regression's high-resolution points are
   * the ranges, the regression and the series id; its parameters are the
   * ranges and the regression in its parameter form; its re-evaluated points
   * are the ranges, a lookup of the coefficients in the parameter source
   * emitted just before them, and the formulas.
   */
  lemma TrendlineSourcesOrder(mark: MarkProps, t: TrendlineSpec)
    ensures var r := TrendlineSources(mark, t);
            var ranges := DimensionRangeTransforms(mark.dimension, t.dimensionRange);
            r.Ok? && r.value != [] ==>
              var first := r.value[0].transform.value;
              && (IsWindowMethod(t.methodName) ==>
                    |first| == 1 + |ranges| && first[0].Window? && first[1..] == ranges)
              && (!IsWindowMethod(t.methodName) ==>
                    && |first| > |ranges| && first[..|ranges|] == ranges
                    && (first[|ranges|].Regression? || first[|ranges|].JoinAggregate?))
              && (IsRegressionMethod(t.methodName) && IsInteractive(t) ==>
                    && |r.value| == 3 && |r.value[2].transform.value| > |ranges|
                    && r.value[2].transform.value[|ranges|].Lookup?
                    && r.value[2].transform.value[|ranges|].from == r.value[1].name)
    ensures var r := TrendlineSources(mark, t);
            var ranges := DimensionRangeTransforms(mark.dimension, t.dimensionRange);
            var stats := StatisticalTransforms(mark, t.methodName, false);
            IsRegressionMethod(t.methodName) && r.Ok? ==>
              && stats.Ok? && |stats.value| == 1 && stats.value[0].Regression?
              && r.value[0].transform == Some(ranges + stats.value + [SeriesId(mark.facets)])
    ensures var r := TrendlineSources(mark, t);
            var ranges := DimensionRangeTransforms(mark.dimension, t.dimensionRange);
            var paramStats := StatisticalTransforms(mark, t.methodName, true);
            var formulas := ParamFormulaTransforms(mark.dimension, t.methodName, mark.scaleType);
            IsRegressionMethod(t.methodName) && IsInteractive(t) && r.Ok? ==>
              && paramStats.Ok? && formulas.Ok?
              && r.value[1].transform == Some(ranges + paramStats.value)
              && r.value[2].transform == Some(ranges + [ParamLookupTransform(mark, t)] + formulas.value)
  {
    WindowAndRegressionDisjoint(t.methodName);
    AverageIsUnclassified();
    if IsRegressionMethod(t.methodName) {
      RegressionSourcesTransforms(mark, t);
    }
  }

  /** The transform chains of a regression's sources, which `TrendlineSourcesOrder` states. */
  lemma RegressionSourcesTransforms(mark: MarkProps, t: TrendlineSpec)
    requires IsRegressionMethod(t.methodName)
    ensures var r := TrendlineSources(mark, t);
            var ranges := DimensionRangeTransforms(mark.dimension, t.dimensionRange);
            var stats := StatisticalTransforms(mark, t.methodName, false);
            r.Ok? ==>
              && stats.Ok? && |stats.value| == 1 && stats.value[0].Regression?
              && r.value[0].transform == Some(ranges + stats.value + [SeriesId(mark.facets)])
    ensures var r := TrendlineSources(mark, t);
            var ranges := DimensionRangeTransforms(mark.dimension, t.dimensionRange);
            var paramStats := StatisticalTransforms(mark, t.methodName, true);
            var formulas := ParamFormulaTransforms(mark.dimension, t.methodName, mark.scaleType);
            IsInteractive(t) && r.Ok? ==>
              && paramStats.Ok? && formulas.Ok?
              && r.value[1].transform == Some(ranges + paramStats.value)
              && r.value[2].transform == Some(ranges + [ParamLookupTransform(mark, t)] + formulas.value)
  {
  }

  /** The first error among `rs`, or, when there is none, the concatenation of their values. */
  function ConcatResults<T, E>(rs: seq<Result<seq<T>, E>>): (r: Result<seq<T>, E>)
    ensures r.Ok? <==> forall k :: 0 <= k < |rs| ==> rs[k].Ok?
    ensures r.Err? ==> exists k :: 0 <= k < |rs| && FirstErrorAt(rs, k) && r.error == rs[k].error
  {
    if rs == [] then Ok([])
    else
      var init :- ConcatResults(rs[..|rs| - 1]);
      var last :- rs[|rs| - 1];
      Ok(init + last)
  }

  /** `rs[k]` is the first error in `rs`. */
  predicate FirstErrorAt<T, E>(rs: seq<Result<T, E>>, k: nat)
    requires k < |rs|
  {
    rs[k].Err? && forall j :: 0 <= j < k ==> rs[j].Ok?
  }

  /** The outcome of each trendline's sources. */
  function Outcomes(mark: MarkProps, ts: seq<TrendlineSpec>): seq<Result<seq<DataSource>, BuildError>> {
    seq(|ts|, k requires 0 <= k < |ts| => TrendlineSources(mark, ts[k]))
  }

  /** The sources of the trendlines in order; the first trendline that fails decides the error. */
  function SourcesOf(mark: MarkProps, ts: seq<TrendlineSpec>): Result<seq<DataSource>, BuildError> {
    ConcatResults(Outcomes(mark, ts))
  }

  /** `concatenatedTrendlineData.source`: the `_data` names of the interactive trendlines, in order. */
  function InteractiveDataNames(ts: seq<TrendlineSpec>): (names: seq<string>)
    ensures |names| <= |ts|
    ensures forall n :: n in names <==>
              exists k :: 0 <= k < |ts| && IsInteractive(ts[k]) && n == ts[k].name + DATA_SUFFIX
    ensures |ts| == 1 ==> names == (if IsInteractive(ts[0]) then [ts[0].name + DATA_SUFFIX] else [])
  {
    if ts == [] then []
    else
      var init := InteractiveDataNames(ts[..|ts| - 1]);
      var t := ts[|ts| - 1];
      assert forall k :: 0 <= k < |ts| - 1 ==> ts[..|ts| - 1][k] == ts[k];
      init + (if IsInteractive(t) then [t.name + DATA_SUFFIX] else [])
  }

  /** The names are pushed trendline by trendline, so they keep the trendlines' order. */
  lemma {:induction false} InteractiveDataNamesAppend(a: seq<TrendlineSpec>, b: seq<TrendlineSpec>)
    ensures InteractiveDataNames(a + b) == InteractiveDataNames(a) + InteractiveDataNames(b)
    decreases |b|
  {
    if b != [] {
      var m := |b| - 1;
      assert (a + b)[..|a + b| - 1] == a + b[..m];
      assert (a + b)[|a + b| - 1] == b[m];
      InteractiveDataNamesAppend(a, b[..m]);
    } else {
      assert a + b == a;
    }
  }

  /** Trendlines with distinct names contribute distinct `_data` names. */
  lemma {:induction false} InteractiveDataNamesDistinct(ts: seq<TrendlineSpec>)
    requires forall i, j :: 0 <= i < j < |ts| ==> ts[i].name != ts[j].name
    ensures forall i, j :: 0 <= i < j < |InteractiveDataNames(ts)| ==>
              InteractiveDataNames(ts)[i] != InteractiveDataNames(ts)[j]
    decreases |ts|
  {
    if ts != [] {
      var init := ts[..|ts| - 1];
      var t := ts[|ts| - 1];
      assert forall k :: 0 <= k < |init| ==> init[k] == ts[k];
      InteractiveDataNamesDistinct(init);
      var before := InteractiveDataNames(init);
      forall n | n in before
        ensures n != t.name + DATA_SUFFIX
      {
        var k :| 0 <= k < |init| && IsInteractive(init[k]) && n == init[k].name + DATA_SUFFIX;
        if n == t.name + DATA_SUFFIX {
          CancelSuffix(init[k].name, t.name, DATA_SUFFIX);
        }
      }
      var names := InteractiveDataNames(ts);
      assert names == before + (if IsInteractive(t) then [t.name + DATA_SUFFIX] else []);
      forall i, j | 0 <= i < j < |names|
        ensures names[i] != names[j]
      {
        assert names[i] == before[i] && names[i] in before;
        if j < |before| {
          assert names[j] == before[j];
        } else {
          assert names[j] == t.name + DATA_SUFFIX;
        }
      }
    }
  }

  predicate AnyInteractive(ts: seq<TrendlineSpec>) {
    exists k :: 0 <= k < |ts| && IsInteractive(ts[k])
  }

  predicate AnyPopover(ts: seq<TrendlineSpec>) {
    exists k :: 0 <= k < |ts| && ts[k].children.hasPopover
  }

  function AllTrendlineDataName(markName: string): string {
    markName + "_allTrendlineData"
  }

  function HighlightedDataName(markName: string): string {
    markName + "Trendline_highlightedData"
  }

  /**
   * The highlight filter: with a popover, the selected row, or the hovered
   * row while nothing is selected; otherwise the hovered row.
   */
  function HighlightFilterExpr(markName: string, popover: bool): string {
    var selectSignal := markName + "Trendline_selectedId";
    var hoverSignal := markName + "Trendline_hoveredId";
    if popover then
      selectSignal + " === datum." + MARK_ID + " || !" + selectSignal + " && " + hoverSignal + " === datum." + MARK_ID
    else
      hoverSignal + " === datum." + MARK_ID
  }

  /**
   * Both forms of the highlight filter test the hovered-id signal; only the
   * popover form tests the selected-id signal.
   */
  lemma HighlightFilterSignals(markName: string, popover: bool)
    ensures Occurs(markName + "Trendline_hoveredId", HighlightFilterExpr(markName, popover))
    ensures Occurs(markName + "Trendline_selectedId", HighlightFilterExpr(markName, popover)) <==> popover
  {
    if popover {
      PopoverFilterSignals(markName);
    } else {
      HoverFilterSignals(markName);
    }
  }

  /** The popover filter starts with the selected-id test and later tests the hovered id. */
  lemma PopoverFilterSignals(markName: string)
    ensures OccursAt(markName + "Trendline_selectedId", HighlightFilterExpr(markName, true), 0)
    ensures Occurs(markName + "Trendline_hoveredId", HighlightFilterExpr(markName, true))
  {
    var sel := markName + "Trendline_selectedId";
    var hov := markName + "Trendline_hoveredId";
    // the filter text, one piece at a time
    var e1 := sel + " === datum.";
    var e2 := e1 + MARK_ID;
    var e3 := e2 + " || !";
    var e4 := e3 + sel;
    var e5 := e4 + " && ";
    var e6 := e5 + hov;
    var e7 := e6 + " === datum.";
    assert OccursAt(sel, sel, 0);
    OccursExtend(sel, sel, 0, " === datum.");
    OccursExtend(sel, e1, 0, MARK_ID);
    OccursExtend(sel, e2, 0, " || !");
    OccursExtend(sel, e3, 0, sel);
    OccursExtend(sel, e4, 0, " && ");
    OccursExtend(sel, e5, 0, hov);
    OccursExtend(sel, e6, 0, " === datum.");
    OccursExtend(sel, e7, 0, MARK_ID);
    OccursBetween(e5, hov, []);
    assert e5 + hov + [] == e6;
    OccursExtend(hov, e6, |e5|, " === datum.");
    OccursExtend(hov, e7, |e5|, MARK_ID);
  }

  /** The filter without a popover tests the hovered id and never the selected id. */
  lemma HoverFilterSignals(markName: string)
    ensures Occurs(markName + "Trendline_hoveredId", HighlightFilterExpr(markName, false))
    ensures !Occurs(markName + "Trendline_selectedId", HighlightFilterExpr(markName, false))
  {
    var rest := "Trendline_hoveredId === datum.rscMarkId";
    var expr := HighlightFilterExpr(markName, false);
    HoverFilterText(markName);
    OccursBetween([], markName + "Trendline_hoveredId", " === datum.rscMarkId");
    assert [] + (markName + "Trendline_hoveredId") + " === datum.rscMarkId" == markName + rest;
    if i :| 0 <= i <= |expr| && OccursAt(markName + "Trendline_selectedId", expr, i) {
      OccursAfterCommonPrefix(markName, "Trendline_selectedId", rest, i);
      SelectedIdNotInHoverTest(i);
    }
  }

  /** The filter without a popover, as one text after the mark name. */
  lemma HoverFilterText(markName: string)
    ensures HighlightFilterExpr(markName, false) == markName + "Trendline_hoveredId === datum.rscMarkId"
  {
    assert "Trendline_hoveredId" + " === datum." + MARK_ID == "Trendline_hoveredId === datum.rscMarkId";
  }

  /** No window of the hover test's fixed text spells `Trendline_selectedId`: each covers its space. */
  lemma SelectedIdNotInHoverTest(i: int)
    requires 0 <= i <= 19
    ensures "Trendline_hoveredId === datum.rscMarkId"[i..i + 20] != "Trendline_selectedId"
  {
    var rest := "Trendline_hoveredId === datum.rscMarkId";
    var w := rest[i..i + 20];
    assert w[19 - i] == rest[19] == ' ';
    assert ' ' !in "Trendline_selectedId";
  }

  /** The two sources added after the loop when any trendline is interactive. */
  function InteractiveSources(markName: string, ts: seq<TrendlineSpec>): seq<DataSource> {
    [DataSource(AllTrendlineDataName(markName), SourceNames(InteractiveDataNames(ts)), None),
     DataSource(HighlightedDataName(markName), SourceName(AllTrendlineDataName(markName)),
                Some([Filter(HighlightFilterExpr(markName, AnyPopover(ts)))]))]
  }

  /** What `getTrendlineData` returns, or the error it throws. */
  function TrendlineData(mark: MarkProps): Result<seq<DataSource>, BuildError> {
    var ts := Trendlines(mark);
    var sources :- SourcesOf(mark, ts);
    if AnyInteractive(ts) then Ok(sources + InteractiveSources(mark.name, ts)) else Ok(sources)
  }

  /**
   * The build fails exactly when some trendline fails, with the first
   * failure's error; otherwise the trendlines' sources come first, followed
   * by the concatenation and the highlighted data exactly when some trendline
   * is interactive.
   */
  lemma TrendlineDataShape(mark: MarkProps)
    ensures var ts := Trendlines(mark);
            var r := TrendlineData(mark);
            && (r.Ok? <==> forall k :: 0 <= k < |ts| ==> TrendlineSources(mark, ts[k]).Ok?)
            && (r.Err? ==> exists k :: 0 <= k < |ts| && FirstErrorAt(Outcomes(mark, ts), k)
                                       && r.error == TrendlineSources(mark, ts[k]).error)
            && (r.Ok? ==> SourcesOf(mark, ts).value <= r.value)
            && (r.Ok? && !AnyInteractive(ts) ==> r.value == SourcesOf(mark, ts).value)
            && (r.Ok? && AnyInteractive(ts) ==>
                  && |r.value| == |SourcesOf(mark, ts).value| + 2
                  && r.value[|r.value| - 2].name == AllTrendlineDataName(mark.name)
                  && r.value[|r.value| - 2].source == SourceNames(InteractiveDataNames(ts))
                  && r.value[|r.value| - 1].name == HighlightedDataName(mark.name)
                  && r.value[|r.value| - 1].source == SourceName(AllTrendlineDataName(mark.name))
                  && r.value[|r.value| - 1].transform == Some([Filter(HighlightFilterExpr(mark.name, AnyPopover(ts)))]))
  {
    var ts := Trendlines(mark);
    var outs := Outcomes(mark, ts);
    assert forall k :: 0 <= k < |ts| ==> outs[k] == TrendlineSources(mark, ts[k]);
  }

  /** `getTrendlineData`: the loop over the trendlines, then the interactive sources. */
  method GetTrendlineData(mark: MarkProps) returns (r: Result<seq<DataSource>, BuildError>)
    ensures r == TrendlineData(mark)
  {
    var ts := Trendlines(mark);
    var outcome, concatenated := CollectTrendlineSources(mark, ts);
    if outcome.Err? {
      return outcome;
    }
    var data := outcome.value;
    if AnyInteractive(ts) {
      var expr := HighlightFilterExpr(mark.name, AnyPopover(ts));
      data := data + [DataSource(AllTrendlineDataName(mark.name), SourceNames(concatenated), None)];
      data := data + [DataSource(HighlightedDataName(mark.name), SourceName(AllTrendlineDataName(mark.name)),
                                 Some([Filter(expr)]))];
      assert data == outcome.value + InteractiveSources(mark.name, ts);
    }
    return Ok(data);
  }

  /** The loop of `getTrendlineData`: each trendline's sources, and the `_data` names of the interactive ones. */
  method CollectTrendlineSources(mark: MarkProps, ts: seq<TrendlineSpec>)
    returns (r: Result<seq<DataSource>, BuildError>, concatenated: seq<string>)
    ensures r == SourcesOf(mark, ts)
    ensures r.Ok? ==> concatenated == InteractiveDataNames(ts)
  {
    var data: seq<DataSource> := [];
    concatenated := [];
    var i := 0;
    while i < |ts|
      invariant 0 <= i <= |ts|
      invariant ConcatResults(Outcomes(mark, ts)[..i]) == Ok(data)
      invariant concatenated == InteractiveDataNames(ts[..i])
    {
      var t := ts[i];
      var sources := TrendlineSources(mark, t);
      assert Outcomes(mark, ts)[i] == sources;
      if sources.Err? {
        ConcatResultsFailsAt(Outcomes(mark, ts), i);
        return Err(sources.error), concatenated;
      }
      ConcatResultsStep(Outcomes(mark, ts), i, data);
      assert ts[..i + 1][..i] == ts[..i] && ts[..i + 1][i] == t;
      data := data + sources.value;
      if IsInteractive(t) {
        concatenated := concatenated + [t.name + DATA_SUFFIX];
      }
      i := i + 1;
    }
    assert ts[..i] == ts;
    assert Outcomes(mark, ts)[..i] == Outcomes(mark, ts);
    return Ok(data), concatenated;
  }

  /** When the first `i` results are values and result `i` is an error, the concatenation fails with it. */
  lemma ConcatResultsFailsAt<T, E>(rs: seq<Result<seq<T>, E>>, i: nat)
    requires i < |rs|
    requires ConcatResults(rs[..i]).Ok?
    requires rs[i].Err?
    ensures ConcatResults(rs) == Err(rs[i].error)
  {
    assert forall j :: 0 <= j < i ==> rs[..i][j] == rs[j];
    assert FirstErrorAt(rs, i);
  }

  /** Extending the values by one more value extends the concatenation. */
  lemma ConcatResultsStep<T, E>(rs: seq<Result<seq<T>, E>>, i: nat, acc: seq<T>)
    requires i < |rs|
    requires ConcatResults(rs[..i]) == Ok(acc)
    requires rs[i].Ok?
    ensures ConcatResults(rs[..i + 1]) == Ok(acc + rs[i].value)
  {
    assert rs[..i + 1][..i] == rs[..i];
  }

  // ---------------------------------------------------------------------
  // Names and references

  /** No name is owned by two different trendline names of the list. */
  ghost predicate OwnersApart(owners: seq<string>) {
    forall i, j, n :: 0 <= i < |owners| && 0 <= j < |owners| && OwnedBy(n, owners[i]) && OwnedBy(n, owners[j]) ==> i == j
  }

  /** A name owned by `trendlineName` continues it with an underscore. */
  lemma OwnedSuffix(n: string, trendlineName: string)
    requires OwnedBy(n, trendlineName)
    ensures trendlineName <= n && |n| > |trendlineName| && n[|trendlineName|] == '_'
  {
    if n == trendlineName + HIGH_RESOLUTION_SUFFIX {
      assert n[|trendlineName|] == HIGH_RESOLUTION_SUFFIX[0];
    } else if n == trendlineName + PARAMS_SUFFIX {
      assert n[|trendlineName|] == PARAMS_SUFFIX[0];
    } else {
      assert n[|trendlineName|] == DATA_SUFFIX[0];
    }
  }

  /** What follows a prefix `p + d` of `n`, seen from the end of `p`. */
  lemma SuffixAfter(n: string, p: string, d: string)
    requires p + d <= n
    ensures n[|p|..] == d + n[|p| + |d|..]
  {
  }

  /** `<m>Trendline<i>` and `<m>Trendline<j>` own a common name only when i = j. */
  lemma OwnedNamesApart(markName: string, i: nat, j: nat, n: string)
    requires OwnedBy(n, TrendlineName(markName, i)) && OwnedBy(n, TrendlineName(markName, j))
    ensures i == j
  {
    var p := markName + "Trendline";
    var a := NatToString(i);
    var b := NatToString(j);
    OwnedSuffix(n, p + a);
    OwnedSuffix(n, p + b);
    SuffixAfter(n, p, a);
    SuffixAfter(n, p, b);
    DigitsThenSuffixSplit(a, n[|p| + |a|..], b, n[|p| + |b|..]);
    NatToStringInjective(i, j);
  }

  /** The trendlines of a mark own disjoint names. */
  lemma TrendlinesOwnersApart(mark: MarkProps)
    ensures OwnersApart(TrendlineNames(Trendlines(mark)))
  {
    var ts := Trendlines(mark);
    var owners := TrendlineNames(ts);
    forall i, j, n | 0 <= i < |owners| && 0 <= j < |owners| && OwnedBy(n, owners[i]) && OwnedBy(n, owners[j])
      ensures i == j
    {
      OwnedNamesApart(mark.name, i, j, n);
    }
  }

  function TrendlineNames(ts: seq<TrendlineSpec>): (names: seq<string>)
    ensures |names| == |ts| && forall k :: 0 <= k < |ts| ==> names[k] == ts[k].name
  {
    seq(|ts|, k requires 0 <= k < |ts| => ts[k].name)
  }

  /**
   * When each successful result has distinct names owned by its own owner,
   * and owners own disjoint names, the concatenation has distinct names,
   * each owned by some owner.
   */
  lemma {:induction false} ConcatNames(rs: seq<Result<seq<DataSource>, BuildError>>, owners: seq<string>)
    requires |rs| == |owners| && OwnersApart(owners)
    requires forall k :: 0 <= k < |rs| && rs[k].Ok? ==> OwnsAll(rs[k].value, owners[k])
    ensures var r := ConcatResults(rs);
            r.Ok? ==>
              && NamesDistinct(r.value)
              && forall p :: 0 <= p < |r.value| ==> exists k :: 0 <= k < |owners| && OwnedBy(r.value[p].name, owners[k])
  {
    if rs != [] && ConcatResults(rs).Ok? {
      var m := |rs| - 1;
      assert rs[..m][..] == rs[..m];
      assert forall k :: 0 <= k < m ==> rs[..m][k] == rs[k];
      assert OwnersApart(owners[..m]);
      ConcatNames(rs[..m], owners[..m]);
      var a := ConcatResults(rs[..m]).value;
      var b := rs[m].value;
      var r := a + b;
      assert ConcatResults(rs).value == r;
      forall p | 0 <= p < |r|
        ensures exists k :: 0 <= k < |owners| && OwnedBy(r[p].name, owners[k])
      {
        if p < |a| {
          var k :| 0 <= k < m && OwnedBy(a[p].name, owners[..m][k]);
          assert OwnedBy(r[p].name, owners[k]);
        } else {
          assert OwnedBy(r[p].name, owners[m]);
        }
      }
      forall p, q | 0 <= p < q < |r|
        ensures r[p].name != r[q].name
      {
        if q < |a| {
          assert r[p] == a[p] && r[q] == a[q];
        } else if |a| <= p {
          assert r[p] == b[p - |a|] && r[q] == b[q - |a|];
        } else {
          var k :| 0 <= k < m && OwnedBy(a[p].name, owners[..m][k]);
          assert OwnedBy(r[p].name, owners[k]);
          assert OwnedBy(r[q].name, owners[m]);
        }
      }
    }
  }

  /** `sources` have distinct names, all owned by `owner`. */
  predicate OwnsAll(sources: seq<DataSource>, owner: string) {
    NamesDistinct(sources) && forall q :: 0 <= q < |sources| ==> OwnedBy(sources[q].name, owner)
  }

  /** Across the trendlines of a mark, all sources have distinct names, each owned by one trendline. */
  lemma SourcesOfNames(mark: MarkProps)
    ensures var ts := Trendlines(mark);
            var r := SourcesOf(mark, ts);
            r.Ok? ==>
              && NamesDistinct(r.value)
              && forall p :: 0 <= p < |r.value| ==>
                   exists k :: 0 <= k < |ts| && OwnedBy(r.value[p].name, TrendlineName(mark.name, k))
  {
    var ts := Trendlines(mark);
    var rs := Outcomes(mark, ts);
    var owners := TrendlineNames(ts);
    forall k | 0 <= k < |rs| && rs[k].Ok?
      ensures OwnsAll(rs[k].value, owners[k])
    {
      TrendlineSourcesNames(mark, ts[k]);
    }
    TrendlinesOwnersApart(mark);
    ConcatNames(rs, owners);
  }

  /** The concatenation and highlight names are not owned by any trendline of the mark. */
  lemma MarkLevelNamesNotOwned(markName: string, k: nat, n: string)
    requires n == AllTrendlineDataName(markName) || n == HighlightedDataName(markName)
    ensures !OwnedBy(n, TrendlineName(markName, k))
  {
    var tn := TrendlineName(markName, k);
    NotTrendlinePrefix(markName, k, n);
    forall o | OwnedBy(o, tn)
      ensures tn <= o
    {
      OwnedSuffix(o, tn);
    }
  }

  lemma NotTrendlinePrefix(markName: string, k: nat, n: string)
    requires n == AllTrendlineDataName(markName) || n == HighlightedDataName(markName)
    ensures !(TrendlineName(markName, k) <= n)
  {
    var digits := NatToString(k);
    var tn := markName + "Trendline" + digits;
    assert tn[|markName|] == 'T';
    assert tn[|markName| + 9] == digits[0];
    if n == AllTrendlineDataName(markName) {
      assert n[|markName|] == '_';
    } else {
      assert n[|markName| + 9] == '_';
    }
  }

  /** The data sources a mark's trendlines add have pairwise distinct names. */
  lemma TrendlineDataNamesDistinct(mark: MarkProps)
    ensures var r := TrendlineData(mark);
            r.Ok? ==> NamesDistinct(r.value)
  {
    var ts := Trendlines(mark);
    if TrendlineData(mark).Ok? {
      SourcesOfNames(mark);
      var a := SourcesOf(mark, ts).value;
      if AnyInteractive(ts) {
        var b := InteractiveSources(mark.name, ts);
        var r := a + b;
        assert TrendlineData(mark).value == r;
        forall p, q | 0 <= p < q < |r|
          ensures r[p].name != r[q].name
        {
          if q < |a| {
            assert r[p] == a[p] && r[q] == a[q];
          } else if |a| <= p {
            assert r[p] == b[p - |a|] && r[q] == b[q - |a|];
            assert b[0].name[|mark.name|] != b[1].name[|mark.name|];
          } else {
            var k :| 0 <= k < |ts| && OwnedBy(a[p].name, TrendlineName(mark.name, k));
            MarkLevelNamesNotOwned(mark.name, k, r[q].name);
          }
        }
      }
    }
  }

  /** Every value of a successful result is among the values of the concatenation. */
  lemma {:induction false} ConcatContains<T, E>(rs: seq<Result<seq<T>, E>>, k: nat)
    requires k < |rs|
    requires ConcatResults(rs).Ok?
    ensures rs[k].Ok?
    ensures forall x :: x in rs[k].value ==> x in ConcatResults(rs).value
  {
    var m := |rs| - 1;
    if k < m {
      ConcatContains(rs[..m], k);
      assert rs[..m][k] == rs[k];
    }
  }

  /**
   * When every trendline uses a method the builder knows, the concatenated
   * source lists only `_data` sources that were emitted.
   */
  lemma TrendlineDataReferences(mark: MarkProps)
    requires forall k :: 0 <= k < |Trendlines(mark)| ==> IsRecognisedMethod(Trendlines(mark)[k].methodName)
    ensures var r := TrendlineData(mark);
            r.Ok? ==> forall n :: n in InteractiveDataNames(Trendlines(mark)) ==> HasSourceNamed(r.value, n)
  {
    var ts := Trendlines(mark);
    if TrendlineData(mark).Ok? {
      forall n | n in InteractiveDataNames(ts)
        ensures HasSourceNamed(TrendlineData(mark).value, n)
      {
        var k :| 0 <= k < |ts| && IsInteractive(ts[k]) && n == ts[k].name + DATA_SUFFIX;
        TrendlineSourcesIncluded(mark, k);
        TrendlineSourcesPresence(mark, ts[k]);
      }
    }
  }

  /** Every source a trendline builds is among the trendline data. */
  lemma TrendlineSourcesIncluded(mark: MarkProps, k: nat)
    requires k < |Trendlines(mark)| && TrendlineData(mark).Ok?
    ensures TrendlineSources(mark, Trendlines(mark)[k]).Ok?
    ensures forall name ::
              HasSourceNamed(TrendlineSources(mark, Trendlines(mark)[k]).value, name) ==>
                HasSourceNamed(TrendlineData(mark).value, name)
  {
    var ts := Trendlines(mark);
    var r := TrendlineData(mark).value;
    var a := SourcesOf(mark, ts).value;
    assert a <= r;
    ConcatContains(Outcomes(mark, ts), k);
    assert Outcomes(mark, ts)[k] == TrendlineSources(mark, ts[k]);
    var own := TrendlineSources(mark, ts[k]).value;
    forall name | HasSourceNamed(own, name)
      ensures HasSourceNamed(r, name)
    {
      var q :| 0 <= q < |own| && own[q].name == name;
      assert own[q] in a;
      var p :| 0 <= p < |a| && a[p] == own[q];
      assert r[p] == a[p];
    }
  }

  // ---------------------------------------------------------------------
  // Adding the trendline data to the specification's data

  /** Index of the first source called `name`, or -1. */
  function FindSourceIndex(sources: seq<DataSource>, name: string): (i: int)
    ensures -1 <= i < |sources|
    ensures i == -1 <==> !HasSourceNamed(sources, name)
    ensures 0 <= i ==> sources[i].name == name && forall k :: 0 <= k < i ==> sources[k].name != name
  {
    if sources == [] then -1
    else if sources[0].name == name then 0
    else
      var j := FindSourceIndex(sources[1..], name);
      assert forall k :: 1 <= k < |sources| ==> sources[1..][k - 1] == sources[k];
      if j == -1 then -1 else j + 1
  }

  /** A time-scale mark with a regression trendline needs the normalised dimension on its table. */
  predicate NeedsNormalizedDimension(mark: MarkProps) {
    var ts := Trendlines(mark);
    HasTimeScale(mark) && exists k :: 0 <= k < |ts| && IsRegressionMethod(ts[k].methodName)
  }

  /**
   * The data after the normalised dimension is added to the first source
   * called `table`; an error when there is none (reading `transform` of the
   * missing table).
   */
  function NormalizeTable(sources: seq<DataSource>, dimension: string): (r: Result<seq<DataSource>, BuildError>)
    ensures r.Err? <==> !HasSourceNamed(sources, TABLE)
    ensures r.Err? ==> r.error == MissingTableData
    ensures r.Ok? ==>
              var i := FindSourceIndex(sources, TABLE);
              && |r.value| == |sources|
              && (forall k :: 0 <= k < |sources| && k != i ==> r.value[k] == sources[k])
              && r.value[i].name == TABLE && r.value[i].source == sources[i].source
              && r.value[i].transform.Some?
              && HasNormalizedDimension(r.value[i].transform.value, dimension)
              && sources[i].transform.GetOr([]) <= r.value[i].transform.value
  {
    var i := FindSourceIndex(sources, TABLE);
    if i < 0 then Err(MissingTableData)
    else
      var table := sources[i];
      var transforms := table.transform.GetOr([]);
      Ok(sources[i := table.(transform := Some(AddNormalizedDimensionTransform(transforms, dimension)))])
  }

  /** Normalising twice leaves the data as normalising once. */
  lemma NormalizeTableIdempotent(sources: seq<DataSource>, dimension: string)
    requires NormalizeTable(sources, dimension).Ok?
    ensures NormalizeTable(NormalizeTable(sources, dimension).value, dimension) == NormalizeTable(sources, dimension)
  {
    var once := NormalizeTable(sources, dimension).value;
    var i := FindSourceIndex(sources, TABLE);
    assert FindSourceIndex(once, TABLE) == i by {
      assert forall k :: 0 <= k < i ==> once[k].name == sources[k].name;
    }
    AddNormalizedDimensionIdempotent(sources[i].transform.GetOr([]), dimension);
    assert once[i := once[i].(transform := Some(AddNormalizedDimensionTransform(once[i].transform.GetOr([]), dimension)))]
           == once;
  }

  /** The specification's data array, which `addTrendlineData` extends and edits in place. */
  class DataList {
    var sources: seq<DataSource>

    constructor (sources: seq<DataSource>)
      ensures this.sources == sources
    {
      this.sources := sources;
    }

    /**
     * `addTrendlineData`: push the trendline sources, then, for a time scale
     * with a regression trendline, add the normalised dimension to the table.
     * A trendline error leaves the data untouched; a missing table fails
     * after the push.
     */
    method AddTrendlineData(mark: MarkProps) returns (r: Result<(), BuildError>)
      modifies this
      ensures TrendlineData(mark).Err? ==> r == Err(TrendlineData(mark).error) && sources == old(sources)
      ensures TrendlineData(mark).Ok? ==>
                var pushed := old(sources) + TrendlineData(mark).value;
                && (!NeedsNormalizedDimension(mark) ==> r == Ok(()) && sources == pushed)
                && (NeedsNormalizedDimension(mark) ==>
                      var normalized := NormalizeTable(pushed, mark.dimension);
                      && (normalized.Ok? ==> r == Ok(()) && sources == normalized.value)
                      && (normalized.Err? ==> r == Err(normalized.error) && sources == pushed))
    {
      var trendlineData := GetTrendlineData(mark);
      if trendlineData.Err? {
        return Err(trendlineData.error);
      }
      sources := sources + trendlineData.value;
      var ts := Trendlines(mark);
      var hasRegressionTrendline := exists k :: 0 <= k < |ts| && IsRegressionMethod(ts[k].methodName);
      if hasRegressionTrendline && HasTimeScale(mark) {
        var i := FindSourceIndex(sources, TABLE);
        if i < 0 {
          return Err(MissingTableData);
        }
        var table := sources[i];
        sources := sources[i := table.(transform := Some(AddNormalizedDimensionTransform(table.transform.GetOr([]), mark.dimension)))];
      }
      return Ok(());
    }
  }
}
