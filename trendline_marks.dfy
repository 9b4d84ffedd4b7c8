/**
 * The marks, scales and signals a mark's trendlines add: one clipped group
 * per trendline faceted over its computed data and holding its line, a hover
 * group when a trendline has a tooltip, the normalised x scale of a time
 * axis, and the hover and selection signals.
 */
module TrendlineMarks {
  import opened Results
  import opened Constants
  import opened VegaSpec
  import opened TrendlineMethod
  import opened TrendlineProps
  import opened TrendlineDataBuilder
  import LinePoints

  /** `getTrendlineLineMark`. */
  function TrendlineLineMark(mark: MarkProps, t: TrendlineSpec): (m: LineMark)
    ensures m.name == t.name && m.from == t.name + "_facet" && !m.interactive
    ensures m.yScale == "yLinear" && m.yField == t.metric
    ensures m.stroke == (if IsTruthy(t.color) then StaticColor(t.color.value) else MarkColor(mark.color))
    ensures m.colorScheme == mark.colorScheme
    ensures m.strokeDash == t.lineType && m.strokeWidth == t.lineWidth
    ensures HasTimeScale(mark) <==> m.x == ScaledField("xTrendline", mark.dimension + "Normalized")
    ensures !HasTimeScale(mark) ==> m.x == XProductionRule(mark.scaleType, mark.dimension)
    ensures m.displayOnHover == t.displayOnHover && m.opacity == t.opacity
  {
    var x := if HasTimeScale(mark) then ScaledField("xTrendline", mark.dimension + "Normalized")
             else XProductionRule(mark.scaleType, mark.dimension);
    var stroke := if IsTruthy(t.color) then StaticColor(t.color.value) else MarkColor(mark.color);
    LineMark(t.name, t.name + "_facet", false, "yLinear", t.metric, stroke, mark.colorScheme,
             t.lineType, t.lineWidth, x, t.displayOnHover, t.opacity)
  }

  /** The data a trendline's group is faceted over: the high-resolution curve of a regression, its points otherwise. */
  function FacetData(t: TrendlineSpec): (name: string)
    ensures IsRegressionMethod(t.methodName) ==> name == t.name + HIGH_RESOLUTION_SUFFIX
    ensures !IsRegressionMethod(t.methodName) ==> name == t.name + DATA_SUFFIX
  {
    t.name + (if IsRegressionMethod(t.methodName) then HIGH_RESOLUTION_SUFFIX else DATA_SUFFIX)
  }

  /** The group mark of one trendline, as built in the loop of `getTrendlineMarks`. */
  function TrendlineGroupMark(mark: MarkProps, t: TrendlineSpec): (g: GroupMark)
    ensures g.FacetGroup? && g.name == t.name + "_group" && g.clip
    ensures g.facetName == g.line.from && g.facetData == FacetData(t) && g.groupby == mark.facets
    ensures g.line == TrendlineLineMark(mark, t)
  {
    FacetGroup(t.name + "_group", true, t.name + "_facet", FacetData(t), mark.facets, TrendlineLineMark(mark, t))
  }

  predicate AnyTooltip(ts: seq<TrendlineSpec>) {
    exists k :: 0 <= k < |ts| && ts[k].children.hasTooltip
  }

  predicate AnyHighlightRawPoint(ts: seq<TrendlineSpec>) {
    exists k :: 0 <= k < |ts| && ts[k].highlightRawPoint
  }

  /**
   * `getTrendlineHoverMarks`: hover marks over the concatenated trendline
   * points. The hover line is named after the mark, takes the children of all
   * the trendlines and plots the trendline value.
   */
  function TrendlineHoverGroup(mark: MarkProps, highlightRawPoint: bool): (g: GroupMark)
    ensures g.HoverGroup? && g.name == mark.name + "Trendline_hoverGroup" && g.clip
    ensures g.hoverLineName == mark.name + "Trendline" && g.hoverData == AllTrendlineDataName(mark.name)
    ensures g.hoverMetric == TRENDLINE_VALUE
    ensures g.hoverPopover <==> exists k :: 0 <= k < |Trendlines(mark)| && Trendlines(mark)[k].children.hasPopover
    ensures g.highlightMetric.Some? <==> highlightRawPoint
    ensures highlightRawPoint ==> g.highlightMetric == Some(mark.metric)
  {
    HoverGroup(mark.name + "Trendline_hoverGroup", true, mark.name + "Trendline", TRENDLINE_VALUE,
               AnyPopover(Trendlines(mark)), AllTrendlineDataName(mark.name),
               if highlightRawPoint then Some(mark.metric) else None)
  }

  /** `getTrendlineMarks`: a group per trendline in order, then the hover group when any trendline has a tooltip. */
  method GetTrendlineMarks(mark: MarkProps) returns (marks: seq<GroupMark>)
    ensures var ts := Trendlines(mark);
            && |marks| == |ts| + (if AnyTooltip(ts) then 1 else 0)
            && (forall k :: 0 <= k < |ts| ==> marks[k] == TrendlineGroupMark(mark, ts[k]))
            && (AnyTooltip(ts) ==> marks[|ts|] == TrendlineHoverGroup(mark, AnyHighlightRawPoint(ts)))
  {
    var ts := Trendlines(mark);
    marks := [];
    var i := 0;
    while i < |ts|
      invariant 0 <= i <= |ts|
      invariant |marks| == i
      invariant forall k :: 0 <= k < i ==> marks[k] == TrendlineGroupMark(mark, ts[k])
    {
      var t := ts[i];
      var dataSuffix := if IsRegressionMethod(t.methodName) then HIGH_RESOLUTION_SUFFIX else DATA_SUFFIX;
      var group := FacetGroup(t.name + "_group", true, t.name + "_facet", t.name + dataSuffix, mark.facets,
                              TrendlineLineMark(mark, t));
      assert group == TrendlineGroupMark(mark, t);
      marks := marks + [group];
      i := i + 1;
    }
    if AnyTooltip(ts) {
      var hover := TrendlineHoverGroup(mark, AnyHighlightRawPoint(ts));
      ghost var groups := marks;
      marks := marks + [hover];
      assert forall k :: 0 <= k < |ts| ==> marks[k] == groups[k];
    }
  }

  /**
   * When every trendline uses a known method, each trendline group is
   * faceted over a source that the trendline data emits; when, in addition,
   * a tooltip counts as an interactive child, the hover group reads an
   * emitted source too.
   */
  lemma MarksReadEmittedData(mark: MarkProps)
    requires forall k :: 0 <= k < |Trendlines(mark)| ==> IsRecognisedMethod(Trendlines(mark)[k].methodName)
    ensures var ts := Trendlines(mark);
            var r := TrendlineData(mark);
            r.Ok? ==>
              && (forall k :: 0 <= k < |ts| ==> HasSourceNamed(r.value, TrendlineGroupMark(mark, ts[k]).facetData))
              && (((forall k :: 0 <= k < |ts| ==> ts[k].children.hasTooltip ==> ts[k].children.hasInteractiveChildren)
                   && AnyTooltip(ts))
                  ==> HasSourceNamed(r.value, TrendlineHoverGroup(mark, AnyHighlightRawPoint(ts)).hoverData))
  {
    var ts := Trendlines(mark);
    if TrendlineData(mark).Ok? {
      forall k | 0 <= k < |ts|
        ensures HasSourceNamed(TrendlineData(mark).value, TrendlineGroupMark(mark, ts[k]).facetData)
      {
        FacetDataEmitted(mark, k);
      }
      if (forall k :: 0 <= k < |ts| ==> ts[k].children.hasTooltip ==> ts[k].children.hasInteractiveChildren)
         && AnyTooltip(ts) {
        var k :| 0 <= k < |ts| && ts[k].children.hasTooltip;
        assert IsInteractive(ts[k]);
        AllTrendlineDataEmitted(mark);
      }
    }
  }

  /** The source a trendline group is faceted over is among the trendline data. */
  lemma FacetDataEmitted(mark: MarkProps, k: nat)
    requires k < |Trendlines(mark)| && IsRecognisedMethod(Trendlines(mark)[k].methodName)
    requires TrendlineData(mark).Ok?
    ensures HasSourceNamed(TrendlineData(mark).value, TrendlineGroupMark(mark, Trendlines(mark)[k]).facetData)
  {
    TrendlineSourcesIncluded(mark, k);
    TrendlineSourcesPresence(mark, Trendlines(mark)[k]);
  }

  /** `getTrendlineScales`: the normalised x scale, present exactly for a time axis with trendlines. */
  function TrendlineScales(mark: MarkProps): (scales: seq<Scale>)
    ensures scales != [] <==> Trendlines(mark) != [] && HasTimeScale(mark)
    ensures scales != [] ==>
              && scales == [Scale("xTrendline", "linear", "width", FILTERED_TABLE, [mark.dimension + "Normalized"],
                                  LINEAR_PADDING, false, false)]
  {
    if |Trendlines(mark)| > 0 && HasTimeScale(mark) then
      [Scale("xTrendline", "linear", "width", FILTERED_TABLE, [mark.dimension + "Normalized"], LINEAR_PADDING, false, false)]
    else []
  }

  /** The time-scale trendline lines read the x scale that `TrendlineScales` declares. */
  lemma TimeLinesUseDeclaredScale(mark: MarkProps, t: TrendlineSpec)
    requires t in Trendlines(mark) && HasTimeScale(mark)
    ensures var x := TrendlineLineMark(mark, t).x;
            exists s :: s in TrendlineScales(mark) && s.name == x.scale && x.field in s.domainFields
  {
    var s := TrendlineScales(mark)[0];
    assert s.name == "xTrendline" && (mark.dimension + "Normalized") in s.domainFields;
  }

  /**
   * The normalised dimension that time-scale lines and the `xTrendline`
   * domain read is added to the table only when some trendline is a
   * regression. With only average and moving-average trendlines, this
   * builder reads a field that it never computes. The lemma puts side by
   * side three facts that `TrendlineLineMark`, `TrendlineScales` and
   * `NeedsNormalizedDimension` already state, to record that gap; what
   * `addTrendlineData` then does to the data is `DataList.AddTrendlineData`'s
   * contract.
   */
  lemma TimeLinesNeedRegressionForNormalizedField(mark: MarkProps, t: TrendlineSpec)
    requires t in Trendlines(mark) && HasTimeScale(mark)
    ensures TrendlineLineMark(mark, t).x.field == mark.dimension + "Normalized"
    ensures TrendlineScales(mark)[0].domainFields == [mark.dimension + "Normalized"]
    ensures var ts := Trendlines(mark);
            NeedsNormalizedDimension(mark) <==> exists k :: 0 <= k < |ts| && IsRegressionMethod(ts[k].methodName)
  {
  }

  predicate AnyDisplayOnHover(ts: seq<TrendlineSpec>) {
    exists k :: 0 <= k < |ts| && ts[k].displayOnHover
  }

  /** The hover signals of a tooltip, the series-hover signal of display-on-hover, the selection signals of a popover. */
  function SignalsFor(markName: string, tooltip: bool, displayOnHover: bool, popover: bool): (signals: seq<Signal>)
    ensures |signals| == (if tooltip then 2 else 0) + (if displayOnHover then 1 else 0) + (if popover then 2 else 0)
  {
    (if tooltip then
       [UncontrolledHoverSignal(markName + "Trendline", true, markName + "Trendline_voronoi"),
        SeriesHoveredSignal(markName + "Trendline", true, markName + "Trendline_voronoi")]
     else [])
    + (if displayOnHover then [SeriesHoveredSignal(markName, true, markName + "_voronoi")] else [])
    + (if popover then [GenericSignal(markName + "Trendline_selectedId"), GenericSignal(markName + "Trendline_selectedSeries")]
       else [])
  }

  /** `getTrendlineSignals`. */
  method GetTrendlineSignals(mark: MarkProps) returns (signals: seq<Signal>)
    ensures var ts := Trendlines(mark);
            signals == SignalsFor(mark.name, AnyTooltip(ts), AnyDisplayOnHover(ts), AnyPopover(ts))
  {
    var ts := Trendlines(mark);
    signals := [];
    if AnyTooltip(ts) {
      signals := signals + [UncontrolledHoverSignal(mark.name + "Trendline", true, mark.name + "Trendline_voronoi")];
      signals := signals + [SeriesHoveredSignal(mark.name + "Trendline", true, mark.name + "Trendline_voronoi")];
    }
    if AnyDisplayOnHover(ts) {
      signals := signals + [SeriesHoveredSignal(mark.name, true, mark.name + "_voronoi")];
    }
    if AnyPopover(ts) {
      signals := signals + [GenericSignal(mark.name + "Trendline_selectedId")];
      signals := signals + [GenericSignal(mark.name + "Trendline_selectedSeries")];
    }
  }

  /**
   * The signals the highlight filter reads are declared: with a popover, the
   * selection signal is among the trendline signals.
   */
  lemma SelectionSignalDeclared(mark: MarkProps)
    requires AnyPopover(Trendlines(mark))
    ensures var ts := Trendlines(mark);
            GenericSignal(mark.name + "Trendline_selectedId")
              in SignalsFor(mark.name, AnyTooltip(ts), AnyDisplayOnHover(ts), true)
  {
    var ts := Trendlines(mark);
    var signals := SignalsFor(mark.name, AnyTooltip(ts), AnyDisplayOnHover(ts), true);
    var k := (if AnyTooltip(ts) then 2 else 0) + (if AnyDisplayOnHover(ts) then 1 else 0);
    assert signals[k] == GenericSignal(mark.name + "Trendline_selectedId");
  }

  /**
   * The line point marks drawn for the hover line, with the props the hover
   * group passes to them, read the highlighted trendline data and plot the
   * trendline value. The highlight point tests the selection exactly when a
   * trendline has a popover, and then the signal that test reads is declared.
   */
  lemma HoverPointsReadHighlightedData(mark: MarkProps, highlightRawPoint: bool, p: LinePoints.LinePointProps,
                                       secondaryHighlightedMetric: string)
    requires var g := TrendlineHoverGroup(mark, highlightRawPoint);
             p.name == g.hoverLineName && p.metric == g.hoverMetric && p.hasPopover == g.hoverPopover
    ensures var marks := LinePoints.HighlightMarks(p, secondaryHighlightedMetric);
            forall i :: 0 <= i < |marks| ==> marks[i].from == HighlightedDataName(mark.name)
    ensures var marks := LinePoints.HighlightMarks(p, secondaryHighlightedMetric);
            marks[0].yField == TRENDLINE_VALUE && marks[1].yField == TRENDLINE_VALUE && marks[3].yField == TRENDLINE_VALUE
    ensures var fill := LinePoints.HighlightPointFill(p);
            (exists k :: 0 <= k < |fill| && fill[k].test == Some(LinePoints.SelectedTest(p.name)))
              <==> AnyPopover(Trendlines(mark))
    ensures var ts := Trendlines(mark);
            AnyPopover(ts) ==>
              GenericSignal(LinePoints.SelectedIdSignal(p.name))
                in SignalsFor(mark.name, AnyTooltip(ts), AnyDisplayOnHover(ts), AnyPopover(ts))
  {
    HoverPointsFrom(mark, p, secondaryHighlightedMetric);
    HoverPointsSelection(mark, highlightRawPoint, p);
  }

  /** The data and y field of the hover points, the first half of `HoverPointsReadHighlightedData`. */
  lemma HoverPointsFrom(mark: MarkProps, p: LinePoints.LinePointProps, secondaryHighlightedMetric: string)
    requires p.name == mark.name + "Trendline" && p.metric == TRENDLINE_VALUE
    ensures var marks := LinePoints.HighlightMarks(p, secondaryHighlightedMetric);
            forall i :: 0 <= i < |marks| ==> marks[i].from == HighlightedDataName(mark.name)
    ensures var marks := LinePoints.HighlightMarks(p, secondaryHighlightedMetric);
            marks[0].yField == TRENDLINE_VALUE && marks[1].yField == TRENDLINE_VALUE && marks[3].yField == TRENDLINE_VALUE
  {
    HighlightedDataNameOfLine(mark.name);
    LinePoints.HighlightMarksReadHighlightedData(p, secondaryHighlightedMetric);
  }

  /** The highlighted data of the line `<mark>Trendline`, as the line point builder names it. */
  lemma HighlightedDataNameOfLine(markName: string)
    ensures HighlightedDataName(markName) == (markName + "Trendline") + "_highlightedData"
  {
    assert "Trendline" + "_highlightedData" == "Trendline_highlightedData";
  }

  /** The selection half of `HoverPointsReadHighlightedData`. */
  lemma HoverPointsSelection(mark: MarkProps, highlightRawPoint: bool, p: LinePoints.LinePointProps)
    requires var g := TrendlineHoverGroup(mark, highlightRawPoint);
             p.name == g.hoverLineName && p.hasPopover == g.hoverPopover
    ensures var fill := LinePoints.HighlightPointFill(p);
            (exists k :: 0 <= k < |fill| && fill[k].test == Some(LinePoints.SelectedTest(p.name)))
              <==> AnyPopover(Trendlines(mark))
    ensures var ts := Trendlines(mark);
            AnyPopover(ts) ==>
              GenericSignal(LinePoints.SelectedIdSignal(p.name))
                in SignalsFor(mark.name, AnyTooltip(ts), AnyDisplayOnHover(ts), AnyPopover(ts))
  {
    assert LinePoints.SelectedIdSignal(p.name) == mark.name + "Trendline_selectedId";
    LinePoints.SelectionRulesOnlyWithPopover(p);
    if AnyPopover(Trendlines(mark)) {
      SelectionSignalDeclared(mark);
    }
  }

  /** The concatenated trendline data is emitted whenever a trendline is interactive. */
  lemma AllTrendlineDataEmitted(mark: MarkProps)
    requires TrendlineData(mark).Ok? && AnyInteractive(Trendlines(mark))
    ensures HasSourceNamed(TrendlineData(mark).value, AllTrendlineDataName(mark.name))
  {
    TrendlineDataShape(mark);
    var r := TrendlineData(mark).value;
    assert r[|r| - 2].name == AllTrendlineDataName(mark.name);
  }

  /** The highlighted trendline data is emitted whenever a trendline is interactive. */
  lemma HighlightedDataEmitted(mark: MarkProps)
    requires TrendlineData(mark).Ok? && AnyInteractive(Trendlines(mark))
    ensures HasSourceNamed(TrendlineData(mark).value, HighlightedDataName(mark.name))
  {
    TrendlineDataShape(mark);
    var r := TrendlineData(mark).value;
    assert r[|r| - 1].name == HighlightedDataName(mark.name);
  }
}
