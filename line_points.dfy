/**
 * The symbol marks a line draws for its points: static points, and the
 * background, highlight, secondary and selection-ring points of a hovered or
 * selected datum, with the production-rule lists that restyle a highlight
 * point when it is also a static point or the selected one.
 *
 * The colour and opacity production rules of the mark utilities, the
 * colour-scheme lookup and the x production rule of the line utilities are
 * not part of this model: their results are recorded by their arguments.
 */
module LinePoints {
  import opened Results
  import opened Constants
  import opened VegaSpec
  import opened ProductionRules

  /** The line props the point builders read; `hasPopover` is the mark utilities' verdict on the line's children. */
  datatype LinePointProps = LinePointProps(
    name: string, metric: string, dimension: string, scaleType: Option<string>,
    color: string, colorScheme: string, opacity: string, staticPoint: Option<string>, hasPopover: bool)

  datatype ValueRef =
    | SignalRef(signal: string)
    | NumberRef(n: int)
      /** The mark utilities' colour production rule for a colour and scheme. */
    | ColorRule(color: string, colorScheme: string)
      /** The mark utilities' opacity production rule. */
    | OpacityRule(opacity: string)
      /** The highlight value the mark utilities derive from the opacity production rule. */
    | HighlightOpacity(opacity: string)
      /** The scheme's `static-blue`. */
    | StaticBlue(colorScheme: string)

  /** `staticPointTest`: the datum's static-point field is set to `true`. */
  function StaticPointTest(staticPoint: string): string {
    "datum." + staticPoint + " && datum." + staticPoint + " === true"
  }

  /** The signal holding the id of the selected datum of the named mark. */
  function SelectedIdSignal(name: string): string {
    name + "_selectedId"
  }

  /** `selectedTest`: the mark's selected id is set and is the datum's id. */
  function SelectedTest(name: string): string {
    SelectedIdSignal(name) + " && " + SelectedIdSignal(name) + " === datum." + MARK_ID
  }

  /** Distinct static-point fields give distinct tests, so a test names the one field it reads. */
  lemma StaticPointTestInjective(a: string, b: string)
    requires StaticPointTest(a) == StaticPointTest(b)
    ensures a == b
  {
    var t := StaticPointTest(a);
    assert |t| == 2 * |a| + 25 && |StaticPointTest(b)| == 2 * |b| + 25;
    assert t[6..6 + |a|] == a;
    assert StaticPointTest(b)[6..6 + |b|] == b;
  }

  /** Distinct lines give distinct selection tests, each reading its own line's selected-id signal. */
  lemma SelectedTestInjective(a: string, b: string)
    requires SelectedTest(a) == SelectedTest(b)
    ensures a == b
  {
    var t := SelectedTest(a);
    assert |t| == 2 * |a| + |MARK_ID| + 37 && |SelectedTest(b)| == 2 * |b| + |MARK_ID| + 37;
    assert t[..|a|] == a;
    assert SelectedTest(b)[..|b|] == b;
  }

  /** The selection test is never the static-point test: the first ends in the id field, the second in `true`. */
  lemma StaticAndSelectedTestsDiffer(staticPoint: string, name: string)
    ensures StaticPointTest(staticPoint) != SelectedTest(name)
  {
    var s := StaticPointTest(staticPoint);
    var t := SelectedTest(name);
    assert s[|s| - 1] == 'e';
    assert t[|t| - 1] == 'd';
  }

  predicate IsStatic(p: LinePointProps) {
    IsTruthy(p.staticPoint)
  }

  /** Whether the static-point test holds for the datum. */
  predicate StaticHolds(p: LinePointProps, holds: set<string>) {
    IsStatic(p) && StaticPointTest(p.staticPoint.value) in holds
  }

  /** Whether the datum is the selected one of a line with a popover. */
  predicate SelectedHolds(p: LinePointProps, holds: set<string>) {
    p.hasPopover && SelectedTest(p.name) in holds
  }

  /** The rule a static point adds in front of a list, when the line has static points. */
  function StaticRule(p: LinePointProps, v: ValueRef): (rules: seq<Rule<ValueRef>>)
    ensures |rules| == (if IsStatic(p) then 1 else 0)
    ensures IsStatic(p) ==> rules[0] == Rule(Some(StaticPointTest(p.staticPoint.value)), v)
  {
    if IsTruthy(p.staticPoint) then [Rule(Some(StaticPointTest(p.staticPoint.value)), v)] else []
  }

  /** The rule a selected point adds, when the line has a popover. */
  function SelectedRule(p: LinePointProps, v: ValueRef): (rules: seq<Rule<ValueRef>>)
    ensures |rules| == (if p.hasPopover then 1 else 0)
    ensures p.hasPopover ==> rules[0] == Rule(Some(SelectedTest(p.name)), v)
  {
    if p.hasPopover then [Rule(Some(SelectedTest(p.name)), v)] else []
  }

  function Color(p: LinePointProps): ValueRef {
    ColorRule(p.color, p.colorScheme)
  }

  const BACKGROUND: ValueRef := SignalRef(BACKGROUND_COLOR)

  /** `getHighlightPointFill`. */
  function HighlightPointFill(p: LinePointProps): (rules: seq<Rule<ValueRef>>)
    ensures EndsInFallback(rules) && rules[|rules| - 1] == Fallback(BACKGROUND)
    ensures |rules| == 1 + (if IsStatic(p) then 1 else 0) + (if p.hasPopover then 1 else 0)
    ensures IsStatic(p) ==> rules[0] == Rule(Some(StaticPointTest(p.staticPoint.value)), Color(p))
    ensures p.hasPopover ==> rules[|rules| - 2] == Rule(Some(SelectedTest(p.name)), Color(p))
  {
    StaticRule(p, Color(p)) + SelectedRule(p, Color(p)) + [Rule(None, SignalRef(BACKGROUND_COLOR))]
  }

  /** `getHighlightPointStroke`. */
  function HighlightPointStroke(p: LinePointProps): (rules: seq<Rule<ValueRef>>)
    ensures EndsInFallback(rules) && rules[|rules| - 1] == Fallback(Color(p))
    ensures |rules| == 1 + (if IsStatic(p) then 1 else 0) + (if p.hasPopover then 1 else 0)
    ensures IsStatic(p) ==> rules[0] == Rule(Some(StaticPointTest(p.staticPoint.value)), Color(p))
    ensures p.hasPopover ==> rules[|rules| - 2] == Rule(Some(SelectedTest(p.name)), BACKGROUND)
  {
    StaticRule(p, Color(p)) + SelectedRule(p, SignalRef(BACKGROUND_COLOR)) + [Rule(None, Color(p))]
  }

  /** `getHighlightPointStrokeOpacity`. */
  function HighlightPointStrokeOpacity(p: LinePointProps): (rules: seq<Rule<ValueRef>>)
    ensures EndsInFallback(rules) && rules[|rules| - 1] == Fallback(OpacityRule(p.opacity))
    ensures |rules| == 1 + (if IsStatic(p) then 1 else 0)
    ensures IsStatic(p) ==> rules[0] == Rule(Some(StaticPointTest(p.staticPoint.value)), HighlightOpacity(p.opacity))
  {
    StaticRule(p, HighlightOpacity(p.opacity)) + [Rule(None, OpacityRule(p.opacity))]
  }

  /** `getHighlightPointSize`: a static point is drawn smaller, to make room for its wider stroke. */
  function HighlightPointSize(p: LinePointProps): (rules: seq<Rule<ValueRef>>)
    ensures EndsInFallback(rules) && rules[|rules| - 1] == Fallback(NumberRef(DEFAULT_SYMBOL_SIZE))
    ensures |rules| == 1 + (if IsStatic(p) then 1 else 0)
    ensures IsStatic(p) ==> rules[0] == Rule(Some(StaticPointTest(p.staticPoint.value)), NumberRef(64))
  {
    StaticRule(p, NumberRef(64)) + [Rule(None, NumberRef(DEFAULT_SYMBOL_SIZE))]
  }

  /** `getHighlightPointStrokeWidth`: a static point gets a wider stroke. */
  function HighlightPointStrokeWidth(p: LinePointProps): (rules: seq<Rule<ValueRef>>)
    ensures EndsInFallback(rules) && rules[|rules| - 1] == Fallback(NumberRef(DEFAULT_SYMBOL_STROKE_WIDTH))
    ensures |rules| == 1 + (if IsStatic(p) then 1 else 0)
    ensures IsStatic(p) ==> rules[0] == Rule(Some(StaticPointTest(p.staticPoint.value)), NumberRef(6))
  {
    StaticRule(p, NumberRef(6)) + [Rule(None, NumberRef(DEFAULT_SYMBOL_STROKE_WIDTH))]
  }

  /**
   * The highlight point's fill and stroke test the selection exactly when the
   * line has a popover; no static-point rule can be mistaken for it.
   */
  lemma SelectionRulesOnlyWithPopover(p: LinePointProps)
    ensures (exists k :: 0 <= k < |HighlightPointFill(p)| && HighlightPointFill(p)[k].test == Some(SelectedTest(p.name)))
            <==> p.hasPopover
    ensures (exists k :: 0 <= k < |HighlightPointStroke(p)| && HighlightPointStroke(p)[k].test == Some(SelectedTest(p.name)))
            <==> p.hasPopover
  {
    if IsStatic(p) {
      StaticAndSelectedTestsDiffer(p.staticPoint.value, p.name);
    }
    if p.hasPopover {
      assert HighlightPointFill(p)[|HighlightPointFill(p)| - 2].test == Some(SelectedTest(p.name));
      assert HighlightPointStroke(p)[|HighlightPointStroke(p)| - 2].test == Some(SelectedTest(p.name));
    }
  }

  /** What Vega picks from a static rule followed by a selected rule, in front of a fallback. */
  lemma {:induction false} PickStaticSelected(p: LinePointProps, s: ValueRef, t: ValueRef, v: ValueRef, holds: set<string>)
    ensures Pick(StaticRule(p, s) + SelectedRule(p, t) + [Fallback(v)], holds)
              == Some(if StaticHolds(p, holds) then s else if SelectedHolds(p, holds) then t else v)
  {
    var guarded := StaticRule(p, s) + SelectedRule(p, t);
    PickBeforeFallback(guarded, v, holds);
    if IsStatic(p) {
      assert guarded[0] == StaticRule(p, s)[0];
      if !StaticHolds(p, holds) {
        assert guarded[1..] == SelectedRule(p, t);
      }
    } else {
      assert guarded == SelectedRule(p, t);
    }
    if p.hasPopover {
      assert guarded[|guarded| - 1] == Rule(Some(SelectedTest(p.name)), t);
    }
  }

  /**
   * The highlight point's fill: the line colour on a static or selected
   * point, the background otherwise.
   */
  lemma HighlightFillShows(p: LinePointProps, holds: set<string>)
    ensures Pick(HighlightPointFill(p), holds)
              == Some(if StaticHolds(p, holds) || SelectedHolds(p, holds) then Color(p) else BACKGROUND)
  {
    PickStaticSelected(p, Color(p), Color(p), BACKGROUND, holds);
  }

  /**
   * The highlight point's stroke: the line colour, except on a selected
   * point that is not static, whose stroke is the background, so that
   * fill and stroke swap when a point is selected.
   */
  lemma HighlightStrokeShows(p: LinePointProps, holds: set<string>)
    ensures Pick(HighlightPointStroke(p), holds)
              == Some(if !StaticHolds(p, holds) && SelectedHolds(p, holds) then BACKGROUND else Color(p))
  {
    PickStaticSelected(p, Color(p), BACKGROUND, Color(p), holds);
  }

  /** What Vega picks from a static rule in front of a fallback. */
  lemma {:induction false} PickStatic(p: LinePointProps, s: ValueRef, v: ValueRef, holds: set<string>)
    ensures Pick(StaticRule(p, s) + [Fallback(v)], holds) == Some(if StaticHolds(p, holds) then s else v)
  {
    PickBeforeFallback(StaticRule(p, s), v, holds);
    if IsStatic(p) {
      assert StaticRule(p, s)[1..] == [];
    }
  }

  /** A static point is drawn at size 64 with stroke width 6 and the highlight opacity; any other at the defaults. */
  lemma StaticPointStyle(p: LinePointProps, holds: set<string>)
    ensures Pick(HighlightPointSize(p), holds)
              == Some(NumberRef(if StaticHolds(p, holds) then 64 else DEFAULT_SYMBOL_SIZE))
    ensures Pick(HighlightPointStrokeWidth(p), holds)
              == Some(NumberRef(if StaticHolds(p, holds) then 6 else DEFAULT_SYMBOL_STROKE_WIDTH))
    ensures Pick(HighlightPointStrokeOpacity(p), holds)
              == Some(if StaticHolds(p, holds) then HighlightOpacity(p.opacity) else OpacityRule(p.opacity))
  {
    PickStatic(p, NumberRef(64), NumberRef(DEFAULT_SYMBOL_SIZE), holds);
    PickStatic(p, NumberRef(6), NumberRef(DEFAULT_SYMBOL_STROKE_WIDTH), holds);
    PickStatic(p, HighlightOpacity(p.opacity), OpacityRule(p.opacity), holds);
  }

  /** Rule lists keyed by the encoding channel they set. */
  type Encoding = map<string, seq<Rule<ValueRef>>>

  /** A symbol mark; `yField` is read through the `yLinear` scale. */
  datatype SymbolMark = SymbolMark(
    name: string, from: string, interactive: bool, yField: string,
    enter: Encoding, update: Encoding, x: XEncoding)

  /** Every channel of the mark is set by a list that ends in a fallback. */
  predicate WellFormedMark(m: SymbolMark) {
    && (forall c :: c in m.enter ==> EndsInFallback(m.enter[c]))
    && (forall c :: c in m.update ==> EndsInFallback(m.update[c]))
  }

  function HighlightedData(name: string): string {
    name + "_highlightedData"
  }

  /** `getLineStaticPoint`. */
  function LineStaticPoint(p: LinePointProps): (m: SymbolMark)
    ensures m.name == p.name + "_staticPoints" && m.from == p.name + "_staticPointData" && !m.interactive
    ensures m.yField == p.metric && m.x == XProductionRule(p.scaleType, p.dimension)
    ensures m.enter == map["fill" := [Fallback(Color(p))], "stroke" := [Fallback(BACKGROUND)]] && m.update == map[]
    ensures WellFormedMark(m)
  {
    SymbolMark(p.name + "_staticPoints", p.name + "_staticPointData", false, p.metric,
               map["fill" := [Rule(None, Color(p))], "stroke" := [Rule(None, SignalRef(BACKGROUND_COLOR))]],
               map[], XProductionRule(p.scaleType, p.dimension))
  }

  /** `getHighlightBackgroundPoint`: a background-coloured disc the size of the highlight point. */
  function HighlightBackgroundPoint(p: LinePointProps): (m: SymbolMark)
    ensures m.name == p.name + "_pointBackground" && m.from == HighlightedData(p.name) && !m.interactive
    ensures m.yField == p.metric && m.x == XProductionRule(p.scaleType, p.dimension)
    ensures m.enter == map["fill" := [Fallback(BACKGROUND)], "stroke" := [Fallback(BACKGROUND)]]
    ensures m.update == map["size" := HighlightPointSize(p), "strokeWidth" := HighlightPointStrokeWidth(p)]
    ensures WellFormedMark(m)
  {
    SymbolMark(p.name + "_pointBackground", p.name + "_highlightedData", false, p.metric,
               map["fill" := [Rule(None, SignalRef(BACKGROUND_COLOR))], "stroke" := [Rule(None, SignalRef(BACKGROUND_COLOR))]],
               map["size" := HighlightPointSize(p), "strokeWidth" := HighlightPointStrokeWidth(p)],
               XProductionRule(p.scaleType, p.dimension))
  }

  /** `getHighlightPoint`. */
  function HighlightPoint(p: LinePointProps): (m: SymbolMark)
    ensures m.name == p.name + "_point" && m.from == HighlightedData(p.name) && !m.interactive
    ensures m.yField == p.metric && m.x == XProductionRule(p.scaleType, p.dimension)
    ensures m.enter == map["stroke" := [Fallback(Color(p))]]
    ensures m.update == map["fill" := HighlightPointFill(p), "size" := HighlightPointSize(p),
                            "stroke" := HighlightPointStroke(p), "strokeOpacity" := HighlightPointStrokeOpacity(p),
                            "strokeWidth" := HighlightPointStrokeWidth(p)]
    ensures WellFormedMark(m)
  {
    SymbolMark(p.name + "_point", p.name + "_highlightedData", false, p.metric,
               map["stroke" := [Rule(None, Color(p))]],
               map["fill" := HighlightPointFill(p), "size" := HighlightPointSize(p),
                   "stroke" := HighlightPointStroke(p), "strokeOpacity" := HighlightPointStrokeOpacity(p),
                   "strokeWidth" := HighlightPointStrokeWidth(p)],
               XProductionRule(p.scaleType, p.dimension))
  }

  /** `getSecondaryHighlightPoint`: a hollow point on the secondary metric. */
  function SecondaryHighlightPoint(p: LinePointProps, secondaryHighlightedMetric: string): (m: SymbolMark)
    ensures m.name == p.name + "_secondaryPoint" && m.from == HighlightedData(p.name) && !m.interactive
    ensures m.yField == secondaryHighlightedMetric && m.x == XProductionRule(p.scaleType, p.dimension)
    ensures m.enter == map["fill" := [Fallback(BACKGROUND)], "stroke" := [Fallback(Color(p))]] && m.update == map[]
    ensures WellFormedMark(m)
  {
    SymbolMark(p.name + "_secondaryPoint", p.name + "_highlightedData", false, secondaryHighlightedMetric,
               map["fill" := [Rule(None, SignalRef(BACKGROUND_COLOR))], "stroke" := [Rule(None, Color(p))]],
               map[], XProductionRule(p.scaleType, p.dimension))
  }

  /** `getSelectRingPoint`: a ring drawn only around the selected datum. */
  function SelectRingPoint(p: LinePointProps): (m: SymbolMark)
    ensures m.name == p.name + "_pointSelectRing" && m.from == HighlightedData(p.name) && !m.interactive
    ensures m.yField == p.metric && m.x == XProductionRule(p.scaleType, p.dimension)
    ensures m.enter == map["fill" := [Fallback(BACKGROUND)], "stroke" := [Fallback(StaticBlue(p.colorScheme))]]
    ensures m.update == map["size" := [Rule(Some(SelectedTest(p.name)), NumberRef(196)), Fallback(NumberRef(0))],
                            "strokeWidth" := [Rule(Some(SelectedTest(p.name)), NumberRef(DEFAULT_SYMBOL_STROKE_WIDTH)),
                                              Fallback(NumberRef(0))]]
    ensures WellFormedMark(m)
  {
    var selected := SelectedTest(p.name);
    SymbolMark(p.name + "_pointSelectRing", p.name + "_highlightedData", false, p.metric,
               map["fill" := [Rule(None, SignalRef(BACKGROUND_COLOR))], "stroke" := [Rule(None, StaticBlue(p.colorScheme))]],
               map["size" := [Rule(Some(selected), NumberRef(196)), Rule(None, NumberRef(0))],
                   "strokeWidth" := [Rule(Some(selected), NumberRef(DEFAULT_SYMBOL_STROKE_WIDTH)), Rule(None, NumberRef(0))]],
               XProductionRule(p.scaleType, p.dimension))
  }

  /** The selection ring has a non-zero size and stroke exactly on the selected datum. */
  lemma SelectRingOnlyWhenSelected(p: LinePointProps, holds: set<string>)
    ensures var ring := SelectRingPoint(p).update;
            && Pick(ring["size"], holds) == Some(NumberRef(if SelectedTest(p.name) in holds then 196 else 0))
            && Pick(ring["strokeWidth"], holds)
                 == Some(NumberRef(if SelectedTest(p.name) in holds then DEFAULT_SYMBOL_STROKE_WIDTH else 0))
  {
    var ring := SelectRingPoint(p).update;
    assert ring["size"][1..] == [Fallback(NumberRef(0))];
    assert ring["strokeWidth"][1..] == [Fallback(NumberRef(0))];
  }

  /** The background point is sized exactly like the highlight point it sits under. */
  lemma BackgroundCoversPoint(p: LinePointProps, holds: set<string>)
    ensures Pick(HighlightBackgroundPoint(p).update["size"], holds) == Pick(HighlightPoint(p).update["size"], holds)
    ensures Pick(HighlightBackgroundPoint(p).update["strokeWidth"], holds)
              == Pick(HighlightPoint(p).update["strokeWidth"], holds)
  {
  }

  /**
   * The highlight marks built in linePointUtils.ts: background, highlight,
   * secondary and selection-ring points. The hover-mark builder that calls
   * them adds the secondary point only when a secondary metric is given.
   */
  function HighlightMarks(p: LinePointProps, secondaryHighlightedMetric: string): seq<SymbolMark> {
    [HighlightBackgroundPoint(p), HighlightPoint(p), SecondaryHighlightPoint(p, secondaryHighlightedMetric),
     SelectRingPoint(p)]
  }

  /**
   * Each point mark is named by the line's name and a suffix of its own, so
   * no two highlight marks, nor the static-point mark, share a name.
   */
  lemma PointMarkNamesDistinct(p: LinePointProps, secondaryHighlightedMetric: string)
    ensures var marks := HighlightMarks(p, secondaryHighlightedMetric) + [LineStaticPoint(p)];
            forall i, j :: 0 <= i < j < |marks| ==> marks[i].name != marks[j].name
  {
    var marks := HighlightMarks(p, secondaryHighlightedMetric) + [LineStaticPoint(p)];
    assert |marks| == |POINT_MARK_SUFFIXES|;
    assert forall i :: 0 <= i < |marks| ==> marks[i].name == p.name + POINT_MARK_SUFFIXES[i];
    SuffixesDistinct();
    forall i, j | 0 <= i < j < |marks|
      ensures marks[i].name != marks[j].name
    {
      DistinctSuffixes(p.name, POINT_MARK_SUFFIXES[i], POINT_MARK_SUFFIXES[j]);
    }
  }

  /** The suffixes of the background, highlight, secondary, selection-ring and static point marks. */
  const POINT_MARK_SUFFIXES: seq<string> :=
    ["_pointBackground", "_point", "_secondaryPoint", "_pointSelectRing", "_staticPoints"]

  lemma SuffixesDistinct()
    ensures forall i, j :: 0 <= i < j < |POINT_MARK_SUFFIXES| ==> POINT_MARK_SUFFIXES[i] != POINT_MARK_SUFFIXES[j]
  {
  }

  /**
   * Every highlight mark reads the line's highlighted data, ignores pointer
   * events, and ends each rule list in a fallback; all but the secondary
   * point plot the line's metric.
   */
  lemma HighlightMarksReadHighlightedData(p: LinePointProps, secondaryHighlightedMetric: string)
    ensures var marks := HighlightMarks(p, secondaryHighlightedMetric);
            forall i :: 0 <= i < |marks| ==>
              marks[i].from == HighlightedData(p.name) && !marks[i].interactive && WellFormedMark(marks[i])
    ensures var marks := HighlightMarks(p, secondaryHighlightedMetric);
            marks[0].yField == p.metric && marks[1].yField == p.metric && marks[3].yField == p.metric
            && marks[2].yField == secondaryHighlightedMetric
  {
  }

  /** Names made of one prefix and two different suffixes differ. */
  lemma DistinctSuffixes(prefix: string, a: string, b: string)
    requires a != b
    ensures prefix + a != prefix + b
  {
    assert (prefix + a)[|prefix|..] == a && (prefix + b)[|prefix|..] == b;
  }
}
