/**
 * Axis label utilities: the value a label shows, the time formats of a
 * granularity, the mapping of a label alignment to Vega's `align` (on a
 * horizontal axis) or `baseline` (on a vertical axis), the band offset of an
 * aligned label, and the production rules of the label encoding.
 *
 * `labelAlign` is kept as an optional string so that the `default` branches
 * the utilities have for values outside `start`/`center`/`end` stay in the
 * model; it counts as set exactly when it is truthy.
 */
module AxisLabels {
  import opened Results
  import opened ProductionRules

  datatype Position = Top | Bottom | Left | Right

  /** The axis utilities' `isVerticalAxis`: the left and right axes. */
  predicate IsVerticalAxis(position: Position) {
    position == Left || position == Right
  }

  datatype Scalar = Number(n: real) | Text(s: string)

  /** A label given as an object carrying its value, or as the bare value. */
  datatype Label =
    | LabelObject(value: Scalar, labelText: Option<string>, fontWeight: Option<string>, align: Option<string>)
    | Bare(scalar: Scalar)

  /** `getLabelValue`. */
  function LabelValue(l: Label): (v: Scalar)
    ensures l.LabelObject? ==> v == l.value
    ensures l.Bare? ==> v == l.scalar
  {
    match l
    case LabelObject(value, _, _, _) => value
    case Bare(scalar) => scalar
  }

  datatype TickCount = Interval(interval: string) | IntervalStep(interval: string, step: nat)

  /** `[secondaryFormat, primaryFormat, tickCount]`. */
  datatype TimeFormats = TimeFormats(secondary: string, primary: string, tickCount: TickCount)

  const GRANULARITIES: seq<string> := ["minute", "hour", "day", "week", "month", "quarter"]

  /** `getTimeLabelFormats`. */
  function TimeLabelFormats(granularity: string): (f: TimeFormats)
    ensures f.tickCount.IntervalStep? <==> granularity == "quarter"
    ensures granularity == "quarter" ==> f == TimeFormats("Q%q", "%Y", IntervalStep("month", 3))
    ensures granularity in GRANULARITIES && granularity != "quarter" ==> f.tickCount == Interval(granularity)
    ensures granularity !in GRANULARITIES ==> f == TimeFormats("%-d", "%b", Interval("day"))
    ensures f.secondary != f.primary
  {
    match granularity
    case "minute" => TimeFormats("%-I:%M %p", "%b %-d", Interval("minute"))
    case "hour" => TimeFormats("%-I %p", "%b %-d", Interval("hour"))
    case "day" => TimeFormats("%-d", "%b", Interval("day"))
    case "week" => TimeFormats("%-d", "%b", Interval("week"))
    case "month" => TimeFormats("%b", "%Y", Interval("month"))
    case "quarter" => TimeFormats("Q%q", "%Y", IntervalStep("month", 3))
    case _ => TimeFormats("%-d", "%b", Interval("day"))
  }

  /** An unrecognised granularity is formatted as days. */
  lemma UnknownGranularityIsDay(granularity: string)
    requires granularity !in GRANULARITIES
    ensures TimeLabelFormats(granularity) == TimeLabelFormats("day")
  {
  }

  /** `getLabelAlign`. */
  function LabelAlign(labelAlign: Option<string>, position: Position, vegaLabelAlign: Option<string>): (a: Option<string>)
    ensures IsTruthy(vegaLabelAlign) ==> a == vegaLabelAlign
    ensures !IsTruthy(vegaLabelAlign) ==> (a.Some? <==> IsTruthy(labelAlign) && !IsVerticalAxis(position))
    ensures !IsTruthy(vegaLabelAlign) && a.Some? ==>
              && (labelAlign.value == "start" <==> a.value == "left")
              && (labelAlign.value == "end" <==> a.value == "right")
              && a.value in {"left", "center", "right"}
  {
    if IsTruthy(vegaLabelAlign) then vegaLabelAlign
    else if !IsTruthy(labelAlign) then None
    else if position == Top || position == Bottom then
      match labelAlign.value
      case "start" => Some("left")
      case "end" => Some("right")
      case _ => Some("center")
    else None
  }

  /** `getLabelBaseline`. */
  function LabelBaseline(labelAlign: Option<string>, position: Position, vegaLabelBaseline: Option<string>): (b: Option<string>)
    ensures IsTruthy(vegaLabelBaseline) ==> b == vegaLabelBaseline
    ensures !IsTruthy(vegaLabelBaseline) ==> (b.Some? <==> IsTruthy(labelAlign) && IsVerticalAxis(position))
    ensures !IsTruthy(vegaLabelBaseline) && b.Some? ==>
              && (labelAlign.value == "start" <==> b.value == "top")
              && (labelAlign.value == "end" <==> b.value == "bottom")
              && b.value in {"top", "middle", "bottom"}
  {
    if IsTruthy(vegaLabelBaseline) then vegaLabelBaseline
    else if !IsTruthy(labelAlign) then None
    else if IsVerticalAxis(position) then
      match labelAlign.value
      case "start" => Some("top")
      case "end" => Some("bottom")
      case _ => Some("middle")
    else None
  }

  /** The baseline that puts a label where the given horizontal alignment puts it, with the axis turned upright. */
  function UprightBaseline(align: string): string {
    match align
    case "left" => "top"
    case "right" => "bottom"
    case _ => "middle"
  }

  /**
   * Without overrides, alignment and baseline are complementary: a set
   * `labelAlign` gives an `align` exactly on horizontal axes and a `baseline`
   * exactly on vertical axes, and the two mappings agree edge for edge.
   */
  lemma AlignBaselineComplementary(labelAlign: Option<string>, horizontal: Position, vertical: Position)
    requires IsTruthy(labelAlign) && !IsVerticalAxis(horizontal) && IsVerticalAxis(vertical)
    ensures LabelAlign(labelAlign, horizontal, None).Some? && LabelAlign(labelAlign, vertical, None).None?
    ensures LabelBaseline(labelAlign, vertical, None).Some? && LabelBaseline(labelAlign, horizontal, None).None?
    ensures LabelBaseline(labelAlign, vertical, None).value
              == UprightBaseline(LabelAlign(labelAlign, horizontal, None).value)
  {
  }

  /** `getLabelBaselineAlign`: the alignment of a horizontal axis, the baseline of a vertical one. */
  function LabelBaselineAlign(labelAlign: Option<string>, position: Position): (r: Option<string>)
    ensures !IsVerticalAxis(position) ==> r == LabelAlign(labelAlign, position, None)
    ensures IsVerticalAxis(position) ==> r == LabelBaseline(labelAlign, position, None)
    ensures r.Some? <==> IsTruthy(labelAlign)
  {
    match position
    case Top | Bottom => LabelAlign(labelAlign, position, None)
    case Left | Right => LabelBaseline(labelAlign, position, None)
  }

  datatype NumberValue = NumberLiteral(n: real) | Signal(signal: string)

  /** Vega's expression for the width of a band of the named scale. */
  function Bandwidth(scaleName: string): string {
    "bandwidth('" + scaleName + "')"
  }

  /** `getLabelOffset`: any defined override, zero included, wins; otherwise half a band towards the aligned edge. */
  function LabelOffset(labelAlign: string, scaleName: string, vegaLabelOffset: Option<NumberValue>): (o: Option<NumberValue>)
    ensures vegaLabelOffset.Some? ==> o == vegaLabelOffset
    ensures vegaLabelOffset.None? ==> (o.Some? <==> labelAlign == "start" || labelAlign == "end")
    ensures vegaLabelOffset.None? && labelAlign == "start" ==> o == Some(Signal(Bandwidth(scaleName) + " / -2"))
    ensures vegaLabelOffset.None? && labelAlign == "end" ==> o == Some(Signal(Bandwidth(scaleName) + " / 2"))
  {
    if vegaLabelOffset.Some? then vegaLabelOffset
    else
      match labelAlign
      case "start" => Some(Signal(Bandwidth(scaleName) + " / -2"))
      case "end" => Some(Signal(Bandwidth(scaleName) + " / 2"))
      case _ => None
  }

  const PERCENT_TEST: string := "isNumber(datum.value)"
  const PERCENT_SIGNAL: string := "format(datum.value, '~%')"
  const LARGE_NUMBER_TEST: string := "isNumber(datum.value) && abs(datum.value) >= 1000"
  const LARGE_NUMBER_SIGNAL: string := "upper(replace(format(datum.value, '.3~s'), 'G', 'B'))"
  const RAW_VALUE: string := "datum.value"

  /** `getLabelFormat`: the text signal of a label, as a rule list. */
  function LabelFormat(labelFormat: Option<string>): (rules: seq<Rule<string>>)
    ensures |rules| == 2 && EndsInFallback(rules) && rules[1] == Fallback(RAW_VALUE)
    ensures labelFormat == Some("percentage") ==> rules[0] == Rule(Some(PERCENT_TEST), PERCENT_SIGNAL)
    ensures labelFormat != Some("percentage") ==> rules[0] == Rule(Some(LARGE_NUMBER_TEST), LARGE_NUMBER_SIGNAL)
  {
    if labelFormat == Some("percentage") then
      [Rule(Some(PERCENT_TEST), PERCENT_SIGNAL), Rule(None, RAW_VALUE)]
    else
      [Rule(Some(LARGE_NUMBER_TEST), LARGE_NUMBER_SIGNAL), Rule(None, RAW_VALUE)]
  }

  /** A label is shown formatted when the format's test holds for it, and as its raw value otherwise. */
  lemma LabelFormatShows(labelFormat: Option<string>, holds: set<string>)
    ensures var test := if labelFormat == Some("percentage") then PERCENT_TEST else LARGE_NUMBER_TEST;
            var formatted := if labelFormat == Some("percentage") then PERCENT_SIGNAL else LARGE_NUMBER_SIGNAL;
            Pick(LabelFormat(labelFormat), holds) == Some(if test in holds then formatted else RAW_VALUE)
  {
    var rules := LabelFormat(labelFormat);
    PickBeforeFallback(rules[..1], RAW_VALUE, holds);
    assert rules == rules[..1] + [Fallback(RAW_VALUE)];
    assert rules[..1][1..] == [];
  }

  /** Index of the datum's value among the values of the label signal's entries, as a Vega expression. */
  function LabelIndex(signalName: string): string {
    "indexof(pluck(" + signalName + ", 'value'), datum.value)"
  }

  /** The test that the label signal has an entry for the datum's value. */
  function HasLabelEntry(signalName: string): string {
    LabelIndex(signalName) + " !== -1"
  }

  /** A key of the label signal's entry for the datum's value. */
  function LabelEntryKey(signalName: string, key: string): string {
    signalName + "[" + LabelIndex(signalName) + "]." + key
  }

  /** The `align` and `baseline` rules read a signal or hold a literal that may be undefined. */
  datatype AlignRef = AlignSignal(signal: string) | AlignValue(value: Option<string>)

  /** An encode entry that holds exactly one of the `align` and `baseline` keys. */
  datatype AlignEntry = AlignKey(align: seq<Rule<AlignRef>>) | BaselineKey(baseline: seq<Rule<AlignRef>>) {
    function Rules(): seq<Rule<AlignRef>> {
      match this
      case AlignKey(rules) => rules
      case BaselineKey(rules) => rules
    }
  }

  /** `getEncodedLabelBaselineAlign`. */
  function EncodedLabelBaselineAlign(position: Position, signalName: string, defaultLabelAlign: string): (e: AlignEntry)
    ensures e.BaselineKey? <==> IsVerticalAxis(position)
    ensures var rules := e.Rules();
            && |rules| == 2 && EndsInFallback(rules)
            && rules[0] == Rule(Some(HasLabelEntry(signalName) + " && " + LabelEntryKey(signalName, "align")),
                                AlignSignal(LabelEntryKey(signalName, "align")))
            && rules[1] == Fallback(AlignValue(LabelBaselineAlign(Some(defaultLabelAlign), position)))
  {
    var entryAlign := LabelEntryKey(signalName, "align");
    var first := Rule(Some(HasLabelEntry(signalName) + " && " + entryAlign), AlignSignal(entryAlign));
    match position
    case Top | Bottom => AlignKey([first, Rule(None, AlignValue(LabelAlign(Some(defaultLabelAlign), position, None)))])
    case Left | Right => BaselineKey([first, Rule(None, AlignValue(LabelBaseline(Some(defaultLabelAlign), position, None)))])
  }

  /**
   * A label without an entry of its own in the label signal takes the
   * alignment of the axis' default, which is defined whenever that default
   * is a non-empty keyword.
   */
  lemma EncodedAlignFallsBackToDefault(position: Position, signalName: string, defaultLabelAlign: string, holds: set<string>)
    requires defaultLabelAlign != ""
    requires HasLabelEntry(signalName) + " && " + LabelEntryKey(signalName, "align") !in holds
    ensures var v := Pick(EncodedLabelBaselineAlign(position, signalName, defaultLabelAlign).Rules(), holds);
            && v == Some(AlignValue(LabelBaselineAlign(Some(defaultLabelAlign), position)))
            && v.value.value.Some?
  {
    var rules := EncodedLabelBaselineAlign(position, signalName, defaultLabelAlign).Rules();
    assert rules == rules[..1] + [rules[1]];
    PickBeforeFallback(rules[..1], rules[1].value, holds);
    assert rules[..1][1..] == [];
  }

  datatype FontWeightRef = FontWeightSignal(signal: string) | FontWeightValue(value: string)

  /** The update encoding of axis labels. */
  datatype LabelsEncoding = LabelsEncoding(text: seq<Rule<string>>, fontWeight: seq<Rule<FontWeightRef>>, baselineAlign: AlignEntry)

  /** `getAxisLabelsEncoding`: a label's text and weight come from its entry in the label signal when it has one. */
  function AxisLabelsEncoding(labelAlign: string, labelFontWeight: string, labelKey: string, position: Position,
                              signalName: string): (e: LabelsEncoding)
    ensures EndsInFallback(e.text) && EndsInFallback(e.fontWeight)
    ensures e.text == [Rule(Some(HasLabelEntry(signalName)), LabelEntryKey(signalName, labelKey)), Fallback(RAW_VALUE)]
    ensures e.fontWeight == [Rule(Some(HasLabelEntry(signalName) + " && " + LabelEntryKey(signalName, "fontWeight")),
                                  FontWeightSignal(LabelEntryKey(signalName, "fontWeight"))),
                             Fallback(FontWeightValue(labelFontWeight))]
    ensures e.baselineAlign == EncodedLabelBaselineAlign(position, signalName, labelAlign)
  {
    var hasEntry := HasLabelEntry(signalName);
    var fontWeight := LabelEntryKey(signalName, "fontWeight");
    LabelsEncoding(
      [Rule(Some(hasEntry), LabelEntryKey(signalName, labelKey)), Rule(None, "datum.value")],
      [Rule(Some(hasEntry + " && " + fontWeight), FontWeightSignal(fontWeight)),
       Rule(None, FontWeightValue(labelFontWeight))],
      EncodedLabelBaselineAlign(position, signalName, labelAlign))
  }

  /**
   * A label whose value has an entry in the label signal shows that entry's
   * text; any other label shows its raw value. Its weight is the entry's own
   * weight when the entry sets one, and the axis label weight otherwise.
   */
  lemma AxisLabelsEncodingShows(labelAlign: string, labelFontWeight: string, labelKey: string, position: Position,
                                signalName: string, holds: set<string>)
    ensures var e := AxisLabelsEncoding(labelAlign, labelFontWeight, labelKey, position, signalName);
            Pick(e.text, holds)
              == Some(if HasLabelEntry(signalName) in holds then LabelEntryKey(signalName, labelKey) else RAW_VALUE)
    ensures var e := AxisLabelsEncoding(labelAlign, labelFontWeight, labelKey, position, signalName);
            var weightTest := HasLabelEntry(signalName) + " && " + LabelEntryKey(signalName, "fontWeight");
            Pick(e.fontWeight, holds)
              == Some(if weightTest in holds then FontWeightSignal(LabelEntryKey(signalName, "fontWeight"))
                      else FontWeightValue(labelFontWeight))
  {
    var e := AxisLabelsEncoding(labelAlign, labelFontWeight, labelKey, position, signalName);
    PickBeforeFallback(e.text[..1], RAW_VALUE, holds);
    assert e.text == e.text[..1] + [Fallback(RAW_VALUE)];
    assert e.text[..1][1..] == [];
    PickBeforeFallback(e.fontWeight[..1], FontWeightValue(labelFontWeight), holds);
    assert e.fontWeight == e.fontWeight[..1] + [Fallback(FontWeightValue(labelFontWeight))];
    assert e.fontWeight[..1][1..] == [];
  }
}
