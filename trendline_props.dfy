/**
 * Trendline configuration: the props an author writes on a trendline
 * element, the mark props the builder reads, and the normalisation that
 * fills in defaults and names each trendline after its mark.
 */
module TrendlineProps {
  import opened Results
  import opened Text
  import opened Constants

  /**
   * What the mark utilities report about a list of (sanitised) child
   * elements: whether it holds a tooltip, a popover, and any interactive child.
   * The three queries are separate collaborators; no relation between them
   * is assumed.
   */
  datatype ChildTraits = ChildTraits(hasTooltip: bool, hasPopover: bool, hasInteractiveChildren: bool)

  /** `[min, max]`; None stands for `null`, an unbounded side. */
  datatype DimensionRange = DimensionRange(min: Option<int>, max: Option<int>)

  /** Props as written on a trendline element; None is an omitted prop. */
  datatype TrendlineProps = TrendlineProps(
    children: ChildTraits,
    color: Option<string>,
    dimensionRange: Option<DimensionRange>,
    displayOnHover: Option<bool>,
    highlightRawPoint: Option<bool>,
    lineType: Option<string>,
    lineWidth: Option<string>,
    methodName: Option<string>,
    opacity: Option<real>)

  /** A trendline after defaults are applied. */
  datatype TrendlineSpec = TrendlineSpec(
    children: ChildTraits,
    color: Option<string>,
    dimensionRange: DimensionRange,
    displayOnHover: bool,
    highlightRawPoint: bool,
    lineType: string,
    lineWidth: string,
    methodName: string,
    metric: string,
    name: string,
    opacity: real)

  /** A child element of a mark: a trendline, or any other element. */
  datatype MarkChild = TrendlineElement(props: TrendlineProps) | OtherElement(kind: string)

  /**
   * The props of the primary mark (line or bar). `scaleType` is None for a
   * bar, whose props have no scale type; `facets` is what the facet resolver
   * returns for the mark's color and lineType.
   */
  datatype MarkProps = MarkProps(
    name: string,
    dimension: string,
    metric: string,
    color: string,
    colorScheme: string,
    scaleType: Option<string>,
    facets: seq<string>,
    children: seq<MarkChild>)

  predicate HasTimeScale(mark: MarkProps) {
    mark.scaleType == Some("time")
  }

  /** `<markName>Trendline<index>`. */
  function TrendlineName(markName: string, index: nat): string {
    markName + "Trendline" + NatToString(index)
  }

  /** Trendline names of one mark are distinct for distinct indices. */
  lemma TrendlineNameInjective(markName: string, i: nat, j: nat)
    requires TrendlineName(markName, i) == TrendlineName(markName, j)
    ensures i == j
  {
    var p := markName + "Trendline";
    assert NatToString(i) == TrendlineName(markName, i)[|p|..];
    assert NatToString(j) == TrendlineName(markName, j)[|p|..];
    NatToStringInjective(i, j);
  }

  /** `applyTrendlinePropDefaults`. */
  function ApplyTrendlinePropDefaults(props: TrendlineProps, markName: string, index: nat): (t: TrendlineSpec)
    ensures t.name == TrendlineName(markName, index)
    ensures t.metric == TRENDLINE_VALUE
    ensures t.children == props.children && t.color == props.color
    ensures t.dimensionRange == props.dimensionRange.GetOr(DimensionRange(None, None))
    ensures t.displayOnHover == props.displayOnHover.GetOr(false)
    ensures t.highlightRawPoint == props.highlightRawPoint.GetOr(false)
    ensures t.lineType == props.lineType.GetOr("dashed")
    ensures t.lineWidth == props.lineWidth.GetOr("M")
    ensures t.methodName == props.methodName.GetOr("linear")
    ensures t.opacity == props.opacity.GetOr(1.0)
  {
    TrendlineSpec(
      children := props.children,
      color := props.color,
      dimensionRange := props.dimensionRange.GetOr(DimensionRange(None, None)),
      displayOnHover := props.displayOnHover.GetOr(false),
      highlightRawPoint := props.highlightRawPoint.GetOr(false),
      lineType := props.lineType.GetOr("dashed"),
      lineWidth := props.lineWidth.GetOr("M"),
      methodName := props.methodName.GetOr("linear"),
      metric := TRENDLINE_VALUE,
      name := TrendlineName(markName, index),
      opacity := props.opacity.GetOr(1.0))
  }

  /** The props of the trendline children, in child order. */
  function TrendlineElements(children: seq<MarkChild>): (r: seq<TrendlineProps>)
    ensures |r| <= |children|
    ensures forall p :: p in r <==> TrendlineElement(p) in children
    ensures |children| == 1 ==> r == (if children[0].TrendlineElement? then [children[0].props] else [])
  {
    if children == [] then []
    else
      var rest := TrendlineElements(children[1..]);
      assert forall c :: c in children <==> c == children[0] || c in children[1..];
      match children[0]
      case TrendlineElement(p) => [p] + rest
      case OtherElement(_) => rest
  }

  /**
   * Filtering distributes over concatenation, so with the one-child case the
   * trendline props keep the children's order.
   */
  lemma {:induction false} TrendlineElementsAppend(a: seq<MarkChild>, b: seq<MarkChild>)
    ensures TrendlineElements(a + b) == TrendlineElements(a) + TrendlineElements(b)
    decreases |a|
  {
    if a == [] {
      assert a + b == b;
    } else {
      assert (a + b)[1..] == a[1..] + b;
      TrendlineElementsAppend(a[1..], b);
    }
  }

  /**
   * `getTrendlines`: the trendline children with defaults applied, the i-th
   * named `<markName>Trendline<i>`.
   */
  function GetTrendlines(children: seq<MarkChild>, markName: string): (ts: seq<TrendlineSpec>)
    ensures |ts| == |TrendlineElements(children)|
    ensures forall i :: 0 <= i < |ts| ==>
              ts[i] == ApplyTrendlinePropDefaults(TrendlineElements(children)[i], markName, i)
    ensures forall i, j :: 0 <= i < j < |ts| ==> ts[i].name != ts[j].name
  {
    var elements := TrendlineElements(children);
    var ts := seq(|elements|, i requires 0 <= i < |elements| =>
                                ApplyTrendlinePropDefaults(elements[i], markName, i));
    assert forall i, j :: 0 <= i < j < |ts| ==> ts[i].name != ts[j].name by {
      forall i, j | 0 <= i < j < |ts| ensures ts[i].name != ts[j].name {
        if ts[i].name == ts[j].name {
          TrendlineNameInjective(markName, i, j);
        }
      }
    }
    ts
  }

  function Trendlines(mark: MarkProps): seq<TrendlineSpec> {
    GetTrendlines(mark.children, mark.name)
  }
}
