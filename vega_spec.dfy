/**
 * The parts of a Vega specification the trendline builder emits: data
 * transforms, data sources, scales, signals and marks, each reduced to the
 * fields the builder sets. Values produced by collaborators outside this
 * model (the series-id transform, colour and opacity production rules, the
 * signal builders, the line hover marks) are kept as symbolic constructors
 * that record their arguments.
 */
module VegaSpec {
  import opened Results
  import opened JsNumber

  datatype Transform =
    | Filter(expr: string)
    | Formula(expr: string, asField: string)
    | JoinAggregate(joinGroupby: Option<seq<string>>, fields: seq<string>, ops: seq<string>, asFields: seq<string>)
    | Regression(regressionMethod: string, order: Option<ParsedInt>, groupby: seq<string>,
                 x: string, y: string, outputFields: Option<seq<string>>, params: bool)
    | Window(ops: seq<string>, groupby: seq<string>, fields: seq<string>, asFields: seq<string>, frame: (int, int))
    | Lookup(from: string, key: string, fields: seq<string>, values: seq<string>)
      /** What the data utilities' series-id builder returns for these facets. */
    | SeriesId(facets: seq<string>)
      /** A transform of the table that the trendline builder did not create; `asName` is its `as` when that is a single field name. */
    | OtherTransform(kind: string, asName: Option<string>)

  /** The `source` of a data source: absent, one name, or a list of names (concatenation). */
  datatype SourceRef = NoSource | SourceName(name: string) | SourceNames(names: seq<string>)

  datatype DataSource = DataSource(name: string, source: SourceRef, transform: Option<seq<Transform>>)

  datatype Scale = Scale(name: string, kind: string, range: string, domainData: string,
                         domainFields: seq<string>, padding: nat, zero: bool, nice: bool)

  /** The signals the signal builders return, recorded by builder and arguments. */
  datatype Signal =
    | UncontrolledHoverSignal(name: string, nestedDatum: bool, excludeDataKey: string)
    | SeriesHoveredSignal(name: string, nestedDatum: bool, excludeDataKey: string)
    | GenericSignal(name: string)

  /** The colour a trendline line is stroked with, before the colour production rule maps it. */
  datatype StrokeColor = StaticColor(value: string) | MarkColor(facet: string)

  /** The `x` encoding of a trendline line. */
  datatype XEncoding =
    | ScaledField(scale: string, field: string)
      /** What the line utilities' x production rule gives for this scale type and dimension. */
    | XProductionRule(scaleType: Option<string>, dimension: string)

  datatype LineMark = LineMark(
    name: string, from: string, interactive: bool, yScale: string, yField: string,
    stroke: StrokeColor, colorScheme: string, strokeDash: string, strokeWidth: string,
    x: XEncoding, displayOnHover: bool, opacity: real)

  datatype GroupMark =
    | FacetGroup(name: string, clip: bool, facetName: string, facetData: string,
                 groupby: seq<string>, line: LineMark)
      /**
       * The hover group. It records the arguments of its call to the line
       * hover-mark builder: the hover line's name and metric, whether any of
       * the line's children is a popover, the data it reads, and the metric
       * whose raw points it highlights, if any.
       */
    | HoverGroup(name: string, clip: bool, hoverLineName: string, hoverMetric: string, hoverPopover: bool,
                 hoverData: string,
                 highlightMetric: Option<string>)
}
