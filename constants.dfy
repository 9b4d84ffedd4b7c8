/**
 * Shared constants of the spec builder. The constants module itself is not
 * part of this model: these are the values it is taken to hold, and no proof
 * depends on a particular value beyond what a lemma states about it.
 */
module Constants {
  /** Field a trendline writes its computed value to. */
  const TRENDLINE_VALUE: string := "trendlineValue"
  /** The source every derived trendline source reads from. */
  const FILTERED_TABLE: string := "filteredTable"
  /** Name of the root data source that holds the chart's rows. */
  const TABLE: string := "table"
  /** Field the series-id formula writes. */
  const SERIES_ID: string := "rscSeriesId"
  /** Field holding a row's unique id. */
  const MARK_ID: string := "rscMarkId"
  const MS_PER_DAY: nat := 86400000
  const LINEAR_PADDING: nat := 32
  /** Signal naming the chart's background colour. */
  const BACKGROUND_COLOR: string := "chartBackgroundColor"
  const DEFAULT_SYMBOL_SIZE: nat := 100
  const DEFAULT_SYMBOL_STROKE_WIDTH: nat := 2
}
