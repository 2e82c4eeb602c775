/** The value types the workflow passes between screens: the QueryData and
    AnalysisData records that App exports, and an Option for the cells that
    start out null. */
module Types {

  /** A cell that is either null (None) or holds a value. */
  datatype Option<+T> = None | Some(value: T)

  /** A coordinate in degrees. JavaScript numbers are modelled as reals:
      nothing in the core does arithmetic on them. */
  datatype Location = Location(lat: real, lng: real)

  /** What the query screen hands to App on submission. */
  datatype QueryData = QueryData(query: string, location: Location)

  /** One point of the chart series: a label and its value. */
  datatype ChartPoint = ChartPoint(name: string, value: int)

  /** The full analysis: the chart series (charts.data), a summary and the
      ranked suggestions. */
  datatype AnalysisData = AnalysisData(chart: seq<ChartPoint>, summary: string, suggestions: seq<string>)

  /** The labels of a series, in order. */
  function Labels(series: seq<ChartPoint>): (r: seq<string>)
    ensures |r| == |series|
    ensures forall i :: 0 <= i < |series| ==> r[i] == series[i].name
  {
    if series == [] then [] else [series[0].name] + Labels(series[1..])
  }

  /** The values of a series, in order. */
  function Values(series: seq<ChartPoint>): (r: seq<int>)
    ensures |r| == |series|
    ensures forall i :: 0 <= i < |series| ==> r[i] == series[i].value
  {
    if series == [] then [] else [series[0].value] + Values(series[1..])
  }
}
