/** The chart data model of src/types.ts and the fixed constants of the dashboard. */
module Chart {

  /** One labelled point of the weekly chart (`ChartPoint` in src/types.ts). */
  datatype ChartPoint = ChartPoint(name: string, calls: int)

  /**
   * The `chart_data` column is typed `any`. The only distinction the code draws
   * is whether the stored value is an array; an array is read as a series of points.
   */
  datatype ChartData = Points(points: seq<ChartPoint>) | NotAnArray

  /** The one chart key this dashboard reads and writes. */
  const DefaultChartKey: string := "agent_calls_last_7_days"

  /** The hard-coded week shown before anything is loaded and after a reset. */
  const DefaultData: seq<ChartPoint> := [
    ChartPoint("Mon", 120),
    ChartPoint("Tue", 210),
    ChartPoint("Wed", 180),
    ChartPoint("Thu", 240),
    ChartPoint("Fri", 200),
    ChartPoint("Sat", 160),
    ChartPoint("Sun", 90)
  ]

  /** Number of points in the default week. */
  const WeekLength: nat := 7

  /** The default series is seven points, labelled Monday to Sunday in order. */
  lemma DefaultDataIsAWeek()
    ensures |DefaultData| == WeekLength
    ensures DefaultData[0].name == "Mon" && DefaultData[6].name == "Sun"
    ensures forall i, j :: 0 <= i < j < |DefaultData| ==> DefaultData[i].name != DefaultData[j].name
  {
  }
}
