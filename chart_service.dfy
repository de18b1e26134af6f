/**
 * The weekly chart service: at most seven rows by date, each copied into a chart
 * point, or a fixed week of sample points when the backend has none.
 */
module ChartService {
  import opened Wrappers
  import opened Domain
  import opened Errors
  import Seqs

  /** A row of the chart table, as selected (name, average, today). */
  datatype ChartRow = ChartRow(name: string, average: real, today: real)

  /** The request: the three columns, oldest date first, at most `ChartLimit` rows. */
  const ChartLimit: nat := 7

  /** The sample week shown when the backend has no rows. */
  const FallbackWeek: seq<ChartPoint> := [
    ChartPoint("Mon", 400.0, 240.0),
    ChartPoint("Tue", 300.0, 139.0),
    ChartPoint("Wed", 200.0, 980.0),
    ChartPoint("Thu", 278.0, 390.0),
    ChartPoint("Fri", 189.0, 480.0),
    ChartPoint("Sat", 239.0, 380.0),
    ChartPoint("Sun", 349.0, 430.0)
  ]

  function ToPoint(row: ChartRow): (p: ChartPoint)
    ensures p.name == row.name && p.average == row.average && p.today == row.today
  {
    ChartPoint(row.name, row.average, row.today)
  }

  /**
   * `fetchWeeklyChartData`: the backend's error keeps its code; null or empty
   * data is the sample week; otherwise one point per row, in row order.
   */
  function FetchWeeklyChartData(answer: Backend<seq<ChartRow>>): (r: Result<seq<ChartPoint>, Thrown>)
    ensures answer.Failed? ==> r == Err(Thrown(ChartServiceError, "Failed to fetch chart data", Some(answer.code)))
    ensures answer == Data(None) || answer == Data(Some([])) ==> r == Ok(FallbackWeek)
    ensures answer.Data? ==> r.Ok?
    ensures answer.Data? && answer.rows.Some? && answer.rows.value != [] ==>
      |r.value| == |answer.rows.value|
      && forall i :: 0 <= i < |answer.rows.value| ==> r.value[i] == ToPoint(answer.rows.value[i])
  {
    match answer
    case Failed(code, _) => Err(Thrown(ChartServiceError, "Failed to fetch chart data", Some(code)))
    case Data(None) => Ok(FallbackWeek)
    case Data(Some(rows)) => if rows == [] then Ok(FallbackWeek) else Ok(Seqs.Map(rows, ToPoint))
  }

  /** The sample week is Mon..Sun in order. */
  lemma FallbackWeekDays()
    ensures |FallbackWeek| == 7
    ensures Seqs.Map(FallbackWeek, (p: ChartPoint) => p.name) == ["Mon", "Tue", "Wed", "Thu", "Fri", "Sat", "Sun"]
  {
  }

  /** Since the backend returns at most the limit, the chart never has more than seven points. */
  lemma AtMostSevenPoints(answer: Backend<seq<ChartRow>>)
    requires answer.Data? && answer.rows.Some? ==> |answer.rows.value| <= ChartLimit
    ensures answer.Data? ==> 1 <= |FetchWeeklyChartData(answer).value| <= 7
  {
  }
}
