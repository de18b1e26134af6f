/** The local state of `useChartData`: `{data, loading, error}`. */
module UseChartData {
  import opened Wrappers
  import opened Domain
  import opened Errors

  class ChartDataState {
    var data: seq<ChartPoint>
    var loading: bool
    var error: Option<string>

    /** The initial state: no points, loading, no error. */
    constructor ()
      ensures data == [] && loading && error == None
    {
      data := [];
      loading := true;
      error := None;
    }

    /** A fetch begins: loading, error cleared, the points kept. */
    method FetchStart()
      modifies this
      ensures data == old(data) && loading && error == None
    {
      loading := true;
      error := None;
    }

    /** A fetch settles: the points replaced, or kept with the service's message or the fallback. */
    method FetchSettled(result: Result<seq<ChartPoint>, Thrown>)
      modifies this
      ensures !loading
      ensures result.Ok? ==> data == result.value && error == None
      ensures result.Err? ==> data == old(data)
      ensures result.Err? ==> error == Some(HookMessage(result.error, ChartServiceError, "Failed to fetch chart data"))
    {
      match result
      case Ok(points) =>
        data, loading, error := points, false, None;
      case Err(e) =>
        loading, error := false, Some(HookMessage(e, ChartServiceError, "Failed to fetch chart data"));
    }
  }
}
