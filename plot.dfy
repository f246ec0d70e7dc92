/** The data that `plot_time_series` hands back to its caller, drawing aside. */
module Plot {
  import opened Sequences

  /**
   * With no times or no values, nothing is plotted and two empty lists come
   * back. Otherwise every time is rendered by `toLocal` (`fromisoformat`,
   * then `astimezone()`, then `strftime`; a timestamp without an offset is
   * taken as host-local and not shifted), one output per input time, and
   * the values come back unchanged.
   */
  function PlotTimeSeries<V>(times: seq<string>, values: seq<V>, toLocal: string -> string)
    : (r: (seq<string>, seq<V>))
    ensures times == [] || values == [] ==> r == ([], [])
    ensures times != [] && values != [] ==> r.1 == values
    ensures times != [] && values != [] ==> |r.0| == |times|
    ensures times != [] && values != [] ==> forall i :: 0 <= i < |times| ==> r.0[i] == toLocal(times[i])
  {
    if times == [] || values == [] then ([], [])
    else (Map(toLocal, times), values)
  }

  /** The returned values are empty exactly when the guard took the early exit. */
  lemma NoDataIffEmptyInput<V>(times: seq<string>, values: seq<V>, toLocal: string -> string)
    ensures PlotTimeSeries(times, values, toLocal).1 == [] <==> (times == [] || values == [])
    ensures PlotTimeSeries(times, values, toLocal).0 == [] <==> (times == [] || values == [])
  {
  }
}
