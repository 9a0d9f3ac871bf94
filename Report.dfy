/** The argument catalogue shared by every report, and how argument values resolve. */
module Report {

  import opened Wrappers
  import TimeSpans

  /** The view filter that stands for "no filter": all monitored objects. */
  const DEFAULT_VIEW_FILTER: int := -1

  /** GQIIntArgument. */
  datatype IntArgument = IntArgument(name: string, isRequired: bool, defaultValue: int)

  /** GQIStringDropdownArgument. */
  datatype StringDropdownArgument = StringDropdownArgument(
    name: string,
    options: seq<string>,
    isRequired: bool,
    defaultValue: string)

  /** The process-wide argument catalogue, built once and never changed. */
  datatype ReportConfig = ReportConfig(viewFilterArgument: IntArgument, timeSpanArgument: StringDropdownArgument)

  /** The argument values the host hands to a report once it has processed them. */
  datatype ArgumentValues = ArgumentValues(viewFilter: Option<int>, timeSpan: string)

  function Instance(): (r: ReportConfig)
    ensures !r.viewFilterArgument.isRequired
    ensures r.viewFilterArgument.defaultValue == DEFAULT_VIEW_FILTER
    ensures r.timeSpanArgument.isRequired
    ensures r.timeSpanArgument.options == TimeSpans.ALL
    ensures r.timeSpanArgument.defaultValue == TimeSpans.DAY
    ensures r.timeSpanArgument.defaultValue in r.timeSpanArgument.options
    ensures forall o :: o in r.timeSpanArgument.options <==> TimeSpans.IsTimeSpan(o)
  {
    var timeSpanOptions := [TimeSpans.DAY, TimeSpans.WEEK, TimeSpans.MONTH];
    ReportConfig(
      IntArgument("View filter", false, DEFAULT_VIEW_FILTER),
      StringDropdownArgument("Time span", timeSpanOptions, true, TimeSpans.DAY))
  }

  /** The supplied view filter, or the declared default when the argument is absent. */
  function GetViewFilter(args: ArgumentValues): (viewFilter: int)
    ensures args.viewFilter.Some? ==> viewFilter == args.viewFilter.value
    ensures args.viewFilter.None? ==> viewFilter == Instance().viewFilterArgument.defaultValue
  {
    match args.viewFilter
    case Some(v) => v
    case None => DEFAULT_VIEW_FILTER
  }

  /** The time-span argument, passed on without validation or normalisation. */
  function GetTimeSpan(args: ArgumentValues): (timeSpan: string)
    ensures timeSpan == args.timeSpan
  {
    args.timeSpan
  }

  /** Leaving the view filter out is the same as passing its declared default. */
  lemma AbsentViewFilterIsDefault(timeSpan: string)
    ensures GetViewFilter(ArgumentValues(None, timeSpan))
         == GetViewFilter(ArgumentValues(Some(Instance().viewFilterArgument.defaultValue), timeSpan))
  {
  }

  /** The dropdown offers the catalogue's identifiers, in the catalogue's order. */
  lemma OptionsMatchCatalog()
    ensures |Instance().timeSpanArgument.options| == |TimeSpans.GetNextPage()|
    ensures forall i :: 0 <= i < |TimeSpans.GetNextPage()| ==>
      Instance().timeSpanArgument.options[i] == TimeSpans.GetNextPage()[i].value
  {
  }
}
