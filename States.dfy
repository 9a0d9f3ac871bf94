/** The "States" data source: percentage of time per severity for the top objects of a view. */
module States {

  import opened Wrappers
  import opened Dms
  import TopN

  /** The responses of type ReportStateDataResponseMessage. */
  function AsState(message: Message): Option<StateResponse> {
    if message.StateData? then Some(message.states) else None
  }

  /** GetAlarmCounts: the filtered answer to the one request sent. */
  function GetAlarmCounts(responses: seq<Message>): seq<StateResponse> {
    TopN.OfType(responses, AsState)
  }

  function CreateRow(response: StateResponse, names: NameRequest -> string): TopN.TopRow<real> {
    var name := TopN.GetName(response.obj, names);
    TopN.TopRow(name, [response.percentageTimeout, response.percentageWarning, response.percentageMinor,
                       response.percentageMajor, response.percentageCritical])
  }

  /**
   * The rows of the data source. Exactly one request is sent, with the fixed
   * top-N settings and the time-span string unchanged; each state
   * response becomes one row, in order, after exactly one name lookup.
   */
  method GetRows(viewFilter: int, timeSpan: string, dms: TopRequest -> seq<Message>, names: NameRequest -> string)
    returns (rows: seq<TopN.TopRow<real>>, request: TopRequest, lookups: seq<NameRequest>)
    ensures request.query == StateQuery && request.timespan == timeSpan
    ensures request.sortMethod == Total && request.maxAmount == 5
    ensures request.options == DERIVED_AND_SERVICES && request.filter == ReportFilterInfo(View, viewFilter)
    ensures var data := GetAlarmCounts(dms(request));
      && |rows| == |data| && |lookups| == |data|
      && forall i :: 0 <= i < |data| ==>
        && lookups[i] == (if data[i].obj.isService then ServiceInfoById(data[i].obj.dataMinerId, data[i].obj.serviceId)
                          else ElementInfoById(data[i].obj.dataMinerId, data[i].obj.elementId))
        && rows[i].name == names(lookups[i])
        && rows[i].cells == [data[i].percentageTimeout, data[i].percentageWarning, data[i].percentageMinor,
                             data[i].percentageMajor, data[i].percentageCritical]
  {
    request := TopN.TopRequestFor(StateQuery, viewFilter, timeSpan);
    var data := GetAlarmCounts(dms(request));

    rows, lookups := [], [];
    for i := 0 to |data|
      invariant |rows| == i && |lookups| == i
      invariant forall k :: 0 <= k < i ==>
        lookups[k] == TopN.NameRequestFor(data[k].obj) && rows[k] == CreateRow(data[k], names)
    {
      var response := data[i];
      lookups := lookups + [TopN.NameRequestFor(response.obj)];
      var row := CreateRow(response, names);
      rows := rows + [row];
    }
  }
}
