/** The "Events" data source: alarm counts per severity for the top objects of a view. */
module Events {

  import opened Wrappers
  import opened Dms
  import TopN

  /** The responses of type ReportAlarmCountDataResponseMessage. */
  function AsAlarmCount(message: Message): Option<AlarmCountResponse> {
    if message.AlarmCountData? then Some(message.counts) else None
  }

  /** GetAlarmCounts: the filtered answer to the one request sent. */
  function GetAlarmCounts(responses: seq<Message>): seq<AlarmCountResponse> {
    TopN.OfType(responses, AsAlarmCount)
  }

  function CreateRow(response: AlarmCountResponse, names: NameRequest -> string): TopN.TopRow<int> {
    var name := TopN.GetName(response.obj, names);
    TopN.TopRow(name, [response.amountTimeout, response.amountWarning, response.amountMinor,
                       response.amountMajor, response.amountCritical])
  }

  /**
   * The rows of the data source. Exactly one request is sent, with the fixed
   * top-N settings and the time-span string unchanged; each alarm-count
   * response becomes one row, in order, after exactly one name lookup.
   */
  method GetRows(viewFilter: int, timeSpan: string, dms: TopRequest -> seq<Message>, names: NameRequest -> string)
    returns (rows: seq<TopN.TopRow<int>>, request: TopRequest, lookups: seq<NameRequest>)
    ensures request.query == AlarmCountQuery && request.timespan == timeSpan
    ensures request.sortMethod == Total && request.maxAmount == 5
    ensures request.options == DERIVED_AND_SERVICES && request.filter == ReportFilterInfo(View, viewFilter)
    ensures var data := GetAlarmCounts(dms(request));
      && |rows| == |data| && |lookups| == |data|
      && forall i :: 0 <= i < |data| ==>
        && lookups[i] == (if data[i].obj.isService then ServiceInfoById(data[i].obj.dataMinerId, data[i].obj.serviceId)
                          else ElementInfoById(data[i].obj.dataMinerId, data[i].obj.elementId))
        && rows[i].name == names(lookups[i])
        && rows[i].cells == [data[i].amountTimeout, data[i].amountWarning, data[i].amountMinor,
                             data[i].amountMajor, data[i].amountCritical]
  {
    request := TopN.TopRequestFor(AlarmCountQuery, viewFilter, timeSpan);
    var data := GetAlarmCounts(dms(request));

    rows, lookups := [], [];
    for i := 0 to |data|
      invariant |rows| == i && |lookups| == i
      invariant forall k :: 0 <= k < i ==>
        lookups[k] == TopN.NameRequestFor(data[k].obj) && rows[k] == CreateRow(data[k], names)
    {
      var response := data[i];
      lookups := lookups + [TopN.NameRequestFor(response.obj)];
      var row := CreateRow(response, names);
      rows := rows + [row];
    }
  }
}
