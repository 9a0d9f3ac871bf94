/**
 * The "Distribution" data source: one time-span selector becomes one or two
 * distribution queries, whose series are zipped slot by slot into rows of
 * (Label, Value, Average).
 */
module Distribution {

  import opened Wrappers
  import opened Dms
  import TimeSpans

  /** A row: the slot label, the value of the current period and, when a baseline exists, its average. */
  datatype Row = Row(text: string, value: real, average: Option<real>)

  function CreateRow(text: string, value: real, average: Option<real> := None): Row {
    Row(text, value, average)
  }

  /** One distribution query: history window, slot width and averaging mode. */
  datatype Plan = Plan(span: ReportHistoryType, timeslot: ReportTimeslotType, average: ReportAverageType)

  /** The request GetData sends for a plan under the resolved view filter. */
  function GetData(viewFilter: int, plan: Plan): DistributionDataRequest {
    DistributionDataRequest(
      plan.span, plan.timeslot, plan.average,
      All, DERIVED_AND_SERVICES, ReportFilterInfo(View, viewFilter))
  }

  /** Orders the history windows by length. */
  function WindowLength(span: ReportHistoryType): nat {
    match span
    case Last24Hours => 0
    case LastWeek => 1
    case LastMonth => 2
  }

  /**
   * The queries the data source issues for a time span, primary series first.
   * Only a recognised span issues any, and a second query is always a
   * baseline: averaged, over a longer window, at the primary's slot width.
   */
  function PlansFor(timeSpan: string): (plans: seq<Plan>)
    ensures |plans| <= 2
    ensures |plans| == 0 <==> !TimeSpans.IsTimeSpan(timeSpan)
    ensures |plans| == 2 <==> timeSpan == TimeSpans.DAY || timeSpan == TimeSpans.WEEK
    ensures |plans| > 0 ==> plans[0].average == NoAverage
    ensures |plans| == 2 ==>
      && plans[1].average != NoAverage
      && plans[1].timeslot == plans[0].timeslot
      && WindowLength(plans[1].span) > WindowLength(plans[0].span)
  {
    if timeSpan == TimeSpans.DAY then
      [Plan(Last24Hours, Hour, NoAverage), Plan(LastWeek, Hour, ReportAverageType.Day)]
    else if timeSpan == TimeSpans.WEEK then
      [Plan(LastWeek, DayOfWeek, NoAverage), Plan(LastMonth, DayOfWeek, ReportAverageType.Week)]
    else if timeSpan == TimeSpans.MONTH then
      [Plan(LastMonth, ReportTimeslotType.Day, NoAverage)]
    else
      []
  }

  const WEEKDAY_NUMBERS: seq<string> := ["1", "2", "3", "4", "5", "6", "7"]
  const WEEKDAY_NAMES: seq<string> := ["Monday", "Tuesday", "Wednesday", "Thursday", "Friday", "Saturday", "Sunday"]

  /** Renames the weekday slots "1".."7" (Monday first); any other label is kept. */
  function LabelToWeekDay(slot: string): (day: string)
    ensures forall k :: 0 <= k < |WEEKDAY_NUMBERS| && slot == WEEKDAY_NUMBERS[k] ==> day == WEEKDAY_NAMES[k]
    ensures slot !in WEEKDAY_NUMBERS ==> day == slot
    ensures day !in WEEKDAY_NUMBERS
  {
    match slot
    case "1" => "Monday"
    case "2" => "Tuesday"
    case "3" => "Wednesday"
    case "4" => "Thursday"
    case "5" => "Friday"
    case "6" => "Saturday"
    case "7" => "Sunday"
    case _ => slot
  }

  /** Renaming a label that has already been renamed changes nothing. */
  lemma LabelToWeekDayIdempotent(slot: string)
    ensures LabelToWeekDay(LabelToWeekDay(slot)) == LabelToWeekDay(slot)
  {
  }

  /** Distinct weekday numbers get distinct names. */
  lemma LabelToWeekDayInjective(a: string, b: string)
    requires a in WEEKDAY_NUMBERS && b in WEEKDAY_NUMBERS
    ensures LabelToWeekDay(a) == LabelToWeekDay(b) ==> a == b
  {
  }

  /**
   * The zip reads a label and an average at every position of the primary
   * values; the code does not check the lengths, so the backend must supply them.
   */
  predicate Covers(primary: DistributionDataResponse, baseline: DistributionDataResponse) {
    |primary.labels| >= |primary.doubleValues| && |baseline.doubleValues| >= |primary.doubleValues|
  }

  /** The backend answers a time span's queries with series the zip can read. */
  predicate SeriesFit(viewFilter: int, timeSpan: string, dms: DistributionDataRequest -> DistributionDataResponse) {
    var plans := PlansFor(timeSpan);
    |plans| > 0 ==>
      var primary := dms(GetData(viewFilter, plans[0]));
      && |primary.labels| >= |primary.doubleValues|
      && (|plans| == 2 ==> Covers(primary, dms(GetData(viewFilter, plans[1]))))
  }

  /** Hourly values of the last 24 hours beside the daily average of the last week. */
  method GetLast24Hours(viewFilter: int, dms: DistributionDataRequest -> DistributionDataResponse)
    returns (rows: array<Row>, sent: seq<DistributionDataRequest>)
    requires Covers(dms(GetData(viewFilter, Plan(Last24Hours, Hour, NoAverage))),
                    dms(GetData(viewFilter, Plan(LastWeek, Hour, ReportAverageType.Day))))
    ensures sent == [GetData(viewFilter, Plan(Last24Hours, Hour, NoAverage)),
                     GetData(viewFilter, Plan(LastWeek, Hour, ReportAverageType.Day))]
    ensures rows.Length == |dms(sent[0]).doubleValues|
    ensures forall i :: 0 <= i < rows.Length ==>
      rows[i] == Row(dms(sent[0]).labels[i], dms(sent[0]).doubleValues[i], Some(dms(sent[1]).doubleValues[i]))
  {
    var valueRequest := GetData(viewFilter, Plan(Last24Hours, Hour, NoAverage));
    var averageRequest := GetData(viewFilter, Plan(LastWeek, Hour, ReportAverageType.Day));
    sent := [valueRequest, averageRequest];

    var labels := dms(valueRequest).labels;
    var values := dms(valueRequest).doubleValues;
    var averages := dms(averageRequest).doubleValues;

    rows := new Row[|values|];
    for i := 0 to |values|
      invariant forall k :: 0 <= k < i ==> rows[k] == Row(labels[k], values[k], Some(averages[k]))
    {
      rows[i] := CreateRow(labels[i], values[i], Some(averages[i]));
    }
  }

  /** Weekday values of the last week beside the weekly average of the last month. */
  method GetLast7Days(viewFilter: int, dms: DistributionDataRequest -> DistributionDataResponse)
    returns (rows: array<Row>, sent: seq<DistributionDataRequest>)
    requires Covers(dms(GetData(viewFilter, Plan(LastWeek, DayOfWeek, NoAverage))),
                    dms(GetData(viewFilter, Plan(LastMonth, DayOfWeek, ReportAverageType.Week))))
    ensures sent == [GetData(viewFilter, Plan(LastWeek, DayOfWeek, NoAverage)),
                     GetData(viewFilter, Plan(LastMonth, DayOfWeek, ReportAverageType.Week))]
    ensures rows.Length == |dms(sent[0]).doubleValues|
    ensures forall i :: 0 <= i < rows.Length ==>
      rows[i] == Row(LabelToWeekDay(dms(sent[0]).labels[i]), dms(sent[0]).doubleValues[i], Some(dms(sent[1]).doubleValues[i]))
  {
    var valueRequest := GetData(viewFilter, Plan(LastWeek, DayOfWeek, NoAverage));
    var averageRequest := GetData(viewFilter, Plan(LastMonth, DayOfWeek, ReportAverageType.Week));
    sent := [valueRequest, averageRequest];

    var labels := dms(valueRequest).labels;
    var values := dms(valueRequest).doubleValues;
    var averages := dms(averageRequest).doubleValues;

    rows := new Row[|values|];
    for i := 0 to |values|
      invariant forall k :: 0 <= k < i ==> rows[k] == Row(LabelToWeekDay(labels[k]), values[k], Some(averages[k]))
    {
      var weekDay := LabelToWeekDay(labels[i]);
      rows[i] := CreateRow(weekDay, values[i], Some(averages[i]));
    }
  }

  /** Daily values of the last month, with no average. */
  method GetLast30Days(viewFilter: int, dms: DistributionDataRequest -> DistributionDataResponse)
    returns (rows: array<Row>, sent: seq<DistributionDataRequest>)
    requires var primary := dms(GetData(viewFilter, Plan(LastMonth, ReportTimeslotType.Day, NoAverage)));
             |primary.labels| >= |primary.doubleValues|
    ensures sent == [GetData(viewFilter, Plan(LastMonth, ReportTimeslotType.Day, NoAverage))]
    ensures rows.Length == |dms(sent[0]).doubleValues|
    ensures forall i :: 0 <= i < rows.Length ==>
      rows[i] == Row(dms(sent[0]).labels[i], dms(sent[0]).doubleValues[i], None)
  {
    var valueRequest := GetData(viewFilter, Plan(LastMonth, ReportTimeslotType.Day, NoAverage));
    sent := [valueRequest];

    var labels := dms(valueRequest).labels;
    var values := dms(valueRequest).doubleValues;

    rows := new Row[|values|];
    for i := 0 to |values|
      invariant forall k :: 0 <= k < i ==> rows[k] == Row(labels[k], values[k], None)
    {
      rows[i] := CreateRow(labels[i], values[i]);
    }
  }

  /**
   * The rows of the data source for a time-span argument. The requests sent
   * are exactly the plans of the span, all under the resolved view filter;
   * there is one row per primary value, an average exactly when the span
   * has a baseline, and no request and no row for an unrecognised span.
   */
  method GetRows(viewFilter: int, timeSpan: string, dms: DistributionDataRequest -> DistributionDataResponse)
    returns (rows: array<Row>, sent: seq<DistributionDataRequest>)
    requires SeriesFit(viewFilter, timeSpan, dms)
    ensures |sent| == |PlansFor(timeSpan)|
    ensures forall i :: 0 <= i < |sent| ==> sent[i] == GetData(viewFilter, PlansFor(timeSpan)[i])
    ensures forall r :: r in sent ==>
      && r.filter == ReportFilterInfo(View, viewFilter)
      && r.includedSeverities == All
      && r.options == DERIVED_AND_SERVICES
    ensures !TimeSpans.IsTimeSpan(timeSpan) ==> rows.Length == 0 && sent == []
    ensures TimeSpans.IsTimeSpan(timeSpan) ==>
      var primary := dms(sent[0]);
      && rows.Length == |primary.doubleValues|
      && forall i :: 0 <= i < rows.Length ==>
        && rows[i].value == primary.doubleValues[i]
        && rows[i].text == (if timeSpan == TimeSpans.WEEK then LabelToWeekDay(primary.labels[i]) else primary.labels[i])
        && rows[i].average == (if |sent| == 2 then Some(dms(sent[1]).doubleValues[i]) else None)
  {
    if timeSpan == TimeSpans.DAY {
      rows, sent := GetLast24Hours(viewFilter, dms);
    } else if timeSpan == TimeSpans.WEEK {
      rows, sent := GetLast7Days(viewFilter, dms);
    } else if timeSpan == TimeSpans.MONTH {
      rows, sent := GetLast30Days(viewFilter, dms);
    } else {
      rows, sent := new Row[0], [];
    }
  }
}
