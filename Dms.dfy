/**
 * The messages the reports exchange with the DataMiner backend, reduced to the
 * fields the reports set or read. The backend itself is not modelled: the
 * reports receive it as a function from request to response.
 */
module Dms {

  /** ReportHistoryType: how far back a distribution query looks. */
  datatype ReportHistoryType = Last24Hours | LastWeek | LastMonth

  /** ReportTimeslotType: the width of one slot of a distribution series. */
  datatype ReportTimeslotType = Hour | DayOfWeek | Day

  /** ReportAverageType: whether, and over which period, the backend averages. */
  datatype ReportAverageType = NoAverage | Day | Week

  /** ReportIncludedSeverities: the reports only ever ask for all severities. */
  datatype ReportIncludedSeverities = All

  /** ReportOptionFlags, as the set of flags that are raised. */
  datatype ReportOptionFlag = IncludeDerivedElements | IncludeServices

  /** The option flags every request of every report carries. */
  const DERIVED_AND_SERVICES: set<ReportOptionFlag> := {IncludeDerivedElements, IncludeServices}

  datatype ReportFilterType = View

  /** ReportFilterInfo: the scope of a query; the view id -1 means "all objects". */
  datatype ReportFilterInfo = ReportFilterInfo(filterType: ReportFilterType, viewId: int)

  /** ReportTopSortType: how the backend orders a top-N answer. */
  datatype ReportTopSortType = Total

  /** GetReportAlarmDistributionDataMessage. */
  datatype DistributionDataRequest = DistributionDataRequest(
    span: ReportHistoryType,
    timeslotSize: ReportTimeslotType,
    average: ReportAverageType,
    includedSeverities: ReportIncludedSeverities,
    options: set<ReportOptionFlag>,
    filter: ReportFilterInfo)

  /** ReportAlarmDistributionDataResponseMessage: one label and one value per slot. */
  datatype DistributionDataResponse = DistributionDataResponse(labels: seq<string>, doubleValues: seq<real>)

  /** Which top-N message family a request belongs to. */
  datatype TopQuery =
    | AlarmCountQuery  // GetReportAlarmCountDataMessage
    | StateQuery       // GetReportStateDataMessage

  /** A top-N request (alarm counts or alarm states). */
  datatype TopRequest = TopRequest(
    query: TopQuery,
    timespan: string,
    sortMethod: ReportTopSortType,
    maxAmount: int,
    options: set<ReportOptionFlag>,
    filter: ReportFilterInfo)

  /** The identity of a monitored object in a top-N response. */
  datatype ObjectRef = ObjectRef(dataMinerId: int, elementId: int, serviceId: int, isService: bool)

  /** ReportAlarmCountDataResponseMessage: alarm counts per severity bucket. */
  datatype AlarmCountResponse = AlarmCountResponse(
    obj: ObjectRef,
    amountTimeout: int,
    amountWarning: int,
    amountMinor: int,
    amountMajor: int,
    amountCritical: int)

  /** ReportStateDataResponseMessage: percentage of time spent per severity bucket. */
  datatype StateResponse = StateResponse(
    obj: ObjectRef,
    percentageTimeout: real,
    percentageWarning: real,
    percentageMinor: real,
    percentageMajor: real,
    percentageCritical: real)

  /** A message the backend may answer a broadcast request with. */
  datatype Message =
    | AlarmCountData(counts: AlarmCountResponse)
    | StateData(states: StateResponse)
    | OtherMessage

  /** GetLiteElementInfo.ByID and GetLiteServiceInfo.ByID. */
  datatype NameRequest =
    | ElementInfoById(dmaId: int, elementId: int)
    | ServiceInfoById(dmaId: int, serviceId: int)
}
