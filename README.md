# Alarm report data sources — a Dafny model

The alarm report is a set of small dashboard data sources, written in C# for the
DataMiner generic query interface. A caller supplies a view filter, which is
optional and means "all objects" when it is -1, and a time-span identifier, one
of `DAY`, `WEEK` or `MONTH`. Each source answers with one page of rows:

- **Time spans** lists the three identifiers with their labels.
- **Distribution** turns the time span into one or two distribution queries,
  each a (history window, timeslot, averaging mode) plan. It then zips the
  primary series with the averaged baseline slot by slot, and renames weekday
  slots `"1".."7"` to `Monday`..`Sunday`.
- **Distribution legend** gives the legend rows for those series.
- **Events** and **States** send one top-N request (sort by Total, at most 5
  objects, derived elements and services included) and shape each answer into
  a row. A row is the object's name, looked up by element or by service, then
  five severity cells: counts for Events, percentages for States.

The model has one module per source file, plus three more:

- `Dms` holds the backend messages, reduced to the fields the sources read or set.
- `TopN` holds what Events and States share: the request, the `OfType` filter,
  the name-lookup choice and the row shape.
- `Consistency` holds the lemma that the legend agrees with the distribution's plans.

The backend is a function parameter from request to response (`dms`, `names`).
Each method returns the requests it sends (`sent`, `request`, `lookups`), so
its contract can say which messages go out and how many. The view filter and
time span are fields of each C# data source, set once by the host before rows
are built. Here they are parameters. The distribution methods keep the
source's `new GQIRow[n]` and its index loop. The Events and States methods
keep the `foreach`/`List.Add` loop, as a sequence that grows.

Three points about the source's behaviour, which the model follows as written:
- The weekday renaming is idempotent, not an involution (`"Monday"` stays `"Monday"`).
- The at-most-5 rows and the descending order of Events and States are only
  requested from the backend. The code neither enforces nor checks them.
- The distribution zip does not check that the series line up. The C# would
  index out of range when labels or averages are shorter than the values.
  The model states this as the precondition `SeriesFit`/`Covers`.

## Model

| member | source | states |
|---|---|---|
| `TimeSpans.GetNextPage` | SLC-GQIDS-AlarmReport/TimeSpans.cs:32-51 | exactly three rows, in the order DAY, WEEK, MONTH; each row is (label, identifier) with the identifier's own label; the recognised identifiers are exactly those listed |
| `TimeSpans.Distinct` | SLC-GQIDS-AlarmReport/TimeSpans.cs:6-12 | the three identifiers are pairwise distinct, and so are the three labels |
| `TimeSpans.LabelOfInjective` | SLC-GQIDS-AlarmReport/TimeSpans.cs:10-12 | each identifier has one label, and two identifiers share a label only if they are equal |
| `Report.Instance` | SLC-GQIDS-AlarmReport/Report.cs:6-29 | view filter optional with default -1; time span required, options exactly [DAY, WEEK, MONTH], default DAY, which is one of the options; the options are exactly the recognised spans |
| `Report.GetViewFilter` | SLC-GQIDS-AlarmReport/Report.cs:37-42 | the supplied value when the argument is present, otherwise the declared default (-1) |
| `Report.GetTimeSpan` | SLC-GQIDS-AlarmReport/Report.cs:44-47 | the argument value, unchanged and unvalidated |
| `Report.AbsentViewFilterIsDefault` | SLC-GQIDS-AlarmReport/Report.cs:12-16 | an absent view filter resolves to the same value as an explicit -1 |
| `Report.OptionsMatchCatalog` | SLC-GQIDS-AlarmReport/Report.cs:18-23 | the dropdown options are the catalogue's identifiers, in the catalogue's order |
| `Distribution.PlansFor` | SLC-GQIDS-AlarmReport/Distribution.cs:72-150 | the plan table: no plans for an unrecognised span; two plans exactly for DAY and WEEK; the primary is never averaged; a second plan is averaged, uses the primary's timeslot and a longer history window |
| `Distribution.LabelToWeekDay` | SLC-GQIDS-AlarmReport/Distribution.cs:122-135 | "1".."7" map to Monday..Sunday position by position; any other label is returned unchanged; the result is never a weekday number |
| `Distribution.LabelToWeekDayIdempotent` | SLC-GQIDS-AlarmReport/Distribution.cs:122-135 | renaming twice equals renaming once |
| `Distribution.LabelToWeekDayInjective` | SLC-GQIDS-AlarmReport/Distribution.cs:126-132 | distinct weekday numbers get distinct names |
| `Distribution.GetLast24Hours` | SLC-GQIDS-AlarmReport/Distribution.cs:87-102 | sends (Last24Hours, Hour, NoAverage) then (LastWeek, Hour, Day); one row per primary value, row i = (labels[i], values[i], averages[i]) |
| `Distribution.GetLast7Days` | SLC-GQIDS-AlarmReport/Distribution.cs:104-120 | sends (LastWeek, DayOfWeek, NoAverage) then (LastMonth, DayOfWeek, Week); row i = (LabelToWeekDay(labels[i]), values[i], averages[i]) |
| `Distribution.GetLast30Days` | SLC-GQIDS-AlarmReport/Distribution.cs:137-150 | sends only (LastMonth, Day, NoAverage); row i = (labels[i], values[i]) with no average |
| `Distribution.GetRows` | SLC-GQIDS-AlarmReport/Distribution.cs:72-168 | the requests sent are the span's plans, in order, each with the resolved view id, all severities and derived elements plus services; no request and no row for an unrecognised span; otherwise one row per primary value, relabelled only for WEEK, with an average exactly when the span has a baseline |
| `DistributionLegend.CreateRows` | SLC-GQIDS-AlarmReport/DistributionLegend.cs:50-74 | empty exactly for an unrecognised span; row 0 is the span's catalogue label and the only non-average row; DAY and WEEK add one average row "7 day average" / "30 day average"; MONTH has one row |
| `DistributionLegend.CreateRowsValues` | SLC-GQIDS-AlarmReport/DistributionLegend.cs:52-73 | the three legends written out literally |
| `Consistency.LegendMatchesPlans` | SLC-GQIDS-AlarmReport/DistributionLegend.cs:50-74 | one legend row per distribution query, an average row exactly where the query is the averaged baseline |
| `Consistency.LegendHasAverageIffBaseline` | SLC-GQIDS-AlarmReport/Distribution.cs:87-150 | a legend has an average row if and only if the distribution issues a baseline query for that span |
| `TopN.NameRequestIgnoresOtherId` | SLC-GQIDS-AlarmReport/Events.cs:118-124 | the name lookup is by service id exactly for services, and never depends on the id that does not apply |
| `TopN.OfType` | SLC-GQIDS-AlarmReport/Events.cs:114-115 | keeps at most as many responses as it is given, each coming from a response of the expected type |
| `TopN.OfTypeMembership` | SLC-GQIDS-AlarmReport/States.cs:113-114 | a value is kept if and only if some response of the expected type carries it |
| `TopN.OfTypeAppend` | SLC-GQIDS-AlarmReport/Events.cs:114-115 | the filter distributes over concatenation, so the order of the responses is kept |
| `TopN.OfTypeDrops` | SLC-GQIDS-AlarmReport/States.cs:113-114 | a response of another type leaves no trace |
| `TopN.OfTypeAll` | SLC-GQIDS-AlarmReport/Events.cs:114-115 | when every response has the expected type, the result corresponds one-to-one, in order |
| `Events.GetRows` | SLC-GQIDS-AlarmReport/Events.cs:72-116 | one request: AlarmCount family, time span unchanged, sort Total, max 5, derived elements and services, resolved view id; one row and one name lookup per alarm-count response, in order; name from the service or element lookup; cells [Timeout, Warning, Minor, Major, Critical] copied unchanged |
| `States.GetRows` | SLC-GQIDS-AlarmReport/States.cs:71-115 | the same request with the State family; one row and one name lookup per state response, in order; cells are the five percentages in the same order |

## Left out

- Host glue: column declarations (`GetColumns`), `GetInputArguments`, `OnInit`, the `OnArgumentsProcessed` field wiring, and the `GQIPage`/`GQIRow`/`GQICell` containers. Rows are datatypes.
- The backend and the name lookups (`SendMessage`, `SendMessages`, `GetLiteElementInfo`, `GetLiteServiceInfo`) are function parameters. Their answers are taken as given.
- The unguarded `as` casts. A missing distribution response or name-lookup answer would dereference null. The model's oracles always answer (the response is present).
- Distribution.GetRows: the index-out-of-range crash, when labels or averages are shorter than the values, is a precondition and not modelled as behaviour.
- Sorting by Total and truncation to five objects happen in the backend. The model records that they are requested and claims nothing about the rows' count or order.
- Counts and percentages are copied, never computed. Percentages are `real`; no numeric property is stated.
- The `Lazy<Report>` singleton and its thread safety. `Report.Instance` is a constant value.
- The unused constants `VALUE_TYPE` and `AVERAGE_TYPE` of the legend.
