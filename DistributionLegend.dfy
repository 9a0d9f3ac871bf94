/** The "Distribution legend" data source: one legend row per series the distribution draws. */
module DistributionLegend {

  import TimeSpans

  const WEEKLY_AVG_LABEL: string := "7 day average"
  const MONTHLY_AVG_LABEL: string := "30 day average"

  /** A row: (Label, Is average). */
  datatype LegendRow = LegendRow(text: string, isAverage: bool)

  function CreateRow(text: string, isAverage: bool): LegendRow {
    LegendRow(text, isAverage)
  }

  /**
   * The legend of a time span: nothing for an unrecognised span; otherwise the
   * span's own catalogue label first, as the only non-average row, followed
   * for DAY and WEEK by the label of their baseline average.
   */
  function CreateRows(timeSpan: string): (rows: seq<LegendRow>)
    ensures rows == [] <==> !TimeSpans.IsTimeSpan(timeSpan)
    ensures rows != [] ==> rows[0] == LegendRow(TimeSpans.LabelOf(timeSpan), false)
    ensures |rows| == 2 <==> timeSpan == TimeSpans.DAY || timeSpan == TimeSpans.WEEK
    ensures |rows| <= 2
    ensures forall i :: 0 < i < |rows| ==> rows[i].isAverage
    ensures |rows| == 2 ==> rows[1].text == (if timeSpan == TimeSpans.DAY then WEEKLY_AVG_LABEL else MONTHLY_AVG_LABEL)
  {
    if timeSpan == TimeSpans.DAY then
      [CreateRow(TimeSpans.DAY_LABEL, false), CreateRow(WEEKLY_AVG_LABEL, true)]
    else if timeSpan == TimeSpans.WEEK then
      [CreateRow(TimeSpans.WEEK_LABEL, false), CreateRow(MONTHLY_AVG_LABEL, true)]
    else if timeSpan == TimeSpans.MONTH then
      [CreateRow(TimeSpans.MONTH_LABEL, false)]
    else
      []
  }

  /** The three legends, written out. */
  lemma CreateRowsValues()
    ensures CreateRows(TimeSpans.DAY) == [LegendRow("Last 24 hours", false), LegendRow("7 day average", true)]
    ensures CreateRows(TimeSpans.WEEK) == [LegendRow("Last 7 days", false), LegendRow("30 day average", true)]
    ensures CreateRows(TimeSpans.MONTH) == [LegendRow("Last 30 days", false)]
  {
  }
}
