/** Agreements between data sources that the dashboard relies on. */
module Consistency {

  import Dms
  import Distribution
  import DistributionLegend

  /**
   * The legend describes the distribution's series: one legend row per query
   * the distribution issues, marked as an average exactly when that query is
   * the averaged baseline.
   */
  lemma LegendMatchesPlans(timeSpan: string)
    ensures |DistributionLegend.CreateRows(timeSpan)| == |Distribution.PlansFor(timeSpan)|
    ensures forall i :: 0 <= i < |Distribution.PlansFor(timeSpan)| ==>
      DistributionLegend.CreateRows(timeSpan)[i].isAverage
        == (Distribution.PlansFor(timeSpan)[i].average != Dms.ReportAverageType.NoAverage)
  {
  }

  /** A legend has an average row exactly when the distribution fills in averages. */
  lemma LegendHasAverageIffBaseline(timeSpan: string)
    ensures (exists i :: 0 <= i < |DistributionLegend.CreateRows(timeSpan)| && DistributionLegend.CreateRows(timeSpan)[i].isAverage)
        <==> |Distribution.PlansFor(timeSpan)| == 2
  {
    var rows := DistributionLegend.CreateRows(timeSpan);
    if |rows| == 2 {
      assert rows[1].isAverage;
    }
  }
}
