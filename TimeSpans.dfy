/** The catalogue of selectable time spans and the "Time spans" data source. */
module TimeSpans {

  const DAY: string := "DAY"
  const WEEK: string := "WEEK"
  const MONTH: string := "MONTH"

  const DAY_LABEL: string := "Last 24 hours"
  const WEEK_LABEL: string := "Last 7 days"
  const MONTH_LABEL: string := "Last 30 days"

  /** The identifiers, in the order the catalogue lists them. */
  const ALL: seq<string> := [DAY, WEEK, MONTH]

  /** The case-sensitive test every report makes on its time-span argument. */
  predicate IsTimeSpan(id: string) {
    id == DAY || id == WEEK || id == MONTH
  }

  /** The display label that belongs to a recognised identifier. */
  function LabelOf(id: string): string
    requires IsTimeSpan(id)
  {
    if id == DAY then DAY_LABEL else if id == WEEK then WEEK_LABEL else MONTH_LABEL
  }

  /** A row of the data source: (Label, Value): the label as text, the identifier as value. */
  datatype CatalogRow = CatalogRow(text: string, value: string)

  function CreateRow(text: string, value: string): CatalogRow {
    CatalogRow(text, value)
  }

  /** The single page of the data source. */
  function GetNextPage(): (rows: seq<CatalogRow>)
    ensures |rows| == |ALL| == 3
    ensures forall i :: 0 <= i < |rows| ==> rows[i].value == ALL[i] && rows[i].text == LabelOf(ALL[i])
    ensures forall id :: IsTimeSpan(id) <==> exists r :: r in rows && r.value == id
  {
    var rows := [CreateRow(DAY_LABEL, DAY), CreateRow(WEEK_LABEL, WEEK), CreateRow(MONTH_LABEL, MONTH)];
    assert rows[0] in rows && rows[1] in rows && rows[2] in rows;
    rows
  }

  /** The three identifiers are pairwise distinct, and so are their labels. */
  lemma Distinct()
    ensures DAY != WEEK && WEEK != MONTH && DAY != MONTH
    ensures DAY_LABEL != WEEK_LABEL && WEEK_LABEL != MONTH_LABEL && DAY_LABEL != MONTH_LABEL
  {
  }

  /** A label determines its identifier: the pairing is one-to-one. */
  lemma LabelOfInjective(a: string, b: string)
    requires IsTimeSpan(a) && IsTimeSpan(b)
    ensures LabelOf(a) == LabelOf(b) <==> a == b
  {
  }
}
