/** The table view of specialisations: an empty-state panel for an empty
    list, otherwise one row per specialisation with a shortened description
    and a pluralised footer. */
module SpecialisationTable {
  import opened Wrappers
  import Text

  /** The row data the table receives. */
  datatype SpecialisationDisplay = SpecialisationDisplay(
    id: int, code: string, title: string, credits: int, year: int, description: Option<string>)

  datatype Row = Row(code: string, title: string, year: int, credits: int, description: string)

  datatype Table =
    | EmptyState
    | Listing(count: nat, rows: seq<Row>, footerSuffix: string)

  /** The description cell: over 80 characters it is cut to 80 and followed
      by "...", a missing or empty one reads "No description". */
  function DescriptionText(d: Option<string>): (t: string)
    ensures |t| <= 83
    ensures d.Some? && |d.value| > 80 ==> t == d.value[..80] + "..."
    ensures d.Some? && 0 < |d.value| <= 80 ==> t == d.value
    ensures d.None? || d.value == "" ==> t == "No description"
    ensures d.Some? && d.value != "" ==> Text.IsPrefix(t[..if |d.value| < 80 then |d.value| else 80], d.value)
  {
    if d.Some? && d.value != "" && |d.value| > 80 then d.value[..80] + "..."
    else if d.Some? && d.value != "" then d.value
    else "No description"
  }

  /** The footer's plural ending: "s" unless there is exactly one. */
  function PluralSuffix(count: nat): (s: string)
    ensures s == "s" <==> count != 1
    ensures s == "" <==> count == 1
  {
    if count != 1 then "s" else ""
  }

  function RowOf(s: SpecialisationDisplay): Row {
    Row(s.code, s.title, s.year, s.credits, DescriptionText(s.description))
  }

  /** The rendered table. */
  function Render(specs: seq<SpecialisationDisplay>): (t: Table)
    ensures t.EmptyState? <==> specs == []
    ensures t.Listing? ==> t.count == |specs| && |t.rows| == |specs| && t.footerSuffix == PluralSuffix(|specs|)
    ensures t.Listing? ==> forall i :: 0 <= i < |specs| ==>
      t.rows[i].code == specs[i].code && t.rows[i].title == specs[i].title
      && t.rows[i].year == specs[i].year && t.rows[i].credits == specs[i].credits
      && t.rows[i].description == DescriptionText(specs[i].description)
  {
    if specs == [] then EmptyState
    else Listing(|specs|, seq(|specs|, i requires 0 <= i < |specs| => RowOf(specs[i])), PluralSuffix(|specs|))
  }
}
