/**
 The board's fixed, ordered list of columns: one column per pipeline stage,
 each with the stage it collects and a display title.
 */
module Columns {
  import opened Leads

  datatype Column = Column(id: LeadStatus, title: string)

  /** The column definitions, left to right. */
  function BoardColumns(): (cs: seq<Column>)
    ensures |cs| == 5
    ensures forall i, j :: 0 <= i < j < |cs| ==> cs[i].id != cs[j].id
  {
    [ Column(New, "New Leads"),
      Column(Contacted, "Contacted"),
      Column(Negotiating, "Negotiating"),
      Column(Won, "Won"),
      Column(Lost, "Lost") ]
  }

  /** The position of the column that collects stage `s`. */
  function ColumnIndex(s: LeadStatus): (k: nat)
    ensures k < |BoardColumns()|
    ensures BoardColumns()[k].id == s
    ensures forall j :: 0 <= j < |BoardColumns()| && BoardColumns()[j].id == s ==> j == k
  {
    match s
    case New => 0
    case Contacted => 1
    case Negotiating => 2
    case Won => 3
    case Lost => 4
  }

  /** The column ids, left to right. */
  function ColumnIds(cs: seq<Column>): (ids: seq<LeadStatus>)
    ensures |ids| == |cs|
    ensures forall k :: 0 <= k < |cs| ==> ids[k] == cs[k].id
  {
    if |cs| == 0 then [] else [cs[0].id] + ColumnIds(cs[1..])
  }

  /** The pipeline order of the board: new, contacted, negotiating, won, lost. */
  lemma ColumnOrder()
    ensures ColumnIds(BoardColumns()) == [New, Contacted, Negotiating, Won, Lost]
  {
  }
}
