/** SharediOS `SectionCellController`: a fixed batch of child controllers shown as one
    section, one row per child, with a header and footer fixed at `init`. */
module SectionCells {
  import opened TableView
  import opened CellControllers
  import opened TestDoubles

  /** A section controller always occupies exactly one section. */
  lemma OccupiesOneSection(cs: seq<CellController>, header: Option<View>, footer: Option<View>)
    ensures NumberOfSections(SectionCellController(cs, header, footer)) == Some(1)
    ensures SectionCount(SectionCellController(cs, header, footer)) == 1
  {
  }

  /** Its row count is the number of children, whatever section it is asked about. */
  lemma RowCountIsChildCount(cs: seq<CellController>, header: Option<View>, footer: Option<View>, s: nat)
    ensures NumberOfRows(SectionCellController(cs, header, footer), s) == Ok(|cs|)
  {
  }

  /** The cell at item `i` is child `i`'s cell for the same index path; an item past
      the last child traps on the array subscript. */
  lemma CellIsItemChildCell(cs: seq<CellController>, header: Option<View>, footer: Option<View>, ip: IndexPath)
    ensures ip.row < |cs| ==> CellForRow(SectionCellController(cs, header, footer), ip) == CellForRow(cs[ip.row], ip)
    ensures ip.row >= |cs| ==> CellForRow(SectionCellController(cs, header, footer), ip) == Crash(IndexOutOfRange(ip.row, |cs|))
  {
  }

  /** Selection and deselection reach child `ip.row` only: replacing any other child
      changes nothing, and a host child gets exactly one call when it implements the
      callback and none otherwise. */
  lemma EventReachesItemChildOnly(cs: seq<CellController>, others: seq<CellController>,
                                  header: Option<View>, footer: Option<View>, e: RowEvent, ip: IndexPath)
    requires ip.row < |cs| == |others| && others[ip.row] == cs[ip.row]
    ensures Deliver(SectionCellController(others, header, footer), e, ip) == Deliver(SectionCellController(cs, header, footer), e, ip)
    ensures Deliver(SectionCellController(cs, header, footer), e, ip) == Deliver(cs[ip.row], e, ip)
    ensures cs[ip.row].Custom? ==>
      Deliver(SectionCellController(cs, header, footer), e, ip)
        == Ok(if e in cs[ip.row].reactsTo then Some(Receipt(cs[ip.row].id, e, ip)) else None)
  {
  }

  /** Header and footer are the values given to `init`, for every section; nil stays nil. */
  lemma HeaderAndFooterAreFixed(cs: seq<CellController>, header: Option<View>, footer: Option<View>, s: nat)
    ensures ViewForHeader(SectionCellController(cs, header, footer), s) == Ok(header)
    ensures ViewForFooter(SectionCellController(cs, header, footer), s) == Ok(footer)
  {
  }

  /** The tests' scenario: two items with cells 1 and 2 give cell 1 at row 0 and cell 2
      at row 1; selecting and deselecting row 0 reach item 1 once each. */
  lemma TwoItemsScenario()
    ensures var section := SectionCellController([ItemCellController(1, 1), ItemCellController(2, 2)], None, None);
      && NumberOfRows(section, 1) == Ok(2)
      && CellForRow(section, IndexPath(0, 0)) == Ok(HostCell(1))
      && CellForRow(section, IndexPath(0, 1)) == Ok(HostCell(2))
      && Deliver(section, Selected, IndexPath(0, 0)) == Ok(Some(Receipt(1, Selected, IndexPath(0, 0))))
      && Deliver(section, Deselected, IndexPath(0, 0)) == Ok(Some(Receipt(1, Deselected, IndexPath(0, 0))))
  {
  }
}
