/** The `SectionCellController` written inside the single-section tests: one section,
    one row per child, cells and selection forwarded to child `item`; it stores a
    header and a footer but implements neither view method, so it serves neither. */
module PrototypeSections {
  import opened TableView
  import opened CellControllers
  import opened TestDoubles

  /** Always one section. */
  lemma OccupiesOneSection(cs: seq<CellController>, header: Option<View>, footer: Option<View>)
    ensures NumberOfSections(PrototypeSectionCellController(cs, header, footer)) == Some(1)
    ensures SectionCount(PrototypeSectionCellController(cs, header, footer)) == 1
  {
  }

  /** The row count is the number of children for every section argument, 1 included. */
  lemma RowCountIsChildCount(cs: seq<CellController>, header: Option<View>, footer: Option<View>, s: nat)
    ensures NumberOfRows(PrototypeSectionCellController(cs, header, footer), s) == Ok(|cs|)
  {
  }

  /** The cell at item `i` is child `i`'s cell; past the last child the subscript traps. */
  lemma CellIsItemChildCell(cs: seq<CellController>, header: Option<View>, footer: Option<View>, ip: IndexPath)
    ensures ip.row < |cs| ==> CellForRow(PrototypeSectionCellController(cs, header, footer), ip) == CellForRow(cs[ip.row], ip)
    ensures ip.row >= |cs| ==> CellForRow(PrototypeSectionCellController(cs, header, footer), ip) == Crash(IndexOutOfRange(ip.row, |cs|))
  {
  }

  /** Selection and deselection reach child `ip.row` only, with the index path unchanged. */
  lemma EventReachesItemChildOnly(cs: seq<CellController>, others: seq<CellController>,
                                  header: Option<View>, footer: Option<View>, e: RowEvent, ip: IndexPath)
    requires ip.row < |cs| == |others| && others[ip.row] == cs[ip.row]
    ensures Deliver(PrototypeSectionCellController(others, header, footer), e, ip)
         == Deliver(PrototypeSectionCellController(cs, header, footer), e, ip)
    ensures Deliver(PrototypeSectionCellController(cs, header, footer), e, ip) == Deliver(cs[ip.row], e, ip)
  {
  }

  /** The stored header and footer are the `init` values, but a table view asking for
      them gets nil: the class has no view-for-header or view-for-footer method. */
  lemma StoredViewsAreNotServed(cs: seq<CellController>, header: Option<View>, footer: Option<View>, s: nat)
    ensures PrototypeSectionCellController(cs, header, footer).headerView == header
    ensures PrototypeSectionCellController(cs, header, footer).footerView == footer
    ensures ViewForHeader(PrototypeSectionCellController(cs, header, footer), s) == Ok(None)
    ensures ViewForFooter(PrototypeSectionCellController(cs, header, footer), s) == Ok(None)
  {
  }

  /** The tests' scenario: with one item, selecting row 0 and deselecting row 0 each
      reach that item once; with two items, row 1 shows the second item's cell. */
  lemma SelectionScenario()
    ensures var single := PrototypeSectionCellController([ItemCellController(1, 1)], None, None);
      && Deliver(single, Selected, IndexPath(0, 0)) == Ok(Some(Receipt(1, Selected, IndexPath(0, 0))))
      && Deliver(single, Deselected, IndexPath(0, 0)) == Ok(Some(Receipt(1, Deselected, IndexPath(0, 0))))
    ensures var two := PrototypeSectionCellController([ItemCellController(1, 1), ItemCellController(2, 2)], None, None);
      && NumberOfRows(two, 1) == Ok(2)
      && CellForRow(two, IndexPath(0, 1)) == Ok(HostCell(2))
  {
  }
}
