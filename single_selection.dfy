/** The `SingleSelectionCellController` written inside its test file: section count
    summed over the children, row counts forwarded by the same running-total scan with
    the section unchanged, and a blank cell for every index path. */
module SingleSelection {
  import opened TableView
  import opened CellControllers
  import opened TestDoubles

  /** `cellController(for:tableView:)`: the same scan with early return as the
      multi-selection controller's, over this controller's own children. */
  method CellControllerFor(cellControllers: seq<CellController>, section: nat) returns (r: Result<CellController>)
    ensures r == Resolve(cellControllers, section)
    ensures r.Crash? <==> TotalSections(cellControllers) <= section
  {
    var sectionCount := 0;
    for k := 0 to |cellControllers|
      invariant sectionCount == Prefix(cellControllers, k) <= section
      invariant OwnerFrom(cellControllers, section, k) == Owner(cellControllers, section)
    {
      sectionCount := sectionCount + SectionCount(cellControllers[k]);
      if section < sectionCount {
        return Ok(cellControllers[k]);
      }
    }
    return Crash(NoCellController(section));
  }

  /** Rows are asked of the owning child with the section unchanged; past the total
      the lookup is fatal. */
  lemma RowsReachOwnerUntranslated(cs: seq<CellController>, s: nat)
    ensures Owner(cs, s).Some? ==> NumberOfRows(SingleSelectionCellController(cs), s) == NumberOfRows(cs[Owner(cs, s).value], s)
    ensures TotalSections(cs) <= s ==> NumberOfRows(SingleSelectionCellController(cs), s) == Crash(NoCellController(s))
  {
  }

  /** `cellForRowAt` returns a new blank cell without consulting any child, so it never
      traps, even for a section past the end. It implements no header, footer or
      selection method. */
  lemma CellIsAlwaysFresh(cs: seq<CellController>, ip: IndexPath, e: RowEvent)
    ensures CellForRow(SingleSelectionCellController(cs), ip) == Ok(FreshCell)
    ensures ViewForHeader(SingleSelectionCellController(cs), ip.section) == Ok(None)
    ensures ViewForFooter(SingleSelectionCellController(cs), ip.section) == Ok(None)
    ensures Deliver(SingleSelectionCellController(cs), e, ip) == Ok(None)
  {
  }

  /** The tests' scenario: children of 2 sections (2 rows each) and 3 sections (3 rows
      each) give 5 sections, and sections 0 to 4 report 2, 2, 3, 3, 3 rows. */
  lemma TwoThreeScenario()
    ensures var single := SingleSelectionCellController([MultiSectionStub(1, 2, 2), MultiSectionStub(2, 3, 3)]);
      && SectionCount(single) == 5
      && NumberOfRows(single, 0) == Ok(2)
      && NumberOfRows(single, 1) == Ok(2)
      && NumberOfRows(single, 2) == Ok(3)
      && NumberOfRows(single, 3) == Ok(3)
      && NumberOfRows(single, 4) == Ok(3)
  {
    var cs := [MultiSectionStub(1, 2, 2), MultiSectionStub(2, 3, 3)];
    assert Prefix(cs, 1) == 2 && Prefix(cs, 2) == 5;
    OwnerIsContainingBlock(cs, 0, 0);
    OwnerIsContainingBlock(cs, 1, 0);
    OwnerIsContainingBlock(cs, 2, 1);
    OwnerIsContainingBlock(cs, 3, 1);
    OwnerIsContainingBlock(cs, 4, 1);
  }
}
