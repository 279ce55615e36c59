/** SharediOS `MultiSelectionCellController`: children spanning any number of sections.
    Each row, cell and header query first finds the child that owns the section by a
    running-total scan, then forwards the query with the section unchanged. It does
    not implement footers, selection or deselection (its multi-selection behaviour is
    unfinished in the source). */
module MultiSelection {
  import opened TableView
  import opened CellControllers
  import opened TestDoubles

  /** `cellController(for:tableView:)`: the scan with early return. No state is read
      or written, so every call with the same section returns the same controller. */
  method CellControllerFor(cellControllers: seq<CellController>, section: nat) returns (r: Result<CellController>)
    ensures r == Resolve(cellControllers, section)
    ensures r.Crash? <==> TotalSections(cellControllers) <= section
  {
    var sectionCount := 0;
    for k := 0 to |cellControllers|
      invariant sectionCount == Prefix(cellControllers, k) <= section
      invariant OwnerFrom(cellControllers, section, k) == Owner(cellControllers, section)
    {
      sectionCount := sectionCount + SectionCount(cellControllers[k]);
      if section < sectionCount {
        return Ok(cellControllers[k]);
      }
    }
    return Crash(NoCellController(section));
  }

  /** Two lookups of the same section find the same child: the scan reads and writes
      no state. */
  method LookupTwice(cellControllers: seq<CellController>, section: nat) returns (first: Result<CellController>, second: Result<CellController>)
    ensures first == second == Resolve(cellControllers, section)
  {
    first := CellControllerFor(cellControllers, section);
    second := CellControllerFor(cellControllers, section);
  }

  /** The group's section count is the sum of its children's; no children, no sections. */
  lemma SectionCountIsChildSum(cs: seq<CellController>)
    ensures SectionCount(MultiSelectionCellController(cs)) == TotalSections(cs)
    ensures cs == [] ==> SectionCount(MultiSelectionCellController(cs)) == 0
  {
  }

  /** Row, cell and header queries reach the owning child with the section and index
      path untranslated; a section at or past the group's total is the `fatalError`. */
  lemma QueriesReachOwnerUntranslated(cs: seq<CellController>, s: nat, row: nat)
    ensures Owner(cs, s).Some? ==>
      var owner := cs[Owner(cs, s).value];
      && NumberOfRows(MultiSelectionCellController(cs), s) == NumberOfRows(owner, s)
      && CellForRow(MultiSelectionCellController(cs), IndexPath(s, row)) == CellForRow(owner, IndexPath(s, row))
      && ViewForHeader(MultiSelectionCellController(cs), s) == ViewForHeader(owner, s)
    ensures TotalSections(cs) <= s ==>
      && NumberOfRows(MultiSelectionCellController(cs), s) == Crash(NoCellController(s))
      && CellForRow(MultiSelectionCellController(cs), IndexPath(s, row)) == Crash(NoCellController(s))
      && ViewForHeader(MultiSelectionCellController(cs), s) == Crash(NoCellController(s))
  {
  }

  /** Footer, selection and deselection are not implemented: nil and no call, and no
      child is consulted. */
  lemma UnimplementedCallbacksReachNoChild(cs: seq<CellController>, s: nat, e: RowEvent, ip: IndexPath)
    ensures ViewForFooter(MultiSelectionCellController(cs), s) == Ok(None)
    ensures Deliver(MultiSelectionCellController(cs), e, ip) == Ok(None)
  {
  }

  /** Children reporting 2, 0 and 3 sections: 5 sections in all; sections 2 and 4 both
      belong to the third child (the empty child is skipped). */
  lemma SkipsEmptyChildScenario()
    ensures var cs := [MultiSectionStub(1, 2, 1), MultiSectionStub(2, 0, 1), MultiSectionStub(3, 3, 1)];
      && TotalSections(cs) == 5
      && Owner(cs, 1) == Some(0)
      && Owner(cs, 2) == Some(2)
      && Owner(cs, 4) == Some(2)
      && Owner(cs, 5) == None
  {
    var cs := [MultiSectionStub(1, 2, 1), MultiSectionStub(2, 0, 1), MultiSectionStub(3, 3, 1)];
    assert Prefix(cs, 1) == 2 && Prefix(cs, 2) == 2 && Prefix(cs, 3) == 5;
    OwnerIsContainingBlock(cs, 1, 0);
    OwnerIsContainingBlock(cs, 2, 2);
    OwnerIsContainingBlock(cs, 4, 2);
  }
}
