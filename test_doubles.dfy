/** The host controllers the repository's tests build, as `Custom` controllers, so the
    test scenarios can be stated as lemmas. */
module TestDoubles {
  import opened TableView
  import opened CellControllers

  /** An item controller that does not implement `numberOfSections(in:)`, has one row,
      returns the cell it was built with and records selection and deselection. */
  function ItemCellController(id: nat, cell: nat): CellController
  {
    Custom(id, None, _ => 1, _ => HostCell(cell), None, None, {Selected, Deselected})
  }

  /** The list-controller tests' spy: one section, one row, a fixed cell, fixed
      header and footer views, selection and deselection counted. */
  function ItemCellControllerSpy(id: nat, cell: nat, header: Option<View>, footer: Option<View>): CellController
  {
    Custom(id, Some(1), _ => 1, _ => HostCell(cell), Some(_ => header), Some(_ => footer), {Selected, Deselected})
  }

  /** A stub with a fixed number of sections and the same number of rows in each,
      returning blank cells and implementing nothing optional. */
  function MultiSectionStub(id: nat, sections: nat, rowsPerSection: nat): CellController
  {
    Custom(id, Some(sections), _ => rowsPerSection, _ => FreshCell, None, None, {})
  }

  /** A stub over several one-row sections that records selection and deselection. */
  function SelectableStub(id: nat, sections: nat): CellController
  {
    Custom(id, Some(sections), _ => 1, _ => FreshCell, None, None, {Selected, Deselected})
  }

  /** The host configuration of the list tests: a separator line and 20 points of
      padding above section headers. */
  function SeparatorAndPaddingConfiguration(settings: ListViewSettings): ListViewSettings
  {
    settings.(separatorStyle := SingleLine, sectionHeaderTopPadding := Points(20))
  }
}
