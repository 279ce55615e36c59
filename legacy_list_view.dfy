/** ListiOS `ListViewController`: the earlier table-view controller. Its list is a
    sequence of section records, each an optional header and the cell controllers of
    that section's rows, and every query indexes the list in two levels,
    `tableModel[section].controllers[row]`, with no scan and no memo. */
module LegacyListView {
  import opened TableView
  import opened CellControllers
  import opened TestDoubles
  import ListView

  /** `HeaderController`: holds the header view of one section. */
  datatype HeaderController = HeaderController(headerView: View)

  /** `SectionController`: one section, its optional header and one cell controller
      per row. */
  datatype SectionController = SectionController(headerController: Option<HeaderController>, controllers: seq<CellController>)

  /** `tableView(_:numberOfRowsInSection:)`: the number of controllers in the section;
      a section past the list traps on the subscript. */
  function RowCount(model: seq<SectionController>, s: nat): (r: Result<nat>)
    ensures r.Ok? <==> s < |model|
    ensures r.Ok? ==> r.value == |model[s].controllers|
    ensures r.Crash? ==> r.fault == IndexOutOfRange(s, |model|)
  {
    if s < |model| then Ok(|model[s].controllers|) else Crash(IndexOutOfRange(s, |model|))
  }

  /** `tableView(_:cellForRowAt:)`: the cell of the row's own controller, asked with the
      same index path; either subscript may trap, the section first. */
  function CellAt(model: seq<SectionController>, ip: IndexPath): (r: Result<Cell>)
    ensures ip.section >= |model| ==> r == Crash(IndexOutOfRange(ip.section, |model|))
    ensures ip.section < |model| && ip.row >= |model[ip.section].controllers| ==>
      r == Crash(IndexOutOfRange(ip.row, |model[ip.section].controllers|))
    ensures ip.section < |model| && ip.row < |model[ip.section].controllers| ==>
      r == CellForRow(model[ip.section].controllers[ip.row], ip)
  {
    if ip.section < |model| then ChildCell(model[ip.section].controllers, ip)
    else Crash(IndexOutOfRange(ip.section, |model|))
  }

  /** `tableView(_:didSelectRowAt:)` / `tableView(_:didDeselectRowAt:)`: the event goes
      to the row's own controller, if it implements the callback, and to no other. */
  function EventAt(model: seq<SectionController>, e: RowEvent, ip: IndexPath): (r: Result<Option<Receipt>>)
    ensures ip.section >= |model| ==> r == Crash(IndexOutOfRange(ip.section, |model|))
    ensures ip.section < |model| && ip.row >= |model[ip.section].controllers| ==>
      r == Crash(IndexOutOfRange(ip.row, |model[ip.section].controllers|))
    ensures ip.section < |model| && ip.row < |model[ip.section].controllers| ==>
      r == Deliver(model[ip.section].controllers[ip.row], e, ip)
    ensures r.Ok? && r.value.Some? ==> r.value.value.at == ip && r.value.value.event == e
  {
    if ip.section < |model| then DeliverToChild(model[ip.section].controllers, e, ip)
    else Crash(IndexOutOfRange(ip.section, |model|))
  }

  /** `tableView(_:viewForHeaderInSection:)`: the section's header view, nil when it has
      no header controller. */
  function HeaderAt(model: seq<SectionController>, s: nat): (r: Result<Option<View>>)
    ensures r.Ok? <==> s < |model|
    ensures r.Ok? ==> (r.value.Some? <==> model[s].headerController.Some?)
    ensures r.Ok? && r.value.Some? ==> r.value.value == model[s].headerController.value.headerView
    ensures r.Crash? ==> r.fault == IndexOutOfRange(s, |model|)
  {
    if s >= |model| then Crash(IndexOutOfRange(s, |model|))
    else if model[s].headerController.Some? then Ok(Some(model[s].headerController.value.headerView))
    else Ok(None)
  }

  /** The steps of this controller's `viewDidLoad`: the load hook (when set), the host's
      configuration (when set), and the defaults last of all. */
  function LoadSteps(requestsLoad: bool, configures: bool): (steps: seq<LifecycleStep>)
    ensures Occurrences(steps, RequestedLoad) == (if requestsLoad then 1 else 0)
    ensures Occurrences(steps, AppliedDefaults) == 1
    ensures Occurrences(steps, ConfiguredByHost) == (if configures then 1 else 0)
    ensures requestsLoad ==> steps[0] == RequestedLoad
    ensures steps[|steps| - 1] == AppliedDefaults
  {
    var first := if requestsLoad then [RequestedLoad] else [];
    var middle := if configures then [ConfiguredByHost] else [];
    forall step | step in {RequestedLoad, AppliedDefaults, ConfiguredByHost}
      ensures Occurrences(first + middle + [AppliedDefaults], step)
           == Occurrences(first, step) + Occurrences(middle, step) + Occurrences([AppliedDefaults], step)
    {
      OccurrencesConcat(first, middle, step);
      OccurrencesConcat(first + middle, [AppliedDefaults], step);
    }
    first + middle + [AppliedDefaults]
  }

  /** The table-view settings after this controller's `viewDidLoad`. The defaults are
      written after the host's configuration, so they are what remains whatever the
      host configured. */
  function SettingsAfterLoad(before: ListViewSettings, configure: Option<ListViewSettings -> ListViewSettings>): (r: ListViewSettings)
    ensures r == ListViewSettings(NoSeparator, Points(0))
  {
    var configured := if configure.Some? then configure.value(before) else before;
    WithListDefaults(configured)
  }

  class ListViewController {
    var tableModel: seq<SectionController>
    /** How many times `tableView.reloadData()` has been requested. */
    var reloadRequests: nat
    var settings: ListViewSettings
    /** Whether the host set `onViewDidLoad`. */
    var onViewDidLoad: bool
    var configureTableView: Option<ListViewSettings -> ListViewSettings>
    /** The `viewDidLoad` steps taken so far. */
    var lifecycle: seq<LifecycleStep>

    constructor ()
      ensures tableModel == [] && reloadRequests == 0
      ensures settings == UIKitDefaults && lifecycle == []
      ensures !onViewDidLoad && configureTableView.None?
    {
      tableModel := [];
      reloadRequests := 0;
      settings := UIKitDefaults;
      onViewDidLoad := false;
      configureTableView := None;
      lifecycle := [];
    }

    method ViewDidLoad()
      modifies this`settings, this`lifecycle
      ensures lifecycle == old(lifecycle) + LoadSteps(onViewDidLoad, configureTableView.Some?)
      ensures settings == SettingsAfterLoad(old(settings), configureTableView)
    {
      ghost var steps := [];
      if onViewDidLoad {
        lifecycle := lifecycle + [RequestedLoad];
        steps := steps + [RequestedLoad];
      }
      if configureTableView.Some? {
        settings := configureTableView.value(settings);
        lifecycle := lifecycle + [ConfiguredByHost];
        steps := steps + [ConfiguredByHost];
      }
      settings := settings.(separatorStyle := NoSeparator);
      settings := settings.(sectionHeaderTopPadding := Points(0));
      lifecycle := lifecycle + [AppliedDefaults];
      steps := steps + [AppliedDefaults];
      assert steps == LoadSteps(onViewDidLoad, configureTableView.Some?);
    }

    /** `updateTableModel(sectionController:)`: the list is replaced as a whole and the
        assignment's observer requests a reload. */
    method UpdateTableModel(sectionController: seq<SectionController>)
      modifies this`tableModel, this`reloadRequests
      ensures tableModel == sectionController
      ensures reloadRequests == old(reloadRequests) + 1
    {
      tableModel := sectionController;
      reloadRequests := reloadRequests + 1;
    }

    /** `numberOfSections(in:)`: one section per section record. */
    function NumberOfSections(): (n: nat)
      reads this
      ensures n == |tableModel|
      ensures n == TotalSections(Migrated(tableModel))
    {
      MigratedSectionsAreSingle(tableModel);
      |tableModel|
    }

    function NumberOfRowsInSection(section: nat): (r: Result<nat>)
      reads this
      ensures r == RowCount(tableModel, section)
      ensures r.Ok? <==> section < NumberOfSections()
    {
      RowCount(tableModel, section)
    }

    function CellForRowAt(ip: IndexPath): (r: Result<Cell>)
      reads this
      ensures r == CellAt(tableModel, ip)
    {
      CellAt(tableModel, ip)
    }

    function DidSelectRowAt(ip: IndexPath): (r: Result<Option<Receipt>>)
      reads this
      ensures r == EventAt(tableModel, Selected, ip)
      ensures r.Ok? && r.value.Some? ==> r.value.value.event == Selected
    {
      EventAt(tableModel, Selected, ip)
    }

    function DidDeselectRowAt(ip: IndexPath): (r: Result<Option<Receipt>>)
      reads this
      ensures r == EventAt(tableModel, Deselected, ip)
      ensures r.Ok? && r.value.Some? ==> r.value.value.event == Deselected
    {
      EventAt(tableModel, Deselected, ip)
    }

    function ViewForHeaderInSection(section: nat): (r: Result<Option<View>>)
      reads this
      ensures r == HeaderAt(tableModel, section)
    {
      HeaderAt(tableModel, section)
    }
  }

  // ---------------------------------------------------------------------------
  // The section records as section cell controllers

  /** A section record as a `SectionCellController` of the shared controllers: the
      same children, the header controller's view, and no footer. */
  function AsSectionCellController(section: SectionController): (c: CellController)
    ensures c.SectionCellController? && c.cellControllers == section.controllers
    ensures c.headerView.Some? <==> section.headerController.Some?
    ensures section.headerController.Some? ==> c.headerView == Some(section.headerController.value.headerView)
    ensures c.footerView.None?
  {
    SectionCellController(section.controllers,
      if section.headerController.Some? then Some(section.headerController.value.headerView) else None,
      None)
  }

  /** The whole list, record by record. */
  function Migrated(model: seq<SectionController>): (cs: seq<CellController>)
    ensures |cs| == |model|
    ensures forall i :: 0 <= i < |model| ==> cs[i] == AsSectionCellController(model[i])
  {
    seq(|model|, i requires 0 <= i < |model| => AsSectionCellController(model[i]))
  }

  /** Every migrated record occupies exactly one section, so section `s` is owned by
      record `s`. */
  lemma MigratedSectionsAreSingle(model: seq<SectionController>)
    ensures TotalSections(Migrated(model)) == |model|
    ensures forall s: nat :: s < |model| ==> Resolve(Migrated(model), s) == Ok(AsSectionCellController(model[s]))
  {
    var cs := Migrated(model);
    forall i | 0 <= i < |cs|
      ensures SectionCount(cs[i]) == 1
    {
    }
    forall s: nat | s < |model|
      ensures Resolve(cs, s) == Ok(AsSectionCellController(model[s]))
    {
      UnitSectionsOwnerIsIndex(cs, s);
    }
    UnitSectionsOwnerIsIndex(cs, 0);
  }

  /** The two controllers agree on a list of section records. Section, row, cell,
      header and selection answers are the same, and the shared controller's footer is
      nil where the legacy one has none. The only difference is the fault a section
      past the list raises: the lookup's `fatalError` rather than the subscript trap. */
  lemma MigrationPreservesAnswers(model: seq<SectionController>, e: RowEvent, ip: IndexPath)
    ensures TotalSections(Migrated(model)) == |model|
    ensures RowCount(model, ip.section).Ok? <==> ResolvedRows(Migrated(model), ip.section).Ok?
    ensures RowCount(model, ip.section).Ok? ==> ResolvedRows(Migrated(model), ip.section) == RowCount(model, ip.section)
    ensures ip.section < |model| ==> ResolvedCell(Migrated(model), ip) == CellAt(model, ip)
    ensures ip.section >= |model| ==> ResolvedCell(Migrated(model), ip) == Crash(NoCellController(ip.section))
    ensures ip.section < |model| ==> ResolvedHeader(Migrated(model), ip.section) == HeaderAt(model, ip.section)
    ensures ip.section < |model| ==> ResolvedFooter(Migrated(model), ip.section) == Ok(None)
    ensures ListView.DeliverAt(Migrated(model), e, ip) == EventAt(model, e, ip)
  {
    MigratedSectionsAreSingle(model);
    if ip.section < |model| {
      assert Resolve(Migrated(model), ip.section) == Ok(AsSectionCellController(model[ip.section]));
    }
  }

  /** `viewDidLoad` in the two controllers with the list tests' host configuration: the
      shared controller keeps the host's separator line and padding, the legacy one
      overwrites both with its defaults. */
  lemma HookOrderIsReversed(before: ListViewSettings)
    ensures ListView.SettingsAfterLoad(before, Some(SeparatorAndPaddingConfiguration)) == ListViewSettings(SingleLine, Points(20))
    ensures SettingsAfterLoad(before, Some(SeparatorAndPaddingConfiguration)) == ListViewSettings(NoSeparator, Points(0))
    ensures ListView.LoadSteps(true, true) == [RequestedLoad, AppliedDefaults, ConfiguredByHost]
    ensures LoadSteps(true, true) == [RequestedLoad, ConfiguredByHost, AppliedDefaults]
  {
  }

  /** Two sections, the first with a header and two rows, the second headerless with
      one row: selecting (1, 0) reaches the second section's only controller, and row 1
      of the second section traps. */
  lemma TwoSectionScenario()
    ensures var model := [SectionController(Some(HeaderController(9)), [SelectableStub(1, 1), SelectableStub(2, 1)]),
                          SectionController(None, [SelectableStub(3, 1)])];
      && RowCount(model, 0) == Ok(2) && RowCount(model, 1) == Ok(1)
      && RowCount(model, 2) == Crash(IndexOutOfRange(2, 2))
      && HeaderAt(model, 0) == Ok(Some(9)) && HeaderAt(model, 1) == Ok(None)
      && EventAt(model, Selected, IndexPath(1, 0)) == Ok(Some(Receipt(3, Selected, IndexPath(1, 0))))
      && EventAt(model, Deselected, IndexPath(1, 1)) == Crash(IndexOutOfRange(1, 1))
  {
  }
}
