/** SharediOS `ListViewController`: the table-view controller that shows an ordered
    list of cell controllers. Each section is served by the controller whose running
    section total first exceeds it, found by a scan whose results are memoised per
    section until the list is replaced. */
module ListView {
  import opened TableView
  import opened CellControllers
  import opened TestDoubles

  /** Every memoised owner is the controller a fresh scan of `model` would return. */
  ghost predicate CacheAgrees(model: seq<CellController>, cache: map<nat, CellController>)
  {
    forall s :: s in cache ==> Resolve(model, s) == Ok(cache[s])
  }

  /** The steps of `viewDidLoad`: the load request (when the host set that hook), then
      the list's defaults, then the host's configuration (when set). Each hook runs
      once, and the host's configuration comes last, so it overrides the defaults. */
  function LoadSteps(requestsLoad: bool, configures: bool): (steps: seq<LifecycleStep>)
    ensures Occurrences(steps, RequestedLoad) == (if requestsLoad then 1 else 0)
    ensures Occurrences(steps, AppliedDefaults) == 1
    ensures Occurrences(steps, ConfiguredByHost) == (if configures then 1 else 0)
    ensures requestsLoad ==> steps[0] == RequestedLoad
    ensures configures ==> steps[|steps| - 1] == ConfiguredByHost
  {
    var first := if requestsLoad then [RequestedLoad] else [];
    var last := if configures then [ConfiguredByHost] else [];
    forall step | step in {RequestedLoad, AppliedDefaults, ConfiguredByHost}
      ensures Occurrences(first + [AppliedDefaults] + last, step)
           == Occurrences(first, step) + Occurrences([AppliedDefaults], step) + Occurrences(last, step)
    {
      OccurrencesConcat(first, [AppliedDefaults], step);
      OccurrencesConcat(first + [AppliedDefaults], last, step);
    }
    first + [AppliedDefaults] + last
  }

  /** The table-view settings after `viewDidLoad`: the defaults, then the host's
      configuration applied to them. */
  function SettingsAfterLoad(before: ListViewSettings, configure: Option<ListViewSettings -> ListViewSettings>): ListViewSettings
  {
    var defaults := WithListDefaults(before);
    if configure.Some? then configure.value(defaults) else defaults
  }

  /** Selection and deselection as the list controller dispatches them: to
      `tableModel[indexPath.section]` by direct subscript, not through the owner scan. */
  function DeliverAt(model: seq<CellController>, e: RowEvent, ip: IndexPath): (r: Result<Option<Receipt>>)
    ensures ip.section < |model| ==> r == Deliver(model[ip.section], e, ip)
    ensures ip.section >= |model| ==> r == Crash(IndexOutOfRange(ip.section, |model|))
    ensures r.Ok? && r.value.Some? ==> r.value.value.at == ip && r.value.value.event == e
  {
    if ip.section < |model| then Deliver(model[ip.section], e, ip) else Crash(IndexOutOfRange(ip.section, |model|))
  }

  class ListViewController {
    var tableModel: seq<CellController>
    var cachedCellController: map<nat, CellController>
    /** How many times `tableView.reloadData()` has been requested. */
    var reloadRequests: nat
    var settings: ListViewSettings
    /** Whether the host set `onRequestToLoad`. */
    var onRequestToLoad: bool
    var configureListView: Option<ListViewSettings -> ListViewSettings>
    /** The `viewDidLoad` steps taken so far. */
    var lifecycle: seq<LifecycleStep>

    ghost predicate Valid()
      reads this
    {
      CacheAgrees(tableModel, cachedCellController)
    }

    constructor ()
      ensures Valid()
      ensures tableModel == [] && cachedCellController == map[] && reloadRequests == 0
      ensures settings == UIKitDefaults && lifecycle == []
      ensures !onRequestToLoad && configureListView.None?
    {
      tableModel := [];
      cachedCellController := map[];
      reloadRequests := 0;
      settings := UIKitDefaults;
      onRequestToLoad := false;
      configureListView := None;
      lifecycle := [];
    }

    method ViewDidLoad()
      modifies this`settings, this`lifecycle
      ensures lifecycle == old(lifecycle) + LoadSteps(onRequestToLoad, configureListView.Some?)
      ensures settings == SettingsAfterLoad(old(settings), configureListView)
    {
      if onRequestToLoad {
        lifecycle := lifecycle + [RequestedLoad];
      }
      Configure();
      if configureListView.Some? {
        settings := configureListView.value(settings);
        lifecycle := lifecycle + [ConfiguredByHost];
      }
    }

    /** `configure()`: no separator line, no padding above section headers. */
    method Configure()
      modifies this`settings, this`lifecycle
      ensures settings.separatorStyle == NoSeparator && settings.sectionHeaderTopPadding == Points(0)
      ensures settings == WithListDefaults(old(settings))
      ensures lifecycle == old(lifecycle) + [AppliedDefaults]
    {
      settings := settings.(separatorStyle := NoSeparator);
      settings := settings.(sectionHeaderTopPadding := Points(0));
      lifecycle := lifecycle + [AppliedDefaults];
    }

    /** `display(cellControllers:)`: the list is replaced as a whole (never merged),
        the memoised owners are dropped and a reload is requested. */
    method Display(cellControllers: seq<CellController>)
      modifies this`tableModel, this`cachedCellController, this`reloadRequests
      ensures Valid()
      ensures tableModel == cellControllers && cachedCellController == map[]
      ensures reloadRequests == old(reloadRequests) + 1
    {
      tableModel := cellControllers;
      cachedCellController := map[];
      reloadRequests := reloadRequests + 1;
    }

    /** `numberOfSections(in:)`: the sum over the list of each controller's section
        count (1 when it does not say); 0 exactly when no controller occupies a section. */
    function NumberOfSections(): (n: nat)
      reads this
      ensures n == 0 <==> forall i :: 0 <= i < |tableModel| ==> SectionCount(tableModel[i]) == 0
      ensures tableModel == [] ==> n == 0
    {
      NoSectionsIffAllEmpty(tableModel, |tableModel|);
      TotalSections(tableModel)
    }

    /** `cellController(forSection:in:)`: a memoised owner is returned without a scan;
        otherwise the scan runs, and an owner it finds is memoised. Either way the
        answer is what a fresh scan of the current list gives. */
    method CellControllerFor(section: nat) returns (r: Result<CellController>)
      requires Valid()
      modifies this`cachedCellController
      ensures Valid()
      ensures r == Resolve(tableModel, section)
      ensures section in old(cachedCellController) ==> cachedCellController == old(cachedCellController)
      ensures section !in old(cachedCellController) && r.Ok? ==> cachedCellController == old(cachedCellController)[section := r.value]
      ensures r.Crash? ==> cachedCellController == old(cachedCellController)
    {
      if section in cachedCellController {
        return Ok(cachedCellController[section]);
      }
      var sectionCount := 0;
      for k := 0 to |tableModel|
        invariant sectionCount == Prefix(tableModel, k) <= section
        invariant OwnerFrom(tableModel, section, k) == Owner(tableModel, section)
        invariant cachedCellController == old(cachedCellController)
      {
        sectionCount := sectionCount + SectionCount(tableModel[k]);
        if section < sectionCount {
          cachedCellController := cachedCellController[section := tableModel[k]];
          return Ok(tableModel[k]);
        }
      }
      return Crash(NoCellController(section));
    }

    /** `tableView(_:numberOfRowsInSection:)`: the owner's row count for the same
        absolute section, warm cache or cold. */
    method NumberOfRowsInSection(section: nat) returns (r: Result<nat>)
      requires Valid()
      modifies this`cachedCellController
      ensures Valid()
      ensures r == ResolvedRows(tableModel, section)
      ensures section in old(cachedCellController) ==> cachedCellController == old(cachedCellController)
      ensures section !in old(cachedCellController) && Resolve(tableModel, section).Ok? ==>
        cachedCellController == old(cachedCellController)[section := Resolve(tableModel, section).value]
      ensures Resolve(tableModel, section).Crash? ==> cachedCellController == old(cachedCellController)
    {
      var owner := CellControllerFor(section);
      match owner
      case Crash(f) => r := Crash(f);
      case Ok(c) => r := NumberOfRows(c, section);
    }

    /** `tableView(_:cellForRowAt:)`: the owner's cell for the same index path. */
    method CellForRowAt(ip: IndexPath) returns (r: Result<Cell>)
      requires Valid()
      modifies this`cachedCellController
      ensures Valid()
      ensures r == ResolvedCell(tableModel, ip)
      ensures ip.section in old(cachedCellController) ==> cachedCellController == old(cachedCellController)
      ensures ip.section !in old(cachedCellController) && Resolve(tableModel, ip.section).Ok? ==>
        cachedCellController == old(cachedCellController)[ip.section := Resolve(tableModel, ip.section).value]
      ensures Resolve(tableModel, ip.section).Crash? ==> cachedCellController == old(cachedCellController)
    {
      var owner := CellControllerFor(ip.section);
      match owner
      case Crash(f) => r := Crash(f);
      case Ok(c) => r := CellForRow(c, ip);
    }

    /** `tableView(_:viewForHeaderInSection:)`: the owner's header, nil if it has none. */
    method ViewForHeaderInSection(section: nat) returns (r: Result<Option<View>>)
      requires Valid()
      modifies this`cachedCellController
      ensures Valid()
      ensures r == ResolvedHeader(tableModel, section)
      ensures section in old(cachedCellController) ==> cachedCellController == old(cachedCellController)
      ensures section !in old(cachedCellController) && Resolve(tableModel, section).Ok? ==>
        cachedCellController == old(cachedCellController)[section := Resolve(tableModel, section).value]
      ensures Resolve(tableModel, section).Crash? ==> cachedCellController == old(cachedCellController)
    {
      var owner := CellControllerFor(section);
      match owner
      case Crash(f) => r := Crash(f);
      case Ok(c) => r := ViewForHeader(c, section);
    }

    /** `tableView(_:viewForFooterInSection:)`: the owner's footer, nil if it has none. */
    method ViewForFooterInSection(section: nat) returns (r: Result<Option<View>>)
      requires Valid()
      modifies this`cachedCellController
      ensures Valid()
      ensures r == ResolvedFooter(tableModel, section)
      ensures section in old(cachedCellController) ==> cachedCellController == old(cachedCellController)
      ensures section !in old(cachedCellController) && Resolve(tableModel, section).Ok? ==>
        cachedCellController == old(cachedCellController)[section := Resolve(tableModel, section).value]
      ensures Resolve(tableModel, section).Crash? ==> cachedCellController == old(cachedCellController)
    {
      var owner := CellControllerFor(section);
      match owner
      case Crash(f) => r := Crash(f);
      case Ok(c) => r := ViewForFooter(c, section);
    }

    /** `tableView(_:didSelectRowAt:)`. */
    function DidSelectRowAt(ip: IndexPath): (r: Result<Option<Receipt>>)
      reads this
      ensures ip.section < |tableModel| ==> r == Deliver(tableModel[ip.section], Selected, ip)
      ensures ip.section >= |tableModel| ==> r == Crash(IndexOutOfRange(ip.section, |tableModel|))
      ensures r.Ok? && r.value.Some? ==> r.value.value.event == Selected && r.value.value.at == ip
    {
      DeliverAt(tableModel, Selected, ip)
    }

    /** `tableView(_:didDeselectRowAt:)`. */
    function DidDeselectRowAt(ip: IndexPath): (r: Result<Option<Receipt>>)
      reads this
      ensures ip.section < |tableModel| ==> r == Deliver(tableModel[ip.section], Deselected, ip)
      ensures ip.section >= |tableModel| ==> r == Crash(IndexOutOfRange(ip.section, |tableModel|))
      ensures r.Ok? && r.value.Some? ==> r.value.value.event == Deselected && r.value.value.at == ip
    {
      DeliverAt(tableModel, Deselected, ip)
    }
  }

  // ---------------------------------------------------------------------------
  // Consequences of forwarding the absolute section unchanged

  /** A controller that answers row queries itself instead of running another scan. */
  predicate AnswersDirectly(c: CellController)
  {
    !c.MultiSelectionCellController? && !c.SingleSelectionCellController?
  }

  /** A list of controllers that answer directly serves exactly its own sections: a
      row query succeeds if and only if the section is below the total. */
  lemma FlatListServesExactlyItsSections(model: seq<CellController>, s: nat)
    requires forall i :: 0 <= i < |model| ==> AnswersDirectly(model[i])
    ensures ResolvedRows(model, s).Ok? <==> s < TotalSections(model)
  {
  }

  /** When section `s` belongs to a composite at position `i`, the composite receives
      the absolute `s`, not `s - Prefix(model, i)`, and scans its own children with it.
      With children that answer directly and a block of `n` sections starting at
      `P = Prefix(model, i)`, section `s` is served exactly when `s < n`. It is served by
      the child that owns `s` in the composite's own numbering, with `s` unchanged, which
      is often not the child meant for it. The other `min(P, n)` sections of the block
      hit the `fatalError`. */
  lemma {:induction false} CompositeOwnerServesOnlyBelowItsOwnCount(model: seq<CellController>, s: nat, i: nat)
    requires i < |model| && Prefix(model, i) <= s < Prefix(model, i + 1)
    requires model[i].MultiSelectionCellController? || model[i].SingleSelectionCellController?
    requires forall j :: 0 <= j < |model[i].cellControllers| ==> AnswersDirectly(model[i].cellControllers[j])
    ensures ResolvedRows(model, s) == ResolvedRows(model[i].cellControllers, s)
    ensures ResolvedRows(model, s).Ok? <==> s < SectionCount(model[i])
  {
    OwnerIsContainingBlock(model, s, i);
    FlatListServesExactlyItsSections(model[i].cellControllers, s);
  }

  /** The integration test's list: a single-selection controller over three one-section
      stubs, then a multi-selection controller over one more. Four sections are
      reported, but the row query for section 3 reaches the second composite with
      section 3 and its own scan hits the `fatalError`. */
  lemma IntegrationListCrashesOnLastSection()
    ensures var model := [SingleSelectionCellController([MultiSectionStub(1, 1, 1), MultiSectionStub(2, 1, 1), MultiSectionStub(3, 1, 1)]),
                          MultiSelectionCellController([MultiSectionStub(4, 1, 1)])];
      && TotalSections(model) == 4
      && ResolvedRows(model, 2) == Ok(1)
      && ResolvedRows(model, 3) == Crash(NoCellController(3))
  {
    var inner := [MultiSectionStub(1, 1, 1), MultiSectionStub(2, 1, 1), MultiSectionStub(3, 1, 1)];
    var model := [SingleSelectionCellController(inner), MultiSelectionCellController([MultiSectionStub(4, 1, 1)])];
    UnitSectionsOwnerIsIndex(inner, 2);
    assert Prefix(model, 1) == 3 && Prefix(model, 2) == 4;
    CompositeOwnerServesOnlyBelowItsOwnCount(model, 2, 0);
    CompositeOwnerServesOnlyBelowItsOwnCount(model, 3, 1);
    OwnerIsContainingBlock(inner, 2, 2);
  }

  /** A one-section item followed by a composite of two one-section children (5 rows
      and 6 rows): section 1, the composite's first, is answered by its second child,
      and section 2, the composite's last, is past its children's total and crashes. */
  lemma CompositeNotFirstMisroutesThenCrashes()
    ensures var model := [ItemCellControllerSpy(1, 7, None, None),
                          MultiSelectionCellController([MultiSectionStub(2, 1, 5), MultiSectionStub(3, 1, 6)])];
      && TotalSections(model) == 3
      && ResolvedRows(model, 1) == Ok(6)
      && ResolvedRows(model, 2) == Crash(NoCellController(2))
  {
    var inner := [MultiSectionStub(2, 1, 5), MultiSectionStub(3, 1, 6)];
    var model := [ItemCellControllerSpy(1, 7, None, None), MultiSelectionCellController(inner)];
    assert Prefix(inner, 1) == 1 && Prefix(inner, 2) == 2;
    assert Prefix(model, 1) == 1 && Prefix(model, 2) == 3;
    CompositeOwnerServesOnlyBelowItsOwnCount(model, 1, 1);
    CompositeOwnerServesOnlyBelowItsOwnCount(model, 2, 1);
    OwnerIsContainingBlock(inner, 1, 1);
  }

  // ---------------------------------------------------------------------------
  // Selection goes by subscript, content by the scan

  /** When every controller occupies one section, the subscript and the scan agree:
      selection reaches the controller that serves the section's rows and cells. */
  lemma SelectionReachesOwnerWhenSectionsAreSingle(model: seq<CellController>, e: RowEvent, ip: IndexPath)
    requires forall i :: 0 <= i < |model| ==> SectionCount(model[i]) == 1
    ensures ip.section < |model| ==> Resolve(model, ip.section) == Ok(model[ip.section])
    ensures ip.section < |model| ==> DeliverAt(model, e, ip) == Deliver(model[ip.section], e, ip)
    ensures ip.section >= TotalSections(model) ==> Resolve(model, ip.section).Crash? && DeliverAt(model, e, ip).Crash?
  {
    UnitSectionsOwnerIsIndex(model, ip.section);
  }

  /** With a two-section controller first, section 1's rows come from it, but a
      selection in section 1 reaches the next controller; with one three-section
      controller, section 2 has rows but selecting in it traps on the subscript. */
  lemma SelectionBypassesOwnerScenario()
    ensures var model := [SelectableStub(1, 2), SelectableStub(2, 1)];
      && Resolve(model, 1) == Ok(model[0])
      && DeliverAt(model, Selected, IndexPath(1, 0)) == Ok(Some(Receipt(2, Selected, IndexPath(1, 0))))
    ensures var model := [SelectableStub(1, 3)];
      && ResolvedRows(model, 2) == Ok(1)
      && DeliverAt(model, Selected, IndexPath(2, 0)) == Crash(IndexOutOfRange(2, 1))
  {
    var model := [SelectableStub(1, 2), SelectableStub(2, 1)];
    assert Prefix(model, 1) == 2;
    OwnerIsContainingBlock(model, 1, 0);
    var single := [SelectableStub(1, 3)];
    assert Prefix(single, 1) == 3;
    OwnerIsContainingBlock(single, 2, 0);
  }

  // ---------------------------------------------------------------------------
  // Client views of the state machine

  /** The same row query asked twice, first with an empty memo and then with the
      owner memoised, gives the same answer: the one a fresh scan gives. The first
      query memoises the section exactly when the section has an owner. */
  method RowsWarmOrCold(model: seq<CellController>, s: nat) returns (cold: Result<nat>, warm: Result<nat>, memoised: bool)
    ensures cold == warm == ResolvedRows(model, s)
    ensures memoised <==> s < TotalSections(model)
  {
    var list := new ListViewController();
    list.Display(model);
    cold := list.NumberOfRowsInSection(s);
    memoised := s in list.cachedCellController;
    warm := list.NumberOfRowsInSection(s);
  }

  /** Two successive `display` calls: only the second list is visible, even after the
      first one's owners were memoised. */
  method DisplayTwice(first: seq<CellController>, second: seq<CellController>, s: nat)
    returns (sections: nat, rows: Result<nat>, reloads: nat)
    ensures sections == TotalSections(second)
    ensures rows == ResolvedRows(second, s)
    ensures reloads == 2
  {
    var list := new ListViewController();
    list.Display(first);
    var _ := list.NumberOfRowsInSection(s);
    list.Display(second);
    sections := list.NumberOfSections();
    rows := list.NumberOfRowsInSection(s);
    reloads := list.reloadRequests;
  }

  /** The tests' scenarios: one item spy then two item spies (2 sections, one row
      each); an empty list has no sections; the spy's header and footer are served;
      selecting and deselecting (0, 0) reach the spy once each. */
  lemma ItemSpyScenarios()
    ensures TotalSections([]) == 0
    ensures var two := [ItemCellControllerSpy(1, 1, None, None), ItemCellControllerSpy(2, 2, None, None)];
      && TotalSections(two) == 2 && ResolvedRows(two, 0) == Ok(1) && ResolvedRows(two, 1) == Ok(1)
    ensures var one := [ItemCellControllerSpy(1, 7, Some(8), Some(9))];
      && TotalSections(one) == 1 && ResolvedRows(one, 0) == Ok(1)
      && ResolvedCell(one, IndexPath(0, 0)) == Ok(HostCell(7))
      && ResolvedHeader(one, 0) == Ok(Some(8))
      && ResolvedFooter(one, 0) == Ok(Some(9))
      && DeliverAt(one, Selected, IndexPath(0, 0)) == Ok(Some(Receipt(1, Selected, IndexPath(0, 0))))
      && DeliverAt(one, Deselected, IndexPath(0, 0)) == Ok(Some(Receipt(1, Deselected, IndexPath(0, 0))))
  {
    var two := [ItemCellControllerSpy(1, 1, None, None), ItemCellControllerSpy(2, 2, None, None)];
    UnitSectionsOwnerIsIndex(two, 0);
    UnitSectionsOwnerIsIndex(two, 1);
    var one := [ItemCellControllerSpy(1, 7, Some(8), Some(9))];
    UnitSectionsOwnerIsIndex(one, 0);
  }

  /** The defaults are no separator line and no header padding whatever the table
      view had; a host configuration runs after them and wins. */
  lemma HostConfigurationOverridesDefaults(before: ListViewSettings)
    ensures SettingsAfterLoad(before, None) == ListViewSettings(NoSeparator, Points(0))
    ensures SettingsAfterLoad(before, Some(SeparatorAndPaddingConfiguration)) == ListViewSettings(SingleLine, Points(20))
  {
  }
}
