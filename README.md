# Cell-controller list views, modelled in Dafny

This project models how the iOS list screens of the repository find the controller
that serves each table-view section. It covers two list controllers:

- the SharediOS `ListViewController`, which shows an ordered list of cell controllers;
- the earlier ListiOS `ListViewController`, which shows a list of `SectionController`
  records.

It also covers the composite cell controllers that the SharediOS list can hold:

- `SectionCellController`;
- `MultiSelectionCellController`;
- the `SingleSelectionCellController` written inline in its test file;
- the prototype `SectionCellController` written inline in its test file.

A cell controller is a table-view data source and delegate. It may say how many
sections it occupies; if it does not, it occupies one. A list lays its controllers'
sections end to end. Section `s` belongs to the first controller whose running section
total exceeds `s`. The SharediOS list memoises that lookup per section until the list is
replaced. `MultiSelectionCellController` and `SingleSelectionCellController` run the same
scan over their own children. The two `SectionCellController`s occupy one section and
index their children by item.

Modules:

- `TableView` holds the surface the controllers see: opaque cell and view tokens, index
  paths, the two table-view settings the lists configure, and `Result`. A `Result` is
  either a value or the crash a query causes: a `fatalError` in a lookup, or an array
  subscript out of range.
- `CellControllers` holds one datatype for every kind of controller. Host controllers
  are `Custom`, with their optional protocol methods as optional fields. The module also
  holds the running-total scan (`Prefix`, `Owner`, `Resolve`) and the protocol dispatch.
  Every dispatch function is here because the composites recurse into their children.
- `SectionCells`, `PrototypeSections`, `MultiSelection` and `SingleSelection` hold the
  properties of each composite. The last two also hold the lookup loop as a method proved
  against the scan.
- `ListView` holds the SharediOS list as a class: the list, the memo, reload requests,
  the settings and the `viewDidLoad` steps. Its lookup method is proved to keep every
  memoised entry equal to a fresh scan.
- `LegacyListView` holds the ListiOS list, with its two-level indexing, and proves that
  it agrees with the SharediOS composites on the same data.
- `TestDoubles` holds the host controllers that the tests build, as `Custom` values.

The code forwards the absolute section and index path to the owning controller. It does
not translate them into the owner's own numbering. The model does the same. Lemmas show
what follows:

- A composite at position `i` occupies the block of `n` sections starting at
  `P = Prefix(model, i)`, and it scans its children with the absolute section. When its
  children answer directly, section `s` of the block is served exactly when `s < n`. It
  is served by the child that owns `s` in the composite's own numbering, with `s`
  unchanged, so often by a child other than the one meant for it. The other `min(P, n)`
  sections of the block hit the `fatalError`
  (`CompositeOwnerServesOnlyBelowItsOwnCount`, `CompositeNotFirstMisroutesThenCrashes`,
  `IntegrationListCrashesOnLastSection`).
- Selection in the SharediOS list indexes the list by section number rather than using
  the scan. When every controller occupies one section, it reaches the owning controller
  (`SelectionReachesOwnerWhenSectionsAreSingle`). With multi-section controllers it can
  reach another controller or trap (`SelectionBypassesOwnerScenario`).

## Model

| member | source | states |
|---|---|---|
| CellControllers.NumberOfSections | SharediOS/Controllers/ListViewController.swift:33 | a controller's section count is what it reports; it reports nothing, and so counts the default 1, exactly when it is a host controller without `numberOfSections(in:)` |
| CellControllers.PrefixMonotone | SharediOS/Controllers/ListViewController.swift:73-75 | the running section total never decreases along the list |
| CellControllers.OwnerFrom | SharediOS/Controllers/ListViewController.swift:73-82 | the scan resumed at position k returns a controller whose block of sections contains s, past every earlier total, and returns nothing exactly when s is at or past the list's total |
| CellControllers.Owner | SharediOS/Controllers/MultiSelectionCellController.swift:37-47 | the owner of s is the first controller whose running total exceeds s; the totals before it are at most s; it never occupies 0 sections; there is none exactly when s is at or past the total |
| CellControllers.OwnerIsContainingBlock | SharediOS/Controllers/MultiSelectionCellController.swift:37-47 | any controller whose block of sections contains s is the owner the scan returns, so the owner is unique |
| CellControllers.NoSectionsIffAllEmpty | SharediOS/Controllers/ListViewController.swift:31-35 | the running total up to n is 0 exactly when each of the first n controllers occupies 0 sections |
| CellControllers.UnitSectionsOwnerIsIndex | SharediOS/Controllers/ListViewController.swift:70-83 | when every controller occupies one section, the total is the list's length and section s belongs to controller s |
| CellControllers.Resolve | SharediOS/Controllers/ListViewController.swift:82 | the lookup crashes with the section's `fatalError` exactly when the section is at or past the total |
| CellControllers.Deliver | SharediOS/Controllers/SectionCellController.swift:31-37 | at most one host callback runs per event, and it gets the event and the index path as sent |
| CellControllers.DeliverToChild | SharediOS/Controllers/SectionCellController.swift:31-37 | an in-range event is exactly what child `item` does with it, with the index path unchanged; an item past the children traps on the subscript |
| TableView.WithListDefaults | SharediOS/Controllers/ListViewController.swift:65-68 | the lists' defaults leave no separator line and 0 points of header padding, whatever was set before |
| TableView.OccurrencesConcat | SharediOS/Controllers/ListViewController.swift:23-29 | steps counted over two concatenated logs add up, which is what the once-only hook counts rest on |
| SectionCells.OccupiesOneSection | SharediOS/Controllers/SectionCellController.swift:23 | a section cell controller reports exactly one section |
| SectionCells.RowCountIsChildCount | SharediOS/Controllers/SectionCellController.swift:25 | its row count is the number of children, for any section asked |
| SectionCells.CellIsItemChildCell | SharediOS/Controllers/SectionCellController.swift:27-29 | the cell at item i is child i's cell for the same index path; an item past the children traps |
| SectionCells.EventReachesItemChildOnly | SharediOS/Controllers/SectionCellController.swift:31-37 | selection and deselection are what child `item` does with them: replacing any other child changes nothing, and a host child receives the event itself |
| SectionCells.HeaderAndFooterAreFixed | SharediOS/Controllers/SectionCellController.swift:39-41 | header and footer are the views given at `init` for every section, nil staying nil |
| SectionCells.TwoItemsScenario | SharediOSTests/SectionCellControllerTests.swift:62-113 | the tests' two-item section: 2 rows, the items' cells in order, and select and deselect of row 0 reaching item 1 only |
| PrototypeSections.OccupiesOneSection | SharediOSTests/SingleSectionCellControllerTests.swift:22 | the prototype reports exactly one section |
| PrototypeSections.RowCountIsChildCount | SharediOSTests/SingleSectionCellControllerTests.swift:24-26 | its row count is the number of children, even for section 1 |
| PrototypeSections.CellIsItemChildCell | SharediOSTests/SingleSectionCellControllerTests.swift:28-30 | the cell at item i is child i's cell; an item past the children traps |
| PrototypeSections.EventReachesItemChildOnly | SharediOSTests/SingleSectionCellControllerTests.swift:32-38 | selection and deselection reach child `item` only |
| PrototypeSections.StoredViewsAreNotServed | SharediOSTests/SingleSectionCellControllerTests.swift:13-20 | header and footer are stored as given, but no header or footer is served to the table view |
| PrototypeSections.SelectionScenario | SharediOSTests/SingleSectionCellControllerTests.swift:92-132 | the tests' scenarios: select and deselect at item 0 reach the only child once each; two children give 2 rows and child 2's cell at row 1 |
| MultiSelection.CellControllerFor | SharediOS/Controllers/MultiSelectionCellController.swift:37-47 | the loop with early return gives the scan's owner, and crashes exactly when the section is at or past the children's total |
| MultiSelection.LookupTwice | SharediOS/Controllers/MultiSelectionCellController.swift:37-47 | two lookups of the same section find the same child |
| MultiSelection.SectionCountIsChildSum | SharediOS/Controllers/MultiSelectionCellController.swift:21-23 | the group's section count is the sum of its children's; an empty group has none |
| MultiSelection.QueriesReachOwnerUntranslated | SharediOS/Controllers/MultiSelectionCellController.swift:25-35 | row, cell and header queries reach the owning child with the section unchanged; past the total they crash with the `fatalError` |
| MultiSelection.UnimplementedCallbacksReachNoChild | SharediOS/Controllers/MultiSelectionCellController.swift:20-48 | footer, select and deselect reach no child |
| MultiSelection.SkipsEmptyChildScenario | SharediOS/Controllers/MultiSelectionCellController.swift:37-47 | children of 2, 0 and 3 sections: 5 sections, the empty child is never an owner, section 5 has no owner |
| SingleSelection.CellControllerFor | SharediOSTests/ListViewController/SingleSelectionCellControllerTests.swift:32-42 | the loop gives the scan's owner, and crashes exactly when the section is at or past the total |
| SingleSelection.RowsReachOwnerUntranslated | SharediOSTests/ListViewController/SingleSelectionCellControllerTests.swift:24-26 | rows are asked of the owning child with the section unchanged; past the total they crash |
| SingleSelection.CellIsAlwaysFresh | SharediOSTests/ListViewController/SingleSelectionCellControllerTests.swift:19-31 | every cell is a new blank cell, without consulting a child and without trapping; no header, footer or selection is implemented |
| SingleSelection.TwoThreeScenario | SharediOSTests/ListViewController/SingleSelectionCellControllerTests.swift:65-85 | children of 2×2 and 3×3 give 5 sections with 2, 2, 3, 3, 3 rows |
| ListView.LoadSteps | SharediOS/Controllers/ListViewController.swift:23-29 | `viewDidLoad` runs each set hook exactly once and the defaults once; the load request comes first and the host's configuration last |
| ListView.DeliverAt | SharediOS/Controllers/ListViewController.swift:45-51 | an in-range event is exactly what `model[section]` does with it, not the scan's owner; a section past the list traps; a callback that runs gets the event and the index path as sent |
| ListView.ListViewController.constructor | SharediOS/Controllers/ListViewController.swift:10-21 | a new list is empty, with nothing memoised, no reload, UIKit's settings and no hooks |
| ListView.ListViewController.ViewDidLoad | SharediOS/Controllers/ListViewController.swift:23-29 | the step log grows by the load steps, and the settings become the defaults with the host's configuration applied after them |
| ListView.ListViewController.Configure | SharediOS/Controllers/ListViewController.swift:65-68 | the separator is off and the header padding is 0 |
| ListView.ListViewController.Display | SharediOS/Controllers/ListViewController.swift:13-18 | the list is replaced as a whole, the memo is emptied and one reload is requested |
| ListView.ListViewController.NumberOfSections | SharediOS/Controllers/ListViewController.swift:31-35 | the list has no sections exactly when every controller occupies none, in particular when it is empty |
| ListView.ListViewController.CellControllerFor | SharediOS/Controllers/ListViewController.swift:70-83 | the answer is what a fresh scan gives, warm or cold; a hit leaves the memo alone, a miss memoises the owner, and a crash memoises nothing |
| ListView.ListViewController.NumberOfRowsInSection | SharediOS/Controllers/ListViewController.swift:37-39 | the owner's row count for the same section, memo or no memo; the memo changes as in `CellControllerFor`: a hit leaves it alone, an owner found is memoised, a crash memoises nothing |
| ListView.ListViewController.CellForRowAt | SharediOS/Controllers/ListViewController.swift:41-43 | the owner's cell for the same index path; the memo changes as in `CellControllerFor`: a hit leaves it alone, an owner found is memoised, a crash memoises nothing |
| ListView.ListViewController.ViewForHeaderInSection | SharediOS/Controllers/ListViewController.swift:53-55 | the owner's header for the same section; the memo changes as in `CellControllerFor`: a hit leaves it alone, an owner found is memoised, a crash memoises nothing |
| ListView.ListViewController.ViewForFooterInSection | SharediOS/Controllers/ListViewController.swift:57-59 | the owner's footer for the same section; the memo changes as in `CellControllerFor`: a hit leaves it alone, an owner found is memoised, a crash memoises nothing |
| ListView.ListViewController.DidSelectRowAt | SharediOS/Controllers/ListViewController.swift:45-47 | selection is what `tableModel[section]` does with it, and a section past the list traps |
| ListView.ListViewController.DidDeselectRowAt | SharediOS/Controllers/ListViewController.swift:49-51 | deselection is what `tableModel[section]` does with it, and a section past the list traps |
| ListView.FlatListServesExactlyItsSections | SharediOS/Controllers/ListViewController.swift:37-39 | with no composite that scans again, a row query succeeds exactly below the total |
| ListView.CompositeOwnerServesOnlyBelowItsOwnCount | SharediOS/Controllers/MultiSelectionCellController.swift:25-27 | a composite owner receives the absolute section, so it serves it only when that section is below its own count |
| ListView.CompositeNotFirstMisroutesThenCrashes | SharediOS/Controllers/MultiSelectionCellController.swift:25-47 | in the example, a one-section item followed by a composite of two one-section children: section 1 gets the composite's second child's rows, and section 2 crashes in the composite's lookup |
| ListView.IntegrationListCrashesOnLastSection | SharediOSTests/ListViewController/ListViewControllerIntegrationTests.swift:12-25 | the integration list has 4 sections, but the row query for section 3 crashes in the second composite's lookup |
| ListView.SelectionReachesOwnerWhenSectionsAreSingle | SharediOS/Controllers/ListViewController.swift:45-51 | when every controller occupies one section, selection reaches the section's owner |
| ListView.SelectionBypassesOwnerScenario | SharediOS/Controllers/ListViewController.swift:45-51 | with multi-section controllers, selection can reach a controller other than the owner, or trap where rows exist |
| ListView.RowsWarmOrCold | SharediOS/Controllers/ListViewController.swift:70-83 | a row query gives the same answer with an empty memo and with the owner memoised, and the first query memoises the section exactly when it has an owner |
| ListView.DisplayTwice | SharediOSTests/ListViewController/ListViewControllerWithItemCellControllerTests.swift:23-35 | after two displays only the second list is visible, even after the first's owners were memoised, and two reloads were requested |
| ListView.ItemSpyScenarios | SharediOSTests/ListViewController/ListViewControllerWithItemCellControllerTests.swift:12-75 | the item-spy tests: section and row counts, the spy's cell, header and footer, and one select and one deselect reaching the spy |
| ListView.HostConfigurationOverridesDefaults | SharediOSTests/ListViewController/ListViewControllerTests.swift:34-51 | without a host configuration the list has no separator and 0 padding; the tests' configuration leaves a separator and 20 points |
| LegacyListView.RowCount | ListiOS/ListViewController.swift:54-56 | a section's row count is its number of controllers, and a section past the list traps |
| LegacyListView.CellAt | ListiOS/ListViewController.swift:58-63 | the cell is that of `controllers[row]` of the section, and either subscript may trap, the section first |
| LegacyListView.EventAt | ListiOS/ListViewController.swift:65-75 | select and deselect reach that row's controller only, with the index path as sent, and trap out of range |
| LegacyListView.HeaderAt | ListiOS/ListViewController.swift:77-79 | the header is the header controller's view, nil when the section has none, and a section past the list traps |
| LegacyListView.LoadSteps | ListiOS/ListViewController.swift:41-48 | each set hook runs once, the host's configuration before the defaults, which come last |
| LegacyListView.SettingsAfterLoad | ListiOS/ListViewController.swift:41-48 | after `viewDidLoad` there is no separator and 0 padding, whatever the host configured |
| LegacyListView.ListViewController.constructor | ListiOS/ListViewController.swift:30-39 | a new list is empty, with no reload, UIKit's settings and no hooks |
| LegacyListView.ListViewController.ViewDidLoad | ListiOS/ListViewController.swift:41-48 | the step log grows by the load steps, and the settings become the defaults applied over the host's configuration |
| LegacyListView.ListViewController.UpdateTableModel | ListiOS/ListViewController.swift:32-36 | the list is replaced as a whole and one reload is requested |
| LegacyListView.ListViewController.NumberOfSections | ListiOS/ListViewController.swift:50-52 | one section per record, which is also the section total of the same records as section cell controllers |
| LegacyListView.ListViewController.NumberOfRowsInSection | ListiOS/ListViewController.swift:54-56 | the row count succeeds exactly below the number of sections |
| LegacyListView.ListViewController.CellForRowAt | ListiOS/ListViewController.swift:58-63 | the cell of the row's controller |
| LegacyListView.ListViewController.DidSelectRowAt | ListiOS/ListViewController.swift:65-69 | selection reaches the row's controller |
| LegacyListView.ListViewController.DidDeselectRowAt | ListiOS/ListViewController.swift:71-75 | deselection reaches the row's controller |
| LegacyListView.ListViewController.ViewForHeaderInSection | ListiOS/ListViewController.swift:77-79 | the section's header view |
| LegacyListView.AsSectionCellController | ListiOS/ListViewController.swift:12-28 | a record becomes a section cell controller with the same children, exactly its header controller's view (none without one) and no footer |
| LegacyListView.Migrated | ListiOS/ListViewController.swift:32 | the whole list, record by record, in order |
| LegacyListView.MigratedSectionsAreSingle | ListiOS/ListViewController.swift:50-52 | the migrated list has one section per record, and section s belongs to record s |
| LegacyListView.MigrationPreservesAnswers | ListiOS/ListViewController.swift:50-79 | on the same records, the two lists agree on sections, rows, cells, headers and selection; only the fault for a section past the list differs |
| LegacyListView.HookOrderIsReversed | ListiOS/ListViewController.swift:41-48 | with the tests' configuration, the SharediOS list keeps the host's settings and the ListiOS list overwrites them with its defaults; both load first, but the defaults and the host's configuration come in swapped order |
| LegacyListView.TwoSectionScenario | ListiOS/ListViewController.swift:54-79 | two records: row counts, the header of the first and none for the second, selection in the second, and a trap past its rows |

## Left out

- Rendering, `reloadData()` and the identity of `UITableViewCell` and `UIView` objects are
  not modelled. A reload is a counter, and cells and views are numeric tokens.
- Host controllers are not code here. Their answers are functions of the section or
  index path, and the side effects of their callbacks are reduced to which controller
  received which event.
- Negative sections and rows are left out: indices are natural numbers.
- Counts reported by host controllers are natural numbers, so a negative
  `numberOfSections` or row count is not modelled.
- Swift `Int` overflow traps in the `reduce` sums and in `sectionCount +=` are not
  modelled: counts are unbounded.
- Host section counts are fixed values here. The memo agrees with a fresh scan only on
  that basis. A Swift host whose `numberOfSections` changed between `display` calls would
  leave the memo stale, and that is not modelled.
- `sectionHeaderTopPadding` is a `CGFloat` in the source. Here it is UIKit's automatic
  value or a whole number of points.
- UIKit calls `viewDidLoad` once per controller. The model does not enforce this: calling
  `ViewDidLoad` twice appends the steps twice.
- The hook closures `onRequestToLoad` and `onViewDidLoad` are reduced to whether they are
  set. Their effect is the step they log.
- The composites' stored children, header and footer are fields of immutable values. That
  they never change after `init` holds by construction and is not stated as a lemma.
- The ListiOS controller has no footer method, so none is modelled for it.
- `MultiSelectionCellController` is marked unfinished in the source. Only what it
  implements is modelled; it has no multi-selection state.
- `NavigationController`, the table-view dequeue helper and the memory-leak test helper
  are not part of this model.
- The separate `SectionController` files of SharediOS have no behaviour. Only the ListiOS
  record, which the legacy list uses, is modelled.
