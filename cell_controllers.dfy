/** The `CellController` protocol (`UITableViewDataSource & UITableViewDelegate`) and
    its dynamic dispatch over every controller kind of the list system.

    A controller is a closed variant: the host's own controllers (`Custom`, opaque to
    the list system) and the composites written in the repository. Composites hold
    their children by value and never change them after `init`, so a datatype is the
    whole of their state. All query functions live in this one module because a
    composite answers by asking its children, whatever kind they are. */
module CellControllers {
  import opened TableView

  /** The two optional delegate callbacks a row can receive. */
  datatype RowEvent = Selected | Deselected

  /** A delegate call that reached a host controller: whose method ran, which
      callback it was, and the index path it was given. */
  datatype Receipt = Receipt(controller: nat, event: RowEvent, at: IndexPath)

  datatype CellController =
      /** A controller written by the host (or a test double). `sections` is the
          optional `numberOfSections(in:)`; `rows` and `cell` are the required data
          source methods, as functions of the arguments they are called with;
          `header`/`footer` are the optional view methods; `reactsTo` lists the
          optional selection callbacks it implements. */
    | Custom(id: nat, sections: Option<nat>, rows: nat -> nat, cell: IndexPath -> Cell,
             header: Option<nat -> Option<View>>, footer: Option<nat -> Option<View>>,
             reactsTo: set<RowEvent>)
      /** SharediOS `SectionCellController`: one section, one row per child. */
    | SectionCellController(cellControllers: seq<CellController>, headerView: Option<View>, footerView: Option<View>)
      /** The earlier `SectionCellController` written inside the single-section tests:
          it stores a header and footer but implements no method that returns them. */
    | PrototypeSectionCellController(cellControllers: seq<CellController>, headerView: Option<View>, footerView: Option<View>)
      /** SharediOS `MultiSelectionCellController`. */
    | MultiSelectionCellController(cellControllers: seq<CellController>)
      /** The `SingleSelectionCellController` written inside its test file. */
    | SingleSelectionCellController(cellControllers: seq<CellController>)

  // ---------------------------------------------------------------------------
  // Section counts

  /** Sections a controller occupies: its `numberOfSections(in:)`, or 1 when it does
      not implement that optional method. Composites sum their children. */
  function SectionCount(c: CellController): nat
  {
    match c
    case Custom(_, sections, _, _, _, _, _) => if sections.Some? then sections.value else 1
    case SectionCellController(_, _, _) => 1
    case PrototypeSectionCellController(_, _, _) => 1
    case MultiSelectionCellController(cs) => TotalSections(cs)
    case SingleSelectionCellController(cs) => TotalSections(cs)
  }

  /** The optional protocol method itself: `None` when the controller does not
      implement `numberOfSections(in:)`. */
  function NumberOfSections(c: CellController): (r: Option<nat>)
    ensures SectionCount(c) == if r.Some? then r.value else 1
    ensures r.None? <==> c.Custom? && c.sections.None?
  {
    if c.Custom? then c.sections else Some(SectionCount(c))
  }

  /** Sections occupied by the first `n` controllers of `cs` (the running total of the
      `reduce(0)` fold). */
  function Prefix(cs: seq<CellController>, n: nat): nat
    requires n <= |cs|
  {
    if n == 0 then 0 else Prefix(cs, n - 1) + SectionCount(cs[n - 1])
  }

  /** Sections occupied by the whole list. */
  function TotalSections(cs: seq<CellController>): nat
  {
    Prefix(cs, |cs|)
  }

  lemma {:induction false} PrefixMonotone(cs: seq<CellController>, i: nat, j: nat)
    requires i <= j <= |cs|
    ensures Prefix(cs, i) <= Prefix(cs, j)
  {
    if i < j {
      PrefixMonotone(cs, i, j - 1);
    }
  }

  // ---------------------------------------------------------------------------
  // Owner resolution: the prefix-sum scan with early return

  /** The scan from position `k` on, with `Prefix(cs, k)` sections already passed. */
  function OwnerFrom(cs: seq<CellController>, s: nat, k: nat): (r: Option<nat>)
    requires k <= |cs| && Prefix(cs, k) <= s
    ensures r.Some? ==> k <= r.value < |cs| && Prefix(cs, r.value) <= s < Prefix(cs, r.value + 1)
    ensures r.Some? ==> forall j :: k < j <= r.value ==> Prefix(cs, j) <= s
    ensures r.None? <==> TotalSections(cs) <= s
    decreases |cs| - k
  {
    if k == |cs| then None
    else if s < Prefix(cs, k + 1) then PrefixMonotone(cs, k + 1, |cs|); Some(k)
    else OwnerFrom(cs, s, k + 1)
  }

  /** The position of the controller that owns absolute section `s`: the first one
      whose running section total exceeds `s`; `None` when no controller does. */
  function Owner(cs: seq<CellController>, s: nat): (r: Option<nat>)
    ensures r.Some? ==> r.value < |cs| && Prefix(cs, r.value) <= s < Prefix(cs, r.value + 1)
    ensures r.Some? ==> SectionCount(cs[r.value]) > 0
    ensures r.Some? ==> forall j :: 0 < j <= r.value ==> Prefix(cs, j) <= s
    ensures r.None? <==> TotalSections(cs) <= s
  {
    OwnerFrom(cs, s, 0)
  }

  /** The range characterisation: the owner of `s` is the one controller whose block
      of sections `[Prefix(i), Prefix(i + 1))` contains `s`. */
  lemma {:induction false} OwnerIsContainingBlock(cs: seq<CellController>, s: nat, i: nat)
    requires i < |cs| && Prefix(cs, i) <= s < Prefix(cs, i + 1)
    ensures Owner(cs, s) == Some(i)
  {
    var r := Owner(cs, s);
    if r.None? {
      PrefixMonotone(cs, i + 1, |cs|);
    } else if r.value < i {
      PrefixMonotone(cs, r.value + 1, i);
    }
  }

  /** A list occupies no sections exactly when each of its controllers occupies none. */
  lemma {:induction false} NoSectionsIffAllEmpty(cs: seq<CellController>, n: nat)
    requires n <= |cs|
    ensures Prefix(cs, n) == 0 <==> forall i :: 0 <= i < n ==> SectionCount(cs[i]) == 0
  {
    if n > 0 {
      NoSectionsIffAllEmpty(cs, n - 1);
    }
  }

  /** When every controller occupies exactly one section, section `s` belongs to
      controller `s`: the running totals are 1, 2, 3, ... */
  lemma {:induction false} UnitSectionsOwnerIsIndex(cs: seq<CellController>, s: nat)
    requires forall i :: 0 <= i < |cs| ==> SectionCount(cs[i]) == 1
    ensures TotalSections(cs) == |cs|
    ensures Owner(cs, s) == if s < |cs| then Some(s) else None
  {
    forall n | 0 <= n <= |cs|
      ensures Prefix(cs, n) == n
    {
      UnitPrefix(cs, n);
    }
    if s < |cs| {
      OwnerIsContainingBlock(cs, s, s);
    }
  }

  lemma {:induction false} UnitPrefix(cs: seq<CellController>, n: nat)
    requires n <= |cs|
    requires forall i :: 0 <= i < |cs| ==> SectionCount(cs[i]) == 1
    ensures Prefix(cs, n) == n
  {
    if n > 0 {
      UnitPrefix(cs, n - 1);
    }
  }

  /** The owner as the Swift code returns it: the controller, or the `fatalError`. */
  function Resolve(cs: seq<CellController>, s: nat): (r: Result<CellController>)
    ensures r.Crash? <==> TotalSections(cs) <= s
    ensures r.Crash? ==> r.fault == NoCellController(s)
  {
    match Owner(cs, s)
    case Some(i) => Ok(cs[i])
    case None => Crash(NoCellController(s))
  }

  // ---------------------------------------------------------------------------
  // Data source and delegate dispatch

  /** `tableView(_:numberOfRowsInSection:)`. */
  function NumberOfRows(c: CellController, s: nat): Result<nat>
  {
    match c
    case Custom(_, _, rows, _, _, _, _) => Ok(rows(s))
    case SectionCellController(cs, _, _) => Ok(|cs|)
    case PrototypeSectionCellController(cs, _, _) => Ok(|cs|)
    case MultiSelectionCellController(cs) => ResolvedRows(cs, s)
    case SingleSelectionCellController(cs) => ResolvedRows(cs, s)
  }

  /** Resolve the owner of `s` in `cs` and ask it, passing `s` on unchanged. */
  function ResolvedRows(cs: seq<CellController>, s: nat): Result<nat>
  {
    match Owner(cs, s)
    case None => Crash(NoCellController(s))
    case Some(i) => NumberOfRows(cs[i], s)
  }

  /** `tableView(_:cellForRowAt:)`. */
  function CellForRow(c: CellController, ip: IndexPath): Result<Cell>
  {
    match c
    case Custom(_, _, _, cell, _, _, _) => Ok(cell(ip))
    case SectionCellController(cs, _, _) => ChildCell(cs, ip)
    case PrototypeSectionCellController(cs, _, _) => ChildCell(cs, ip)
    case MultiSelectionCellController(cs) => ResolvedCell(cs, ip)
    case SingleSelectionCellController(_) => Ok(FreshCell)
  }

  /** `cellControllers[indexPath.item]` asked for its cell with the same index path. */
  function ChildCell(cs: seq<CellController>, ip: IndexPath): Result<Cell>
  {
    if ip.row < |cs| then CellForRow(cs[ip.row], ip) else Crash(IndexOutOfRange(ip.row, |cs|))
  }

  /** Resolve the owner of `ip.section` in `cs` and ask it, passing `ip` on unchanged. */
  function ResolvedCell(cs: seq<CellController>, ip: IndexPath): Result<Cell>
  {
    match Owner(cs, ip.section)
    case None => Crash(NoCellController(ip.section))
    case Some(i) => CellForRow(cs[i], ip)
  }

  /** `tableView(_:viewForHeaderInSection:)`; a controller without the optional method
      gives nil. */
  function ViewForHeader(c: CellController, s: nat): Result<Option<View>>
  {
    match c
    case Custom(_, _, _, _, header, _, _) => Ok(if header.Some? then header.value(s) else None)
    case SectionCellController(_, headerView, _) => Ok(headerView)
    case PrototypeSectionCellController(_, _, _) => Ok(None)
    case MultiSelectionCellController(cs) => ResolvedHeader(cs, s)
    case SingleSelectionCellController(_) => Ok(None)
  }

  function ResolvedHeader(cs: seq<CellController>, s: nat): Result<Option<View>>
  {
    match Owner(cs, s)
    case None => Crash(NoCellController(s))
    case Some(i) => ViewForHeader(cs[i], s)
  }

  /** `tableView(_:viewForFooterInSection:)`; of the composites only the production
      `SectionCellController` implements it. */
  function ViewForFooter(c: CellController, s: nat): Result<Option<View>>
  {
    match c
    case Custom(_, _, _, _, _, footer, _) => Ok(if footer.Some? then footer.value(s) else None)
    case SectionCellController(_, _, footerView) => Ok(footerView)
    case PrototypeSectionCellController(_, _, _) => Ok(None)
    case MultiSelectionCellController(_) => Ok(None)
    case SingleSelectionCellController(_) => Ok(None)
  }

  function ResolvedFooter(cs: seq<CellController>, s: nat): Result<Option<View>>
  {
    match Owner(cs, s)
    case None => Crash(NoCellController(s))
    case Some(i) => ViewForFooter(cs[i], s)
  }

  /** `tableView(_:didSelectRowAt:)` / `tableView(_:didDeselectRowAt:)`: which host
      controller's callback runs, if any. At most one runs per event, and it receives
      the index path exactly as the table view sent it. */
  function Deliver(c: CellController, e: RowEvent, ip: IndexPath): (r: Result<Option<Receipt>>)
    ensures r.Ok? && r.value.Some? ==> r.value.value.at == ip && r.value.value.event == e
  {
    match c
    case Custom(id, _, _, _, _, _, reactsTo) => Ok(if e in reactsTo then Some(Receipt(id, e, ip)) else None)
    case SectionCellController(cs, _, _) => DeliverToChild(cs, e, ip)
    case PrototypeSectionCellController(cs, _, _) => DeliverToChild(cs, e, ip)
    case MultiSelectionCellController(_) => Ok(None)
    case SingleSelectionCellController(_) => Ok(None)
  }

  /** `cellControllers[indexPath.item].tableView?(…)`. */
  function DeliverToChild(cs: seq<CellController>, e: RowEvent, ip: IndexPath): (r: Result<Option<Receipt>>)
    ensures r.Ok? && r.value.Some? ==> r.value.value.at == ip && r.value.value.event == e
    ensures ip.row < |cs| ==> r == Deliver(cs[ip.row], e, ip)
    ensures ip.row >= |cs| ==> r == Crash(IndexOutOfRange(ip.row, |cs|))
  {
    if ip.row < |cs| then Deliver(cs[ip.row], e, ip) else Crash(IndexOutOfRange(ip.row, |cs|))
  }
}
