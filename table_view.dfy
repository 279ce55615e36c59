/** The rendering surface as the controllers see it: opaque view and cell tokens,
    index paths, the two table-view settings the list controllers touch, and the
    outcome of a query that may hit a fatal error. */
module TableView {

  datatype Option<+T> = None | Some(value: T)

  /** An opaque `UIView` (a header or footer view). */
  type View = nat

  /** A `UITableViewCell`: either one a controller was built with (identified by a
      token), or a freshly created blank `UITableViewCell()`. */
  datatype Cell = HostCell(token: nat) | FreshCell

  /** A table-view index path. For a table view `item` and `row` are the same number. */
  datatype IndexPath = IndexPath(section: nat, row: nat)

  /** Why a query stopped the process: `fatalError` in a section lookup, or a Swift
      array subscript out of range. */
  datatype Fault =
    | NoCellController(section: nat)
    | IndexOutOfRange(index: nat, count: nat)

  /** The answer to a table-view query: a value, or the crash that the query causes. */
  datatype Result<+T> = Ok(value: T) | Crash(fault: Fault)

  datatype SeparatorStyle = SingleLine | NoSeparator

  /** `sectionHeaderTopPadding`: UIKit's automatic dimension, or a fixed number of points. */
  datatype HeaderTopPadding = Automatic | Points(points: nat)

  /** The two table-view properties the list controllers configure. */
  datatype ListViewSettings = ListViewSettings(separatorStyle: SeparatorStyle, sectionHeaderTopPadding: HeaderTopPadding)

  /** What a freshly created `UITableView` starts with. */
  const UIKitDefaults := ListViewSettings(SingleLine, Automatic)

  /** The list controllers' own defaults: no separator line, no extra padding above
      section headers. Both properties are set, so the previous value does not matter. */
  function WithListDefaults(settings: ListViewSettings): (r: ListViewSettings)
    ensures r.separatorStyle == NoSeparator && r.sectionHeaderTopPadding == Points(0)
  {
    settings.(separatorStyle := NoSeparator, sectionHeaderTopPadding := Points(0))
  }

  /** One observable step of `viewDidLoad`. */
  datatype LifecycleStep = RequestedLoad | AppliedDefaults | ConfiguredByHost

  /** How many times `step` occurs in `steps`. */
  function Occurrences(steps: seq<LifecycleStep>, step: LifecycleStep): nat
  {
    if steps == [] then 0
    else (if steps[0] == step then 1 else 0) + Occurrences(steps[1..], step)
  }

  lemma {:induction false} OccurrencesConcat(a: seq<LifecycleStep>, b: seq<LifecycleStep>, step: LifecycleStep)
    ensures Occurrences(a + b, step) == Occurrences(a, step) + Occurrences(b, step)
  {
    if a == [] {
      assert a + b == b;
    } else {
      assert (a + b)[1..] == a[1..] + b;
      OccurrencesConcat(a[1..], b, step);
    }
  }
}
