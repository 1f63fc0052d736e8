/** The error bars of the two bar plots. Each trace with error bars is built the same way:
    its interval column is parsed into a pair of fresh lists, the frame is sorted by the
    trace's parameter, largest first, and the trace is built from the sorted frame with
    the lists as its error arrays. */
module ErrorBars {
  import opened Wrappers
  import opened ExtReals
  import opened PlotText

  // ---------------------------------------------------------------- which lists a trace plots

  /** One `parse_ci` walk: the trace it serves, the interval column it reads, the name of
      the list pair it appends to (`e1` for `e1L`/`e1U`) and the pair the trace plots. */
  datatype CiStep = CiStep(trace: string, ciColumn: string, filled: string, plotted: string)

  /** The columns whose intervals have been appended to the pair `name` once the first `n`
      walks have run, in the order they ran. */
  function FedInto(steps: seq<CiStep>, n: nat, name: string): (r: seq<string>)
    requires n <= |steps|
    ensures |r| <= n
  {
    if n == 0 then []
    else
      var r := FedInto(steps, n - 1, name);
      if steps[n - 1].filled == name then r + [steps[n - 1].ciColumn] else r
  }

  /** The columns behind the error bars of walk `k`'s trace. The trace copies the lists
      when it is built, right after walk `k`, so later walks do not reach it. */
  function FeedsTrace(steps: seq<CiStep>, k: nat): seq<string>
    requires k < |steps|
  {
    FedInto(steps, k + 1, steps[k].plotted)
  }

  /** Every walk fills the pair its trace plots, and no two walks fill the same pair. */
  predicate OwnLists(steps: seq<CiStep>)
  {
    (forall k :: 0 <= k < |steps| ==> steps[k].filled == steps[k].plotted) &&
    (forall j, k :: 0 <= j < k < |steps| ==> steps[j].filled != steps[k].filled)
  }

  /** A pair no walk fills stays empty. */
  lemma {:induction false} FedIntoUnfilled(steps: seq<CiStep>, n: nat, name: string)
    requires n <= |steps|
    requires forall j :: 0 <= j < n ==> steps[j].filled != name
    ensures FedInto(steps, n, name) == []
  {
    if n > 0 {
      FedIntoUnfilled(steps, n - 1, name);
    }
  }

  /** With lists of their own, each trace's error bars come from its own column alone. */
  lemma OwnListsFeedOwnColumn(steps: seq<CiStep>, k: nat)
    requires OwnLists(steps) && k < |steps|
    ensures FeedsTrace(steps, k) == [steps[k].ciColumn]
  {
    FedIntoUnfilled(steps, k, steps[k].filled);
  }

  /** The cells of each interval column, in the order the frame has when it is read. */
  type Table = string -> seq<string>

  /** The cells of several columns, one column after the other. */
  function Cells(columns: seq<string>, table: Table): (r: seq<string>)
    ensures columns == [] ==> r == []
  {
    if |columns| == 0 then [] else table(columns[0]) + Cells(columns[1..], table)
  }

  /** The error arrays of walk `k`'s trace: the lists it plots, as parsed. */
  function ErrorLists(steps: seq<CiStep>, k: nat, table: Table, readFloat: FloatReader): Parsed
    requires k < |steps|
  {
    ParseAll(Bounds([], []), Cells(FeedsTrace(steps, k), table), readFloat)
  }

  /** With lists of their own, a trace's error arrays are its own interval column parsed. */
  lemma OwnListsPlotOwnColumn(steps: seq<CiStep>, k: nat, table: Table, readFloat: FloatReader)
    requires OwnLists(steps) && k < |steps|
    ensures ErrorLists(steps, k, table, readFloat) ==
      ParseAll(Bounds([], []), table(steps[k].ciColumn), readFloat)
  {
    OwnListsFeedOwnColumn(steps, k);
    var c := steps[k].ciColumn;
    assert [c][1..] == [];
    assert Cells([c], table) == table(c) + Cells([], table);
    assert table(c) + [] == table(c);
  }

  /** A trace whose lists no walk before it filled gets empty error arrays, whatever its
      column holds. */
  lemma UnfedTraceHasNoErrorBars(steps: seq<CiStep>, k: nat, table: Table, readFloat: FloatReader)
    requires k < |steps| && FeedsTrace(steps, k) == []
    ensures ErrorLists(steps, k, table, readFloat) == Parsed(Bounds([], []), None)
  {
  }

  // ---------------------------------------------------------------- order of the error arrays

  /** `p` lists the row positions of `values` from the largest value down, one way
      `sort_values(ascending=False)` may order rows (it does not fix the order of ties). */
  predicate DescendingOrder(values: seq<real>, p: seq<nat>)
  {
    |p| == |values| &&
    (forall i :: 0 <= i < |p| ==> p[i] < |values|) &&
    (forall i, j :: 0 <= i < j < |p| ==> p[i] != p[j]) &&
    (forall i, j :: 0 <= i < j < |p| ==> values[p[i]] >= values[p[j]])
  }

  function Permute<T>(s: seq<T>, p: seq<nat>): (r: seq<T>)
    requires forall i :: 0 <= i < |p| ==> p[i] < |s|
    ensures |r| == |p|
    ensures forall i :: 0 <= i < |p| ==> r[i] == s[p[i]]
  {
    seq(|p|, i requires 0 <= i < |p| => s[p[i]])
  }

  /** A bar: its height, and the lower and upper entries of its error arrays. */
  datatype Bar = Bar(value: real, lower: ExtReal, upper: ExtReal)

  /** Every cell of the column is an accepted interval text. */
  predicate AllCiOk(cis: seq<string>, readFloat: FloatReader)
  {
    forall i :: 0 <= i < |cis| ==> CiOk(cis[i], readFloat)
  }

  /** As written: the intervals are parsed in the frame's order before the sort, and the
      bars are drawn in the sorted order, so bar `i` gets the interval of row `i`. */
  function BarsParsedBeforeSort(values: seq<real>, cis: seq<string>, p: seq<nat>, readFloat: FloatReader): (r: seq<Bar>)
    requires DescendingOrder(values, p) && |cis| == |values| && AllCiOk(cis, readFloat)
    ensures |r| == |values|
  {
    var lower, upper := Lowers(cis, readFloat), Uppers(cis, readFloat);
    seq(|p|, i requires 0 <= i < |p| => Bar(values[p[i]], lower[i], upper[i]))
  }

  /** As intended: the intervals are parsed from the sorted frame. */
  function BarsParsedAfterSort(values: seq<real>, cis: seq<string>, p: seq<nat>, readFloat: FloatReader): (r: seq<Bar>)
    requires DescendingOrder(values, p) && |cis| == |values| && AllCiOk(cis, readFloat)
    ensures |r| == |values|
  {
    var sorted := Permute(cis, p);
    var lower, upper := Lowers(sorted, readFloat), Uppers(sorted, readFloat);
    seq(|p|, i requires 0 <= i < |p| => Bar(values[p[i]], lower[i], upper[i]))
  }

  /** Parsing after the sort gives every bar the interval of the row it draws, and the
      bars come largest first. */
  lemma BarsAfterSortCarryOwnInterval(values: seq<real>, cis: seq<string>, p: seq<nat>, readFloat: FloatReader)
    requires DescendingOrder(values, p) && |cis| == |values| && AllCiOk(cis, readFloat)
    ensures var bars := BarsParsedAfterSort(values, cis, p, readFloat);
      (forall i :: 0 <= i < |bars| ==>
         bars[i] == Bar(values[p[i]], CiLower(cis[p[i]], readFloat), CiUpper(cis[p[i]], readFloat))) &&
      (forall i, j :: 0 <= i < j < |bars| ==> bars[i].value >= bars[j].value)
  {
  }

  /** Parsing before the sort misplaces the intervals as soon as the sort moves a row:
      with heights 1 then 2 and lower bounds that differ, the first bar, which draws the
      second row, gets the first row's interval. */
  lemma BarsBeforeSortMisplaced(cis: seq<string>, p: seq<nat>, readFloat: FloatReader)
    requires |cis| == 2 && AllCiOk(cis, readFloat)
    requires CiLower(cis[0], readFloat) != CiLower(cis[1], readFloat)
    requires DescendingOrder([1.0, 2.0], p)
    ensures p == [1, 0]
    ensures BarsParsedBeforeSort([1.0, 2.0], cis, p, readFloat)[0] !=
      Bar(2.0, CiLower(cis[p[0]], readFloat), CiUpper(cis[p[0]], readFloat))
  {
    var values: seq<real> := [1.0, 2.0];
    assert values[p[0]] >= values[p[1]];
    assert p[0] == 1 && p[1] == 0;
  }
}
