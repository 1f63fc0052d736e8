/** The drug-combination scatter plot (drugComboScatter.py): one point per fitted pair,
    with a hover text naming the pair, the sample, the batch and the dataset, and two
    drop-down menus choosing the parameter on each axis. */
module DrugComboScatter {
  import opened Text
  import opened PlotText
  import DrugComboBar

  /** Lines 98-101: the four hover pieces, as each is written in the source. */
  function DrugsText(row: Row): string
  {
    "(drug1 = " + row.drug1Name + " , drug2 = " + row.drug2Name + ")<br>"
  }

  function SampleText(row: Row): string { "sample = " + row.sample }

  function BatchText(row: Row): string { "<br>batch = " + row.batch }

  function DatasetText(row: Row): string { "<br>dataset = " + row.datasetName }

  /** Line 112: `text=drugs + sample + batch + dataset_names`. */
  function HoverText(row: Row): (r: string)
    ensures |r| == |DrugsText(row)| + |SampleText(row)| + |BatchText(row)| + |DatasetText(row)|
  {
    DrugsText(row) + SampleText(row) + BatchText(row) + DatasetText(row)
  }

  /** The hover text of every point, in row order. */
  function HoverTexts(rows: seq<Row>): (r: seq<string>)
    ensures |r| == |rows|
    ensures forall i :: 0 <= i < |rows| ==> r[i] == HoverText(rows[i])
  {
    seq(|rows|, i requires 0 <= i < |rows| => HoverText(rows[i]))
  }

  /** The hover text cut at each '<': the pieces after the first start with the `br>`
      that remains of each `<br>` tag. */
  function HoverLines(row: Row): seq<string>
  {
    ["(drug1 = " + row.drug1Name + " , drug2 = " + row.drug2Name + ")",
     "br>sample = " + row.sample, "br>batch = " + row.batch, "br>dataset = " + row.datasetName]
  }

  /** No field of the row holds a '<'. */
  predicate PlainFields(row: Row)
  {
    '<' !in row.drug1Name && '<' !in row.drug2Name && '<' !in row.sample &&
    '<' !in row.batch && '<' !in row.datasetName
  }

  /** The hover text is its lines separated by '<'. */
  lemma HoverTextJoinsLines(row: Row)
    ensures HoverText(row) == Join("<", HoverLines(row))
  {
    var l := HoverLines(row);
    assert l[1..][1..][1..] == [l[3]];
    assert Join("<", l[1..][1..]) == l[2] + "<" + l[3];
    assert Join("<", l[1..]) == l[1] + "<" + (l[2] + "<" + l[3]);
    assert DrugsText(row) == l[0] + "<" + "br>";
    assert BatchText(row) == "<" + l[2];
    assert DatasetText(row) == "<" + l[3];
    assert "<br>" + SampleText(row) == "<" + l[1];
    assert Join("<", l) == l[0] + "<" + (l[1] + "<" + (l[2] + "<" + l[3]));
  }

  /** When no field holds a '<', splitting the hover text at '<' gives back exactly four
      lines, from which the sample, the batch and the dataset read back unchanged. */
  lemma HoverTextRoundTrip(row: Row)
    requires PlainFields(row)
    ensures var lines := Split(HoverText(row), '<');
      lines == HoverLines(row) &&
      lines[1][|"br>sample = "|..] == row.sample &&
      lines[2][|"br>batch = "|..] == row.batch &&
      lines[3][|"br>dataset = "|..] == row.datasetName
  {
    var l := HoverLines(row);
    HoverTextJoinsLines(row);
    assert '<' !in l[0] by {
      assert l[0] == "(drug1 = " + row.drug1Name + " , drug2 = " + (row.drug2Name + ")");
    }
    SplitJoin(l, '<');
  }

  // ---------------------------------------------------------------- axis menus

  /** A drop-down entry: its label (caption), the axis it restyles and the column it puts there. */
  datatype MenuItem = MenuItem(caption: string, axis: string, column: string)

  /** The seven entries of a menu for one axis (lines 118-139 for x, 151-172 for y). */
  function AxisMenu(axis: string): (r: seq<MenuItem>)
    ensures |r| == 7
    ensures forall k :: 0 <= k < 7 ==> r[k].axis == axis
  {
    [MenuItem("\U{03B2}", axis, "beta"), MenuItem("\U{03B2}_obs", axis, "beta_obs"),
     MenuItem("log_\U{03B1}12", axis, "log_alpha12"), MenuItem("log_\U{03B1}21", axis, "log_alpha21"),
     MenuItem("E0", axis, "E0"), MenuItem("E3", axis, "E3"), MenuItem("R2", axis, "R2")]
  }

  const X_MENU := AxisMenu("x")
  const Y_MENU := AxisMenu("y")

  /** The x menu sets no `active`, so plotly starts it on its first entry; the y menu
      starts on entry 2 (line 150). */
  const X_ACTIVE := 0
  const Y_ACTIVE := 2

  /** Lines 105-106: the default trace plots `beta` against `log_alpha12`. */
  const INITIAL_X := "beta"
  const INITIAL_Y := "log_alpha12"

  /** The entries each menu highlights at first are the columns the default trace plots,
      and the two menus offer the same parameters in the same order. */
  lemma MenusStartOnInitialTrace()
    ensures X_MENU[X_ACTIVE].column == INITIAL_X && Y_MENU[Y_ACTIVE].column == INITIAL_Y
    ensures forall k :: 0 <= k < 7 ==>
      X_MENU[k].caption == Y_MENU[k].caption && X_MENU[k].column == Y_MENU[k].column
  {
  }

  /** The menus offer the seven parameters of the combination bar plot, under the same
      names, each a column of the table. */
  lemma MenusOfferComboParameters()
    ensures forall k :: 0 <= k < 7 ==>
      X_MENU[k].caption == DrugComboBar.TRACES[k].name && X_MENU[k].column == DrugComboBar.TRACES[k].column
    ensures forall k :: 0 <= k < 7 ==> X_MENU[k].column in COL_LIST
  {
  }
}
