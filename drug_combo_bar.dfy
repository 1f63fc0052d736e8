/** The drug-combination parameter bar plot (drugComboBar.py): one bar per fitted pair,
    labelled by both drugs, with seven traces behind a button menu whose last button
    shows them all. */
module DrugComboBar {
  import opened Text
  import opened PlotText
  import opened ErrorBars

  /** Lines 26-30, `check_batch(row)`: the drug 2 name, suffixed with the batch unless the
      batch is 'None'. */
  function CheckBatch(row: Row): (r: string)
    ensures IsPrefix(row.drug2Name, r)
    ensures r == row.drug2Name <==> row.batch == "None"
  {
    if row.batch != "None" then row.drug2Name + "_b" + row.batch else row.drug2Name
  }

  /** A suffixed name reads back the batch after `_b`. */
  lemma CheckBatchReadsBack(row: Row)
    requires row.batch != "None"
    ensures var r := CheckBatch(row);
      r[|row.drug2Name|..|row.drug2Name| + 2] == "_b" && r[|row.drug2Name| + 2..] == row.batch
  {
  }

  /** Two rows of the same pair in different batches get different bars. */
  lemma CheckBatchSeparatesBatches(row: Row, batch: string)
    requires row.batch != "None" && batch != "None" && batch != row.batch
    ensures CheckBatch(row) != CheckBatch(row.(batch := batch))
  {
    CheckBatchReadsBack(row);
    CheckBatchReadsBack(row.(batch := batch));
  }

  /** Line 75: only `drug2_name` is rewritten, row by row. */
  function WithBatchNames(rows: seq<Row>): (r: seq<Row>)
    ensures |r| == |rows|
  {
    seq(|rows|, i requires 0 <= i < |rows| => rows[i].(drug2Name := CheckBatch(rows[i])))
  }

  /** Drug 1, the sample, the batch and the dataset of every row are untouched; the drug 2
      name keeps its original text as a prefix. */
  lemma WithBatchNamesKeepsDrug1(rows: seq<Row>, i: nat)
    requires i < |rows|
    ensures var r := WithBatchNames(rows)[i];
      r.drug1Name == rows[i].drug1Name && r.sample == rows[i].sample &&
      r.batch == rows[i].batch && r.datasetName == rows[i].datasetName &&
      IsPrefix(rows[i].drug2Name, r.drug2Name)
  {
  }

  /** Lines 113, 134, 155, 177, 198, 219 and 238: the bar label `(drug1 , drug2)`. */
  function BarLabel(drug1: string, drug2: string): (r: string)
    ensures |r| == |drug1| + |drug2| + 5
  {
    "(" + drug1 + " , " + drug2 + ")"
  }

  /** The label shows drug 1 right after the opening parenthesis and drug 2 right before
      the closing one. */
  lemma BarLabelShowsBothDrugs(drug1: string, drug2: string)
    ensures var r := BarLabel(drug1, drug2);
      r[0] == '(' && r[1..1 + |drug1|] == drug1 && r[1 + |drug1|..4 + |drug1|] == " , " &&
      r[4 + |drug1|..|r| - 1] == drug2 && r[|r| - 1] == ')'
  {
  }

  // ---------------------------------------------------------------- traces and buttons

  /** A bar trace: its name, the column it plots and whether it is shown at first. */
  datatype Trace = Trace(name: string, column: string, visible: bool)

  /** A parameter button: its label (caption), the visibility it sets for each trace, its title. */
  datatype Button = Button(caption: string, visible: seq<bool>, title: string)

  const T: bool := true
  const F: bool := false

  /** Lines 113-256: the seven traces in the order they are appended to `data`. */
  const TRACES: seq<Trace> := [
    Trace("\U{03B2}", "beta", true), Trace("\U{03B2}_obs", "beta_obs", false),
    Trace("log_\U{03B1}12", "log_alpha12", false), Trace("log_\U{03B1}21", "log_alpha21", false),
    Trace("E0", "E0", false), Trace("E3", "E3", false), Trace("R2", "R2", false)
  ]

  /** Lines 263-298: the parameter menu, written as the source writes its flags. */
  const BUTTONS: seq<Button> := [
    Button("\U{03B2}", [T, F, F, F, F, F, F], "Synergistic Efficacy (\U{03B2})"),
    Button("\U{03B2}_obs", [F, T, F, F, F, F, F], "Synergistsic Efficacy Observed (\U{03B2}_obs)"),
    Button("log_\U{03B1}12", [F, F, T, F, F, F, F], "log_\U{03B1}12"),
    Button("log_\U{03B1}21", [F, F, F, T, F, F, F], "log_\U{03B1}21"),
    Button("E0", [F, F, F, F, T, F, F], "Fitted basal effect when [drug1]=[drug2]=0 (E0)"),
    Button("E3", [F, F, F, F, F, T, F], "Fitted effect for [drug2]->inf and [drug1]=0 (E3)"),
    Button("R2", [F, F, F, F, F, F, T], "R Squared of Fit (R2)"),
    Button("ALL", [T, T, T, T, T, T, T], "All Drug Combo Parameters")
  ]

  /** `updatemenus[0]['active']` and the layout's starting title (line 334). */
  const ACTIVE := 0
  const INITIAL_TITLE := "Synergistic Efficacy (\U{03B2})"

  /** Each of the first seven buttons shows exactly its own trace; the last shows all seven. */
  lemma ButtonsOneHotThenAll()
    ensures |BUTTONS| == |TRACES| + 1 == 8
    ensures forall k :: 0 <= k < |BUTTONS| ==> |BUTTONS[k].visible| == |TRACES|
    ensures forall k, j :: 0 <= k < 7 && 0 <= j < 7 ==> (BUTTONS[k].visible[j] <==> j == k)
    ensures forall j :: 0 <= j < 7 ==> BUTTONS[7].visible[j]
  {
  }

  /** The k-th button is labelled with the k-th trace's name, the traces start with the
      active button's visibility, and the starting title is that button's. */
  lemma TracesMatchButtons()
    ensures forall k :: 0 <= k < |TRACES| ==> TRACES[k].name == BUTTONS[k].caption
    ensures forall k :: 0 <= k < |TRACES| ==> TRACES[k].visible == BUTTONS[ACTIVE].visible[k]
    ensures INITIAL_TITLE == BUTTONS[ACTIVE].title
  {
  }

  /** Every trace plots a column of the table, and no two plot the same one. */
  lemma TracesPlotTableColumns()
    ensures forall k :: 0 <= k < |TRACES| ==> TRACES[k].column in COL_LIST
    ensures forall k, j :: 0 <= k < j < |TRACES| ==> TRACES[k].column != TRACES[j].column
  {
  }

  // ---------------------------------------------------------------- error bars

  /** Lines 107-233: the six interval walks in program order; the R2 trace has none. */
  const CI_STEPS: seq<CiStep> := [
    CiStep("\U{03B2}", "beta_ci", "beta", "beta"), CiStep("\U{03B2}_obs", "beta_obs_ci", "bo", "bo"),
    CiStep("log_\U{03B1}12", "log_alpha12_ci", "a12", "a12"),
    CiStep("log_\U{03B1}21", "log_alpha21_ci", "a21", "a21"),
    CiStep("E0", "E0_ci", "e0", "e0"), CiStep("E3", "E3_ci", "e3", "e3")
  ]

  /** Every walk reads the interval column of the trace it precedes into lists of its own. */
  lemma CiStepsOwnLists()
    ensures |CI_STEPS| == |TRACES| - 1 && OwnLists(CI_STEPS)
    ensures forall k :: 0 <= k < |CI_STEPS| ==>
      CI_STEPS[k].trace == TRACES[k].name && CI_STEPS[k].ciColumn == TRACES[k].column + "_ci" &&
      CI_STEPS[k].ciColumn in COL_LIST
  {
    CiStepsFillOwn();
    CiStepsReadTables();
  }

  /** No two walks fill the same pair, and each fills the pair its trace plots. */
  lemma CiStepsFillOwn()
    ensures OwnLists(CI_STEPS)
  {
  }

  /** Each walk precedes its own trace and reads that trace's interval column. */
  lemma CiStepsReadTables()
    ensures |CI_STEPS| == |TRACES| - 1
    ensures forall k :: 0 <= k < |CI_STEPS| ==>
      CI_STEPS[k].trace == TRACES[k].name && CI_STEPS[k].ciColumn == TRACES[k].column + "_ci" &&
      CI_STEPS[k].ciColumn in COL_LIST
  {
  }

  /** So each of the first six traces plots its own interval column, parsed. */
  lemma ErrorBarsFromOwnColumn(k: nat, table: Table, readFloat: FloatReader)
    requires k < |CI_STEPS|
    ensures ErrorLists(CI_STEPS, k, table, readFloat) ==
      ParseAll(Bounds([], []), table(TRACES[k].column + "_ci"), readFloat)
  {
    CiStepsOwnLists();
    OwnListsPlotOwnColumn(CI_STEPS, k, table, readFloat);
  }
}
