/** The single-drug parameter bar plot (singleDrugBar.py): bar names carry the batch,
    and twelve traces each sit behind one button of the parameter menu. */
module SingleDrugBar {
  import opened Wrappers
  import opened Text
  import opened PlotText
  import opened ErrorBars

  /** `check_batch(row, drug)`: the name of drug 1 or 2, suffixed with the batch unless
      the batch is 'None'; any other drug number gives None. */
  function CheckBatch(row: Row, drug: int): (r: Option<string>)
    ensures r.Some? <==> drug == 1 || drug == 2
  {
    var name := if drug == 1 then row.drug1Name else row.drug2Name;
    if drug != 1 && drug != 2 then None
    else if row.batch != "None" then Some(name + "_b" + row.batch)
    else Some(name)
  }

  /** The bar name starts with the drug's own name, is left alone exactly when the batch
      is 'None', and otherwise reads back both name and batch. */
  lemma CheckBatchNames(row: Row, drug: int)
    requires drug == 1 || drug == 2
    ensures var name := if drug == 1 then row.drug1Name else row.drug2Name;
      var r := CheckBatch(row, drug).value;
      IsPrefix(name, r) &&
      (r == name <==> row.batch == "None") &&
      (row.batch != "None" ==> r[|name|..|name| + 2] == "_b" && r[|name| + 2..] == row.batch)
  {
  }

  /** Within one drug name, distinct batches give distinct bar names. */
  lemma CheckBatchSeparatesBatches(row: Row, batch: string, drug: int)
    requires drug == 1 || drug == 2
    requires row.batch != "None" && batch != "None" && batch != row.batch
    ensures CheckBatch(row, drug) != CheckBatch(row.(batch := batch), drug)
  {
    var name := if drug == 1 then row.drug1Name else row.drug2Name;
    var r, r' := CheckBatch(row, drug).value, CheckBatch(row.(batch := batch), drug).value;
    assert r[|name| + 2..] == row.batch;
    assert r'[|name| + 2..] == batch;
  }

  /** Lines 84-85: `drug1_name`, then `drug2_name`, rewritten row by row. */
  function WithBatchNames(rows: seq<Row>): (r: seq<Row>)
    ensures |r| == |rows|
  {
    var rows1 := seq(|rows|, i requires 0 <= i < |rows| => rows[i].(drug1Name := CheckBatch(rows[i], 1).value));
    seq(|rows1|, i requires 0 <= i < |rows1| => rows1[i].(drug2Name := CheckBatch(rows1[i], 2).value))
  }

  /** The second pass reads the drug 2 name and the batch, which the first pass left
      alone, so each row gets both names from its original fields; nothing else changes. */
  lemma WithBatchNamesRowwise(rows: seq<Row>, i: nat)
    requires i < |rows|
    ensures WithBatchNames(rows)[i] ==
      rows[i].(drug1Name := CheckBatch(rows[i], 1).value, drug2Name := CheckBatch(rows[i], 2).value)
  {
  }

  // ---------------------------------------------------------------- traces and buttons

  /** A bar trace: its name, the column it plots, which drug leads the bar label
      (`drug1 (drug2)` or `drug2 (drug1)`) and whether it is shown at first. */
  datatype Trace = Trace(name: string, column: string, leadDrug: int, visible: bool)

  /** A parameter button: its label (caption), the visibility it sets for each trace, its title. */
  datatype Button = Button(caption: string, visible: seq<bool>, title: string)

  const T: bool := true
  const F: bool := false

  /** Lines 349-401: the parameter menu, written as the source writes its flags. */
  const BUTTONS: seq<Button> := [
    Button("E1", [T, F, F, F, F, F, F, F, F, F, F, F], "Drug 1 Effifacy (E1)"),
    Button("E2", [F, T, F, F, F, F, F, F, F, F, F, F], "Drug 2 Effifacy (E2)"),
    Button("C1", [F, F, T, F, F, F, F, F, F, F, F, F], "Drug 1 Potency (C1)"),
    Button("C2", [F, F, F, T, F, F, F, F, F, F, F, F], "Drug 2 Potency (C2)"),
    Button("h1", [F, F, F, F, T, F, F, F, F, F, F, F], "Drug 1 Hill Slope (h1)"),
    Button("h2", [F, F, F, F, F, T, F, F, F, F, F, F], "Drug 2 Hill Slope (h2)"),
    Button("E1_obs", [F, F, F, F, F, F, T, F, F, F, F, F], "Drug 1 Effifacy_observed (E1_obs)"),
    Button("E2_obs", [F, F, F, F, F, F, F, T, F, F, F, F], "Drug 2 Effifacy_observed (E2_obs)"),
    Button("log_C1", [F, F, F, F, F, F, F, F, T, F, F, F], "log of Drug 1 Potency (log_C1)"),
    Button("log_C2", [F, F, F, F, F, F, F, F, F, T, F, F], "log Drug 2 Potency (log_C2)"),
    Button("log_h1", [F, F, F, F, F, F, F, F, F, F, T, F], "log Drug 1 Hill Slope (log_h1)"),
    Button("log_h2", [F, F, F, F, F, F, F, F, F, F, F, T], "log Drug 2 Hill Slope (log_h2)")
  ]

  /** `updatemenus[0]['active']` and the layout's starting title. */
  const ACTIVE := 0
  const INITIAL_TITLE := "Drug 1 Effifacy (E1)"

  /** Each button shows exactly its own trace. */
  lemma ButtonsOneHot()
    ensures |BUTTONS| == 12
    ensures forall k, j :: 0 <= k < 12 && 0 <= j < 12 ==> |BUTTONS[k].visible| == 12 && (BUTTONS[k].visible[j] <==> j == k)
  {
  }

  /** Lines 117-342: the twelve traces in the order they are appended to
      `data`. */
  const TRACES: seq<Trace> := [
    Trace("E1", "E1", 1, true), Trace("E2", "E2", 2, false),
    Trace("C1", "C1", 1, false), Trace("C2", "C2", 2, false),
    Trace("h1", "h1", 1, false), Trace("h2", "h2", 2, false),
    Trace("E1_obs", "E1_obs", 1, false), Trace("E2_obs", "E2_obs", 2, false),
    Trace("log_C1", "log_C1", 1, false), Trace("log_C2", "log_C2", 2, false),
    Trace("log_h1", "log_h1", 1, false), Trace("log_h2", "log_h2", 2, false)
  ]

  /** The menu's k-th button is labelled with the k-th trace's name, the traces start
      with the active button's visibility, and the starting title is that button's. */
  lemma TracesMatchButtons()
    ensures |TRACES| == |BUTTONS| == 12
    ensures forall k :: 0 <= k < |TRACES| ==> TRACES[k].name == BUTTONS[k].caption
    ensures forall k :: 0 <= k < |TRACES| ==> TRACES[k].visible == BUTTONS[ACTIVE].visible[k]
    ensures INITIAL_TITLE == BUTTONS[ACTIVE].title
  {
  }

  /** Each trace plots the column it is named after, a column of the table, and a drug 1
      parameter is labelled drug 1 first, a drug 2 parameter drug 2 first. */
  lemma TracesPlotTheirColumns()
    ensures forall k :: 0 <= k < |TRACES| ==> TRACES[k].column == TRACES[k].name && TRACES[k].column in COL_LIST
    ensures forall k :: 0 <= k < |TRACES| ==>
      (TRACES[k].leadDrug == 1 <==> '1' in TRACES[k].name) && (TRACES[k].leadDrug == 2 <==> '2' in TRACES[k].name)
  {
  }

  // ---------------------------------------------------------------- error bars

  /** The names of the traces, in menu order. */
  function TraceNames(): (r: seq<string>)
    ensures |r| == |TRACES|
  {
    seq(|TRACES|, k requires 0 <= k < |TRACES| => TRACES[k].name)
  }

  /** Lines 112-327, as written: the eight interval walks in program order. The walk at
      line 178 reads `E2_obs_ci` into `e1L`/`e1U` while the `E2_obs` trace plots
      `e2oL`/`e2oU`. */
  const CI_STEPS_AS_WRITTEN: seq<CiStep> := [
    CiStep("E1", "E1_ci", "e1", "e1"), CiStep("E1_obs", "E1_obs_ci", "e1o", "e1o"),
    CiStep("E2", "E2_ci", "e2", "e2"), CiStep("E2_obs", "E2_obs_ci", "e1", "e2o"),
    CiStep("log_h1", "log_h1_ci", "lh1", "lh1"), CiStep("log_h2", "log_h2_ci", "lh2", "lh2"),
    CiStep("log_C1", "log_C1_ci", "lc1", "lc1"), CiStep("log_C2", "log_C2_ci", "lc2", "lc2")
  ]

  /** The same walks with line 178 reading into the lists its trace plots. */
  const CI_STEPS: seq<CiStep> := CI_STEPS_AS_WRITTEN[3 := CiStep("E2_obs", "E2_obs_ci", "e2o", "e2o")]

  /** As written, nothing is ever appended to the lists the `E2_obs` trace plots, so it
      draws no error bars however many rows have intervals, while the `E1` trace, built
      before line 178 runs, keeps its own. */
  lemma E2ObsErrorBarsAsWritten(table: Table, readFloat: FloatReader)
    requires AllCiOk(table("E2_obs_ci"), readFloat)
    ensures FeedsTrace(CI_STEPS_AS_WRITTEN, 0) == ["E1_ci"]
    ensures FeedsTrace(CI_STEPS_AS_WRITTEN, 3) == []
    ensures ErrorLists(CI_STEPS_AS_WRITTEN, 3, table, readFloat) == Parsed(Bounds([], []), None)
    ensures |ParseAll(Bounds([], []), table("E2_obs_ci"), readFloat).bounds.lower| == |table("E2_obs_ci")|
  {
    var s := CI_STEPS_AS_WRITTEN;
    assert FedInto(s, 1, "e1") == ["E1_ci"] by {
      assert FedInto(s, 0, "e1") == [];
    }
    FedIntoUnfilled(s, 4, "e2o");
    UnfedTraceHasNoErrorBars(s, 3, table, readFloat);
    ParseAllAligned(Bounds([], []), table("E2_obs_ci"), readFloat);
  }

  /** The corrected walks, written out. */
  lemma CiStepsListed()
    ensures CI_STEPS == [
      CiStep("E1", "E1_ci", "e1", "e1"), CiStep("E1_obs", "E1_obs_ci", "e1o", "e1o"),
      CiStep("E2", "E2_ci", "e2", "e2"), CiStep("E2_obs", "E2_obs_ci", "e2o", "e2o"),
      CiStep("log_h1", "log_h1_ci", "lh1", "lh1"), CiStep("log_h2", "log_h2_ci", "lh2", "lh2"),
      CiStep("log_C1", "log_C1_ci", "lc1", "lc1"), CiStep("log_C2", "log_C2_ci", "lc2", "lc2")
    ]
  {
  }

  /** Every corrected walk belongs to a trace of the plot. */
  lemma CiStepsNameTraces()
    ensures |CI_STEPS| == 8
    ensures forall k :: 0 <= k < |CI_STEPS| ==> CI_STEPS[k].trace in TraceNames()
  {
    CiStepsListed();
    var names := TraceNames();
    assert names[0] == "E1" && names[6] == "E1_obs" && names[1] == "E2" && names[7] == "E2_obs";
    assert names[10] == "log_h1" && names[11] == "log_h2" && names[8] == "log_C1" && names[9] == "log_C2";
  }

  /** Every walk of the corrected plot reads the interval column of its own trace into
      lists of its own. */
  lemma CiStepsOwnLists()
    ensures |CI_STEPS| == 8 && OwnLists(CI_STEPS)
    ensures forall k :: 0 <= k < |CI_STEPS| ==>
      CI_STEPS[k].ciColumn == CI_STEPS[k].trace + "_ci" && CI_STEPS[k].ciColumn in COL_LIST &&
      CI_STEPS[k].trace in TraceNames()
  {
    CiStepsNameTraces();
    CiStepsFillOwn();
    CiStepsReadTables();
  }

  /** No two corrected walks fill the same pair, and each fills the pair its trace plots. */
  lemma CiStepsFillOwn()
    ensures OwnLists(CI_STEPS)
  {
    CiStepsListed();
  }

  /** Each corrected walk reads its trace's interval column, a column of the table. */
  lemma CiStepsReadTables()
    ensures forall k :: 0 <= k < |CI_STEPS| ==>
      CI_STEPS[k].ciColumn == CI_STEPS[k].trace + "_ci" && CI_STEPS[k].ciColumn in COL_LIST
  {
    CiStepsListed();
  }

  /** So each trace's error arrays are its own interval column, parsed. */
  lemma ErrorBarsFromOwnColumn(k: nat, table: Table, readFloat: FloatReader)
    requires k < |CI_STEPS|
    ensures ErrorLists(CI_STEPS, k, table, readFloat) ==
      ParseAll(Bounds([], []), table(CI_STEPS[k].trace + "_ci"), readFloat)
  {
    CiStepsOwnLists();
    OwnListsPlotOwnColumn(CI_STEPS, k, table, readFloat);
  }
}
