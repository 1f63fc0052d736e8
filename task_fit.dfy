/** `fit_drug_combination` (tasks.py:28-146): the checks a job must pass before it is
    fitted, the two drug swaps, the call of the fit and the record the task returns. The
    fit itself (`MuSyC_2D`) is a parameter. */
module TaskFit {
  import opened Wrappers
  import opened ExtReals
  import opened Text
  import opened Json
  import opened TaskData
  import TaskJobs

  /** The task's arguments; `output_dir` is never read and is left out. */
  datatype FitArgs = FitArgs(
    datasetId: int, drug1Name: string, drug2Name: string, sample: string,
    d1: seq<real>, d2: seq<real>, dip: seq<real>, dipSd: seq<real>,
    eFix: Option<seq<ExtReal>>, eBnd: Option<seq<seq<ExtReal>>>,
    drug1Units: seq<string>, drug2Units: seq<string>, exptDate: seq<string>,
    expt: string, metricName: string, hillOrient: int,
    initSeed: Option<int>, fitAlg: string, findOpt: bool, fitGamma: bool,
    batch: Option<string>)

  /** The arguments a job from `process_dataset` carries; the keywords it does not pass
      take their defaults (lines 38-41). */
  function ArgsOf(j: TaskJobs.Job): (a: FitArgs)
    ensures a.drug1Name == j.drug1 && a.drug2Name == j.drug2 && a.batch == j.batch
    ensures a.d1 == j.D1() && a.d2 == j.D2() && a.dip == j.Dip() && a.dipSd == j.DipSd()
    ensures a.initSeed.None? && a.fitAlg == "nlls_mcnlls" && !a.findOpt && !a.fitGamma
  {
    FitArgs(j.datasetId, j.drug1, j.drug2, j.sample, j.D1(), j.D2(), j.Dip(), j.DipSd(),
            j.eFix, j.eBnd, j.Drug1Units(), j.Drug2Units(), j.ExptDate(),
            j.expt, j.metricName, j.hillOrient, None, "nlls_mcnlls", false, false, j.batch)
  }

  /** The keyword arguments of the `MuSyC_2D` call (lines 115-123). */
  datatype FitCall = FitCall(
    d1: seq<real>, d2: seq<real>, dip: seq<real>, dipSd: seq<real>,
    drug1Name: string, drug2Name: string,
    eFix: Option<seq<ExtReal>>, eBnd: Option<seq<seq<ExtReal>>>,
    findOpt: bool, fitGamma: bool, fitAlg: string, toPlot: bool,
    sample: string, expt: string, metricName: string, hillOrient: int, toSave: bool,
    samples: nat, burn: nat, psoParticles: nat, psoIter: nat, psoSpeed: nat,
    initSeed: Option<int>)

  /** What the fit gives back: its result dictionary, or the `ValueError` it raised. */
  datatype FitOutcome = Fitted(t: Dict) | FitValueError(message: string)

  /** The arguments once checked: one unit per drug and no non-positive CI width. */
  datatype Prepared = Prepared(
    drug1Name: string, drug2Name: string, d1: seq<real>, d2: seq<real>, dipSd: seq<real>,
    drug1Units: string, drug2Units: string,
    eFix: Option<seq<ExtReal>>, eBnd: Option<seq<seq<ExtReal>>>)

  /** The dictionary the task returns: the fit's keys with four removed, and the ten keys
      set at lines 134-143, which take precedence over any fit key of the same name. */
  datatype FitResult = FitResult(
    fitted: Dict,
    eFix: Option<seq<ExtReal>>, eBnd: Option<seq<seq<ExtReal>>>,
    drug1Units: string, drug2Units: string,
    d1: seq<real>, d2: seq<real>, dip: seq<real>, dipSd: seq<real>,
    exptDate: seq<string>, batch: Option<string>)

  // ---------------------------------------------------------------- checks (lines 49-90)

  const NEGATIVE_D1 := "Negative concentrations for drug1 - not supported"
  const NEGATIVE_D2 := "Negative concentrations for drug2 - not supported"
  const NO_POSITIVE_D1 := "No non-zero concentrations for drug1; single drug expts not yet supported"
  const NO_POSITIVE_D2 := "No non-zero concentrations for drug2; single drug expts not yet supported"
  const SAME_DRUGS := "Drug 1 and drug 2 are the same; single drug expts not yet supported"
  const EMPTY_MIN := "min() arg is an empty sequence"

  predicate HasNegative(s: seq<real>) { exists i :: 0 <= i < |s| && s[i] < 0.0 }
  predicate HasPositive(s: seq<real>) { exists i :: 0 <= i < |s| && s[i] > 0.0 }
  predicate HasNonPositive(s: seq<real>) { exists i :: 0 <= i < |s| && s[i] <= 0.0 }

  /** `min(s[s > 0])`. */
  function MinPositive(s: seq<real>): (m: real)
    requires HasPositive(s)
    ensures m > 0.0
    ensures exists i :: 0 <= i < |s| && s[i] == m
    ensures forall i :: 0 <= i < |s| && s[i] > 0.0 ==> m <= s[i]
  {
    var init := s[..|s| - 1];
    var last := s[|s| - 1];
    assert forall i :: 0 <= i < |init| ==> init[i] == s[i];
    if !HasPositive(init) then
      assert last > 0.0 by {
        var i :| 0 <= i < |s| && s[i] > 0.0;
        if i < |init| { assert init[i] > 0.0; }
      }
      last
    else
      var m := MinPositive(init);
      if last > 0.0 && last < m then last else m
  }

  /** `s[s <= 0] = m`. */
  function ReplaceNonPositive(s: seq<real>, m: real): (r: seq<real>)
    ensures |r| == |s|
  {
    seq(|s|, i requires 0 <= i < |s| => if s[i] <= 0.0 then m else s[i])
  }

  /** Line 86: the CI widths with the non-positive ones replaced, or the `ValueError` of
      taking the minimum of no positive width. */
  function FillSd(s: seq<real>): Result<seq<real>, TaskError>
  {
    if !HasNonPositive(s) then Ok(s)
    else if !HasPositive(s) then Err(ValueError(EMPTY_MIN))
    else Ok(ReplaceNonPositive(s, MinPositive(s)))
  }

  function TooFewPoints(n: nat): string
  {
    "At least four data points are needed to fit dose-response surface (found: " + IntToString(n) + ")"
  }

  /** Lines 49-81, in the order the source makes them: the first failing check on the
      units, the concentrations and the names. Both unit messages say `drug1.units`, as
      the source does. */
  function DrugsError(a: FitArgs): Option<TaskError>
  {
    if |a.drug1Units| > 1 then Some(DataError("drug1.units contains multiple values: " + Join(", ", a.drug1Units)))
    else if |a.drug2Units| > 1 then Some(DataError("drug1.units contains multiple values: " + Join(", ", a.drug2Units)))
    else if |a.drug1Units| == 0 || |a.drug2Units| == 0 then Some(IndexError)
    else if HasNegative(a.d1) then Some(DataError(NEGATIVE_D1))
    else if HasNegative(a.d2) then Some(DataError(NEGATIVE_D2))
    else if !HasPositive(a.d1) then Some(DataError(NO_POSITIVE_D1))
    else if !HasPositive(a.d2) then Some(DataError(NO_POSITIVE_D2))
    else if a.drug1Name == a.drug2Name then Some(DataError(SAME_DRUGS))
    else None
  }

  /** Lines 49-90: the checks above, then the CI widths and the number of points. */
  function Check(a: FitArgs): Result<Prepared, TaskError>
  {
    if DrugsError(a).Some? then Err(DrugsError(a).value)
    else
      var sd :- FillSd(a.dipSd);
      if |a.dip| < 4 then Err(DataError(TooFewPoints(|a.dip|)))
      else Ok(Prepared(a.drug1Name, a.drug2Name, a.d1, a.d2, sd, a.drug1Units[0], a.drug2Units[0], a.eFix, a.eBnd))
  }

  /** The arguments a fit accepts, stated condition by condition. */
  predicate Admissible(a: FitArgs)
  {
    |a.drug1Units| == 1 && |a.drug2Units| == 1 &&
    !HasNegative(a.d1) && !HasNegative(a.d2) && HasPositive(a.d1) && HasPositive(a.d2) &&
    a.drug1Name != a.drug2Name &&
    (HasNonPositive(a.dipSd) ==> HasPositive(a.dipSd)) &&
    |a.dip| >= 4
  }

  /** The checks let through exactly the admissible arguments; what they let through has
      the single unit of each drug, the names and concentrations unchanged, and every CI
      width positive: positive widths untouched, the others raised to the smallest
      positive one. */
  lemma CheckAccepts(a: FitArgs)
    ensures Check(a).Ok? <==> Admissible(a)
    ensures Check(a).Ok? ==>
      var p := Check(a).value;
      p.drug1Name == a.drug1Name && p.drug2Name == a.drug2Name && p.d1 == a.d1 && p.d2 == a.d2 &&
      [p.drug1Units] == a.drug1Units && [p.drug2Units] == a.drug2Units &&
      p.eFix == a.eFix && p.eBnd == a.eBnd &&
      |p.dipSd| == |a.dipSd| &&
      (forall i :: 0 <= i < |a.dipSd| ==> p.dipSd[i] > 0.0) &&
      (forall i :: 0 <= i < |a.dipSd| && a.dipSd[i] > 0.0 ==> p.dipSd[i] == a.dipSd[i]) &&
      (forall i :: 0 <= i < |a.dipSd| && a.dipSd[i] <= 0.0 ==> p.dipSd[i] == MinPositive(a.dipSd))
  {
    if Admissible(a) {
      assert [a.drug1Units[0]] == a.drug1Units;
      assert [a.drug2Units[0]] == a.drug2Units;
    }
  }

  /** Each rejection carries the message of the first condition that fails. */
  lemma CheckMessages(a: FitArgs)
    ensures |a.drug1Units| > 1 ==> Check(a) == Err(DataError("drug1.units contains multiple values: " + Join(", ", a.drug1Units)))
    ensures |a.drug1Units| == 1 && |a.drug2Units| == 1 && HasNegative(a.d1) ==> Check(a) == Err(DataError(NEGATIVE_D1))
    ensures Admissible(a.(drug2Name := a.drug1Name)) ==> Check(a.(drug2Name := a.drug1Name)) == Err(DataError(SAME_DRUGS))
    ensures (|a.drug1Units| == 1 && |a.drug2Units| == 1 && !HasNegative(a.d1) && !HasNegative(a.d2) &&
             HasPositive(a.d1) && HasPositive(a.d2) && a.drug1Name != a.drug2Name && !HasNonPositive(a.dipSd) &&
             |a.dip| < 4) ==> Check(a) == Err(DataError(TooFewPoints(|a.dip|)))
  {
  }

  // ---------------------------------------------------------------- swaps (lines 92-111)

  /** `e[2], e[1] = e[1], e[2]`, or the `IndexError` of a list shorter than three. */
  function Swap12<T>(e: seq<T>): Result<seq<T>, TaskError>
  {
    if |e| < 3 then Err(IndexError) else Ok(e[1 := e[2]][2 := e[1]])
  }

  /** Lines 105-108: columns 1 and 2 exchanged in both rows of the bounds. */
  function SwapBoundColumns(b: seq<seq<ExtReal>>): Result<seq<seq<ExtReal>>, TaskError>
  {
    if |b| < 2 || |b[0]| < 3 || |b[1]| < 3 then Err(IndexError)
    else Ok(b[0 := b[0][1 := b[0][2]][2 := b[0][1]]][1 := b[1][1 := b[1][2]][2 := b[1][1]]])
  }

  function OptSwap12<T>(e: Option<seq<T>>): Result<Option<seq<T>>, TaskError>
  {
    if e.None? then Ok(None)
    else
      var r :- Swap12(e.value);
      Ok(Some(r))
  }

  function OptSwapBoundColumns(b: Option<seq<seq<ExtReal>>>): Result<Option<seq<seq<ExtReal>>>, TaskError>
  {
    if b.None? then Ok(None)
    else
      var r :- SwapBoundColumns(b.value);
      Ok(Some(r))
  }

  /** The names and concentration arrays change places; the units follow their drug,
      unless `asWritten`, in which case they stay where they were (lines 97-98 and
      110-111 swap only names and arrays). */
  function SwapDrugs(p: Prepared, asWritten: bool): Prepared
  {
    p.(drug1Name := p.drug2Name, drug2Name := p.drug1Name, d1 := p.d2, d2 := p.d1,
       drug1Units := if asWritten then p.drug1Units else p.drug2Units,
       drug2Units := if asWritten then p.drug2Units else p.drug1Units)
  }

  /** Lines 94-98: a drug without effect (`E_fix[0] == E_fix[2]`) becomes drug 1. */
  function NoEffectSwap(p: Prepared, asWritten: bool): Result<Prepared, TaskError>
  {
    if p.eFix.None? then Ok(p)
    else if |p.eFix.value| < 3 then Err(IndexError)
    else if p.eFix.value[0] != p.eFix.value[2] then Ok(p)
    else
      var e :- Swap12(p.eFix.value);
      Ok(SwapDrugs(p.(eFix := Some(e)), asWritten))
  }

  /** Lines 102-111: a drug1 sampled at exactly two concentrations becomes drug 2. */
  function BoundarySwap(p: Prepared, asWritten: bool): Result<Prepared, TaskError>
  {
    if |Distinct(p.d1)| != 2 then Ok(p)
    else
      var e :- OptSwap12(p.eFix);
      var b :- OptSwapBoundColumns(p.eBnd);
      Ok(SwapDrugs(p.(eFix := e, eBnd := b), asWritten))
  }

  function Swaps(p: Prepared, asWritten: bool): Result<Prepared, TaskError>
  {
    var q :- NoEffectSwap(p, asWritten);
    BoundarySwap(q, asWritten)
  }

  /** The two drugs exchanged as a whole: names, concentrations, units, and their E_fix
      and E_bnd entries. */
  function Relabel(p: Prepared): Prepared
    requires p.eFix.Some? ==> |p.eFix.value| >= 3
    requires p.eBnd.Some? ==> |p.eBnd.value| >= 2 && |p.eBnd.value[0]| >= 3 && |p.eBnd.value[1]| >= 3
  {
    SwapDrugs(p.(eFix := OptSwap12(p.eFix).value, eBnd := OptSwapBoundColumns(p.eBnd).value), false)
  }

  lemma RelabelInvolution(p: Prepared)
    requires p.eFix.Some? ==> |p.eFix.value| >= 3
    requires p.eBnd.Some? ==> |p.eBnd.value| >= 2 && |p.eBnd.value[0]| >= 3 && |p.eBnd.value[1]| >= 3
    ensures Relabel(Relabel(p)) == p
  {
    if p.eFix.Some? {
      var e := p.eFix.value;
      assert e[1 := e[2]][2 := e[1]][1 := e[1]][2 := e[2]] == e;
    }
    if p.eBnd.Some? {
      var b := p.eBnd.value;
      var b1 := SwapBoundColumns(b).value;
      assert SwapBoundColumns(b1).value[0] == b[0];
      assert SwapBoundColumns(b1).value[1] == b[1];
      assert SwapBoundColumns(b1).value == b;
    }
  }

  /** Lines 94-95: the first swap applies, drug 1 having a fixed E with `E0 == Emax`. */
  predicate NoEffectFires(p: Prepared)
  {
    p.eFix.Some? && |p.eFix.value| >= 3 && p.eFix.value[0] == p.eFix.value[2]
  }

  /** Line 102: the second swap applies to a drug 1 sampled at exactly two concentrations. */
  predicate TwoLevels(d: seq<real>)
  {
    |Distinct(d)| == 2
  }

  /** With a fixed E or a bound but not both (as `process_dataset` guarantees), the swaps
      either keep every drug attribute where it was or exchange all of them together: no
      name is separated from its concentrations, units or E entries. Which of the two
      happens: each swap that fires exchanges the drugs once, so they stay in place exactly
      when both fire (the second seeing the first's drug 1, the old drug 2) or neither. */
  lemma SwapsKeepDrugsTogether(p: Prepared, q: Prepared)
    requires p.eFix.None? || p.eBnd.None?
    requires Swaps(p, false) == Ok(q)
    ensures q.eFix.Some? ==> |q.eFix.value| >= 3
    ensures q == p || q == Relabel(p)
    ensures !NoEffectFires(p) && !TwoLevels(p.d1) ==> q == p
    ensures !NoEffectFires(p) && TwoLevels(p.d1) ==> q == Relabel(p)
    ensures NoEffectFires(p) && !TwoLevels(p.d2) ==> q == Relabel(p)
    ensures NoEffectFires(p) && TwoLevels(p.d2) ==> q == p
  {
    var q1 := NoEffectSwap(p, false).value;
    if NoEffectFires(p) {
      assert q1 == Relabel(p);
      if TwoLevels(q1.d1) {
        RelabelInvolution(p);
        assert q == Relabel(q1);
      } else {
        assert q == q1;
      }
    } else {
      assert q1 == p;
    }
  }

  /** Finding: as written, the units do not follow their drug. A drug1 "A" in uM sampled at
      two concentrations and a drug2 "B" in nM come out with drug1 "B" labelled uM. */
  lemma UnitsStayAsWritten()
    ensures var p := Prepared("A", "B", [0.0, 1.0], [0.0, 2.0], [1.0, 1.0], "uM", "nM", None, None);
      var q := BoundarySwap(p, true);
      q.Ok? && q.value.drug1Name == "B" && q.value.drug1Units == "uM"
  {
    var d := [0.0, 1.0];
    assert Distinct(d) == [0.0, 1.0] by {
      assert d[..1] == [0.0];
      assert Distinct([0.0]) == [0.0] by { assert [0.0][..0] == []; }
    }
  }

  // ---------------------------------------------------------------- the fit (lines 113-146)

  const SAMPLES := 50000
  const BURN := 5000
  const PSO_PARTICLES := 100
  const PSO_ITER := 50
  const PSO_SPEED := 10
  const BOUND_ORDER := "lower bound must be strictly less than each upper bound"
  const BOUND_ERROR := "Lower bound must be strictly less than upper bound"
  const REMOVED_KEYS: seq<string> := ["save_direc", "to_save_traces", "to_save_plots", "memory_Mb"]

  /** Line 113: the experiment name, with the batch in brackets when there is a non-empty
      one. */
  function ExptAndBatch(expt: string, batch: Option<string>): (r: string)
    ensures batch.Some? && batch.value != "" ==> r == expt + " [" + batch.value + "]"
    ensures batch.None? || batch.value == "" ==> r == expt
  {
    if batch.Some? && batch.value != "" then expt + " [" + batch.value + "]" else expt
  }

  function CallOf(a: FitArgs, p: Prepared): FitCall
  {
    FitCall(p.d1, p.d2, a.dip, p.dipSd, p.drug1Name, p.drug2Name, p.eFix, p.eBnd,
            a.findOpt, a.fitGamma, a.fitAlg, false, a.sample, ExptAndBatch(a.expt, a.batch),
            a.metricName, a.hillOrient, false, SAMPLES, BURN, PSO_PARTICLES, PSO_ITER, PSO_SPEED,
            a.initSeed)
  }

  /** Lines 143-144: `del T[k]` for each key in turn; a missing key raises `KeyError`. */
  function DeleteKeys(t: Dict, ks: seq<string>): Result<Dict, TaskError>
    decreases |ks|
  {
    if |ks| == 0 then Ok(t)
    else if !HasKey(t, ks[0]) then Err(KeyError(ks[0]))
    else DeleteKeys(Remove(t, ks[0]), ks[1..])
  }

  /** Deleting distinct keys succeeds exactly when all are present, and leaves every
      other key as it was. */
  lemma {:induction false} DeleteKeysProperties(t: Dict, ks: seq<string>, k: string)
    requires NoDups(ks)
    ensures DeleteKeys(t, ks).Ok? <==> forall i :: 0 <= i < |ks| ==> HasKey(t, ks[i])
    ensures DeleteKeys(t, ks).Ok? ==>
      Get(DeleteKeys(t, ks).value, k) == if k in ks then None else Get(t, k)
    decreases |ks|
  {
    if |ks| > 0 {
      var t' := Remove(t, ks[0]);
      DeleteKeysProperties(t', ks[1..], k);
      GetRemove(t, ks[0], k);
      forall i | 0 <= i < |ks[1..]|
        ensures HasKey(t', ks[1..][i]) <==> HasKey(t, ks[1..][i])
      {
        GetRemove(t, ks[0], ks[1..][i]);
        assert ks[1..][i] == ks[i + 1] != ks[0];
      }
      if forall i :: 0 <= i < |ks| ==> HasKey(t, ks[i]) {
        assert HasKey(t, ks[0]);
      }
      if !HasKey(t, ks[0]) {
        assert !(forall i :: 0 <= i < |ks| ==> HasKey(t, ks[i]));
      }
    }
  }

  /** Lines 124-146 after the fit: a bound-order complaint becomes a `DataError`, any other
      `ValueError` goes through, and a fitted dictionary loses four keys and gains the
      task's own fields. */
  function Finish(a: FitArgs, p: Prepared, outcome: FitOutcome): Result<FitResult, TaskError>
  {
    match outcome
    case FitValueError(msg) =>
      if Contains(msg, BOUND_ORDER) then Err(DataError(BOUND_ERROR)) else Err(ValueError(msg))
    case Fitted(t) =>
      var kept :- DeleteKeys(t, REMOVED_KEYS);
      Ok(FitResult(kept, p.eFix, p.eBnd, p.drug1Units, p.drug2Units, p.d1, p.d2, a.dip, p.dipSd,
                   a.exptDate, a.batch))
  }

  /** The whole task: checks, swaps, the fit, the result. */
  function FitSpec(a: FitArgs, musyc: FitCall -> FitOutcome): Result<FitResult, TaskError>
  {
    var p :- Check(a);
    var q :- Swaps(p, false);
    Finish(a, q, musyc(CallOf(a, q)))
  }

  /** The fit is called only with admissible arguments, with its constants fixed; a
      `ValueError` about bound order always becomes the `DataError`; on success the four
      bookkeeping keys are gone and the task's fields describe the same drugs the fit
      saw. */
  lemma FitSpecProperties(a: FitArgs, musyc: FitCall -> FitOutcome, k: string)
    requires a.eFix.None? || a.eBnd.None?
    ensures !Admissible(a) ==> FitSpec(a, musyc).Err?
    ensures Admissible(a) && Swaps(Check(a).value, false).Ok? ==>
      var q := Swaps(Check(a).value, false).value;
      var c := CallOf(a, q);
      c.samples == 50000 && c.burn == 5000 && c.psoParticles == 100 && c.psoIter == 50 && c.psoSpeed == 10 &&
      !c.toPlot && !c.toSave &&
      (musyc(c).FitValueError? && Contains(musyc(c).message, BOUND_ORDER) ==>
         FitSpec(a, musyc) == Err(DataError(BOUND_ERROR))) &&
      (FitSpec(a, musyc).Ok? ==>
         var r := FitSpec(a, musyc).value;
         musyc(c).Fitted? &&
         Get(r.fitted, k) == (if k in REMOVED_KEYS then None else Get(musyc(c).t, k)) &&
         r.d1 == c.d1 && r.d2 == c.d2 && r.dipSd == c.dipSd &&
         (q == Check(a).value || q == Relabel(Check(a).value)))
  {
    CheckAccepts(a);
    if Admissible(a) && Swaps(Check(a).value, false).Ok? {
      var p := Check(a).value;
      var q := Swaps(p, false).value;
      SwapsKeepDrugsTogether(p, q);
      var c := CallOf(a, q);
      if musyc(c).Fitted? {
        assert NoDups(REMOVED_KEYS);
        DeleteKeysProperties(musyc(c).t, REMOVED_KEYS, k);
      }
    }
  }

  // ---------------------------------------------------------------- the task, step by step

  /** The minimum of the positive entries, found by a scan. */
  method MinOfPositive(a: array<real>) returns (m: Option<real>)
    ensures m == if HasPositive(a[..]) then Some(MinPositive(a[..])) else None
  {
    m := None;
    var i := 0;
    while i < a.Length
      invariant 0 <= i <= a.Length
      invariant m == if HasPositive(a[..i]) then Some(MinPositive(a[..i])) else None
    {
      assert a[..i + 1][..i] == a[..i];
      if a[i] > 0.0 && (m.None? || a[i] < m.value) {
        m := Some(a[i]);
      }
      i := i + 1;
    }
    assert a[..a.Length] == a[..];
  }

  /** Line 86 in place: every non-positive entry becomes `m`. */
  method FillNonPositive(a: array<real>, m: real)
    modifies a
    ensures a[..] == ReplaceNonPositive(old(a[..]), m)
  {
    var i := 0;
    while i < a.Length
      invariant 0 <= i <= a.Length
      invariant forall k :: 0 <= k < i ==> a[k] == if old(a[k]) <= 0.0 then m else old(a[k])
      invariant forall k :: i <= k < a.Length ==> a[k] == old(a[k])
    {
      if a[i] <= 0.0 {
        a[i] := m;
      }
      i := i + 1;
    }
  }

  /** The task body: the checks in order, the CI widths fixed in place, the swaps applied
      to the task's own variables, the fit called and the bookkeeping keys deleted. */
  method FitDrugCombination(a: FitArgs, musyc: FitCall -> FitOutcome) returns (r: Result<FitResult, TaskError>)
    ensures r == FitSpec(a, musyc)
  {
    var p;
    p, r := CheckArgs(a);
    if r.Err? {
      return;
    }
    var swapped := SwapInPlace(p);
    if swapped.Err? {
      return Err(swapped.error);
    }
    var q := swapped.value;
    var outcome := musyc(CallOf(a, q));
    if outcome.FitValueError? {
      if Contains(outcome.message, BOUND_ORDER) {
        return Err(DataError(BOUND_ERROR));
      }
      return Err(ValueError(outcome.message));
    }
    var kept := RemoveKeys(outcome.t);
    if kept.Err? {
      return Err(kept.error);
    }
    r := Ok(FitResult(kept.value, q.eFix, q.eBnd, q.drug1Units, q.drug2Units, q.d1, q.d2, a.dip, p.dipSd,
                      a.exptDate, a.batch));
  }

  /** Lines 94-111: the two swaps, made on local variables. */
  method SwapInPlace(p: Prepared) returns (r: Result<Prepared, TaskError>)
    ensures r == Swaps(p, false)
  {
    var drug1Name, drug2Name, d1, d2 := p.drug1Name, p.drug2Name, p.d1, p.d2;
    var drug1Units, drug2Units, eFix, eBnd := p.drug1Units, p.drug2Units, p.eFix, p.eBnd;
    if eFix.Some? {
      if |eFix.value| < 3 {
        return Err(IndexError);
      }
      if eFix.value[0] == eFix.value[2] {
        eFix := Some(eFix.value[2 := eFix.value[1]][1 := eFix.value[2]]);
        drug1Name, drug2Name := drug2Name, drug1Name;
        d1, d2 := d2, d1;
        drug1Units, drug2Units := drug2Units, drug1Units;
      }
    }
    var q1 := Prepared(drug1Name, drug2Name, d1, d2, p.dipSd, drug1Units, drug2Units, eFix, eBnd);
    assert NoEffectSwap(p, false) == Ok(q1) by {
      if p.eFix.Some? && p.eFix.value[0] == p.eFix.value[2] {
        assert p.eFix.value[2 := p.eFix.value[1]][1 := p.eFix.value[2]] == Swap12(p.eFix.value).value;
      }
    }
    if |Distinct(d1)| == 2 {
      if eFix.Some? {
        if |eFix.value| < 3 {
          return Err(IndexError);
        }
        eFix := Some(eFix.value[2 := eFix.value[1]][1 := eFix.value[2]]);
      }
      if eBnd.Some? {
        var b := eBnd.value;
        if |b| < 2 || |b[0]| < 3 || |b[1]| < 3 {
          return Err(IndexError);
        }
        var lo, hi := b[0][1 := b[0][2]][2 := b[0][1]], b[1][1 := b[1][2]][2 := b[1][1]];
        eBnd := Some(b[0 := lo][1 := hi]);
      }
      drug1Name, drug2Name := drug2Name, drug1Name;
      d1, d2 := d2, d1;
      drug1Units, drug2Units := drug2Units, drug1Units;
    }
    var q := Prepared(drug1Name, drug2Name, d1, d2, p.dipSd, drug1Units, drug2Units, eFix, eBnd);
    assert BoundarySwap(q1, false) == Ok(q) by {
      if |Distinct(q1.d1)| == 2 && q1.eFix.Some? {
        assert q1.eFix.value[2 := q1.eFix.value[1]][1 := q1.eFix.value[2]] == Swap12(q1.eFix.value).value;
      }
    }
    r := Ok(q);
  }

  /** Lines 143-144: the `del` statements, one key at a time. */
  method RemoveKeys(t0: Dict) returns (r: Result<Dict, TaskError>)
    ensures r == DeleteKeys(t0, REMOVED_KEYS)
  {
    var t := t0;
    for i := 0 to |REMOVED_KEYS|
      invariant DeleteKeys(t0, REMOVED_KEYS) == DeleteKeys(t, REMOVED_KEYS[i..])
    {
      if !HasKey(t, REMOVED_KEYS[i]) {
        return Err(KeyError(REMOVED_KEYS[i]));
      }
      assert REMOVED_KEYS[i..][1..] == REMOVED_KEYS[i + 1..];
      t := Remove(t, REMOVED_KEYS[i]);
    }
    assert REMOVED_KEYS[|REMOVED_KEYS|..] == [];
    r := Ok(t);
  }

  /** Lines 49-81: the checks on units, concentrations and names, one after the other. */
  method CheckDrugs(a: FitArgs) returns (e: Option<TaskError>)
    ensures e == DrugsError(a)
  {
    e := None;
    if |a.drug1Units| > 1 {
      e := Some(DataError("drug1.units contains multiple values: " + Join(", ", a.drug1Units)));
    } else if |a.drug2Units| > 1 {
      e := Some(DataError("drug1.units contains multiple values: " + Join(", ", a.drug2Units)));
    } else if |a.drug1Units| == 0 || |a.drug2Units| == 0 {
      e := Some(IndexError);
    } else if HasNegative(a.d1) {
      e := Some(DataError(NEGATIVE_D1));
    } else if HasNegative(a.d2) {
      e := Some(DataError(NEGATIVE_D2));
    } else if !HasPositive(a.d1) {
      e := Some(DataError(NO_POSITIVE_D1));
    } else if !HasPositive(a.d2) {
      e := Some(DataError(NO_POSITIVE_D2));
    } else if a.drug1Name == a.drug2Name {
      e := Some(DataError(SAME_DRUGS));
    }
  }

  /** Lines 49-90: the checks, with the CI widths copied into an array and repaired there. */
  method CheckArgs(a: FitArgs) returns (p: Prepared, r: Result<FitResult, TaskError>)
    ensures Check(a).Ok? ==> r.Ok? && p == Check(a).value
    ensures Check(a).Err? ==> r == Err(Check(a).error)
  {
    p := Prepared("", "", [], [], [], "", "", None, None);
    r := Err(IndexError);
    var e := CheckDrugs(a);
    if e.Some? {
      r := Err(e.value);
      return;
    }
    assert DrugsError(a).None?;
    var sd := new real[|a.dipSd|](i requires 0 <= i < |a.dipSd| => a.dipSd[i]);
    assert sd[..] == a.dipSd;
    if HasNonPositive(a.dipSd) {
      var m := MinOfPositive(sd);
      if m.None? {
        assert FillSd(a.dipSd) == Err(ValueError(EMPTY_MIN));
        r := Err(ValueError(EMPTY_MIN));
        return;
      }
      FillNonPositive(sd, m.value);
    }
    assert FillSd(a.dipSd) == Ok(sd[..]);
    if |a.dip| < 4 {
      r := Err(DataError(TooFewPoints(|a.dip|)));
      return;
    }
    p := Prepared(a.drug1Name, a.drug2Name, a.d1, a.d2, sd[..], a.drug1Units[0], a.drug2Units[0], a.eFix, a.eBnd);
    r := Ok(FitResult([], None, None, "", "", [], [], [], [], [], None));
  }
}
