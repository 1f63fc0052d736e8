/** The part of `process_dataset` that turns uploaded rows into validated points: the
    validation and default CI, the queue priority, the global E0/Emax constraint, the
    alphabetical drug order and the control / single-agent / dual-agent partition. */
module TaskData {
  import opened Wrappers
  import opened ExtReals
  import opened Text

  /** One uploaded row as `pd.read_table` gives it; an NA effect, CI or batch is `None`. */
  datatype Row = Row(
    exptDate: string,
    drug1: string, conc1: real, units1: string,
    drug2: string, conc2: real, units2: string,
    effect: Option<real>,
    ci: Option<real>,
    sample: string,
    batch: Option<string>)

  /** The parsed upload: whether the optional `batch` and `effect.95ci` columns exist, and
      the rows (if `effect.95ci` is absent every row's `ci` is ignored, and likewise for
      `batch`). */
  datatype Upload = Upload(hasBatch: bool, hasCi: bool, rows: seq<Row>)

  /** A row after validation: the effect is present, the CI filled in and `effect.sd`
      added. */
  datatype Point = Point(
    exptDate: string,
    drug1: string, conc1: real, units1: string,
    drug2: string, conc2: real, units2: string,
    effect: real, ci: real, sd: real,
    sample: string,
    batch: Option<string>)

  /** The exceptions `process_dataset` and `fit_drug_combination` raise: the module's own
      DataError, and the Python errors the source lets through. */
  datatype TaskError =
    | DataError(message: string)
    | ValueError(message: string)
    | IndexError
    | KeyError(key: string)
    | BrokerError

  /** `2 * 1.96`: the effect CI is a 95% interval, so its half-width over 1.96 is the sd. */
  const SD_DIVISOR: real := 2.0 * 1.96

  /** `1e-16`, the CI used when the smallest effect is zero. */
  const TINY_CI: real := 0.0000000000000001

  // ---------------------------------------------------------------- validation

  predicate HasNegativeConc(rows: seq<Row>)
  {
    exists i :: 0 <= i < |rows| && (rows[i].conc1 < 0.0 || rows[i].conc2 < 0.0)
  }

  predicate HasBlankBatch(rows: seq<Row>)
  {
    exists i :: 0 <= i < |rows| && (rows[i].batch.None? || Strip(rows[i].batch.value) == "")
  }

  /** A blank, zero or negative `effect.95ci`. */
  predicate HasBadCi(rows: seq<Row>)
  {
    exists i :: 0 <= i < |rows| && (rows[i].ci.None? || rows[i].ci.value <= 0.0)
  }

  /** `data[data['effect'].notna()]`. */
  function Measured(rows: seq<Row>): (r: seq<Row>)
    ensures forall i :: 0 <= i < |r| ==> r[i].effect.Some?
  {
    var keep := (x: Row) => x.effect.Some?;
    FilterMembers(rows, keep);
    Filter(rows, keep)
  }

  function MinEffect(rows: seq<Row>): (m: real)
    requires |rows| > 0
    requires forall i :: 0 <= i < |rows| ==> rows[i].effect.Some?
    ensures forall i :: 0 <= i < |rows| ==> m <= rows[i].effect.value
    ensures exists i :: 0 <= i < |rows| && m == rows[i].effect.value
  {
    if |rows| == 1 then rows[0].effect.value
    else
      var m := MinEffect(rows[1..]);
      assert forall i :: 1 <= i < |rows| ==> rows[i] == rows[1..][i - 1];
      if rows[0].effect.value <= m then rows[0].effect.value else m
  }

  function Abs(x: real): real
  {
    if x < 0.0 then -x else x
  }

  /** `abs(min(data['effect'] / 100.))`, replaced by 1e-16 when it is zero. */
  function DefaultCi(rows: seq<Row>): (c: real)
    requires |rows| > 0
    requires forall i :: 0 <= i < |rows| ==> rows[i].effect.Some?
    ensures c > 0.0
  {
    var v := Abs(MinEffect(rows) / 100.0);
    if v == 0.0 then TINY_CI else v
  }

  function ToPoint(r: Row, ci: real): Point
    requires r.effect.Some?
  {
    Point(r.exptDate, r.drug1, r.conc1, r.units1, r.drug2, r.conc2, r.units2,
          r.effect.value, ci, ci / SD_DIVISOR, r.sample, r.batch)
  }

  /** Lines 255-282 of `process_dataset`: the checks in source order, the removal of rows
      without an effect, the CI column (default or validated) and the sd column. */
  function Validate(u: Upload): (r: Result<seq<Point>, TaskError>)
  {
    if HasNegativeConc(u.rows) then Err(DataError("Drug concentrations cannot be negative"))
    else if u.hasBatch && HasBlankBatch(u.rows) then
      Err(DataError("Batch column should not contain empty values"))
    else
      var kept := Measured(u.rows);
      if !u.hasCi then
        if |kept| == 0 then Err(ValueError("min() arg is an empty sequence"))
        else
          Ok(Points(kept, DefaultCis(kept)))
      else if exists i :: 0 <= i < |kept| && kept[i].ci.None? then
        Err(DataError("effect.95ci column cannot contain blank/NA values"))
      else if exists i :: 0 <= i < |kept| && kept[i].ci.value <= 0.0 then
        Err(DataError("effect.95ci column cannot contain zero or negative values"))
      else
        Ok(Points(kept, OwnCis(kept)))
  }

  /** The shared default CI, once per kept row. */
  function DefaultCis(kept: seq<Row>): (r: seq<real>)
    requires |kept| > 0 && forall i :: 0 <= i < |kept| ==> kept[i].effect.Some?
    ensures |r| == |kept| && forall i :: 0 <= i < |kept| ==> r[i] == DefaultCi(kept)
  {
    seq(|kept|, _ => DefaultCi(kept))
  }

  /** The rows' own CIs. */
  function OwnCis(kept: seq<Row>): (r: seq<real>)
    requires forall i :: 0 <= i < |kept| ==> kept[i].ci.Some?
    ensures |r| == |kept| && forall i :: 0 <= i < |kept| ==> r[i] == kept[i].ci.value
  {
    seq(|kept|, i requires 0 <= i < |kept| => kept[i].ci.value)
  }

  /** The points built from the kept rows and their CIs, one per row, in order. */
  function Points(kept: seq<Row>, cis: seq<real>): (r: seq<Point>)
    requires |cis| == |kept| && forall i :: 0 <= i < |kept| ==> kept[i].effect.Some?
    ensures |r| == |kept|
  {
    seq(|kept|, i requires 0 <= i < |kept| => ToPoint(kept[i], cis[i]))
  }

  /** Which uploads are rejected, and with which message. */
  lemma ValidateErrors(u: Upload)
    ensures HasNegativeConc(u.rows) ==>
      Validate(u) == Err(DataError("Drug concentrations cannot be negative"))
    ensures !HasNegativeConc(u.rows) && u.hasBatch && HasBlankBatch(u.rows) ==>
      Validate(u) == Err(DataError("Batch column should not contain empty values"))
    ensures Validate(u).Err? <==>
      HasNegativeConc(u.rows) || (u.hasBatch && HasBlankBatch(u.rows))
      || (!u.hasCi && |Measured(u.rows)| == 0)
      || (u.hasCi && HasBadCi(Measured(u.rows)))
  {
  }

  /** An accepted upload keeps exactly its measured rows, in order, each with a positive CI
      (the upload's own, or the shared default) and sd = CI / 3.92. */
  lemma ValidatePoints(u: Upload)
    requires Validate(u).Ok?
    ensures |Validate(u).value| == |Measured(u.rows)|
    ensures forall i :: 0 <= i < |Measured(u.rows)| ==>
      var p := Validate(u).value[i];
      var r := Measured(u.rows)[i];
      p.drug1 == r.drug1 && p.drug2 == r.drug2 && p.conc1 == r.conc1 && p.conc2 == r.conc2 &&
      p.conc1 >= 0.0 && p.conc2 >= 0.0 &&
      p.effect == r.effect.value && p.sample == r.sample && p.batch == r.batch &&
      p.ci > 0.0 && p.sd == p.ci / SD_DIVISOR &&
      p.ci == (if u.hasCi then r.ci.value else DefaultCi(Measured(u.rows)))
    ensures u.hasBatch ==> forall i :: 0 <= i < |Validate(u).value| ==>
      Validate(u).value[i].batch.Some? && Strip(Validate(u).value[i].batch.value) != ""
  {
    ValidateAccepts(u);
    MeasuredKeepsChecks(u);
    var kept := Measured(u.rows);
    PointsKeepRows(kept, if u.hasCi then OwnCis(kept) else DefaultCis(kept), u.hasCi, u.hasBatch);
  }

  /** The per-point half of `ValidatePoints`, for any kept rows that passed the checks. */
  lemma PointsKeepRows(kept: seq<Row>, cis: seq<real>, hasCi: bool, hasBatch: bool)
    requires forall i :: 0 <= i < |kept| ==> kept[i].effect.Some?
    requires forall i :: 0 <= i < |kept| ==> kept[i].conc1 >= 0.0 && kept[i].conc2 >= 0.0
    requires hasBatch ==> forall i :: 0 <= i < |kept| ==> kept[i].batch.Some? && Strip(kept[i].batch.value) != ""
    requires hasCi ==>
      (forall i :: 0 <= i < |kept| ==> kept[i].ci.Some? && kept[i].ci.value > 0.0) && cis == OwnCis(kept)
    requires !hasCi ==> |kept| > 0 && cis == DefaultCis(kept)
    ensures var v := Points(kept, cis);
      forall i :: 0 <= i < |kept| ==>
      v[i].drug1 == kept[i].drug1 && v[i].drug2 == kept[i].drug2 &&
      v[i].conc1 == kept[i].conc1 && v[i].conc2 == kept[i].conc2 &&
      v[i].conc1 >= 0.0 && v[i].conc2 >= 0.0 &&
      v[i].effect == kept[i].effect.value && v[i].sample == kept[i].sample && v[i].batch == kept[i].batch &&
      v[i].ci > 0.0 && v[i].sd == v[i].ci / SD_DIVISOR &&
      v[i].ci == (if hasCi then kept[i].ci.value else DefaultCi(kept)) &&
      (hasBatch ==> v[i].batch.Some? && Strip(v[i].batch.value) != "")
  {
    forall i | 0 <= i < |kept| {
      PointOfRow(kept, cis, i);
    }
  }

  /** What an accepted upload passed, and the points it gives. */
  lemma ValidateAccepts(u: Upload)
    requires Validate(u).Ok?
    ensures !HasNegativeConc(u.rows) && (u.hasBatch ==> !HasBlankBatch(u.rows))
    ensures var kept := Measured(u.rows);
      (u.hasCi ==> (forall i :: 0 <= i < |kept| ==> kept[i].ci.Some? && kept[i].ci.value > 0.0) &&
                   Validate(u).value == Points(kept, OwnCis(kept))) &&
      (!u.hasCi ==> |kept| > 0 && Validate(u).value == Points(kept, DefaultCis(kept)))
  {
  }

  /** The rows an accepted upload keeps passed the concentration and batch checks. */
  lemma {:induction false} MeasuredKeepsChecks(u: Upload)
    requires !HasNegativeConc(u.rows) && (u.hasBatch ==> !HasBlankBatch(u.rows))
    ensures forall i :: 0 <= i < |Measured(u.rows)| ==>
      var r := Measured(u.rows)[i];
      r.conc1 >= 0.0 && r.conc2 >= 0.0 &&
      (u.hasBatch ==> r.batch.Some? && Strip(r.batch.value) != "")
  {
    var kept := Measured(u.rows);
    FilterMembers(u.rows, (x: Row) => x.effect.Some?);
    forall i | 0 <= i < |kept|
      ensures kept[i].conc1 >= 0.0 && kept[i].conc2 >= 0.0
      ensures u.hasBatch ==> kept[i].batch.Some? && Strip(kept[i].batch.value) != ""
    {
      assert kept[i] in u.rows;
      var j :| 0 <= j < |u.rows| && u.rows[j] == kept[i];
    }
  }

  /** Each point carries its row's fields, its CI and that CI over 3.92. */
  lemma PointOfRow(kept: seq<Row>, cis: seq<real>, i: nat)
    requires |cis| == |kept| && forall k :: 0 <= k < |kept| ==> kept[k].effect.Some?
    requires i < |kept|
    ensures var p, r := Points(kept, cis)[i], kept[i];
      p.drug1 == r.drug1 && p.drug2 == r.drug2 && p.conc1 == r.conc1 && p.conc2 == r.conc2 &&
      p.effect == r.effect.value && p.sample == r.sample && p.batch == r.batch &&
      p.ci == cis[i] && p.sd == cis[i] / SD_DIVISOR
  {
  }

  /** The missing-CI default is |min effect| / 100, and 1e-16 when the smallest effect is
      zero. */
  lemma DefaultCiValue(rows: seq<Row>, i: nat)
    requires |rows| > 0
    requires forall k :: 0 <= k < |rows| ==> rows[k].effect.Some?
    requires i < |rows| && forall j :: 0 <= j < |rows| ==> rows[i].effect.value <= rows[j].effect.value
    ensures DefaultCi(rows) ==
      if rows[i].effect.value == 0.0 then TINY_CI else Abs(rows[i].effect.value) / 100.0
  {
    var m := MinEffect(rows);
    assert m == rows[i].effect.value;
  }

  // ---------------------------------------------------------------- priority

  /** Lines 284-288: an explicit priority is kept; otherwise a dataset of at least
      `CELERY_DEPRIORITISE_SIZE_L2` rows runs at 2, one of at least `..._L3` rows at 3. */
  function PickPriority(requested: Option<int>, n: nat, sizeL2: int, sizeL3: int): (r: Option<int>)
    ensures requested.Some? ==> r == requested
    ensures requested.None? ==> (r.Some? <==> n >= sizeL2 || n >= sizeL3)
    ensures requested.None? && r.Some? ==> r.value in {2, 3}
  {
    if requested.Some? then requested
    else if n >= sizeL2 then Some(2)
    else if n >= sizeL3 then Some(3)
    else None
  }

  /** A dataset is deprioritised more the larger it is; with the usual thresholds (L3
      below L2) one smaller than L3 keeps the default priority. */
  lemma PriorityBySize(n: nat, sizeL2: int, sizeL3: int)
    ensures n >= sizeL2 ==> PickPriority(None, n, sizeL2, sizeL3) == Some(2)
    ensures sizeL3 <= n < sizeL2 ==> PickPriority(None, n, sizeL2, sizeL3) == Some(3)
    ensures sizeL3 < sizeL2 && n < sizeL3 ==> PickPriority(None, n, sizeL2, sizeL3) == None
  {
  }

  // ---------------------------------------------------------------- global constraint

  /** The dataset's four optional effect bounds, as the upload form stored them. */
  datatype Bounds = Bounds(
    e0Lower: Option<ExtReal>, e0Upper: Option<ExtReal>,
    emaxLower: Option<ExtReal>, emaxUpper: Option<ExtReal>)

  /** `E_fix` is `[E0, E1, E2, E3]`; `E_bnd` is `[lower row, upper row]`, each of four. */
  datatype Constraint = Constraint(eFix: Option<seq<ExtReal>>, eBnd: Option<seq<seq<ExtReal>>>)

  function OrElse(v: Option<ExtReal>, d: ExtReal): ExtReal
  {
    if v.Some? then v.value else d
  }

  /** Lines 294-312. */
  function GlobalConstraint(b: Bounds): (c: Constraint)
    ensures !(c.eFix.Some? && c.eBnd.Some?)
  {
    if b.emaxLower.None? && b.emaxUpper.None? && b.e0Lower.None? && b.e0Upper.None? then
      Constraint(None, None)
    else if b.emaxLower == b.emaxUpper && b.emaxLower.Some? && b.e0Lower == b.e0Upper && b.e0Lower.Some? then
      Constraint(Some([b.e0Lower.value] + [b.emaxLower.value, b.emaxLower.value, b.emaxLower.value]), None)
    else
      var e0Lwr := OrElse(b.e0Lower, NegInf);
      var e0Upr := OrElse(b.e0Upper, PosInf);
      var emaxLwr := OrElse(b.emaxLower, NegInf);
      var emaxUpr := OrElse(b.emaxUpper, PosInf);
      Constraint(None, Some([[e0Lwr, emaxLwr, emaxLwr, emaxLwr], [e0Upr, emaxUpr, emaxUpr, emaxUpr]]))
  }

  /** The three outcomes: nothing without bounds, `E_fix` when both pairs coincide, and
      otherwise `E_bnd` with missing lowers at -inf and missing uppers at +inf. */
  lemma GlobalConstraintCases(b: Bounds)
    ensures (b.e0Lower.None? && b.e0Upper.None? && b.emaxLower.None? && b.emaxUpper.None?)
            <==> GlobalConstraint(b) == Constraint(None, None)
    ensures GlobalConstraint(b).eFix.Some? <==>
      b.e0Lower.Some? && b.e0Lower == b.e0Upper && b.emaxLower.Some? && b.emaxLower == b.emaxUpper
    ensures GlobalConstraint(b).eFix.Some? ==>
      GlobalConstraint(b).eFix.value == [b.e0Lower.value, b.emaxLower.value, b.emaxLower.value, b.emaxLower.value]
    ensures GlobalConstraint(b).eBnd.Some? ==>
      var bnd := GlobalConstraint(b).eBnd.value;
      |bnd| == 2 && |bnd[0]| == 4 && |bnd[1]| == 4 &&
      bnd[0][0] == OrElse(b.e0Lower, NegInf) && bnd[1][0] == OrElse(b.e0Upper, PosInf) &&
      (forall k :: 1 <= k < 4 ==> bnd[0][k] == OrElse(b.emaxLower, NegInf)) &&
      (forall k :: 1 <= k < 4 ==> bnd[1][k] == OrElse(b.emaxUpper, PosInf))
  {
  }

  // ---------------------------------------------------------------- drug order

  /** The six drug columns that lines 317-320 assign. */
  datatype Col = Drug1Col | Conc1Col | Units1Col | Drug2Col | Conc2Col | Units2Col

  datatype Cell = TextCell(s: string) | NumCell(x: real)

  predicate IsTextCol(c: Col)
  {
    c !in {Conc1Col, Conc2Col}
  }

  function CellOf(p: Point, c: Col): (v: Cell)
    ensures v.TextCell? <==> IsTextCol(c)
  {
    match c
    case Drug1Col => TextCell(p.drug1)
    case Conc1Col => NumCell(p.conc1)
    case Units1Col => TextCell(p.units1)
    case Drug2Col => TextCell(p.drug2)
    case Conc2Col => NumCell(p.conc2)
    case Units2Col => TextCell(p.units2)
  }

  function SetCell(p: Point, c: Col, v: Cell): (r: Point)
    requires v.TextCell? <==> IsTextCol(c)
    ensures CellOf(r, c) == v
    ensures forall c' :: c' != c ==> CellOf(r, c') == CellOf(p, c')
  {
    match c
    case Drug1Col => p.(drug1 := v.s)
    case Conc1Col => p.(conc1 := v.x)
    case Units1Col => p.(units1 := v.s)
    case Drug2Col => p.(drug2 := v.s)
    case Conc2Col => p.(conc2 := v.x)
    case Units2Col => p.(units2 := v.s)
  }

  const TARGET_COLS: seq<Col> := [Drug1Col, Conc1Col, Units1Col, Drug2Col, Conc2Col, Units2Col]
  const SOURCE_COLS: seq<Col> := [Drug2Col, Conc2Col, Units2Col, Drug1Col, Conc1Col, Units1Col]

  predicate SameKinds(targets: seq<Col>, sources: seq<Col>)
  {
    |targets| == |sources| && forall k :: 0 <= k < |targets| ==> IsTextCol(targets[k]) == IsTextCol(sources[k])
  }

  /** `row.loc[targets] = src.loc[sources]`. When the right-hand side is a frame, pandas
      aligns it on column labels before assigning (`alignOnLabels`), so target column `t`
      receives `src[t]`; assigning positionally gives target `k` the value of source `k`. */
  function LocAssign(row: Point, src: Point, targets: seq<Col>, sources: seq<Col>, alignOnLabels: bool): Point
    requires SameKinds(targets, sources)
    decreases |targets|
  {
    if |targets| == 0 then row
    else
      var from := if alignOnLabels then targets[0] else sources[0];
      LocAssign(SetCell(row, targets[0], CellOf(src, from)), src, targets[1..], sources[1..], alignOnLabels)
  }

  /** Swaps the (name, concentration, units) triples of the two drugs; this is also what
      `_swap_drug1_drug2`'s column renaming does to one row. */
  function SwapPoint(p: Point): Point
  {
    p.(drug1 := p.drug2, conc1 := p.conc2, units1 := p.units2,
       drug2 := p.drug1, conc2 := p.conc1, units2 := p.units1)
  }

  /** `_swap_drug1_drug2` (tasks.py:149-157): the column renaming it applies. */
  function SwapColumnName(c: string): string
  {
    if c == "drug1" then "drug2"
    else if c == "drug2" then "drug1"
    else if c == "drug1.conc" then "drug2.conc"
    else if c == "drug2.conc" then "drug1.conc"
    else if c == "drug1.units" then "drug2.units"
    else if c == "drug2.units" then "drug1.units"
    else c
  }

  /** Renaming twice gives every column its name back, and only the six drug columns
      are renamed. */
  lemma SwapColumnNameInvolution(c: string)
    ensures SwapColumnName(SwapColumnName(c)) == c
    ensures SwapColumnName(c) != c <==> c in ["drug1", "drug2", "drug1.conc", "drug2.conc", "drug1.units", "drug2.units"]
  {
  }

  /** The frame column a `Col` stands for. */
  function ColName(c: Col): string
  {
    match c
    case Drug1Col => "drug1"
    case Conc1Col => "drug1.conc"
    case Units1Col => "drug1.units"
    case Drug2Col => "drug2"
    case Conc2Col => "drug2.conc"
    case Units2Col => "drug2.units"
  }

  function SwapCol(c: Col): Col
  {
    match c
    case Drug1Col => Drug2Col
    case Conc1Col => Conc2Col
    case Units1Col => Units2Col
    case Drug2Col => Drug1Col
    case Conc2Col => Conc1Col
    case Units2Col => Units1Col
  }

  /** `SwapPoint` is the renaming seen from one row: the column named `c` of the swapped
      row holds what the column renamed to `c` held, and swapping twice is the identity. */
  lemma SwapPointIsRename(p: Point, c: Col)
    ensures ColName(SwapCol(c)) == SwapColumnName(ColName(c))
    ensures CellOf(SwapPoint(p), c) == CellOf(p, SwapCol(c))
    ensures SwapPoint(SwapPoint(p)) == p
  {
  }

  predicate OutOfOrder(p: Point)
  {
    StrLess(p.drug2, p.drug1)
  }

  /** Lines 316-320 as written: label alignment writes every out-of-order row back
      unchanged. */
  function CanonicalPointAsWritten(p: Point): Point
  {
    if OutOfOrder(p) then LocAssign(p, p, TARGET_COLS, SOURCE_COLS, true) else p
  }

  /** Lines 316-320 as intended: an out-of-order row has its drug triples exchanged. */
  function CanonicalPoint(p: Point): Point
  {
    if OutOfOrder(p) then SwapPoint(p) else p
  }

  lemma {:induction false} AlignedAssignChangesNothing(row: Point, src: Point, targets: seq<Col>, sources: seq<Col>)
    requires SameKinds(targets, sources)
    requires forall k :: 0 <= k < |targets| ==> CellOf(row, targets[k]) == CellOf(src, targets[k])
    ensures LocAssign(row, src, targets, sources, true) == row
  {
    if |targets| > 0 {
      var row' := SetCell(row, targets[0], CellOf(src, targets[0]));
      assert row' == row by {
        assert forall c :: CellOf(row', c) == CellOf(row, c);
        assert CellOf(row', Drug1Col) == CellOf(row, Drug1Col);
        assert CellOf(row', Conc1Col) == CellOf(row, Conc1Col);
        assert CellOf(row', Units1Col) == CellOf(row, Units1Col);
        assert CellOf(row', Drug2Col) == CellOf(row, Drug2Col);
        assert CellOf(row', Conc2Col) == CellOf(row, Conc2Col);
        assert CellOf(row', Units2Col) == CellOf(row, Units2Col);
      }
      AlignedAssignChangesNothing(row, src, targets[1..], sources[1..]);
    }
  }

  /** The assignment as written changes no row at all. */
  lemma CanonicalAsWrittenIsIdentity(p: Point)
    ensures CanonicalPointAsWritten(p) == p
  {
    AlignedAssignChangesNothing(p, p, TARGET_COLS, SOURCE_COLS);
  }

  /** A row with drug1 = "B" and drug2 = "A" stays out of order as written. */
  lemma CanonicalAsWrittenKeepsOrder(p: Point)
    requires p.drug1 == "B" && p.drug2 == "A"
    ensures OutOfOrder(CanonicalPointAsWritten(p))
  {
    CanonicalAsWrittenIsIdentity(p);
  }

  /** The positional assignment is exactly the triple swap, so `CanonicalPoint` is the
      assignment with the alignment taken out. */
  lemma PositionalAssignSwaps(p: Point)
    ensures LocAssign(p, p, TARGET_COLS, SOURCE_COLS, false) == SwapPoint(p)
    ensures CanonicalPoint(p) == if OutOfOrder(p) then LocAssign(p, p, TARGET_COLS, SOURCE_COLS, false) else p
  {
  }

  /** After canonicalisation drug1 <= drug2; an in-order row is unchanged and an
      out-of-order one has its triples swapped; a second pass changes nothing. */
  lemma CanonicalPointProperties(p: Point)
    ensures !OutOfOrder(CanonicalPoint(p))
    ensures !OutOfOrder(p) ==> CanonicalPoint(p) == p
    ensures OutOfOrder(p) ==> CanonicalPoint(p) == SwapPoint(p)
    ensures CanonicalPoint(CanonicalPoint(p)) == CanonicalPoint(p)
  {
    if OutOfOrder(p) {
      StrLessAsymmetric(p.drug2, p.drug1);
    }
  }

  /** The whole column assignment, row by row. */
  function Canonicalise(ps: seq<Point>): (r: seq<Point>)
    ensures |r| == |ps|
    ensures forall i :: 0 <= i < |ps| ==> r[i] == CanonicalPoint(ps[i])
  {
    seq(|ps|, i requires 0 <= i < |ps| => CanonicalPoint(ps[i]))
  }

  lemma CanonicaliseIdempotent(ps: seq<Point>)
    ensures Canonicalise(Canonicalise(ps)) == Canonicalise(ps)
    ensures forall i :: 0 <= i < |ps| ==> !OutOfOrder(Canonicalise(ps)[i])
  {
    forall i | 0 <= i < |ps|
      ensures CanonicalPoint(CanonicalPoint(ps[i])) == CanonicalPoint(ps[i])
      ensures !OutOfOrder(CanonicalPoint(ps[i]))
    {
      CanonicalPointProperties(ps[i]);
    }
  }

  /** The frame's assignment applied in place to its rows. */
  method CanonicaliseFrame(a: array<Point>)
    modifies a
    ensures a[..] == Canonicalise(old(a[..]))
  {
    var i := 0;
    while i < a.Length
      invariant 0 <= i <= a.Length
      invariant forall k :: 0 <= k < i ==> a[k] == CanonicalPoint(old(a[k]))
      invariant forall k :: i <= k < a.Length ==> a[k] == old(a[k])
    {
      if OutOfOrder(a[i]) {
        a[i] := SwapPoint(a[i]);
      }
      i := i + 1;
    }
  }

  // ---------------------------------------------------------------- partition

  predicate IsControl(p: Point) { p.conc1 == 0.0 && p.conc2 == 0.0 }
  predicate IsSingle1(p: Point) { p.conc1 == 0.0 && p.conc2 != 0.0 }
  predicate IsSingle2(p: Point) { p.conc1 != 0.0 && p.conc2 == 0.0 }
  predicate IsDual(p: Point) { p.conc1 != 0.0 && p.conc2 != 0.0 }

  /** Lines 323-330: the four filters are complementary, so every row falls in exactly
      one. */
  lemma PartitionExactlyOne(p: Point)
    ensures IsControl(p) || IsSingle1(p) || IsSingle2(p) || IsDual(p)
    ensures !(IsControl(p) && IsSingle1(p)) && !(IsControl(p) && IsSingle2(p)) && !(IsControl(p) && IsDual(p))
    ensures !(IsSingle1(p) && IsSingle2(p)) && !(IsSingle1(p) && IsDual(p)) && !(IsSingle2(p) && IsDual(p))
  {
  }

  /** The four selections together hold every row once. */
  lemma {:induction false} PartitionCovers(ps: seq<Point>)
    ensures |Filter(ps, IsControl)| + |Filter(ps, IsSingle1)| + |Filter(ps, IsSingle2)| + |Filter(ps, IsDual)| == |ps|
  {
    if |ps| > 0 {
      var q := ps[..|ps| - 1];
      var x := ps[|ps| - 1];
      assert ps == q + [x];
      PartitionCovers(q);
      FilterSnoc(q, x, IsControl);
      FilterSnoc(q, x, IsSingle1);
      FilterSnoc(q, x, IsSingle2);
      FilterSnoc(q, x, IsDual);
    }
  }
}
