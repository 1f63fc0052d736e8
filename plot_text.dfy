/** What the three plotting modules (singleDrugBar.py, drugComboBar.py, drugComboScatter.py)
    share: the column list of the exported parameter table, the cleaning and parsing of
    confidence-interval text, the task links, the rows a plot reads, and the colour given
    to each dataset name. Each module repeats these definitions word for word (only the
    link's base address differs), so they are stated once here. */
module PlotText {
  import opened Wrappers
  import opened ExtReals
  import opened Text
  import Models

  /** The exceptions a plot helper can raise. */
  datatype PlotError = IndexError | ValueError

  // ---------------------------------------------------------------- the parameter table

  /** `col_list`: the columns of the table each plot is built from. */
  const COL_LIST: seq<string> :=
    ["sample", "drug1_name", "drug2_name", "expt", "batch", "task_status"] +
    ["converge_mc_nlls", "beta", "beta_ci", "beta_obs", "beta_obs_ci"] +
    ["log_alpha12", "log_alpha12_ci", "log_alpha21", "log_alpha21_ci", "R2"] +
    ["log_like_mc_nlls", "E0", "E0_ci", "E1", "E1_ci", "E2", "E2_ci", "E3"] +
    ["E3_ci", "E1_obs", "E1_obs_ci", "E2_obs", "E2_obs_ci", "E3_obs"] +
    ["E3_obs_ci", "log_C1", "log_C1_ci", "log_C2", "log_C2_ci", "log_h1"] +
    ["log_h1_ci", "log_h2", "log_h2_ci", "h1", "h2", "C1", "C2", "time_total"] +
    ["drug1_units", "drug2_units", "metric_name", "fit_beta"] +
    ["boundary_sampling", "max_conc_d1", "max_conc_d2", "min_conc_d1"] +
    ["min_conc_d2", "fit_method", "dataset_name"]

  /** The plots' column list is exactly the header of the exported table: the result
      fields in export order with the four directional-synergy names renamed. */
  lemma ColumnsAreExportedHeader()
    ensures Models.HeaderNames(Models.FIELDS_CSV) == COL_LIST
  {
    ColumnsAgree0();
    ColumnsAgree1();
    ColumnsAgree2();
    ColumnsAgree3();
    ColumnsAgree4();
    ColumnsAgree5();
    ColumnsAgree6();
    ColumnsAgree7();
    ColumnsAgree8();
    ColumnsAgree9();
    ColumnsAgree10();
  }

  lemma ColumnsAgree0()
    ensures |Models.FIELDS_CSV| == |COL_LIST| == 55
    ensures forall i :: 0 <= i < 5 ==> Models.Rename(Models.FIELDS_CSV[i]) == COL_LIST[i]
  {
  }

  lemma ColumnsAgree1()
    ensures |Models.FIELDS_CSV| == |COL_LIST| == 55
    ensures forall i :: 5 <= i < 10 ==> Models.Rename(Models.FIELDS_CSV[i]) == COL_LIST[i]
  {
  }

  lemma ColumnsAgree2()
    ensures |Models.FIELDS_CSV| == |COL_LIST| == 55
    ensures forall i :: 10 <= i < 15 ==> Models.Rename(Models.FIELDS_CSV[i]) == COL_LIST[i]
  {
  }

  lemma ColumnsAgree3()
    ensures |Models.FIELDS_CSV| == |COL_LIST| == 55
    ensures forall i :: 15 <= i < 20 ==> Models.Rename(Models.FIELDS_CSV[i]) == COL_LIST[i]
  {
  }

  lemma ColumnsAgree4()
    ensures |Models.FIELDS_CSV| == |COL_LIST| == 55
    ensures forall i :: 20 <= i < 25 ==> Models.Rename(Models.FIELDS_CSV[i]) == COL_LIST[i]
  {
  }

  lemma ColumnsAgree5()
    ensures |Models.FIELDS_CSV| == |COL_LIST| == 55
    ensures forall i :: 25 <= i < 30 ==> Models.Rename(Models.FIELDS_CSV[i]) == COL_LIST[i]
  {
  }

  lemma ColumnsAgree6()
    ensures |Models.FIELDS_CSV| == |COL_LIST| == 55
    ensures forall i :: 30 <= i < 35 ==> Models.Rename(Models.FIELDS_CSV[i]) == COL_LIST[i]
  {
  }

  lemma ColumnsAgree7()
    ensures |Models.FIELDS_CSV| == |COL_LIST| == 55
    ensures forall i :: 35 <= i < 40 ==> Models.Rename(Models.FIELDS_CSV[i]) == COL_LIST[i]
  {
  }

  lemma ColumnsAgree8()
    ensures |Models.FIELDS_CSV| == |COL_LIST| == 55
    ensures forall i :: 40 <= i < 45 ==> Models.Rename(Models.FIELDS_CSV[i]) == COL_LIST[i]
  {
  }

  lemma ColumnsAgree9()
    ensures |Models.FIELDS_CSV| == |COL_LIST| == 55
    ensures forall i :: 45 <= i < 50 ==> Models.Rename(Models.FIELDS_CSV[i]) == COL_LIST[i]
  {
  }

  lemma ColumnsAgree10()
    ensures |Models.FIELDS_CSV| == |COL_LIST| == 55
    ensures forall i :: 50 <= i < 55 ==> Models.Rename(Models.FIELDS_CSV[i]) == COL_LIST[i]
  {
  }

  /** The fields of one table row that the plots read as text; `batch` is the text
      `str()` gives for the stored batch. */
  datatype Row = Row(sample: string, drug1Name: string, drug2Name: string, batch: string, datasetName: string)

  // ---------------------------------------------------------------- confidence intervals

  predicate IsBracket(c: char) { c == '[' || c == ']' }

  predicate NotBracket(c: char) { !IsBracket(c) }

  /** `translate_ci` on one cell: `str.translate` with '[' and ']' mapped to nothing. */
  function TranslateCi(s: string): (r: string)
    ensures forall i :: 0 <= i < |r| ==> !IsBracket(r[i])
    ensures |r| <= |s|
  {
    if |s| == 0 then ""
    else if IsBracket(s[0]) then TranslateCi(s[1..])
    else [s[0]] + TranslateCi(s[1..])
  }

  lemma {:induction false} TranslateCiAppend(a: string, b: string)
    ensures TranslateCi(a + b) == TranslateCi(a) + TranslateCi(b)
  {
    if |a| > 0 {
      assert (a + b)[0] == a[0] && (a + b)[1..] == a[1..] + b;
      TranslateCiAppend(a[1..], b);
    } else {
      assert a + b == b;
    }
  }

  /** `translate_ci` keeps exactly the characters that are not brackets, in order. */
  lemma {:induction false} TranslateCiKeepsOthers(s: string)
    ensures TranslateCi(s) == Filter(s, NotBracket)
  {
    if |s| > 0 {
      var init, x := s[..|s| - 1], s[|s| - 1];
      assert s == init + [x];
      TranslateCiKeepsOthers(init);
      TranslateCiAppend(init, [x]);
      FilterSnoc(init, x, NotBracket);
    }
  }

  /** Text without brackets passes through unchanged, so `translate_ci` is idempotent. */
  lemma {:induction false} TranslateCiBracketFree(s: string)
    requires forall i :: 0 <= i < |s| ==> !IsBracket(s[i])
    ensures TranslateCi(s) == s
  {
    if |s| > 0 {
      TranslateCiBracketFree(s[1..]);
      assert s == [s[0]] + s[1..];
    }
  }

  lemma TranslateCiIdempotent(s: string)
    ensures TranslateCi(TranslateCi(s)) == TranslateCi(s)
  {
    TranslateCiBracketFree(TranslateCi(s));
  }

  /** The two lists an interval column is parsed into. */
  datatype Bounds = Bounds(lower: seq<ExtReal>, upper: seq<ExtReal>)

  /** The lists after a parse, and the exception that stopped it if one did. */
  datatype Parsed = Parsed(bounds: Bounds, failure: Option<PlotError>)

  /** How `float` reads a piece of text; the plots use `Text.ParseFloat`, and the interval
      functions below are stated for any reader so that their proofs do not unfold it. */
  type FloatReader = string -> Option<ExtReal>

  /** `parse_ci`: split on ',', append `float` of the first piece to `lower`, then `float`
      of the second piece to `upper`. An exception in the second half leaves the first
      append in place. */
  function ParseCiStep(b: Bounds, ci: string, readFloat: FloatReader): Parsed
  {
    var temp := Split(ci, ',');
    match readFloat(temp[0])
    case None => Parsed(b, Some(ValueError))
    case Some(lo) =>
      var b1 := b.(lower := b.lower + [lo]);
      if |temp| < 2 then Parsed(b1, Some(IndexError))
      else
        match readFloat(temp[1])
        case None => Parsed(b1, Some(ValueError))
        case Some(hi) => Parsed(b1.(upper := b.upper + [hi]), None)
  }

  /** An interval text `parse_ci` accepts: both of its first two comma-separated pieces
      are numbers. */
  predicate CiOk(ci: string, readFloat: FloatReader)
  {
    var temp := Split(ci, ',');
    |temp| >= 2 && readFloat(temp[0]).Some? && readFloat(temp[1]).Some?
  }

  function CiLower(ci: string, readFloat: FloatReader): ExtReal
    requires CiOk(ci, readFloat)
  {
    readFloat(Split(ci, ',')[0]).value
  }

  function CiUpper(ci: string, readFloat: FloatReader): ExtReal
    requires CiOk(ci, readFloat)
  {
    readFloat(Split(ci, ',')[1]).value
  }

  /** `parse_ci` succeeds exactly on accepted texts, and then grows each list by exactly
      one element, the two bounds; a text with no comma fails with IndexError after the
      lower bound was appended. */
  lemma ParseCiStepAppendsOne(b: Bounds, ci: string, readFloat: FloatReader)
    ensures var p := ParseCiStep(b, ci, readFloat);
      (p.failure.None? <==> CiOk(ci, readFloat)) &&
      (CiOk(ci, readFloat) ==>
         p.bounds == Bounds(b.lower + [CiLower(ci, readFloat)], b.upper + [CiUpper(ci, readFloat)])) &&
      (',' !in ci && readFloat(ci).Some? ==>
         p == Parsed(Bounds(b.lower + [readFloat(ci).value], b.upper), Some(IndexError)))
  {
    if ',' !in ci {
      SplitJoin([ci], ',');
      assert Join([','], [ci]) == ci;
    }
  }

  /** The text a fit stores for an interval, "[lo, hi]", reads back as its two bounds once
      `translate_ci` has removed the brackets. */
  lemma CiRoundTrip(lo: string, hi: string)
    requires forall i :: 0 <= i < |lo| ==> lo[i] != ',' && !IsBracket(lo[i])
    requires forall i :: 0 <= i < |hi| ==> hi[i] != ',' && !IsBracket(hi[i])
    requires ParseFloat(lo).Some? && ParseFloat(hi).Some?
    ensures var ci := TranslateCi("[" + lo + ", " + hi + "]");
      CiOk(ci, ParseFloat) && CiLower(ci, ParseFloat) == ParseFloat(lo).value &&
      CiUpper(ci, ParseFloat) == ParseFloat(hi).value
  {
    FloatIgnoresLeadingSpace(hi);
    CiTextPieces(lo, hi);
  }

  /** Removing the brackets from "[lo, hi]" and splitting on ',' gives `lo` and " hi". */
  lemma CiTextPieces(lo: string, hi: string)
    requires forall i :: 0 <= i < |lo| ==> lo[i] != ',' && !IsBracket(lo[i])
    requires forall i :: 0 <= i < |hi| ==> hi[i] != ',' && !IsBracket(hi[i])
    ensures Split(TranslateCi("[" + lo + ", " + hi + "]"), ',') == [lo, " " + hi]
  {
    TranslateCiOfInterval(lo, hi);
    var parts := [lo, " " + hi];
    assert Join([','], parts) == lo + [','] + Join([','], parts[1..]);
    assert lo + ", " + hi == lo + [','] + (" " + hi);
    SplitJoin(parts, ',');
  }

  lemma TranslateCiOfInterval(lo: string, hi: string)
    requires forall i :: 0 <= i < |lo| ==> !IsBracket(lo[i])
    requires forall i :: 0 <= i < |hi| ==> !IsBracket(hi[i])
    ensures TranslateCi("[" + lo + ", " + hi + "]") == lo + ", " + hi
  {
    TranslateCiLiterals();
    TranslateCiBracketFree(lo);
    TranslateCiBracketFree(hi);
    var a2 := "[" + lo;
    TranslateCiAppend("[", lo);
    assert TranslateCi(a2) == lo;
    var a3 := a2 + ", ";
    TranslateCiAppend(a2, ", ");
    assert TranslateCi(a3) == lo + ", ";
    var a4 := a3 + hi;
    TranslateCiAppend(a3, hi);
    assert TranslateCi(a4) == lo + ", " + hi;
    TranslateCiAppend(a4, "]");
    assert TranslateCi(a4) + "" == TranslateCi(a4);
  }

  lemma TranslateCiLiterals()
    ensures TranslateCi("[") == "" && TranslateCi("]") == "" && TranslateCi(", ") == ", "
  {
    assert ", "[1..] == " " && " "[1..] == "";
    assert "["[1..] == "" && "]"[1..] == "";
  }

  /** `column.apply(lambda x: parse_ci(x, lower, upper))`: the cells in order, the first
      exception ending the walk. */
  function ParseAll(b: Bounds, cis: seq<string>, readFloat: FloatReader): Parsed
  {
    if |cis| == 0 then Parsed(b, None)
    else
      var p := ParseAll(b, cis[..|cis| - 1], readFloat);
      if p.failure.Some? then p else ParseCiStep(p.bounds, cis[|cis| - 1], readFloat)
  }

  function Lowers(cis: seq<string>, readFloat: FloatReader): (r: seq<ExtReal>)
    requires forall i :: 0 <= i < |cis| ==> CiOk(cis[i], readFloat)
    ensures |r| == |cis|
    ensures forall i :: 0 <= i < |cis| ==> r[i] == CiLower(cis[i], readFloat)
  {
    seq(|cis|, i requires 0 <= i < |cis| => CiLower(cis[i], readFloat))
  }

  function Uppers(cis: seq<string>, readFloat: FloatReader): (r: seq<ExtReal>)
    requires forall i :: 0 <= i < |cis| ==> CiOk(cis[i], readFloat)
    ensures |r| == |cis|
    ensures forall i :: 0 <= i < |cis| ==> r[i] == CiUpper(cis[i], readFloat)
  {
    seq(|cis|, i requires 0 <= i < |cis| => CiUpper(cis[i], readFloat))
  }

  /** A column of accepted interval texts leaves the two lists aligned with the rows: one
      lower and one upper bound per cell, in row order. */
  lemma {:induction false} ParseAllAligned(b: Bounds, cis: seq<string>, readFloat: FloatReader)
    requires forall i :: 0 <= i < |cis| ==> CiOk(cis[i], readFloat)
    ensures ParseAll(b, cis, readFloat) ==
      Parsed(Bounds(b.lower + Lowers(cis, readFloat), b.upper + Uppers(cis, readFloat)), None)
  {
    if |cis| > 0 {
      var init, last := cis[..|cis| - 1], cis[|cis| - 1];
      ParseAllAligned(b, init, readFloat);
      var lo, up := b.lower + Lowers(init, readFloat), b.upper + Uppers(init, readFloat);
      ParseCiStepAppendsOne(Bounds(lo, up), last, readFloat);
      assert lo + [CiLower(last, readFloat)] == b.lower + Lowers(cis, readFloat);
      assert up + [CiUpper(last, readFloat)] == b.upper + Uppers(cis, readFloat);
    }
  }

  /** The caller-owned `lower` and `upper` lists that `parse_ci` appends to. */
  class CiLists {
    var lower: seq<ExtReal>
    var upper: seq<ExtReal>

    constructor()
      ensures lower == [] && upper == []
    {
      lower := [];
      upper := [];
    }

    /** `parse_ci(ci, lower, upper)`. */
    method ParseCi(ci: string) returns (failure: Option<PlotError>)
      modifies this
      ensures Parsed(Bounds(lower, upper), failure) == ParseCiStep(Bounds(old(lower), old(upper)), ci, ParseFloat)
    {
      var temp := Split(ci, ',');
      var lo := ParseFloat(temp[0]);
      if lo.None? {
        return Some(ValueError);
      }
      lower := lower + [lo.value];
      if |temp| < 2 {
        return Some(IndexError);
      }
      var hi := ParseFloat(temp[1]);
      if hi.None? {
        return Some(ValueError);
      }
      upper := upper + [hi.value];
      return None;
    }

    /** `column.apply(lambda x: parse_ci(x, lower, upper))`. */
    method ParseColumn(cis: seq<string>) returns (failure: Option<PlotError>)
      modifies this
      ensures Parsed(Bounds(lower, upper), failure) == ParseAll(Bounds(old(lower), old(upper)), cis, ParseFloat)
    {
      ghost var start := Bounds(lower, upper);
      var k := 0;
      while k < |cis|
        invariant 0 <= k <= |cis|
        invariant Parsed(Bounds(lower, upper), None) == ParseAll(start, cis[..k], ParseFloat)
      {
        assert cis[..k + 1][..k] == cis[..k];
        failure := ParseCi(cis[k]);
        if failure.Some? {
          assert ParseAll(start, cis[..k + 1], ParseFloat) == Parsed(Bounds(lower, upper), failure);
          ParseAllStops(start, cis, k + 1, ParseFloat);
          return;
        }
        k := k + 1;
      }
      assert cis[..|cis|] == cis;
      return None;
    }
  }

  /** Once a walk has failed, the rest of the column is not read. */
  lemma {:induction false} ParseAllStops(b: Bounds, cis: seq<string>, k: nat, readFloat: FloatReader)
    requires k <= |cis| && ParseAll(b, cis[..k], readFloat).failure.Some?
    ensures ParseAll(b, cis, readFloat) == ParseAll(b, cis[..k], readFloat)
    decreases |cis| - k
  {
    if k < |cis| {
      assert cis[..k + 1][..k] == cis[..k];
      ParseAllStops(b, cis, k + 1, readFloat);
    } else {
      assert cis[..k] == cis;
    }
  }

  // ---------------------------------------------------------------- links

  /** The base address of a task's page in the two bar plots, and in the scatter plot. */
  const SITE_TASK_URL := "https://musyc.lolab.xyz/task/"
  const LOCAL_TASK_URL := "http://127.0.0.1/task/"

  /** `create_link`. */
  function CreateLink(base: string, taskId: string): (r: string)
    ensures IsPrefix(base, r) && |r| == |base| + |taskId|
  {
    base + taskId
  }

  /** `list(map(create_link, task_list))`. */
  function Links(base: string, taskIds: seq<string>): (r: seq<string>)
    ensures |r| == |taskIds|
    ensures forall i :: 0 <= i < |taskIds| ==> r[i] == CreateLink(base, taskIds[i])
  {
    if |taskIds| == 0 then [] else [CreateLink(base, taskIds[0])] + Links(base, taskIds[1..])
  }

  /** The part of a link after the base address. */
  function TaskIdOf(base: string, link: string): string
    requires IsPrefix(base, link)
  {
    link[|base|..]
  }

  /** Each link names its task, so the list of links determines the list of task ids. */
  lemma LinksNameTheirTasks(base: string, taskIds: seq<string>)
    ensures var links := Links(base, taskIds);
      forall i :: 0 <= i < |links| ==> IsPrefix(base, links[i]) && TaskIdOf(base, links[i]) == taskIds[i]
  {
    var links := Links(base, taskIds);
    forall i | 0 <= i < |links| ensures TaskIdOf(base, links[i]) == taskIds[i] {
      assert links[i] == base + taskIds[i];
    }
  }

  lemma LinksInjective(base: string, a: seq<string>, b: seq<string>)
    requires Links(base, a) == Links(base, b)
    ensures a == b
  {
    LinksNameTheirTasks(base, a);
    LinksNameTheirTasks(base, b);
  }

  /** The single-frame branch, the only one reachable since `len([dataset_list]) == 1`:
      the rows with the links column inserted after them; pandas aligns the column on the
      row index, so a row past the end of `task_list` has no link. */
  function Frame(base: string, rows: seq<Row>, taskIds: seq<string>): (r: seq<(Row, Option<string>)>)
    ensures |r| == |rows|
    ensures forall i :: 0 <= i < |rows| ==> r[i].0 == rows[i]
    ensures forall i :: 0 <= i < |rows| ==> r[i].1 == if i < |taskIds| then Some(Links(base, taskIds)[i]) else None
  {
    var links := Links(base, taskIds);
    seq(|rows|, i requires 0 <= i < |rows| => (rows[i], if i < |links| then Some(links[i]) else None))
  }

  /** `[dataset_list]` is a one-element list whatever `dataset_list` is, so the branch
      that concatenates several frames is never taken. */
  lemma OnlySingleFrame<T>(datasetList: T)
    ensures |[datasetList]| == 1
  {
  }

  // ---------------------------------------------------------------- colours

  /** `color_pallete`. */
  const PALETTE: seq<string> :=
    ["#636efa", "#00cc96", "#d62728", "#ab63fa", "#ff7f0e", "#e377c2",
     "#1616a7", "#7f7f7f", "#17becf", "#8c564b", "#bcbd22"]

  lemma PaletteDistinct()
    ensures |PALETTE| == 11 && NoDups(PALETTE)
  {
  }

  /** The colour map the loop builds over the distinct names `u`: the k-th name gets the
      k-th entry of the palette. */
  function ColorsOf(u: seq<string>, palette: seq<string>): (m: map<string, string>)
    requires NoDups(u) && |u| <= |palette|
    ensures m.Keys == Elements(u)
    ensures forall i :: 0 <= i < |u| ==> m[u[i]] == palette[i]
  {
    if |u| == 0 then map[]
    else
      var n := |u| - 1;
      var init := u[..n];
      assert forall i :: 0 <= i < n ==> init[i] == u[i];
      assert Elements(u) == Elements(init) + {u[n]} by {
        assert u == init + [u[n]];
      }
      ColorsOf(init, palette)[u[n] := palette[n]]
  }

  /** The loop over `df.dataset_name.unique()` that fills `colors`, raising IndexError when
      a twelfth name reads past the palette. */
  method AssignColors(names: seq<string>) returns (r: Result<map<string, string>, PlotError>)
    ensures r.Ok? <==> |Distinct(names)| <= |PALETTE|
    ensures r.Err? ==> r.error == IndexError
    ensures r.Ok? ==> r.value == ColorsOf(Distinct(names), PALETTE)
  {
    var u := Distinct(names);
    var colors: map<string, string> := map[];
    var y := 0;
    for k := 0 to |u|
      invariant y == k <= |PALETTE|
      invariant colors == ColorsOf(u[..k], PALETTE)
    {
      if y >= |PALETTE| {
        return Err(IndexError);
      }
      ColorsOfSnoc(u, k, PALETTE);
      colors := colors[u[k] := PALETTE[y]];
      y := y + 1;
    }
    assert u[..|u|] == u;
    return Ok(colors);
  }

  /** Colouring one more name adds exactly that name, with the next palette entry. */
  lemma ColorsOfSnoc(u: seq<string>, k: nat, palette: seq<string>)
    requires NoDups(u) && k < |u| && k < |palette|
    ensures ColorsOf(u[..k + 1], palette) == ColorsOf(u[..k], palette)[u[k] := palette[k]]
  {
    assert u[..k + 1][..k] == u[..k];
  }

  /** `df['dataset_name'].apply(lambda x: colors[x])`. */
  function RowColors(names: seq<string>, colors: map<string, string>): (r: seq<string>)
    requires forall i :: 0 <= i < |names| ==> names[i] in colors
    ensures |r| == |names|
    ensures forall i :: 0 <= i < |names| ==> r[i] == colors[names[i]]
  {
    seq(|names|, i requires 0 <= i < |names| => colors[names[i]])
  }

  /** With no more names than colours in a palette of distinct colours (as `PALETTE` is),
      every row is coloured, two rows share a colour exactly when they share a dataset
      name, and the names take the palette in the order they first appear. */
  lemma RowColorsByName(names: seq<string>, palette: seq<string>)
    requires NoDups(palette) && |Distinct(names)| <= |palette|
    ensures var u := Distinct(names);
      var colors := ColorsOf(u, palette);
      (forall i :: 0 <= i < |names| ==> names[i] in colors) &&
      (forall i, j :: 0 <= i < |names| && 0 <= j < |names| ==>
         (RowColors(names, colors)[i] == RowColors(names, colors)[j] <==> names[i] == names[j])) &&
      (forall k :: 0 <= k < |u| ==> colors[u[k]] == palette[k])
  {
    var u := Distinct(names);
    var colors := ColorsOf(u, palette);
    forall i, j | 0 <= i < |names| && 0 <= j < |names| && colors[names[i]] == colors[names[j]]
      ensures names[i] == names[j]
    {
      SameColorSameName(u, palette, names[i], names[j]);
    }
  }

  /** Distinct names get distinct colours from a palette of distinct colours. */
  lemma SameColorSameName(u: seq<string>, palette: seq<string>, x: string, y: string)
    requires NoDups(u) && NoDups(palette) && |u| <= |palette| && x in u && y in u
    requires ColorsOf(u, palette)[x] == ColorsOf(u, palette)[y]
    ensures x == y
  {
    var a, b := FirstIndex(u, x), FirstIndex(u, y);
    assert palette[a] == palette[b];
  }
}
