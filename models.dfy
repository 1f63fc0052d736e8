/** The computed properties of a DatasetTask: its status, its error message, the result
    dictionary, and the CSV header and line built from FIELDS_CSV and FIELD_RENAMES. */
module Models {
  import opened Wrappers
  import opened Text
  import opened Json

  /** The linked job-queue result: its status string and the value `json.loads` gives for
      its stored result text. */
  datatype TaskResult = TaskResult(status: string, result: Json)

  /** A DatasetTask row with the fields its properties read; `datasetName` is
      `self.dataset.name`. */
  datatype DatasetTask = DatasetTask(
    drug1: string,
    drug2: string,
    sample: string,
    task: Option<TaskResult>,
    taskUuid: string,
    datasetName: string)

  /** The Python exceptions these properties can raise on malformed stored results. */
  datatype PyError = IndexError | KeyError | TypeError | AttributeError

  /** `status`: 'QUEUED' while no result is linked, otherwise the result's own status. */
  function Status(t: DatasetTask): (r: string)
    ensures t.task.None? ==> r == "QUEUED"
    ensures t.task.Some? ==> r == t.task.value.status
  {
    if t.task.None? then "QUEUED" else t.task.value.status
  }

  /** `d['exc_message'][0]` on a loaded value: a list gives its first item, a string its
      first character; anything else raises. */
  function FirstOf(v: Json): Result<Json, PyError>
  {
    match v
    case JList(items) => if |items| > 0 then Ok(items[0]) else Err(IndexError)
    case JStr(s) => if |s| > 0 then Ok(JStr([s[0]])) else Err(IndexError)
    case JObject(_) => Err(KeyError)
    case _ => Err(TypeError)
  }

  /** `error_message`. */
  function ErrorMessage(t: DatasetTask): (r: Result<Option<Json>, PyError>)
    ensures Status(t) != "FAILURE" ==> r == Ok(None)
    ensures Status(t) == "FAILURE" && r.Ok? ==> r.value.Some?
    ensures Status(t) == "FAILURE" && !t.task.value.result.JObject? ==> r == Err(AttributeError)
  {
    if t.task.None? || t.task.value.status != "FAILURE" then Ok(None)
    else
      match t.task.value.result
      case JObject(d) =>
        if Get(d, "exc_type") == Some(JStr("DataError")) && HasKey(d, "exc_message") then
          var m :- FirstOf(Get(d, "exc_message").value);
          Ok(Some(m))
        else Ok(Some(JStr("Unknown error")))
      case _ => Err(AttributeError)
  }

  /** A failed task reports the first argument of its DataError, and 'Unknown error' for
      any other failure. A message text instead of an argument list gives its first
      character, and an empty list or text raises IndexError. */
  lemma ErrorMessageOfFailure(t: DatasetTask, d: Dict, m: Json, ms: seq<Json>, s: string)
    requires t.task.Some? && t.task.value.status == "FAILURE"
    requires t.task.value.result == JObject(d)
    ensures var dataError := Get(d, "exc_type") == Some(JStr("DataError"));
      (dataError && Get(d, "exc_message") == Some(JList([m] + ms)) ==> ErrorMessage(t) == Ok(Some(m))) &&
      (dataError && Get(d, "exc_message") == Some(JList([])) ==> ErrorMessage(t) == Err(IndexError)) &&
      (dataError && Get(d, "exc_message") == Some(JStr(s)) ==>
         ErrorMessage(t) == if |s| > 0 then Ok(Some(JStr([s[0]]))) else Err(IndexError))
    ensures Get(d, "exc_type") != Some(JStr("DataError")) ==> ErrorMessage(t) == Ok(Some(JStr("Unknown error")))
    ensures !HasKey(d, "exc_message") ==> ErrorMessage(t) == Ok(Some(JStr("Unknown error")))
  {
  }

  predicate Succeeded(t: DatasetTask)
  {
    t.task.Some? && t.task.value.status == "SUCCESS"
  }

  /** The dictionary `result_dict` starts from: the three identifying fields, or the stored
      result once the task has succeeded; the key assignments that follow raise a
      `TypeError` when that result is not an object. */
  function BaseDict(t: DatasetTask): Result<Dict, PyError>
  {
    if !Succeeded(t) then
      Ok([Member("drug1_name", JStr(t.drug1)),
          Member("drug2_name", JStr(t.drug2)),
          Member("sample", JStr(t.sample))])
    else if t.task.value.result.JObject? then Ok(t.task.value.result.members)
    else Err(TypeError)
  }

  /** `result_dict`: the base dictionary with task_status, dataset_name and task_uuid then
      overwritten. */
  function ResultDict(t: DatasetTask): Result<Dict, PyError>
  {
    var base :- BaseDict(t);
    Ok(Put(Put(Put(base, "task_status", JStr(Status(t))),
                   "dataset_name", JStr(t.datasetName)),
               "task_uuid", JStr(t.taskUuid)))
  }

  lemma BaseDictContents(t: DatasetTask, k: string)
    requires !Succeeded(t)
    ensures Get(BaseDict(t).value, k) ==
      if k == "drug1_name" then Some(JStr(t.drug1))
      else if k == "drug2_name" then Some(JStr(t.drug2))
      else if k == "sample" then Some(JStr(t.sample))
      else None
  {
    var m1, m2, m3 := Member("drug1_name", JStr(t.drug1)), Member("drug2_name", JStr(t.drug2)),
      Member("sample", JStr(t.sample));
    var b := BaseDict(t).value;
    assert b == [m1, m2, m3];
    assert b[1..] == [m2, m3] && b[1..][1..] == [m3] && b[1..][1..][1..] == [];
    assert Get([m3], k) == if k == "sample" then Some(JStr(t.sample)) else None;
    assert Get([m2, m3], k) == if k == "drug2_name" then Some(JStr(t.drug2)) else Get([m3], k);
    assert Get(b, k) == if k == "drug1_name" then Some(JStr(t.drug1)) else Get([m2, m3], k);
  }

  /** What every key of the result dictionary reads as. */
  lemma ResultDictContents(t: DatasetTask, k: string)
    ensures ResultDict(t).Err? <==> Succeeded(t) && !t.task.value.result.JObject?
    ensures ResultDict(t).Ok? ==>
      Get(ResultDict(t).value, k) ==
        if k == "task_uuid" then Some(JStr(t.taskUuid))
        else if k == "dataset_name" then Some(JStr(t.datasetName))
        else if k == "task_status" then Some(JStr(Status(t)))
        else if Succeeded(t) then Get(t.task.value.result.members, k)
        else if k == "drug1_name" then Some(JStr(t.drug1))
        else if k == "drug2_name" then Some(JStr(t.drug2))
        else if k == "sample" then Some(JStr(t.sample))
        else None
  {
    if ResultDict(t).Ok? {
      var base := BaseDict(t).value;
      var d1 := Put(base, "task_status", JStr(Status(t)));
      var d2 := Put(d1, "dataset_name", JStr(t.datasetName));
      GetPut(base, "task_status", JStr(Status(t)), k);
      GetPut(d1, "dataset_name", JStr(t.datasetName), k);
      GetPut(d2, "task_uuid", JStr(t.taskUuid), k);
      if !Succeeded(t) {
        BaseDictContents(t, k);
      }
    }
  }

  // ---------------------------------------------------------------- CSV export

  /** The exported keys, in column order; written as the concatenation of the source's
      ten lines so that each piece stays small. */
  const FIELDS_CSV: seq<string> :=
    ["sample", "drug1_name", "drug2_name", "expt", "batch", "task_status"] +
    ["converge_mc_nlls", "beta", "beta_ci", "beta_obs", "beta_obs_ci"] +
    ["log_alpha1", "log_alpha1_ci", "log_alpha2", "log_alpha2_ci", "R2"] +
    ["log_like_mc_nlls", "E0", "E0_ci", "E1", "E1_ci", "E2", "E2_ci", "E3"] +
    ["E3_ci", "E1_obs", "E1_obs_ci", "E2_obs", "E2_obs_ci", "E3_obs"] +
    ["E3_obs_ci", "log_C1", "log_C1_ci", "log_C2", "log_C2_ci", "log_h1"] +
    ["log_h1_ci", "log_h2", "log_h2_ci", "h1", "h2", "C1", "C2", "time_total"] +
    ["drug1_units", "drug2_units", "metric_name", "fit_beta"] +
    ["boundary_sampling", "max_conc_d1", "max_conc_d2", "min_conc_d1"] +
    ["min_conc_d2", "fit_method", "dataset_name"]

  const FIELD_RENAMES: map<string, string> := map[
    "log_alpha1" := "log_alpha12",
    "log_alpha2" := "log_alpha21",
    "log_alpha1_ci" := "log_alpha12_ci",
    "log_alpha2_ci" := "log_alpha21_ci"]

  /** `FIELD_RENAMES.get(f, f)`. */
  function Rename(f: string): string
  {
    if f in FIELD_RENAMES then FIELD_RENAMES[f] else f
  }

  /** Only the four directional-synergy names are renamed. */
  lemma RenameOnlyAlphaNames(f: string)
    ensures Rename(f) != f <==> f in {"log_alpha1", "log_alpha2", "log_alpha1_ci", "log_alpha2_ci"}
  {
  }

  /** The exported column names, in FIELDS_CSV order. */
  function HeaderNames(fields: seq<string>): (r: seq<string>)
    ensures |r| == |fields|
    ensures forall i :: 0 <= i < |fields| ==> r[i] == Rename(fields[i])
  {
    if |fields| == 0 then [] else [Rename(fields[0])] + HeaderNames(fields[1..])
  }

  /** `s.replace(c, rep)` for a one-character pattern. */
  function ReplaceChar(s: string, c: char, rep: string): string
  {
    if |s| == 0 then ""
    else (if s[0] == c then rep else [s[0]]) + ReplaceChar(s[1..], c, rep)
  }

  /** The field as models.py:124 writes it: `'"' + s.replace('"', '\"') + '"'`. In Python
      `'\"'` is the one-character string `"`, so the replacement is `"` by `"`. */
  function QuoteFieldAsWritten(s: string): string
  {
    "\"" + ReplaceChar(s, '"', "\"") + "\""
  }

  /** The field with embedded quotes escaped by doubling them, which is what a reader of
      quoted CSV fields (RFC 4180, section 2) expects. */
  function QuoteField(s: string): string
  {
    "\"" + ReplaceChar(s, '"', "\"\"") + "\""
  }

  /** The replacement written in the source changes nothing. */
  lemma {:induction false} ReplaceQuoteByItselfIsIdentity(s: string)
    ensures ReplaceChar(s, '"', "\"") == s
  {
    if |s| > 0 {
      ReplaceQuoteByItselfIsIdentity(s[1..]);
      assert s == [s[0]] + s[1..];
    }
  }

  lemma {:induction false} ReplaceAbsentChar(s: string, c: char, rep: string)
    requires c !in s
    ensures ReplaceChar(s, c, rep) == s
  {
    if |s| > 0 {
      ReplaceAbsentChar(s[1..], c, rep);
      assert s == [s[0]] + s[1..];
    }
  }

  /** One cell, quoted as written or as corrected. */
  function QuoteCell(s: string, asWritten: bool): string
  {
    if asWritten then QuoteFieldAsWritten(s) else QuoteField(s)
  }

  function QuoteAll(vals: seq<string>, asWritten: bool): (r: seq<string>)
    ensures |r| == |vals|
    ensures forall i :: 0 <= i < |vals| ==> r[i] == QuoteCell(vals[i], asWritten)
  {
    if |vals| == 0 then []
    else [QuoteCell(vals[0], asWritten)] + QuoteAll(vals[1..], asWritten)
  }

  /** `d.get(k, dflt)`. */
  function GetOr(d: Dict, k: string, dflt: Json): Json
  {
    match Get(d, k)
    case Some(v) => v
    case None => dflt
  }

  /** `str(d.get(k, ''))` for every FIELDS_CSV key, in order. */
  function FieldValues(d: Dict): (r: seq<string>)
    ensures |r| == |FIELDS_CSV|
  {
    seq(|FIELDS_CSV|, i requires 0 <= i < |FIELDS_CSV| => Str(GetOr(d, FIELDS_CSV[i], JStr(""))))
  }

  /** `result_csv_header`. */
  function ResultCsvHeader(): string
  {
    Join(",", QuoteAll(HeaderNames(FIELDS_CSV), false))
  }

  /** `result_csv_line` exactly as written (embedded quotes left alone). */
  function ResultCsvLineAsWritten(t: DatasetTask): Result<string, PyError>
  {
    var d :- ResultDict(t);
    Ok(Join(",", QuoteAll(FieldValues(d), true)))
  }

  /** `result_csv_line` with embedded quotes escaped. */
  function ResultCsvLine(t: DatasetTask): Result<string, PyError>
  {
    var d :- ResultDict(t);
    Ok(Join(",", QuoteAll(FieldValues(d), false)))
  }

  /** `result_csv`: the header, a newline, the line. */
  function ResultCsv(t: DatasetTask): (r: Result<string, PyError>)
    ensures r.Ok? <==> ResultCsvLine(t).Ok?
    ensures r.Ok? ==> r.value == ResultCsvHeader() + "\n" + ResultCsvLine(t).value
  {
    var line :- ResultCsvLine(t);
    Ok(ResultCsvHeader() + "\n" + line)
  }

  // ---------------------------------------------------------------- reading a CSV line back

  /** Reads the inside of a quoted field up to its closing quote, turning `""` into `"`;
      gives the field's text and what follows the closing quote. */
  function DecodeBody(t: string): (r: Option<(string, string)>)
    ensures r.Some? ==> |r.value.1| < |t|
    decreases |t|
  {
    if |t| == 0 then None
    else if t[0] == '"' then
      if |t| > 1 && t[1] == '"' then
        match DecodeBody(t[2..])
        case None => None
        case Some((f, rest)) => Some(("\"" + f, rest))
      else Some(("", t[1..]))
    else
      match DecodeBody(t[1..])
      case None => None
      case Some((f, rest)) => Some(([t[0]] + f, rest))
  }

  /** Reads a line made of quoted fields separated by commas. */
  function DecodeCsvLine(s: string): Option<seq<string>>
    decreases |s|
  {
    if |s| == 0 || s[0] != '"' then None
    else
      match DecodeBody(s[1..])
      case None => None
      case Some((f, rest)) =>
        if |rest| == 0 then Some([f])
        else if rest[0] == ',' then
          match DecodeCsvLine(rest[1..])
          case None => None
          case Some(more) => Some([f] + more)
        else None
  }

  lemma {:induction false} DecodeEscaped(s: string, rest: string)
    requires |rest| == 0 || rest[0] != '"'
    ensures DecodeBody(ReplaceChar(s, '"', "\"\"") + "\"" + rest) == Some((s, rest))
  {
    var t := ReplaceChar(s, '"', "\"\"") + "\"" + rest;
    if |s| == 0 {
      assert t == "\"" + rest;
      assert t[1..] == rest;
    } else {
      DecodeEscaped(s[1..], rest);
      var tail := ReplaceChar(s[1..], '"', "\"\"") + "\"" + rest;
      assert DecodeBody(tail) == Some((s[1..], rest));
      if s[0] == '"' {
        assert t == "\"\"" + tail;
        assert t[2..] == tail;
        assert DecodeBody(t) == Some(("\"" + s[1..], rest));
      } else {
        assert t == [s[0]] + tail;
        assert t[1..] == tail;
        assert DecodeBody(t) == Some(([s[0]] + s[1..], rest));
      }
      assert s == [s[0]] + s[1..];
    }
  }

  lemma DecodeLastField(v: string)
    ensures DecodeCsvLine(QuoteField(v)) == Some([v])
  {
    var e := ReplaceChar(v, '"', "\"\"");
    assert QuoteField(v) == "\"" + (e + "\"" + "");
    DecodeEscaped(v, "");
  }

  lemma DecodeFieldThen(v: string, more: string)
    ensures DecodeCsvLine(QuoteField(v) + "," + more) ==
      match DecodeCsvLine(more)
      case None => None
      case Some(vs) => Some([v] + vs)
  {
    var e := ReplaceChar(v, '"', "\"\"");
    var rest := "," + more;
    assert QuoteField(v) + "," + more == "\"" + (e + "\"" + rest);
    assert rest[1..] == more;
    DecodeEscaped(v, rest);
  }

  /** A line of escaped fields reads back as exactly those fields, whatever commas, quotes
      or brackets they contain. */
  lemma {:induction false} CsvLineReadsBack(vals: seq<string>)
    requires |vals| >= 1
    ensures DecodeCsvLine(Join(",", QuoteAll(vals, false))) == Some(vals)
  {
    var q := QuoteAll(vals, false);
    if |vals| == 1 {
      DecodeLastField(vals[0]);
      assert Join(",", q) == QuoteField(vals[0]);
      assert vals == [vals[0]];
    } else {
      assert q[1..] == QuoteAll(vals[1..], false);
      CsvLineReadsBack(vals[1..]);
      DecodeFieldThen(vals[0], Join(",", q[1..]));
      assert vals == [vals[0]] + vals[1..];
    }
  }

  /** A successful line reads back as the string forms of the 55 exported values. */
  lemma ResultCsvLineReadsBack(t: DatasetTask)
    requires ResultCsvLine(t).Ok?
    ensures ResultDict(t).Ok?
    ensures DecodeCsvLine(ResultCsvLine(t).value) == Some(FieldValues(ResultDict(t).value))
  {
    CsvLineReadsBack(FieldValues(ResultDict(t).value));
  }

  /** The header has |FIELDS_CSV| = 55 fields and reads back as the renamed names. */
  lemma ResultCsvHeaderReadsBack()
    ensures |FIELDS_CSV| == 55
    ensures DecodeCsvLine(ResultCsvHeader()) == Some(HeaderNames(FIELDS_CSV))
  {
    CsvLineReadsBack(HeaderNames(FIELDS_CSV));
  }

  lemma {:induction false} ReplaceExcludes(s: string, c: char, rep: string, x: char)
    requires x !in s && x !in rep
    ensures x !in ReplaceChar(s, c, rep)
  {
    if |s| > 0 {
      ReplaceExcludes(s[1..], c, rep, x);
    }
  }

  lemma FieldNamesHaveNoNewline()
    ensures forall i :: 0 <= i < |FIELDS_CSV| ==> '\n' !in FIELDS_CSV[i]
    ensures forall f :: f in FIELD_RENAMES ==> '\n' !in FIELD_RENAMES[f]
  {
    FieldNamesHaveNoNewline0();
    FieldNamesHaveNoNewline1();
    FieldNamesHaveNoNewline2();
    FieldNamesHaveNoNewline3();
    FieldNamesHaveNoNewline4();
  }

  lemma FieldNamesHaveNoNewline0()
    ensures |FIELDS_CSV| == 55
    ensures forall i :: 0 <= i < 11 ==> '\n' !in FIELDS_CSV[i]
  {
  }

  lemma FieldNamesHaveNoNewline1()
    ensures |FIELDS_CSV| == 55
    ensures forall i :: 11 <= i < 22 ==> '\n' !in FIELDS_CSV[i]
  {
  }

  lemma FieldNamesHaveNoNewline2()
    ensures |FIELDS_CSV| == 55
    ensures forall i :: 22 <= i < 33 ==> '\n' !in FIELDS_CSV[i]
  {
  }

  lemma FieldNamesHaveNoNewline3()
    ensures |FIELDS_CSV| == 55
    ensures forall i :: 33 <= i < 44 ==> '\n' !in FIELDS_CSV[i]
  {
  }

  lemma FieldNamesHaveNoNewline4()
    ensures |FIELDS_CSV| == 55
    ensures forall i :: 44 <= i < 55 ==> '\n' !in FIELDS_CSV[i]
  {
  }

  /** No header cell holds a newline, so the header is the document's first line. */
  lemma HeaderHasNoNewline()
    ensures '\n' !in ResultCsvHeader()
  {
    FieldNamesHaveNoNewline();
    var names := HeaderNames(FIELDS_CSV);
    var cells := QuoteAll(names, false);
    forall k | 0 <= k < |cells|
      ensures '\n' !in cells[k]
    {
      assert '\n' !in names[k];
      ReplaceExcludes(names[k], '"', "\"\"", '\n');
    }
    JoinExcludes(",", cells, '\n');
  }

  /** In `h + "\n" + l` with no newline in `h`, the first newline ends `h`. */
  lemma FirstNewlineSplit(h: string, l: string)
    requires '\n' !in h
    ensures var doc := h + "\n" + l;
      '\n' in doc && FirstIndex(doc, '\n') == |h| && doc[..|h|] == h && doc[|h| + 1..] == l
  {
    var doc := h + "\n" + l;
    assert doc[|h|] == '\n';
    assert forall j :: 0 <= j < |h| ==> doc[j] == h[j];
  }

  /** The downloaded document reads back whole: its first line decodes to the exported
      column names and the text after it to the task's values in the same order. */
  lemma ResultCsvReadsBack(t: DatasetTask)
    requires ResultCsv(t).Ok?
    ensures ResultDict(t).Ok?
    ensures var doc := ResultCsv(t).value;
      '\n' in doc &&
      DecodeCsvLine(doc[..FirstIndex(doc, '\n')]) == Some(HeaderNames(FIELDS_CSV)) &&
      DecodeCsvLine(doc[FirstIndex(doc, '\n') + 1..]) == Some(FieldValues(ResultDict(t).value))
  {
    var h, l := ResultCsvHeader(), ResultCsvLine(t).value;
    HeaderHasNoNewline();
    FirstNewlineSplit(h, l);
    assert ResultCsv(t).value == h + "\n" + l;
    ResultCsvHeaderReadsBack();
    ResultCsvLineReadsBack(t);
  }

  /** Where no exported value contains a double quote, the line as written and the escaped
      line are the same text. */
  lemma {:induction false} AsWrittenAgreesWithoutQuotes(vals: seq<string>)
    requires forall i :: 0 <= i < |vals| ==> '"' !in vals[i]
    ensures QuoteAll(vals, true) == QuoteAll(vals, false)
  {
    forall i | 0 <= i < |vals|
      ensures QuoteAll(vals, true)[i] == QuoteAll(vals, false)[i]
    {
      ReplaceAbsentChar(vals[i], '"', "\"");
      ReplaceAbsentChar(vals[i], '"', "\"\"");
    }
  }

  /** Whatever follows it, a first field written as `"a"b"` does not read back. */
  lemma MisreadField(rest: string)
    ensures DecodeCsvLine(QuoteFieldAsWritten("a\"b") + rest) == None
  {
    ReplaceQuoteByItselfIsIdentity("a\"b");
    var line := QuoteFieldAsWritten("a\"b") + rest;
    assert line == "\"a\"b\"" + rest;
    var t := line[1..];
    assert t == "a\"b\"" + rest;
    assert t[1..] == "\"b\"" + rest;
    assert t[1..][1..] == "b\"" + rest;
    assert DecodeBody(t[1..]) == Some(("", "b\"" + rest));
  }

  lemma {:induction false} LineMisreads(vals: seq<string>)
    requires |vals| >= 2 && vals[0] == "a\"b"
    ensures DecodeCsvLine(Join(",", QuoteAll(vals, true))) == None
  {
    var q := QuoteAll(vals, true);
    assert Join(",", q) == QuoteFieldAsWritten("a\"b") + ("," + Join(",", q[1..]));
    MisreadField("," + Join(",", q[1..]));
  }

  /** A task whose sample name is `a"b` exports a line that no longer reads back: the
      unescaped quote ends the first field early. */
  lemma AsWrittenLineMisreads(t: DatasetTask)
    requires t.task.None? && t.sample == "a\"b"
    ensures ResultCsvLineAsWritten(t).Ok?
    ensures DecodeCsvLine(ResultCsvLineAsWritten(t).value) == None
  {
    ResultDictContents(t, "sample");
    var d := ResultDict(t).value;
    var vals := FieldValues(d);
    assert FIELDS_CSV[0] == "sample";
    assert GetOr(d, "sample", JStr("")) == JStr("a\"b");
    assert vals[0] == "a\"b";
    LineMisreads(vals);
  }
}
