/** The dataset upload form (forms.py:14-212): the header check on the uploaded file and
    the cleaning of the orientation and effect-constraint fields, which runs in a fixed
    order over the form's `cleaned_data` map. */
module Forms {
  import opened Wrappers
  import opened ExtReals
  import opened Text

  /** The values that can sit in `cleaned_data`: `None`, a string (choice fields), an int
      (the cleaned orientation) or a float (float fields, and the infinities the bound
      steps write back). */
  datatype Value = VNone | VStr(s: string) | VInt(i: int) | VNum(x: ExtReal)

  type Data = map<Field, Value>

  /** `ValidationError` is shown on the form; the others are Python exceptions that
      escape `clean`. `MissingFields` is the validation error listing the absent
      columns, whose order in the message is the unspecified order of a Python set. */
  datatype FormError =
    | ValidationError(message: string)
    | MissingFields(fields: set<string>)
    | KeyError(key: Field)
    | TypeError
    | OverflowError
    | IndexError

  // ---------------------------------------------------------------- clean_file (lines 15-25, 62-95)

  /** The keys of `REQUIRED_FIELDS`. */
  const REQUIRED_FIELDS: set<string> := {"expt.date", "drug1.conc", "drug2.conc", "effect", "sample",
                                         "drug1", "drug2", "drug1.units", "drug2.units"}

  const EMPTY_FILE := "File is empty!"
  const NO_COMMA := "No comma detected in first line. Check separator is comma and not tab, for example."
  const NOT_LOWER := "Column names must be in lower case"

  /** The characters at which `str.splitlines` breaks a line. */
  predicate IsLineBreak(c: char)
  {
    var n := c as int;
    n == 0x0A || n == 0x0B || n == 0x0C || n == 0x0D || 0x1C <= n <= 0x1E ||
    n == 0x85 || n == 0x2028 || n == 0x2029
  }

  /** `c.splitlines()[0]` for a non-empty `c`: everything before the first line break. */
  function FirstLine(c: string): (r: string)
    ensures IsPrefix(r, c)
    ensures forall i :: 0 <= i < |r| ==> !IsLineBreak(r[i])
    ensures |r| < |c| ==> IsLineBreak(c[|r|])
  {
    if |c| == 0 || IsLineBreak(c[0]) then "" else [c[0]] + FirstLine(c[1..])
  }

  predicate IsQuoted(h: string)
  {
    |h| >= 1 && h[0] == '"' && h[|h| - 1] == '"'
  }

  /** `h[1:-1]`. */
  function Unquote(h: string): string
  {
    if |h| >= 2 then h[1..|h| - 1] else ""
  }

  /** The column names of a header line: the comma-separated pieces, with their
      surrounding quotes removed only when every piece is quoted. */
  function Headers(line: string): set<string>
  {
    var parts := Split(line, ',');
    if forall i :: 0 <= i < |parts| ==> IsQuoted(parts[i]) then set i | 0 <= i < |parts| :: Unquote(parts[i])
    else Elements(parts)
  }

  /** `clean_file`: `chunk` is the first chunk of the upload, decoded (None when the file
      has no bytes). The file is returned unchanged when its header line passes. */
  function CleanFile<F>(f: F, chunk: Option<string>): (r: Result<F, FormError>)
    ensures r.Ok? ==> r.value == f
  {
    if chunk.None? then Err(ValidationError(EMPTY_FILE))
    else if chunk.value == "" then Err(IndexError)
    else
      var line := FirstLine(chunk.value);
      if ',' !in line then Err(ValidationError(NO_COMMA))
      else if Lower(line) != line then Err(ValidationError(NOT_LOWER))
      else
        var missing := REQUIRED_FIELDS - Headers(line);
        if missing != {} then Err(MissingFields(missing)) else Ok(f)
  }

  /** The header check fails in the source's order, and a missing-fields error names
      exactly the required columns the header lacks. */
  lemma CleanFileErrors<F>(f: F, chunk: Option<string>)
    ensures chunk.None? <==> CleanFile(f, chunk) == Err(ValidationError(EMPTY_FILE))
    ensures chunk.Some? && chunk.value != "" && ',' !in FirstLine(chunk.value) ==>
      CleanFile(f, chunk) == Err(ValidationError(NO_COMMA))
    ensures CleanFile(f, chunk).Err? && CleanFile(f, chunk).error.MissingFields? ==>
      var line := FirstLine(chunk.value);
      CleanFile(f, chunk).error.fields == REQUIRED_FIELDS - Headers(line) &&
      CleanFile(f, chunk).error.fields != {} && ',' in line && Lower(line) == line
  {
  }

  function Quote(h: string): string
  {
    "\"" + h + "\""
  }

  function QuoteAll(names: seq<string>): (r: seq<string>)
    ensures |r| == |names|
    ensures forall i :: 0 <= i < |names| ==> r[i] == Quote(names[i])
  {
    seq(|names|, i requires 0 <= i < |names| => Quote(names[i]))
  }

  /** A comma-joined header line whose pieces are not all quoted names exactly those
      pieces. */
  lemma HeadersOfPlainLine(names: seq<string>)
    requires |names| >= 1
    requires forall i :: 0 <= i < |names| ==> ',' !in names[i]
    requires exists i :: 0 <= i < |names| && !IsQuoted(names[i])
    ensures Headers(Join(",", names)) == Elements(names)
  {
    SplitJoin(names, ',');
    assert [','] == ",";
  }

  /** A header line of quoted names names exactly the names inside the quotes. */
  lemma HeadersOfQuotedLine(names: seq<string>)
    requires |names| >= 1
    requires forall i :: 0 <= i < |names| ==> ',' !in names[i]
    ensures Headers(Join(",", QuoteAll(names))) == Elements(names)
  {
    var q := QuoteAll(names);
    forall i | 0 <= i < |q|
      ensures ',' !in q[i] && IsQuoted(q[i]) && Unquote(q[i]) == names[i]
    {
      assert q[i] == ['"'] + names[i] + ['"'];
      assert q[i][1..|q[i]| - 1] == names[i];
    }
    SplitJoin(q, ',');
    assert [','] == ",";
    assert Split(Join(",", q), ',') == q;
    var hs := set i | 0 <= i < |q| :: Unquote(q[i]);
    forall x | x in Elements(names) ensures x in hs {
      var i :| 0 <= i < |names| && names[i] == x;
      assert Unquote(q[i]) == x;
    }
  }

  /** The first line of a chunk is the text before its first line break. */
  lemma {:induction false} FirstLineOfText(line: string, brk: char, rest: string)
    requires forall i :: 0 <= i < |line| ==> !IsLineBreak(line[i])
    requires IsLineBreak(brk)
    ensures FirstLine(line + [brk] + rest) == line
  {
    if |line| > 0 {
      FirstLineOfText(line[1..], brk, rest);
      assert (line + [brk] + rest)[1..] == line[1..] + [brk] + rest;
    }
  }

  lemma JoinHasComma(names: seq<string>)
    requires |names| >= 2
    ensures ',' in Join(",", names)
  {
    assert Join(",", names)[|names[0]|] == ',';
  }

  predicate IsUpper(c: char) { 'A' <= c <= 'Z' }

  /** A string with no upper-case letter is its own lower-case form. */
  lemma LowerOfLowerCase(s: string)
    requires forall i :: 0 <= i < |s| ==> !IsUpper(s[i])
    ensures Lower(s) == s
  {
  }

  /** A chunk whose first line has a comma and no upper-case letter is accepted exactly
      when that line names every required field. */
  lemma CleanFileAcceptsLine<F>(f: F, line: string, rest: string)
    requires ',' in line
    requires forall i :: 0 <= i < |line| ==> !IsLineBreak(line[i]) && !IsUpper(line[i])
    ensures CleanFile(f, Some(line + "\n" + rest)) ==
      if REQUIRED_FIELDS <= Headers(line) then Ok(f) else Err(MissingFields(REQUIRED_FIELDS - Headers(line)))
  {
    var c := line + "\n" + rest;
    assert c == line + ['\n'] + rest;
    assert c[|line|] == '\n';
    FirstLineOfText(line, '\n', rest);
    LowerOfLowerCase(line);
    EmptyDifference(REQUIRED_FIELDS, Headers(line));
  }

  lemma EmptyDifference<T>(a: set<T>, b: set<T>)
    ensures a - b == {} <==> a <= b
  {
    if a - b == {} {
      forall x | x in a ensures x in b {
        assert x !in a - b;
      }
    } else {
      var x :| x in a - b;
    }
  }

  /** A file whose header line is a comma-joined list of lower-case names, followed by a
      line break, is accepted exactly when the names include every required field, both
      when the names are written plainly and when they are all quoted. */
  lemma CleanFileAcceptsHeaderLine<F>(f: F, names: seq<string>, rest: string)
    requires |names| >= 2
    requires forall i :: 0 <= i < |names| ==> ',' !in names[i]
    requires exists i :: 0 <= i < |names| && !IsQuoted(names[i])
    requires var line := Join(",", names);
      forall i :: 0 <= i < |line| ==> !IsLineBreak(line[i]) && !IsUpper(line[i])
    requires var line := Join(",", QuoteAll(names));
      forall i :: 0 <= i < |line| ==> !IsLineBreak(line[i]) && !IsUpper(line[i])
    ensures CleanFile(f, Some(Join(",", names) + "\n" + rest)).Ok? <==> REQUIRED_FIELDS <= Elements(names)
    ensures CleanFile(f, Some(Join(",", QuoteAll(names)) + "\n" + rest)).Ok? <==> REQUIRED_FIELDS <= Elements(names)
  {
    JoinHasComma(names);
    JoinHasComma(QuoteAll(names));
    CleanFileAcceptsLine(f, Join(",", names), rest);
    CleanFileAcceptsLine(f, Join(",", QuoteAll(names)), rest);
    HeadersOfPlainLine(names);
    HeadersOfQuotedLine(names);
  }

  // ---------------------------------------------------------------- the cleaning steps (lines 97-200)

  /** The form's declared fields, the keys of `cleaned_data` (lines 31-52). */
  datatype Field =
    | Name | File | Orientation | MetricName | EffectConstraint
    | E0Fixed | EmaxFixed | E0Lower | E0Upper | EmaxLower | EmaxUpper

  /** The key under which each field appears in `cleaned_data`. */
  function FieldName(f: Field): string
  {
    match f
    case Name => "name"
    case File => "file"
    case Orientation => "orientation"
    case MetricName => "metric_name"
    case EffectConstraint => "effect_constraint"
    case E0Fixed => "e0_fixed_value"
    case EmaxFixed => "emax_fixed_value"
    case E0Lower => "e0_lower_bound"
    case E0Upper => "e0_upper_bound"
    case EmaxLower => "emax_lower_bound"
    case EmaxUpper => "emax_upper_bound"
  }

  const BAD_ORIENTATION := "Orientation must be 0 or 1"
  const BOTH_FIXED := "Must specify fixed values for both E0 and Emax"
  const EMAX_ABOVE := "Emax must be > E0, or change orientation"
  const EMAX_BELOW := "Emax must be < E0, or change orientation"
  const UPPER_BELOW := "Upper bound must be >= lower bound"

  /** `cleaned_data[k]`. */
  function Lookup(d: Data, k: Field): Result<Value, FormError>
  {
    if k in d then Ok(d[k]) else Err(KeyError(k))
  }

  /** A value as a float operand of `<`, `<=` or `>=`; `None` or a string raises. */
  function Num(v: Value): Result<ExtReal, FormError>
  {
    match v
    case VInt(i) => Ok(Fin(i as real))
    case VNum(x) => Ok(x)
    case _ => Err(TypeError)
  }

  /** Python's `v == n` for an integer `n`. */
  predicate IsInt(v: Value, n: int)
  {
    v == VInt(n) || v == VNum(Fin(n as real))
  }

  /** `int(v)`: None when it raises `ValueError` (the case the source catches). */
  function IntOf(v: Value): Result<Option<int>, FormError>
  {
    match v
    case VStr(s) => Ok(ParseInt(s))
    case VInt(i) => Ok(Some(i))
    case VNum(x) =>
      if x.Fin? then Ok(Some(if x.r >= 0.0 then x.r.Floor else -((-x.r).Floor))) else Err(OverflowError)
    case VNone => Err(TypeError)
  }

  /** `_clean_orientation`. */
  function CleanOrientation(d: Data): (r: Result<int, FormError>)
    ensures r.Ok? ==> r.value == 0 || r.value == 1
  {
    var v :- Lookup(d, Orientation);
    var n :- IntOf(v);
    if n.None? || !(n.value == 0 || n.value == 1) then Err(ValidationError(BAD_ORIENTATION)) else Ok(n.value)
  }

  /** The submitted orientation text is accepted exactly when it is the number 0 or 1. */
  lemma OrientationAccepts(d: Data, n: int)
    requires Orientation in d && d[Orientation] == VStr(IntToString(n))
    ensures CleanOrientation(d).Ok? <==> n == 0 || n == 1
    ensures CleanOrientation(d).Ok? ==> CleanOrientation(d).value == n
    ensures CleanOrientation(d).Err? ==> CleanOrientation(d) == Err(ValidationError(BAD_ORIENTATION))
  {
    IntToStringParses(n);
  }

  predicate IsNoneOrBounded(c: Value)
  {
    c == VStr("none") || c == VStr("bounded")
  }

  /** `_clean_e0_fixed_value`. */
  function E0FixedValue(d: Data): Result<Value, FormError>
  {
    var c :- Lookup(d, EffectConstraint);
    if IsNoneOrBounded(c) then Ok(VNone)
    else
      var e0 :- Lookup(d, E0Fixed);
      if e0 == VNone then Ok(e0)
      else
        var emax :- Lookup(d, EmaxFixed);
        if emax == VNone then Err(ValidationError(BOTH_FIXED)) else Ok(e0)
  }

  /** `_clean_emax_fixed_value`. */
  function EmaxFixedValue(d: Data): Result<Value, FormError>
  {
    var c :- Lookup(d, EffectConstraint);
    if IsNoneOrBounded(c) then Ok(VNone)
    else
      var emax :- Lookup(d, EmaxFixed);
      if emax == VNone then Ok(emax)
      else
        var e0 :- Lookup(d, E0Fixed);
        if e0 == VNone then Err(ValidationError(BOTH_FIXED))
        else
          var o :- Lookup(d, Orientation);
          if IsInt(o, 0) then
            var a :- Num(emax);
            var b :- Num(e0);
            if Leq(a, b) then Err(ValidationError(EMAX_ABOVE)) else Ok(emax)
          else if IsInt(o, 1) then
            var a :- Num(emax);
            var b :- Num(e0);
            if Leq(b, a) then Err(ValidationError(EMAX_BELOW)) else Ok(emax)
          else Ok(emax)
  }

  /** `_clean_e0_lower_bound` and `_clean_emax_lower_bound`. */
  function LowerBound(d: Data, lowKey: Field, fixedKey: Field): Result<Value, FormError>
  {
    var c :- Lookup(d, EffectConstraint);
    if c == VStr("none") then Ok(VNone)
    else if c == VStr("fixed") then Lookup(d, fixedKey)
    else Lookup(d, lowKey)
  }

  /** What an upper-bound step leaves in `cleaned_data` and what it returns or raises. */
  datatype Outcome = Outcome(data: Data, value: Result<Value, FormError>)

  /** The map after the write-back of lines 165-168 (186-189), and the key whose lookup
      raised if one did. */
  datatype Filled = Filled(data: Data, missing: Option<Field>)

  /** A missing lower bound is stored as -inf, then a missing upper bound as +inf. */
  function FillBounds(d: Data, lowKey: Field, upKey: Field): (f: Filled)
    ensures f.missing.None? ==> lowKey in f.data && upKey in f.data
  {
    if lowKey !in d then Filled(d, Some(lowKey))
    else
      var d1 := if d[lowKey] == VNone then d[lowKey := VNum(NegInf)] else d;
      if upKey !in d1 then Filled(d1, Some(upKey))
      else Filled(if d1[upKey] == VNone then d1[upKey := VNum(PosInf)] else d1, None)
  }

  /** Lines 170-174 (191-195): an upper bound below its lower bound is refused; equal
      bounds pass. */
  function CompareBounds(d: Data, lowKey: Field, upKey: Field): Result<Value, FormError>
    requires lowKey in d && upKey in d
  {
    var up := Num(d[upKey]);
    var lo := Num(d[lowKey]);
    if up.Err? || lo.Err? then Err(TypeError)
    else if Less(up.value, lo.value) then Err(ValidationError(UPPER_BELOW))
    else Ok(d[upKey])
  }

  /** `_clean_e0_upper_bound` and `_clean_emax_upper_bound`: with 'bounded', the missing
      bounds are written back before the two are compared, so the write-back survives a
      failed comparison. */
  function UpperBound(d: Data, lowKey: Field, upKey: Field, fixedKey: Field): Outcome
  {
    if EffectConstraint !in d then Outcome(d, Err(KeyError(EffectConstraint)))
    else
      var c := d[EffectConstraint];
      if c == VStr("none") then Outcome(d, Ok(VNone))
      else if c == VStr("bounded") then
        var f := FillBounds(d, lowKey, upKey);
        if f.missing.Some? then Outcome(f.data, Err(KeyError(f.missing.value)))
        else Outcome(f.data, CompareBounds(f.data, lowKey, upKey))
      else if c == VStr("fixed") then Outcome(d, Lookup(d, fixedKey))
      else Outcome(d, Lookup(d, upKey))
  }

  /** The state after `clean`, and the exception that stopped it if one did. */
  datatype Cleaned = Cleaned(data: Data, failure: Option<FormError>)

  /** `cleaned_data[key] = <step result>`. */
  function Assign(d: Data, key: Field, v: Result<Value, FormError>): Cleaned
  {
    if v.Ok? then Cleaned(d[key := v.value], None) else Cleaned(d, Some(v.error))
  }

  function OrientationValue(d: Data): Result<Value, FormError>
  {
    var o :- CleanOrientation(d);
    Ok(VInt(o))
  }

  /** Lines 205-207 of `clean`: the orientation, then the two fixed values. */
  function CleanHead(d: Data): Cleaned
  {
    var c1 := Assign(d, Orientation, OrientationValue(d));
    if c1.failure.Some? then c1 else
    var c2 := Assign(c1.data, E0Fixed, E0FixedValue(c1.data));
    if c2.failure.Some? then c2 else
    Assign(c2.data, EmaxFixed, EmaxFixedValue(c2.data))
  }

  /** Lines 208-209: the two lower bounds. */
  function CleanLowers(d: Data): Cleaned
  {
    var c4 := Assign(d, E0Lower, LowerBound(d, E0Lower, E0Fixed));
    if c4.failure.Some? then c4 else
    Assign(c4.data, EmaxLower, LowerBound(c4.data, EmaxLower, EmaxFixed))
  }

  /** Lines 210-211: the two upper bounds, each stored after its step's own write-back. */
  function CleanUppers(d: Data): Cleaned
  {
    var o6 := UpperBound(d, E0Lower, E0Upper, E0Fixed);
    var c6 := Assign(o6.data, E0Upper, o6.value);
    if c6.failure.Some? then c6 else
    var o7 := UpperBound(c6.data, EmaxLower, EmaxUpper, EmaxFixed);
    Assign(o7.data, EmaxUpper, o7.value)
  }

  /** `clean`: the seven steps in the source's order, each writing its field before the
      next one reads the map, and the first exception ending it. */
  function CleanSpec(d: Data): Cleaned
  {
    var h := CleanHead(d);
    if h.failure.Some? then h else
    var l := CleanLowers(h.data);
    if l.failure.Some? then l else
    CleanUppers(l.data)
  }

  // ---------------------------------------------------------------- properties of clean

  /** What Django's own field cleaning leaves for `clean` to read: the orientation choice
      as text, the constraint choice, and each float field a finite number or None. */
  predicate FloatAt(d: Data, k: Field)
  {
    k in d && (d[k] == VNone || (d[k].VNum? && d[k].x.Fin?))
  }

  predicate Submitted(d: Data, constraint: string)
  {
    Orientation in d && d[Orientation].VStr? && EffectConstraint in d && d[EffectConstraint] == VStr(constraint) &&
    FloatAt(d, E0Fixed) && FloatAt(d, EmaxFixed) && FloatAt(d, E0Lower) && FloatAt(d, E0Upper) &&
    FloatAt(d, EmaxLower) && FloatAt(d, EmaxUpper)
  }

  predicate OrientationOk(d: Data)
  {
    CleanOrientation(d).Ok?
  }

  /** The keys `clean` may write. */
  predicate IsCleanedKey(k: Field)
  {
    k == Orientation || k == E0Fixed || k == EmaxFixed || k == E0Lower || k == EmaxLower ||
    k == E0Upper || k == EmaxUpper
  }

  /** `d` and `e` agree on key `k`: both lack it or both map it to the same value. */
  predicate SameAt(d: Data, e: Data, k: Field)
  {
    (k in d <==> k in e) && (k in d ==> d[k] == e[k])
  }

  /** An upper-bound step changes no key but its two bounds. */
  lemma UpperBoundWrites(d: Data, lowKey: Field, upKey: Field, fixedKey: Field, k: Field)
    requires k != lowKey && k != upKey
    ensures k in UpperBound(d, lowKey, upKey, fixedKey).data <==> k in d
    ensures k in d ==> UpperBound(d, lowKey, upKey, fixedKey).data[k] == d[k]
  {
    FillBoundsKeeps(d, lowKey, upKey, k);
    var out := UpperBound(d, lowKey, upKey, fixedKey).data;
    assert out == d || out == FillBounds(d, lowKey, upKey).data;
  }

  lemma FillBoundsKeeps(d: Data, lowKey: Field, upKey: Field, k: Field)
    requires k != lowKey && k != upKey
    ensures k in FillBounds(d, lowKey, upKey).data <==> k in d
    ensures k in d ==> FillBounds(d, lowKey, upKey).data[k] == d[k]
  {
  }

  /** `clean` writes only its seven keys and removes none: the other fields (`name`,
      `file`, `metric_name`) come out as they went in. */
  lemma CleanKeepsOtherKeys(d: Data, k: Field)
    requires !IsCleanedKey(k)
    ensures k in CleanSpec(d).data <==> k in d
    ensures k in d ==> CleanSpec(d).data[k] == d[k]
  {
    HeadKeeps(d, k);
    var h := CleanHead(d);
    if h.failure.None? {
      LowersKeep(h.data, k);
      var l := CleanLowers(h.data);
      if l.failure.None? {
        UppersKeep(l.data, k);
      }
    }
  }

  lemma HeadKeeps(d: Data, k: Field)
    requires !IsCleanedKey(k)
    ensures SameAt(d, CleanHead(d).data, k)
  {
  }

  lemma LowersKeep(d: Data, k: Field)
    requires !IsCleanedKey(k)
    ensures SameAt(d, CleanLowers(d).data, k)
  {
  }

  lemma UppersKeep(d: Data, k: Field)
    requires !IsCleanedKey(k)
    ensures SameAt(d, CleanUppers(d).data, k)
  {
    UpperBoundWrites(d, E0Lower, E0Upper, E0Fixed, k);
    var o6 := UpperBound(d, E0Lower, E0Upper, E0Fixed);
    var c6 := Assign(o6.data, E0Upper, o6.value);
    if c6.failure.None? {
      UpperBoundWrites(c6.data, EmaxLower, EmaxUpper, EmaxFixed, k);
    }
  }

  /** An invalid orientation stops `clean` at its first step, with the map untouched. */
  lemma CleanRejectsOrientation(d: Data)
    requires CleanOrientation(d).Err?
    ensures CleanSpec(d) == Cleaned(d, Some(CleanOrientation(d).error))
  {
  }

  /** With no constraint, every fixed value and every bound becomes None. */
  lemma CleanNone(d: Data)
    requires Submitted(d, "none") && OrientationOk(d)
    ensures CleanSpec(d) == Cleaned(d[Orientation := VInt(CleanOrientation(d).value)]
      [E0Fixed := VNone][EmaxFixed := VNone][E0Lower := VNone][EmaxLower := VNone][E0Upper := VNone][EmaxUpper := VNone], None)
  {
    var d1 := d[Orientation := VInt(CleanOrientation(d).value)];
    var d3 := d1[E0Fixed := VNone][EmaxFixed := VNone];
    assert CleanHead(d) == Cleaned(d3, None) by {
      assert E0FixedValue(d1) == Ok(VNone);
      assert EmaxFixedValue(d1[E0Fixed := VNone]) == Ok(VNone);
    }
    var d5 := d3[E0Lower := VNone][EmaxLower := VNone];
    assert CleanLowers(d3) == Cleaned(d5, None) by {
      assert LowerBound(d3, E0Lower, E0Fixed) == Ok(VNone);
      assert LowerBound(d3[E0Lower := VNone], EmaxLower, EmaxFixed) == Ok(VNone);
    }
    assert CleanUppers(d5) == Cleaned(d5[E0Upper := VNone][EmaxUpper := VNone], None) by {
      assert UpperBound(d5, E0Lower, E0Upper, E0Fixed) == Outcome(d5, Ok(VNone));
      assert UpperBound(d5[E0Upper := VNone], EmaxLower, EmaxUpper, EmaxFixed) == Outcome(d5[E0Upper := VNone], Ok(VNone));
    }
  }

  /** Fixed values of E0 and Emax given together are the order orientation `o` asks for:
      Emax above E0 for 0, below it for 1. */
  predicate FixedInOrder(o: int, e0: ExtReal, emax: ExtReal)
  {
    (o == 0 ==> Less(e0, emax)) && (o == 1 ==> Less(emax, e0))
  }

  /** The fixed-value steps: a lone E0 or a lone Emax is refused, and an Emax on the wrong
      side of E0 for the orientation is refused; otherwise both values are kept. */
  lemma FixedSteps(d1: Data, o: int)
    requires Orientation in d1 && d1[Orientation] == VInt(o) && (o == 0 || o == 1)
    requires Submitted(d1[Orientation := VStr("")], "fixed")
    ensures var e0, emax := d1[E0Fixed], d1[EmaxFixed];
      E0FixedValue(d1) == (if e0 != VNone && emax == VNone then Err(ValidationError(BOTH_FIXED)) else Ok(e0)) &&
      EmaxFixedValue(d1[E0Fixed := e0]) ==
        if emax == VNone then Ok(emax)
        else if e0 == VNone then Err(ValidationError(BOTH_FIXED))
        else if o == 0 && !Less(e0.x, emax.x) then Err(ValidationError(EMAX_ABOVE))
        else if o == 1 && !Less(emax.x, e0.x) then Err(ValidationError(EMAX_BELOW))
        else Ok(emax)
  {
    var e0, emax := d1[E0Fixed], d1[EmaxFixed];
    assert d1[E0Fixed := e0] == d1;
    if e0 != VNone && emax != VNone {
      LessIsNotLeq(emax.x, e0.x);
      LessIsNotLeq(e0.x, emax.x);
    }
  }

  /** With fixed values, a lone E0 or a lone Emax stops `clean` at its fixed-value step. */
  lemma CleanFixedLone(d: Data)
    requires Submitted(d, "fixed") && OrientationOk(d)
    requires (d[E0Fixed] == VNone) != (d[EmaxFixed] == VNone)
    ensures CleanSpec(d) == Cleaned(d[Orientation := VInt(CleanOrientation(d).value)], Some(ValidationError(BOTH_FIXED)))
  {
    var o := CleanOrientation(d).value;
    var d1 := d[Orientation := VInt(o)];
    assert d1[Orientation := VStr("")] == d[Orientation := VStr("")];
    FixedSteps(d1, o);
    assert d1[E0Fixed := d[E0Fixed]] == d1;
    assert CleanHead(d).failure.Some?;
  }

  /** With both fixed values on the wrong side of each other for the orientation, `clean`
      stops at the Emax step with the message for that orientation. */
  lemma CleanFixedOutOfOrder(d: Data)
    requires Submitted(d, "fixed") && OrientationOk(d)
    requires d[E0Fixed] != VNone && d[EmaxFixed] != VNone
    requires !FixedInOrder(CleanOrientation(d).value, d[E0Fixed].x, d[EmaxFixed].x)
    ensures var o := CleanOrientation(d).value;
      CleanSpec(d) == Cleaned(d[Orientation := VInt(o)], Some(ValidationError(if o == 0 then EMAX_ABOVE else EMAX_BELOW)))
  {
    var o := CleanOrientation(d).value;
    var d1 := d[Orientation := VInt(o)];
    assert d1[Orientation := VStr("")] == d[Orientation := VStr("")];
    FixedSteps(d1, o);
    assert d1[E0Fixed := d[E0Fixed]] == d1;
    assert CleanHead(d).failure.Some?;
  }

  /** With fixed values given together in order, or not at all, every lower and upper
      bound becomes its fixed value. */
  lemma CleanFixedAccepted(d: Data)
    requires Submitted(d, "fixed") && OrientationOk(d)
    requires (d[E0Fixed] == VNone) == (d[EmaxFixed] == VNone)
    requires d[E0Fixed] != VNone ==> FixedInOrder(CleanOrientation(d).value, d[E0Fixed].x, d[EmaxFixed].x)
    ensures var e0, emax := d[E0Fixed], d[EmaxFixed];
      CleanSpec(d) ==
        Cleaned(d[Orientation := VInt(CleanOrientation(d).value)][E0Lower := e0][EmaxLower := emax][E0Upper := e0][EmaxUpper := emax], None)
  {
    var o, e0, emax := CleanOrientation(d).value, d[E0Fixed], d[EmaxFixed];
    var d1 := d[Orientation := VInt(o)];
    FixedHeadAccepted(d);
    FixedBounds(d1);
    var d5 := d1[E0Lower := e0][EmaxLower := emax];
    assert CleanLowers(d1) == Cleaned(d5, None);
    assert CleanSpec(d) == CleanUppers(d5);
  }

  /** The head steps accept fixed values given together in order, or not at all. */
  lemma FixedHeadAccepted(d: Data)
    requires Submitted(d, "fixed") && OrientationOk(d)
    requires (d[E0Fixed] == VNone) == (d[EmaxFixed] == VNone)
    requires d[E0Fixed] != VNone ==> FixedInOrder(CleanOrientation(d).value, d[E0Fixed].x, d[EmaxFixed].x)
    ensures CleanHead(d) == Cleaned(d[Orientation := VInt(CleanOrientation(d).value)], None)
  {
    var o, e0, emax := CleanOrientation(d).value, d[E0Fixed], d[EmaxFixed];
    var d1 := d[Orientation := VInt(o)];
    assert d1[Orientation := VStr("")] == d[Orientation := VStr("")];
    FixedSteps(d1, o);
    assert d1[E0Fixed := e0] == d1;
    assert d1[EmaxFixed := emax] == d1;
  }

  /** With 'fixed', the bound steps copy the fixed values into both bounds. */
  lemma FixedBounds(d1: Data)
    requires EffectConstraint in d1 && d1[EffectConstraint] == VStr("fixed")
    requires E0Fixed in d1 && EmaxFixed in d1
    ensures var e0, emax := d1[E0Fixed], d1[EmaxFixed];
      var d5 := d1[E0Lower := e0][EmaxLower := emax];
      CleanLowers(d1) == Cleaned(d5, None) &&
      CleanUppers(d5) == Cleaned(d5[E0Upper := e0][EmaxUpper := emax], None)
  {
    var e0, emax := d1[E0Fixed], d1[EmaxFixed];
    var d5 := d1[E0Lower := e0][EmaxLower := emax];
    assert CleanLowers(d1) == Cleaned(d5, None) by {
      assert LowerBound(d1, E0Lower, E0Fixed) == Ok(e0);
      assert LowerBound(d1[E0Lower := e0], EmaxLower, EmaxFixed) == Ok(emax);
    }
    assert CleanUppers(d5) == Cleaned(d5[E0Upper := e0][EmaxUpper := emax], None) by {
      assert UpperBound(d5, E0Lower, E0Upper, E0Fixed) == Outcome(d5, Ok(e0));
      assert UpperBound(d5[E0Upper := e0], EmaxLower, EmaxUpper, EmaxFixed) == Outcome(d5[E0Upper := e0], Ok(emax));
    }
  }

  /** With fixed values: giving exactly one is an error, giving both in the wrong order
      for the orientation is an error, and otherwise each lower and upper bound becomes
      its fixed value (all None when neither was given). */
  lemma CleanFixed(d: Data)
    requires Submitted(d, "fixed") && OrientationOk(d)
    ensures var o, e0, emax := CleanOrientation(d).value, d[E0Fixed], d[EmaxFixed];
      var d1 := d[Orientation := VInt(o)];
      CleanSpec(d) ==
        if (e0 == VNone) != (emax == VNone) then Cleaned(d1, Some(ValidationError(BOTH_FIXED)))
        else if e0 != VNone && !FixedInOrder(o, e0.x, emax.x) then
          Cleaned(d1, Some(ValidationError(if o == 0 then EMAX_ABOVE else EMAX_BELOW)))
        else Cleaned(d1[E0Lower := e0][EmaxLower := emax][E0Upper := e0][EmaxUpper := emax], None)
  {
    var o, e0, emax := CleanOrientation(d).value, d[E0Fixed], d[EmaxFixed];
    if (e0 == VNone) != (emax == VNone) {
      CleanFixedLone(d);
    } else if e0 != VNone && !FixedInOrder(o, e0.x, emax.x) {
      CleanFixedOutOfOrder(d);
    } else {
      CleanFixedAccepted(d);
    }
  }

  /** A missing lower bound reads as -inf and a missing upper bound as +inf. */
  function LowOf(v: Value): ExtReal
  {
    if v.VNum? then v.x else NegInf
  }

  function HighOf(v: Value): ExtReal
  {
    if v.VNum? then v.x else PosInf
  }

  /** An upper-bound step with 'bounded': both bounds are written back with their
      infinities filled in, and the step fails exactly when they are inverted. */
  lemma UpperBoundBounded(d: Data, lowKey: Field, upKey: Field, fixedKey: Field)
    requires lowKey != upKey
    requires EffectConstraint in d && d[EffectConstraint] == VStr("bounded")
    requires lowKey in d && (d[lowKey] == VNone || d[lowKey].VNum?)
    requires upKey in d && (d[upKey] == VNone || d[upKey].VNum?)
    ensures var lo, hi := LowOf(d[lowKey]), HighOf(d[upKey]);
      UpperBound(d, lowKey, upKey, fixedKey) ==
        Outcome(d[lowKey := VNum(lo)][upKey := VNum(hi)],
                if Leq(lo, hi) then Ok(VNum(hi)) else Err(ValidationError(UPPER_BELOW)))
  {
    var lo, hi := LowOf(d[lowKey]), HighOf(d[upKey]);
    LessIsNotLeq(hi, lo);
    var d1 := if d[lowKey] == VNone then d[lowKey := VNum(NegInf)] else d;
    assert d1 == d[lowKey := VNum(lo)];
    var d2 := if d1[upKey] == VNone then d1[upKey := VNum(PosInf)] else d1;
    assert d2 == d[lowKey := VNum(lo)][upKey := VNum(hi)];
    assert FillBounds(d, lowKey, upKey) == Filled(d2, None);
    assert d2[lowKey] == VNum(lo) && d2[upKey] == VNum(hi);
    assert Num(d2[upKey]) == Ok(hi) && Num(d2[lowKey]) == Ok(lo);
    assert UpperBound(d, lowKey, upKey, fixedKey) == Outcome(d2, CompareBounds(d2, lowKey, upKey));
    if Leq(lo, hi) {
      assert CompareBounds(d2, lowKey, upKey) == Ok(VNum(hi));
    } else {
      assert CompareBounds(d2, lowKey, upKey) == Err(ValidationError(UPPER_BELOW));
    }
  }

  /** The bound pairs as `clean` leaves them with 'bounded': the fixed values None and the
      infinities filled in, for E0 only (`withEmax` false) or for both. */
  function BoundedState(d: Data, withEmax: bool): Data
    requires Orientation in d && OrientationOk(d)
    requires E0Lower in d && E0Upper in d && EmaxLower in d && EmaxUpper in d
  {
    var d3 := d[Orientation := VInt(CleanOrientation(d).value)][E0Fixed := VNone][EmaxFixed := VNone];
    var d6 := d3[E0Lower := VNum(LowOf(d[E0Lower]))][E0Upper := VNum(HighOf(d[E0Upper]))];
    if withEmax then d6[EmaxLower := VNum(LowOf(d[EmaxLower]))][EmaxUpper := VNum(HighOf(d[EmaxUpper]))] else d6
  }

  /** The first five steps with 'bounded' clear the fixed values and keep the lower bounds. */
  lemma BoundedFirstSteps(d: Data)
    requires Submitted(d, "bounded") && OrientationOk(d)
    ensures var d3 := d[Orientation := VInt(CleanOrientation(d).value)][E0Fixed := VNone][EmaxFixed := VNone];
      CleanHead(d) == Cleaned(d3, None) && CleanLowers(d3) == Cleaned(d3, None)
  {
    var d1 := d[Orientation := VInt(CleanOrientation(d).value)];
    assert d1[EffectConstraint] == VStr("bounded");
    assert E0FixedValue(d1) == Ok(VNone);
    assert EmaxFixedValue(d1[E0Fixed := VNone]) == Ok(VNone);
    var d3 := d1[E0Fixed := VNone][EmaxFixed := VNone];
    assert d3[EffectConstraint] == VStr("bounded") && d3[E0Lower] == d[E0Lower] && d3[EmaxLower] == d[EmaxLower];
    assert LowerBound(d3, E0Lower, E0Fixed) == Ok(d[E0Lower]);
    assert d3[E0Lower := d[E0Lower]] == d3;
    assert LowerBound(d3, EmaxLower, EmaxFixed) == Ok(d[EmaxLower]);
    assert d3[EmaxLower := d[EmaxLower]] == d3;
  }

  /** The two upper-bound steps with 'bounded': each pair is written back with its
      infinities, and the first inverted pair stops `clean`. */
  lemma UppersBounded(d: Data)
    requires EffectConstraint in d && d[EffectConstraint] == VStr("bounded")
    requires FloatAt(d, E0Lower) && FloatAt(d, E0Upper) && FloatAt(d, EmaxLower) && FloatAt(d, EmaxUpper)
    ensures var d6 := d[E0Lower := VNum(LowOf(d[E0Lower]))][E0Upper := VNum(HighOf(d[E0Upper]))];
      var d7 := d6[EmaxLower := VNum(LowOf(d[EmaxLower]))][EmaxUpper := VNum(HighOf(d[EmaxUpper]))];
      CleanUppers(d) ==
        if !Leq(LowOf(d[E0Lower]), HighOf(d[E0Upper])) then Cleaned(d6, Some(ValidationError(UPPER_BELOW)))
        else if !Leq(LowOf(d[EmaxLower]), HighOf(d[EmaxUpper])) then Cleaned(d7, Some(ValidationError(UPPER_BELOW)))
        else Cleaned(d7, None)
  {
    UpperBoundBounded(d, E0Lower, E0Upper, E0Fixed);
    var d6 := d[E0Lower := VNum(LowOf(d[E0Lower]))][E0Upper := VNum(HighOf(d[E0Upper]))];
    assert d6[E0Upper := VNum(HighOf(d[E0Upper]))] == d6;
    UpperBoundBounded(d6, EmaxLower, EmaxUpper, EmaxFixed);
    var d7 := d6[EmaxLower := VNum(LowOf(d[EmaxLower]))][EmaxUpper := VNum(HighOf(d[EmaxUpper]))];
    assert d7[EmaxUpper := VNum(HighOf(d[EmaxUpper]))] == d7;
  }

  /** With bounds: both fixed values become None, each bound pair is written back with its
      infinities filled in, and `clean` fails with the bound message at the first pair
      that is inverted (equal bounds pass). */
  lemma CleanBounded(d: Data)
    requires Submitted(d, "bounded") && OrientationOk(d)
    ensures CleanSpec(d) ==
      if !Leq(LowOf(d[E0Lower]), HighOf(d[E0Upper])) then Cleaned(BoundedState(d, false), Some(ValidationError(UPPER_BELOW)))
      else if !Leq(LowOf(d[EmaxLower]), HighOf(d[EmaxUpper])) then Cleaned(BoundedState(d, true), Some(ValidationError(UPPER_BELOW)))
      else Cleaned(BoundedState(d, true), None)
  {
    BoundedFirstSteps(d);
    var d3 := d[Orientation := VInt(CleanOrientation(d).value)][E0Fixed := VNone][EmaxFixed := VNone];
    UppersBounded(d3);
  }

  /** Whatever the constraint, a form that cleans leaves each bound pair either both None
      or ordered lower <= upper. */
  lemma CleanedBoundsOrdered(d: Data, constraint: string)
    requires constraint == "none" || constraint == "fixed" || constraint == "bounded"
    requires Submitted(d, constraint) && CleanSpec(d).failure.None?
    ensures var r := CleanSpec(d).data;
      E0Lower in r && E0Upper in r && EmaxLower in r && EmaxUpper in r &&
      ((r[E0Lower] == VNone && r[E0Upper] == VNone) ||
       (r[E0Lower].VNum? && r[E0Upper].VNum? && Leq(r[E0Lower].x, r[E0Upper].x))) &&
      ((r[EmaxLower] == VNone && r[EmaxUpper] == VNone) ||
       (r[EmaxLower].VNum? && r[EmaxUpper].VNum? && Leq(r[EmaxLower].x, r[EmaxUpper].x)))
  {
    if !OrientationOk(d) {
      CleanRejectsOrientation(d);
    } else if constraint == "none" {
      CleanNone(d);
    } else if constraint == "fixed" {
      CleanFixed(d);
      if d[E0Fixed] != VNone {
        LeqTotalOrder(d[E0Fixed].x, d[E0Fixed].x, d[E0Fixed].x);
        LeqTotalOrder(d[EmaxFixed].x, d[EmaxFixed].x, d[EmaxFixed].x);
      }
    } else {
      CleanBounded(d);
    }
  }

  // ---------------------------------------------------------------- the form object

  /** The form, holding `cleaned_data`, which `clean` and the upper-bound steps update. */
  class CreateDatasetForm {
    var cleanedData: Data

    constructor(d: Data)
      ensures cleanedData == d
    {
      cleanedData := d;
    }

    /** Lines 165-168 (186-189): the missing bounds written back in place. */
    method FillBoundsInPlace(lowKey: Field, upKey: Field) returns (missing: Option<Field>)
      modifies this
      ensures Filled(cleanedData, missing) == FillBounds(old(cleanedData), lowKey, upKey)
    {
      if lowKey !in cleanedData {
        return Some(lowKey);
      }
      if cleanedData[lowKey] == VNone {
        cleanedData := cleanedData[lowKey := VNum(NegInf)];
      }
      if upKey !in cleanedData {
        return Some(upKey);
      }
      if cleanedData[upKey] == VNone {
        cleanedData := cleanedData[upKey := VNum(PosInf)];
      }
      return None;
    }

    /** An upper-bound step: the infinities it writes back stay in `cleaned_data`. */
    method CleanUpperBound(lowKey: Field, upKey: Field, fixedKey: Field) returns (v: Result<Value, FormError>)
      modifies this
      ensures cleanedData == UpperBound(old(cleanedData), lowKey, upKey, fixedKey).data
      ensures v == UpperBound(old(cleanedData), lowKey, upKey, fixedKey).value
    {
      if EffectConstraint !in cleanedData {
        return Err(KeyError(EffectConstraint));
      }
      var c := cleanedData[EffectConstraint];
      if c == VStr("none") {
        return Ok(VNone);
      }
      if c == VStr("bounded") {
        var missing := FillBoundsInPlace(lowKey, upKey);
        if missing.Some? {
          return Err(KeyError(missing.value));
        }
        return CompareBounds(cleanedData, lowKey, upKey);
      }
      if c == VStr("fixed") {
        return Lookup(cleanedData, fixedKey);
      }
      return Lookup(cleanedData, upKey);
    }

    /** Stores a step's result under `key`, or reports its exception. */
    method Store(key: Field, v: Result<Value, FormError>) returns (failure: Option<FormError>)
      modifies this
      ensures Cleaned(cleanedData, failure) == Assign(old(cleanedData), key, v)
    {
      if v.Err? {
        return Some(v.error);
      }
      cleanedData := cleanedData[key := v.value];
      return None;
    }

    /** `clean`: the steps run in the source's order on the current map; on success the
        cleaned map is returned, and an exception leaves the map as far as it got. */
    method Clean() returns (r: Result<Data, FormError>)
      modifies this
      ensures Cleaned(cleanedData, if r.Ok? then None else Some(r.error)) == CleanSpec(old(cleanedData))
      ensures r.Ok? ==> r.value == cleanedData
    {
      var failure := Store(Orientation, OrientationValue(cleanedData));
      if failure.Some? { return Err(failure.value); }
      failure := Store(E0Fixed, E0FixedValue(cleanedData));
      if failure.Some? { return Err(failure.value); }
      failure := Store(EmaxFixed, EmaxFixedValue(cleanedData));
      if failure.Some? { return Err(failure.value); }
      failure := Store(E0Lower, LowerBound(cleanedData, E0Lower, E0Fixed));
      if failure.Some? { return Err(failure.value); }
      failure := Store(EmaxLower, LowerBound(cleanedData, EmaxLower, EmaxFixed));
      if failure.Some? { return Err(failure.value); }
      var v := CleanUpperBound(E0Lower, E0Upper, E0Fixed);
      failure := Store(E0Upper, v);
      if failure.Some? { return Err(failure.value); }
      v := CleanUpperBound(EmaxLower, EmaxUpper, EmaxFixed);
      failure := Store(EmaxUpper, v);
      if failure.Some? { return Err(failure.value); }
      return Ok(cleanedData);
    }
  }
}
