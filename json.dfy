/** The values `json.loads` produces, Python dictionaries as insertion-ordered member
    lists, and Python's `str()` of such values. */
module Json {
  import opened Wrappers
  import opened ExtReals
  import opened Text

  /** A JSON value as Python sees it after `json.loads`. A float carries its value and the
      text `repr()` gives for it: the model does not compute Python's float formatting. */
  datatype Json =
    | JNull
    | JBool(b: bool)
    | JInt(i: int)
    | JFloat(value: ExtReal, repr: string)
    | JStr(s: string)
    | JList(items: seq<Json>)
    | JObject(members: Dict)

  datatype Member = Member(key: string, value: Json)

  /** A Python `dict` with string keys, in insertion order. */
  type Dict = seq<Member>

  predicate DistinctKeys(d: Dict)
  {
    forall i, j :: 0 <= i < j < |d| ==> d[i].key != d[j].key
  }

  predicate HasKey(d: Dict, k: string)
  {
    exists i :: 0 <= i < |d| && d[i].key == k
  }

  /** `d.get(k)`: the value stored under `k`, if any. */
  function Get(d: Dict, k: string): (r: Option<Json>)
    ensures r.Some? <==> HasKey(d, k)
    ensures r.Some? ==> exists i :: 0 <= i < |d| && d[i] == Member(k, r.value)
  {
    if |d| == 0 then None
    else if d[0].key == k then Some(d[0].value)
    else
      var r := Get(d[1..], k);
      assert HasKey(d, k) <==> HasKey(d[1..], k) by {
        if HasKey(d, k) {
          var i :| 0 <= i < |d| && d[i].key == k;
          assert d[1..][i - 1].key == k;
        }
        if HasKey(d[1..], k) {
          var i :| 0 <= i < |d[1..]| && d[1..][i].key == k;
          assert d[i + 1].key == k;
        }
      }
      assert r.Some? ==> exists i :: 0 <= i < |d| && d[i] == Member(k, r.value) by {
        if r.Some? {
          var i :| 0 <= i < |d[1..]| && d[1..][i] == Member(k, r.value);
          assert d[i + 1] == Member(k, r.value);
        }
      }
      r
  }

  /** `d[k] = v`: an existing key keeps its position, a new key goes last. */
  function Put(d: Dict, k: string, v: Json): (r: Dict)
    ensures |r| == if HasKey(d, k) then |d| else |d| + 1
    ensures forall i :: 0 <= i < |d| ==> r[i].key == d[i].key
    ensures forall i :: 0 <= i < |d| && d[i].key != k ==> r[i] == d[i]
  {
    if |d| == 0 then [Member(k, v)]
    else if d[0].key == k then [Member(k, v)] + d[1..]
    else
      assert HasKey(d, k) <==> HasKey(d[1..], k) by {
        if HasKey(d, k) {
          var i :| 0 <= i < |d| && d[i].key == k;
          assert d[1..][i - 1].key == k;
        }
        if HasKey(d[1..], k) {
          var i :| 0 <= i < |d[1..]| && d[1..][i].key == k;
          assert d[i + 1].key == k;
        }
      }
      [d[0]] + Put(d[1..], k, v)
  }

  /** After `d[k] = v`, `d.get(k)` is `v` and every other key reads as before. */
  lemma {:induction false} GetPut(d: Dict, k: string, v: Json, k': string)
    ensures Get(Put(d, k, v), k') == if k' == k then Some(v) else Get(d, k')
  {
    if |d| > 0 && d[0].key != k {
      GetPut(d[1..], k, v, k');
      assert Put(d, k, v)[1..] == Put(d[1..], k, v);
    }
  }

  lemma {:induction false} PutKeepsKeysDistinct(d: Dict, k: string, v: Json)
    requires DistinctKeys(d)
    ensures DistinctKeys(Put(d, k, v))
  {
    var r := Put(d, k, v);
    if !HasKey(d, k) {
      assert r[|d|].key == k by { PutNewKeyLast(d, k, v); }
    }
  }

  lemma {:induction false} PutNewKeyLast(d: Dict, k: string, v: Json)
    requires !HasKey(d, k)
    ensures |Put(d, k, v)| == |d| + 1 && Put(d, k, v)[|d|] == Member(k, v)
  {
    if |d| > 0 {
      PutNewKeyLast(d[1..], k, v);
    }
  }

  /** `del d[k]`, for a key that is present: every member under `k` goes. */
  function Remove(d: Dict, k: string): (r: Dict)
    ensures |r| <= |d|
  {
    if |d| == 0 then []
    else if d[0].key == k then Remove(d[1..], k)
    else [d[0]] + Remove(d[1..], k)
  }

  /** After `del d[k]`, `k` is gone and every other key reads as before. */
  lemma {:induction false} GetRemove(d: Dict, k: string, k': string)
    ensures Get(Remove(d, k), k') == if k' == k then None else Get(d, k')
  {
    if |d| > 0 {
      GetRemove(d[1..], k, k');
      if d[0].key != k {
        assert ([d[0]] + Remove(d[1..], k))[1..] == Remove(d[1..], k);
      }
    }
  }

  // ---------------------------------------------------------------- str() and repr()

  /** The quote `repr` puts around a string: a double quote when the string holds a
      single quote and no double quote, a single quote otherwise. */
  function ReprQuote(s: string): char
  {
    if '\'' in s && '"' !in s then '"' else '\''
  }

  /** A lower-case hexadecimal digit. */
  function HexDigit(n: nat): char
    requires n < 16
  {
    if n < 10 then ('0' as int + n) as char else ('a' as int + n - 10) as char
  }

  /** How `repr` writes one character inside quotes `q`: the quote itself and the
      backslash get a backslash, tab, newline and carriage return their letter escapes,
      and the other ASCII control characters a `\x` escape. */
  function EscapeChar(c: char, q: char): string
  {
    if c == q || c == '\\' then ['\\', c]
    else if c == '\t' then "\\t"
    else if c == '\n' then "\\n"
    else if c == '\r' then "\\r"
    else if c as int < 0x20 || c as int == 0x7f then
      ['\\', 'x', HexDigit(c as int / 16), HexDigit(c as int % 16)]
    else [c]
  }

  function EscapeAll(s: string, q: char): string
  {
    if |s| == 0 then "" else EscapeChar(s[0], q) + EscapeAll(s[1..], q)
  }

  /** `repr(s)` for a string. */
  function StrRepr(s: string): (r: string)
    ensures |r| >= 2 && r[0] == r[|r| - 1] == ReprQuote(s)
  {
    [ReprQuote(s)] + EscapeAll(s, ReprQuote(s)) + [ReprQuote(s)]
  }

  /** A character `repr` writes as itself inside single quotes. */
  predicate PlainChar(c: char)
  {
    c != '\'' && c != '\\' && c as int >= 0x20 && c as int != 0x7f
  }

  lemma {:induction false} EscapeAllPlain(s: string, q: char)
    requires q == '\'' && forall i :: 0 <= i < |s| ==> PlainChar(s[i])
    ensures EscapeAll(s, q) == s
  {
    if |s| > 0 {
      EscapeAllPlain(s[1..], q);
      assert s == [s[0]] + s[1..];
    }
  }

  /** A string with no quote, backslash or control character is shown in single quotes
      around the string itself. */
  lemma StrReprPlain(s: string)
    requires forall i :: 0 <= i < |s| ==> PlainChar(s[i])
    ensures StrRepr(s) == "'" + s + "'"
  {
    assert forall i :: 0 <= i < |s| ==> s[i] != '\'';
    EscapeAllPlain(s, '\'');
  }

  /** Every escape is one character, or a backslash and what follows it: the enclosing
      quote never appears bare inside. */
  lemma {:induction false} EscapeAllNoBareQuote(s: string, q: char, i: nat)
    requires q == '\'' || q == '"'
    requires i < |EscapeAll(s, q)| && EscapeAll(s, q)[i] == q
    ensures i > 0 && EscapeAll(s, q)[i - 1] == '\\'
  {
    var e, rest := EscapeChar(s[0], q), EscapeAll(s[1..], q);
    assert EscapeAll(s, q) == e + rest;
    if i >= |e| {
      EscapeAllNoBareQuote(s[1..], q, i - |e|);
      if i - |e| == 0 {
        assert false;
      }
    }
  }

  /** `repr(v)` for JSON-loaded values. */
  function Repr(v: Json): string
    decreases v
  {
    match v
    case JNull => "None"
    case JBool(b) => if b then "True" else "False"
    case JInt(i) => IntToString(i)
    case JFloat(_, text) => text
    case JStr(s) => StrRepr(s)
    case JList(items) =>
      "[" + Join(", ", seq(|items|, k requires 0 <= k < |items| => Repr(items[k]))) + "]"
    case JObject(ms) =>
      "{" + Join(", ", seq(|ms|, k requires 0 <= k < |ms| =>
                         StrRepr(ms[k].key) + ": " + Repr(ms[k].value))) + "}"
  }

  /** `str(v)`: a string is itself, anything else is its `repr`. */
  function Str(v: Json): string
  {
    if v.JStr? then v.s else Repr(v)
  }

  /** The text of a float is the text of its value when it reads back as that value. */
  predicate WellFormedFloat(v: Json)
  {
    v.JFloat? ==> ParseFloat(v.repr) == Some(v.value)
  }

  /** `str()` of a two-element list of floats: how a confidence interval is written. */
  lemma StrOfPair(a: Json, b: Json)
    requires a.JFloat? && b.JFloat?
    ensures Str(JList([a, b])) == "[" + a.repr + ", " + b.repr + "]"
  {
    var items := [a, b];
    var parts := seq(|items|, k requires 0 <= k < |items| => Repr(items[k]));
    assert parts == [a.repr, b.repr];
    assert Join(", ", parts) == a.repr + ", " + b.repr;
  }
}
