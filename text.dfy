/** The Python string operations the source relies on, written out: `str.split` with an
    explicit separator, `str.join`, `str.strip`, `str.lower` on ASCII letters, string
    ordering by code point, the first-appearance order of `unique()`, and the parsing of
    `int(...)` and `float(...)`. */
module Text {
  import opened Wrappers
  import opened ExtReals

  // ---------------------------------------------------------------- sequences

  predicate NoDups<T(==)>(s: seq<T>)
  {
    forall i, j :: 0 <= i < j < |s| ==> s[i] != s[j]
  }

  function Elements<T>(s: seq<T>): set<T>
  {
    set x | x in s
  }

  /** The distinct elements of `s` in order of first appearance: what pandas' `unique()`
      and a `groupby(..., sort=False)` enumerate. */
  function Distinct<T(==)>(s: seq<T>): (r: seq<T>)
    ensures NoDups(r)
    ensures forall i :: 0 <= i < |r| ==> r[i] in s
    ensures forall i :: 0 <= i < |s| ==> s[i] in r
    ensures |r| <= |s|
  {
    if |s| == 0 then []
    else
      var p := Distinct(s[..|s| - 1]);
      var x := s[|s| - 1];
      assert forall i :: 0 <= i < |s| - 1 ==> s[i] == s[..|s| - 1][i];
      if x in p then p else p + [x]
  }

  /** Appending an element either leaves the distinct list alone (seen before) or adds
      it at the end: the first-appearance order. */
  lemma DistinctSnoc<T>(s: seq<T>, x: T)
    ensures Distinct(s + [x]) == if x in s then Distinct(s) else Distinct(s) + [x]
  {
    assert (s + [x])[..|s + [x]| - 1] == s;
  }

  /** Position of the first occurrence of `x` in `s`. */
  function FirstIndex<T(==)>(s: seq<T>, x: T): (k: nat)
    requires x in s
    ensures k < |s| && s[k] == x
    ensures forall j :: 0 <= j < k ==> s[j] != x
  {
    if s[0] == x then 0 else 1 + FirstIndex(s[1..], x)
  }

  /** `Distinct(s)` lists the elements of `s` strictly by their first occurrence. */
  lemma {:induction false} DistinctInFirstAppearanceOrder<T>(s: seq<T>, i: nat, j: nat)
    requires i < j < |Distinct(s)|
    ensures FirstIndex(s, Distinct(s)[i]) < FirstIndex(s, Distinct(s)[j])
  {
    var n := |s|;
    var p := s[..n - 1];
    var x := s[n - 1];
    assert s == p + [x];
    var dp := Distinct(p);
    if x in dp {
      assert Distinct(s) == dp;
      DistinctInFirstAppearanceOrder(p, i, j);
      FirstIndexPrefix(p, x, dp[i]);
      FirstIndexPrefix(p, x, dp[j]);
    } else {
      assert Distinct(s) == dp + [x];
      assert dp[i] in p;
      FirstIndexPrefix(p, x, dp[i]);
      if j < |dp| {
        DistinctInFirstAppearanceOrder(p, i, j);
        FirstIndexPrefix(p, x, dp[j]);
      } else {
        assert Distinct(s)[j] == x;
        assert x !in p;
        assert FirstIndex(s, x) == n - 1;
      }
    }
  }

  lemma {:induction false} FirstIndexPrefix<T>(p: seq<T>, x: T, y: T)
    requires y in p
    ensures y in p + [x] && FirstIndex(p + [x], y) == FirstIndex(p, y)
  {
    if p[0] != y {
      assert (p + [x])[1..] == p[1..] + [x];
      FirstIndexPrefix(p[1..], x, y);
    }
  }

  /** The elements of `s` that satisfy `p`, in order: a boolean-mask selection. */
  function Filter<T>(s: seq<T>, p: T -> bool): (r: seq<T>)
    ensures |r| <= |s|
  {
    if |s| == 0 then []
    else
      var q := Filter(s[..|s| - 1], p);
      if p(s[|s| - 1]) then q + [s[|s| - 1]] else q
  }

  /** What a mask selects satisfies it and comes from `s`; everything in `s` that
      satisfies it is selected. */
  lemma {:induction false} FilterMembers<T>(s: seq<T>, p: T -> bool)
    ensures forall i :: 0 <= i < |Filter(s, p)| ==> p(Filter(s, p)[i]) && Filter(s, p)[i] in s
    ensures forall i :: 0 <= i < |s| && p(s[i]) ==> s[i] in Filter(s, p)
  {
    if |s| > 0 {
      var init := s[..|s| - 1];
      FilterMembers(init, p);
      assert forall i :: 0 <= i < |s| - 1 ==> s[i] == init[i];
      assert s == init + [s[|s| - 1]];
    }
  }

  lemma FilterSnoc<T>(s: seq<T>, x: T, p: T -> bool)
    ensures Filter(s + [x], p) == if p(x) then Filter(s, p) + [x] else Filter(s, p)
  {
    assert (s + [x])[..|s + [x]| - 1] == s;
  }

  /** A mask that holds everywhere selects everything. */
  lemma {:induction false} FilterAll<T>(s: seq<T>, p: T -> bool)
    requires forall i :: 0 <= i < |s| ==> p(s[i])
    ensures Filter(s, p) == s
  {
    if |s| > 0 {
      FilterAll(s[..|s| - 1], p);
      assert s == s[..|s| - 1] + [s[|s| - 1]];
    }
  }

  // ---------------------------------------------------------------- characters

  /** The characters Python's `str.isspace` accepts, which `strip()` and `float()` skip. */
  predicate IsSpace(c: char)
  {
    c == ' ' || ('\t' <= c <= '\r') || ('\U{1C}' <= c <= '\U{1F}') || c == '\U{85}' || c == '\U{A0}' ||
    c == '\U{1680}' || ('\U{2000}' <= c <= '\U{200A}') || c == '\U{2028}' || c == '\U{2029}' ||
    c == '\U{202F}' || c == '\U{205F}' || c == '\U{3000}'
  }

  predicate IsDigit(c: char) { '0' <= c <= '9' }

  function DigitValue(c: char): (d: nat)
    requires IsDigit(c)
    ensures d < 10
  {
    (c as int - '0' as int)
  }

  function DigitChar(d: nat): (c: char)
    requires d < 10
    ensures IsDigit(c) && DigitValue(c) == d
  {
    (d + '0' as int) as char
  }

  function LowerChar(c: char): char
  {
    if 'A' <= c <= 'Z' then (c as int - 'A' as int + 'a' as int) as char else c
  }

  /** `str.lower()`, for the ASCII letters. */
  function Lower(s: string): (r: string)
    ensures |r| == |s|
    ensures forall i :: 0 <= i < |s| ==> r[i] == LowerChar(s[i])
  {
    if |s| == 0 then "" else [LowerChar(s[0])] + Lower(s[1..])
  }

  /** `str.strip()`: leading and trailing whitespace removed. */
  function StripLeft(s: string): (r: string)
    ensures |r| == 0 || !IsSpace(r[0])
    ensures exists k :: 0 <= k <= |s| && r == s[k..]
  {
    if |s| > 0 && IsSpace(s[0]) then
      var r := StripLeft(s[1..]);
      assert exists k :: 0 <= k <= |s[1..]| && r == s[1..][k..];
      var k :| 0 <= k <= |s[1..]| && r == s[1..][k..];
      assert r == s[k + 1..];
      r
    else
      assert s == s[0..];
      s
  }

  function StripRight(s: string): (r: string)
    ensures |r| == 0 || !IsSpace(r[|r| - 1])
    ensures |r| <= |s| && r == s[..|r|]
  {
    if |s| > 0 && IsSpace(s[|s| - 1]) then StripRight(s[..|s| - 1]) else s
  }

  function Strip(s: string): string
  {
    StripRight(StripLeft(s))
  }

  lemma StripLeadingSpace(c: char, s: string)
    requires IsSpace(c)
    ensures Strip([c] + s) == Strip(s)
  {
    assert ([c] + s)[1..] == s;
  }

  lemma {:induction false} StripNoSpace(s: string)
    requires forall i :: 0 <= i < |s| ==> !IsSpace(s[i])
    ensures Strip(s) == s
  {
  }

  // ---------------------------------------------------------------- split, join, search

  /** `s.split(c)` for a one-character separator: never empty, pieces free of `c`. */
  function Split(s: string, c: char): (r: seq<string>)
    ensures |r| >= 1
    ensures forall k :: 0 <= k < |r| ==> c !in r[k]
  {
    if |s| == 0 then [""]
    else if s[0] == c then [""] + Split(s[1..], c)
    else
      var rest := Split(s[1..], c);
      [[s[0]] + rest[0]] + rest[1..]
  }

  /** `sep.join(parts)`. */
  function Join(sep: string, parts: seq<string>): string
  {
    if |parts| == 0 then ""
    else if |parts| == 1 then parts[0]
    else parts[0] + sep + Join(sep, parts[1..])
  }

  /** A character in neither the separator nor any piece is not in the join. */
  lemma {:induction false} JoinExcludes(sep: string, parts: seq<string>, x: char)
    requires x !in sep && forall k :: 0 <= k < |parts| ==> x !in parts[k]
    ensures x !in Join(sep, parts)
  {
    if |parts| > 1 {
      JoinExcludes(sep, parts[1..], x);
    }
  }

  /** Joining the pieces of a split with the separator gives the string back. */
  lemma {:induction false} JoinSplit(s: string, c: char)
    ensures Join([c], Split(s, c)) == s
  {
    if |s| == 0 {
    } else if s[0] == c {
      JoinSplit(s[1..], c);
      var rest := Split(s[1..], c);
      assert Split(s, c) == [""] + rest;
      assert s == [c] + s[1..];
    } else {
      JoinSplit(s[1..], c);
      var rest := Split(s[1..], c);
      assert Split(s, c) == [[s[0]] + rest[0]] + rest[1..];
      if |rest| == 1 {
        assert s == [s[0]] + s[1..];
      } else {
        assert rest == [rest[0]] + rest[1..];
        assert Join([c], rest) == rest[0] + [c] + Join([c], rest[1..]);
        assert s == [s[0]] + s[1..];
      }
    }
  }

  lemma {:induction false} SplitPrefix(p: string, c: char, t: string)
    requires c !in p
    ensures Split(p + t, c) == [p + Split(t, c)[0]] + Split(t, c)[1..]
  {
    if |p| > 0 {
      assert (p + t)[0] == p[0];
      assert (p + t)[1..] == p[1..] + t;
      SplitPrefix(p[1..], c, t);
      assert [p[0]] + (p[1..] + Split(t, c)[0]) == p + Split(t, c)[0];
    } else {
      var r := Split(t, c);
      assert p + t == t;
      assert r == [r[0]] + r[1..];
      assert p + r[0] == r[0];
    }
  }

  /** Splitting a join of `c`-free pieces gives the pieces back. */
  lemma {:induction false} SplitJoin(parts: seq<string>, c: char)
    requires |parts| >= 1
    requires forall k :: 0 <= k < |parts| ==> c !in parts[k]
    ensures Split(Join([c], parts), c) == parts
  {
    if |parts| == 1 {
      SplitPrefix(parts[0], c, "");
      assert parts[0] + "" == parts[0];
    } else {
      var t := Join([c], parts[1..]);
      SplitJoin(parts[1..], c);
      assert Join([c], parts) == parts[0] + ([c] + t);
      SplitPrefix(parts[0], c, [c] + t);
      assert ([c] + t)[1..] == t;
      assert Split([c] + t, c) == [""] + parts[1..];
      assert parts[0] + "" == parts[0];
    }
  }

  predicate IsPrefix(p: string, s: string)
  {
    |p| <= |s| && s[..|p|] == p
  }

  /** Python's `sub in s`. */
  predicate Contains(s: string, sub: string)
    decreases |s|
  {
    IsPrefix(sub, s) || (|s| > 0 && Contains(s[1..], sub))
  }

  // ---------------------------------------------------------------- lexicographic order

  /** Python's `a < b` on strings: lexicographic by code point. */
  predicate StrLess(a: string, b: string)
  {
    if |a| == 0 then |b| > 0
    else if |b| == 0 then false
    else if a[0] != b[0] then a[0] < b[0]
    else StrLess(a[1..], b[1..])
  }

  lemma {:induction false} StrLessIrreflexive(a: string)
    ensures !StrLess(a, a)
  {
    if |a| > 0 { StrLessIrreflexive(a[1..]); }
  }

  lemma {:induction false} StrLessAsymmetric(a: string, b: string)
    ensures !(StrLess(a, b) && StrLess(b, a))
  {
    if |a| > 0 && |b| > 0 && a[0] == b[0] { StrLessAsymmetric(a[1..], b[1..]); }
  }

  lemma {:induction false} StrLessTotal(a: string, b: string)
    ensures a == b || StrLess(a, b) || StrLess(b, a)
  {
    if |a| > 0 && |b| > 0 && a[0] == b[0] {
      StrLessTotal(a[1..], b[1..]);
      if a[1..] == b[1..] {
        assert a == [a[0]] + a[1..] && b == [b[0]] + b[1..];
      }
    }
  }

  lemma {:induction false} StrLessTransitive(a: string, b: string, c: string)
    requires StrLess(a, b) && StrLess(b, c)
    ensures StrLess(a, c)
  {
    if |a| > 0 && a[0] == b[0] && b[0] == c[0] {
      StrLessTransitive(a[1..], b[1..], c[1..]);
    }
  }

  // ---------------------------------------------------------------- numbers as text

  predicate AllDigits(s: string)
  {
    forall i :: 0 <= i < |s| ==> IsDigit(s[i])
  }

  /** The value of a run of decimal digits, most significant first. */
  function DigitsValue(s: string): nat
    requires AllDigits(s)
  {
    if |s| == 0 then 0 else 10 * DigitsValue(s[..|s| - 1]) + DigitValue(s[|s| - 1])
  }

  /** `str(n)` for a natural number. */
  function NatToString(n: nat): (s: string)
    ensures |s| >= 1 && AllDigits(s)
  {
    if n < 10 then [DigitChar(n)] else NatToString(n / 10) + [DigitChar(n % 10)]
  }

  /** `str(i)` for a Python int. */
  function IntToString(i: int): string
  {
    if i < 0 then "-" + NatToString(-i) else NatToString(i)
  }

  lemma {:induction false} NatToStringValue(n: nat)
    ensures DigitsValue(NatToString(n)) == n
  {
    if n >= 10 {
      NatToStringValue(n / 10);
      var s := NatToString(n);
      assert s[..|s| - 1] == NatToString(n / 10);
    }
  }

  /** `int(s)` on text: surrounding whitespace, an optional sign, then decimal digits. */
  function ParseInt(s: string): Option<int>
  {
    var t := Strip(s);
    if |t| > 0 && (t[0] == '-' || t[0] == '+') then
      var body := t[1..];
      if |body| > 0 && AllDigits(body) then
        Some(if t[0] == '-' then -(DigitsValue(body) as int) else DigitsValue(body))
      else None
    else if |t| > 0 && AllDigits(t) then Some(DigitsValue(t))
    else None
  }

  /** `int(str(i)) == i`. */
  lemma IntToStringParses(i: int)
    ensures ParseInt(IntToString(i)) == Some(i)
  {
    var s := IntToString(i);
    var n: nat := if i < 0 then -i else i;
    var d := NatToString(n);
    NatToStringValue(n);
    IntTextHasNoSpace(i);
    StripNoSpace(s);
    if i < 0 {
      assert s == "-" + d && s[1..] == d;
    } else {
      assert s == d && IsDigit(s[0]);
    }
  }

  lemma IntTextHasNoSpace(i: int)
    ensures forall k :: 0 <= k < |IntToString(i)| ==> !IsSpace(IntToString(i)[k])
  {
    var n: nat := if i < 0 then -i else i;
    var d := NatToString(n);
    assert forall k :: 0 <= k < |d| ==> IsDigit(d[k]);
  }

  function Pow10(e: nat): (p: real)
    ensures p >= 1.0
  {
    if e == 0 then 1.0 else 10.0 * Pow10(e - 1)
  }

  function Scale10(x: real, e: int): real
  {
    if e >= 0 then x * Pow10(e) else x / Pow10(-e)
  }

  function Negate(v: ExtReal): ExtReal
  {
    match v
    case NegInf => PosInf
    case PosInf => NegInf
    case Fin(x) => Fin(-x)
  }

  /** Index of the first `e` or `E`, or `|s|` when there is none. */
  function ExponentMark(s: string): (k: nat)
    ensures k <= |s|
    ensures forall j :: 0 <= j < k ==> s[j] != 'e' && s[j] != 'E'
    ensures k < |s| ==> s[k] == 'e' || s[k] == 'E'
  {
    if |s| == 0 then 0
    else if s[0] == 'e' || s[0] == 'E' then 0
    else 1 + ExponentMark(s[1..])
  }

  function DotMark(s: string): (k: nat)
    ensures k <= |s|
    ensures forall j :: 0 <= j < k ==> s[j] != '.'
    ensures k < |s| ==> s[k] == '.'
  {
    if |s| == 0 then 0 else if s[0] == '.' then 0 else 1 + DotMark(s[1..])
  }

  /** The value of the digits after a decimal point. */
  function FractionValue(frac: string): (r: real)
    requires AllDigits(frac)
    ensures |frac| == 0 ==> r == 0.0
  {
    DigitsValue(frac) as real / Pow10(|frac|)
  }

  /** A decimal mantissa: digits, optionally a point and more digits, at least one digit. */
  function ParseMantissa(m: string): Option<real>
  {
    var k := DotMark(m);
    var whole := m[..k];
    var frac := if k < |m| then m[k + 1..] else "";
    if AllDigits(whole) && AllDigits(frac) && |whole| + |frac| > 0 then
      Some(DigitsValue(whole) as real + FractionValue(frac))
    else None
  }

  /** `float(s)` without its sign: `inf`, `infinity` (any case) or a decimal number with an
      optional exponent. */
  function ParseUnsignedFloat(b: string): Option<ExtReal>
  {
    if Lower(b) == "inf" || Lower(b) == "infinity" then Some(PosInf)
    else
      var k := ExponentMark(b);
      var mant :- ParseMantissa(b[..k]);
      if k == |b| then Some(Fin(mant))
      else
        var e :- ParseInt(b[k + 1..]);
        var ex := b[k + 1..];
        if |ex| > 0 && !IsSpace(ex[0]) && !IsSpace(ex[|ex| - 1]) then Some(Fin(Scale10(mant, e)))
        else None
  }

  /** `float(s)` on text. NaN has no value in this model, so `nan` does not parse. */
  function ParseFloat(s: string): Option<ExtReal>
  {
    ParseStripped(Strip(s))
  }

  /** `float` on text already stripped: an optional sign, then the unsigned number. */
  function ParseStripped(t: string): Option<ExtReal>
  {
    if |t| > 0 && (t[0] == '-' || t[0] == '+') then
      var v :- ParseUnsignedFloat(t[1..]);
      Some(if t[0] == '-' then Negate(v) else v)
    else ParseUnsignedFloat(t)
  }

  /** `float(str(i)) == i` for every Python int. */
  lemma FloatOfIntText(i: int)
    ensures ParseFloat(IntToString(i)) == Some(Fin(i as real))
  {
    var s := IntToString(i);
    IntTextHasNoSpace(i);
    StripNoSpace(s);
    var n: nat := if i < 0 then -i else i;
    var body := NatToString(n);
    NatToStringValue(n);
    UnsignedFloatOfDigits(body);
    if i < 0 {
      assert s == "-" + body && s[1..] == body;
    } else {
      assert s == body && IsDigit(s[0]);
    }
  }

  lemma UnsignedFloatOfDigits(d: string)
    requires |d| > 0 && AllDigits(d)
    ensures ParseUnsignedFloat(d) == Some(Fin(DigitsValue(d) as real))
  {
    MantissaOfDigits(d);
    assert Lower(d)[0] == LowerChar(d[0]) && IsDigit(Lower(d)[0]);
    assert Lower(d) != "inf" && Lower(d) != "infinity";
    assert d[..|d|] == d;
  }

  lemma MantissaOfDigits(d: string)
    requires |d| > 0 && AllDigits(d)
    ensures ExponentMark(d) == |d| && DotMark(d) == |d|
    ensures ParseMantissa(d) == Some(DigitsValue(d) as real)
  {
    ExponentMarkDigits(d);
    DotMarkDigits(d);
    var k := DotMark(d);
    var whole := d[..k];
    assert whole == d;
    var frac: string := "";
    assert AllDigits(frac);
    assert FractionValue(frac) == 0.0;
    assert ParseMantissa(d) == Some(DigitsValue(whole) as real + FractionValue(frac));
  }

  lemma {:induction false} ExponentMarkDigits(d: string)
    requires AllDigits(d)
    ensures ExponentMark(d) == |d|
  {
    if |d| > 0 { ExponentMarkDigits(d[1..]); }
  }

  lemma {:induction false} DotMarkDigits(d: string)
    requires AllDigits(d)
    ensures DotMark(d) == |d|
  {
    if |d| > 0 { DotMarkDigits(d[1..]); }
  }

  /** Leading whitespace does not change what `float` reads. */
  lemma FloatIgnoresLeadingSpace(s: string)
    ensures ParseFloat(" " + s) == ParseFloat(s)
  {
    StripLeadingSpace(' ', s);
  }
}
