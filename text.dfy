/**
 * The Python string operations the core relies on, written out over `seq<char>`:
 * `lower`/`upper` (ASCII letters), `strip`, `rstrip`, `in` on substrings,
 * `split`, `join`, `int(...)`, `str(int)` and the ordering `sorted` uses.
 */
module Text {
  import opened Wrappers

  // ---------------------------------------------------------------------------
  // Characters

  /** Python's `str.isspace()`. */
  predicate IsSpace(c: char) {
    || c == ' '
    || ('\t' <= c <= '\r')
    || ('\U{1c}' <= c <= '\U{1f}')
    || c == '\U{85}' || c == '\U{a0}' || c == '\U{1680}'
    || ('\U{2000}' <= c <= '\U{200a}')
    || c == '\U{2028}' || c == '\U{2029}' || c == '\U{202f}' || c == '\U{205f}' || c == '\U{3000}'
  }

  /**
   * The whitespace `int()` skips around a number: the ASCII spaces `\t\n\v\f\r` and
   * ` `, and every non-ASCII character `str.isspace()` accepts. The separators
   * U+001C..U+001F are `isspace()` but are not skipped.
   */
  predicate IsIntSpace(c: char) {
    || c == ' '
    || ('\t' <= c <= '\r')
    || c == '\U{85}' || c == '\U{a0}' || c == '\U{1680}'
    || ('\U{2000}' <= c <= '\U{200a}')
    || c == '\U{2028}' || c == '\U{2029}' || c == '\U{202f}' || c == '\U{205f}' || c == '\U{3000}'
  }

  predicate IsDigit(c: char) {
    '0' <= c <= '9'
  }

  function DigitValue(c: char): nat
    requires IsDigit(c)
  {
    c as int - '0' as int
  }

  function DigitChar(d: nat): (c: char)
    requires d < 10
    ensures IsDigit(c) && DigitValue(c) == d
  {
    ('0' as int + d) as char
  }

  function LowerChar(c: char): char {
    if 'A' <= c <= 'Z' then (c as int + 32) as char else c
  }

  function UpperChar(c: char): char {
    if 'a' <= c <= 'z' then (c as int - 32) as char else c
  }

  // ---------------------------------------------------------------------------
  // Case mapping and stripping

  /** `s.lower()`, for ASCII letters. */
  function Lower(s: string): string {
    seq(|s|, i requires 0 <= i < |s| => LowerChar(s[i]))
  }

  /** A text without upper-case letters is its own lower case. */
  lemma LowerOfLowercase(s: string)
    requires forall i | 0 <= i < |s| :: !('A' <= s[i] <= 'Z')
    ensures Lower(s) == s
  {
  }

  /** `s.upper()`, for ASCII letters. */
  function Upper(s: string): string {
    seq(|s|, i requires 0 <= i < |s| => UpperChar(s[i]))
  }

  lemma LowerIdempotent(s: string)
    ensures Lower(Lower(s)) == Lower(s)
  {
    // the only fact needed, per character
    forall i | 0 <= i < |s| ensures LowerChar(LowerChar(s[i])) == LowerChar(s[i]) { }
  }

  /** `s.lstrip()` */
  function LStrip(s: string): (r: string)
    ensures |r| <= |s| && r == s[|s| - |r|..]
    ensures r != [] ==> !IsSpace(r[0])
    ensures forall i :: 0 <= i < |s| - |r| ==> IsSpace(s[i])
  {
    if |s| > 0 && IsSpace(s[0]) then LStrip(s[1..]) else s
  }

  /** `s.rstrip()` */
  function RStrip(s: string): (r: string)
    ensures |r| <= |s| && r == s[..|r|]
    ensures r != [] ==> !IsSpace(r[|r| - 1])
    ensures forall i :: |r| <= i < |s| ==> IsSpace(s[i])
  {
    if |s| > 0 && IsSpace(s[|s| - 1]) then RStrip(s[..|s| - 1]) else s
  }

  /** `s.strip()` */
  function Strip(s: string): string {
    RStrip(LStrip(s))
  }

  /** `s` without the leading characters `int()` skips. */
  function IntLStrip(s: string): (r: string)
    ensures |r| <= |s| && r == s[|s| - |r|..]
    ensures r != [] ==> !IsIntSpace(r[0])
    ensures forall i :: 0 <= i < |s| - |r| ==> IsIntSpace(s[i])
  {
    if |s| > 0 && IsIntSpace(s[0]) then IntLStrip(s[1..]) else s
  }

  /** `s` without the trailing characters `int()` skips. */
  function IntRStrip(s: string): (r: string)
    ensures |r| <= |s| && r == s[..|r|]
    ensures r != [] ==> !IsIntSpace(r[|r| - 1])
    ensures forall i :: |r| <= i < |s| ==> IsIntSpace(s[i])
  {
    if |s| > 0 && IsIntSpace(s[|s| - 1]) then IntRStrip(s[..|s| - 1]) else s
  }

  /** `s` without the surrounding characters `int()` skips. */
  function IntStrip(s: string): string {
    IntRStrip(IntLStrip(s))
  }

  /** No character of `s` is a lower-case ASCII letter. */
  predicate NoLower(s: string) {
    forall i | 0 <= i < |s| :: !('a' <= s[i] <= 'z')
  }

  /** An upper-cased and stripped text has no lower-case letters. */
  lemma NoLowerAfterStripUpper(s: string)
    ensures NoLower(Strip(Upper(s)))
  {
    assert NoLower(Upper(s));
    LStripNoLower(Upper(s));
    RStripNoLower(LStrip(Upper(s)));
  }

  lemma {:induction false} LStripNoLower(s: string)
    requires NoLower(s)
    ensures NoLower(LStrip(s))
    decreases |s|
  {
    if |s| > 0 && IsSpace(s[0]) {
      assert forall j | 0 <= j < |s[1..]| :: s[1..][j] == s[j + 1];
      LStripNoLower(s[1..]);
    }
  }

  lemma {:induction false} RStripNoLower(s: string)
    requires NoLower(s)
    ensures NoLower(RStrip(s))
    decreases |s|
  {
    if |s| > 0 && IsSpace(s[|s| - 1]) {
      assert forall j | 0 <= j < |s| - 1 :: s[..|s| - 1][j] == s[j];
      RStripNoLower(s[..|s| - 1]);
    }
  }

  /** Stripping twice is stripping once. */
  lemma StripIdempotent(s: string)
    ensures Strip(Strip(s)) == Strip(s)
  {
    var l := LStrip(s);
    var r := RStrip(l);
    if r != [] {
      assert r[0] == l[0];
      assert LStrip(r) == r;
      assert RStrip(r) == r;
    } else {
      assert LStrip(r) == r;
    }
  }

  /** A text without lower-case letters is its own upper case. */
  lemma UpperOfUppercase(s: string)
    requires NoLower(s)
    ensures Upper(s) == s
  {
  }

  /** `s.rstrip(c)` for a single character `c`. */
  function RStripChar(s: string, c: char): (r: string)
    ensures |r| <= |s| && r == s[..|r|]
    ensures r != [] ==> r[|r| - 1] != c
    ensures forall i :: |r| <= i < |s| ==> s[i] == c
  {
    if |s| > 0 && s[|s| - 1] == c then RStripChar(s[..|s| - 1], c) else s
  }

  predicate StartsWith(s: string, prefix: string) {
    |prefix| <= |s| && s[..|prefix|] == prefix
  }

  /** Python's `needle in hay` on strings. */
  predicate Contains(hay: string, needle: string) {
    StartsWith(hay, needle) || (hay != [] && Contains(hay[1..], needle))
  }

  // ---------------------------------------------------------------------------
  // Splitting and joining

  /** The index of the first `c` in `s`, or `|s|` when there is none. */
  function IndexOf(s: string, c: char): (i: nat)
    ensures i <= |s|
    ensures i < |s| ==> s[i] == c
    ensures forall j :: 0 <= j < i ==> s[j] != c
  {
    if s == [] then 0
    else if s[0] == c then 0
    else 1 + IndexOf(s[1..], c)
  }

  /** The first `c` is at `k` when `s[k]` is `c` and no earlier character is. */
  lemma {:induction false} IndexOfAt(s: string, c: char, k: nat)
    requires k < |s| && s[k] == c
    requires forall j :: 0 <= j < k ==> s[j] != c
    ensures IndexOf(s, c) == k
    decreases k
  {
    if k > 0 {
      assert s[1..][k - 1] == s[k];
      IndexOfAt(s[1..], c, k - 1);
    }
  }

  /** `s.split(sep)`: the pieces between the separators, always at least one. */
  function Split(s: string, sep: char): (parts: seq<string>)
    ensures |parts| >= 1
    decreases |s|
  {
    var i := IndexOf(s, sep);
    if i == |s| then [s] else [s[..i]] + Split(s[i + 1..], sep)
  }

  /** `sep.join(parts)`. */
  function Join(parts: seq<string>, sep: string): string {
    if parts == [] then ""
    else if |parts| == 1 then parts[0]
    else parts[0] + sep + Join(parts[1..], sep)
  }

  /** `s.split(sep, 1)`: the text before the first `sep` and the text after it, if `sep` occurs. */
  function SplitFirst(s: string, sep: char): (r: Option<(string, string)>)
    ensures r.None? <==> sep !in s
    ensures r.Some? ==> sep !in r.value.0 && s == r.value.0 + [sep] + r.value.1
  {
    var i := IndexOf(s, sep);
    if i == |s| then None else Some((s[..i], s[i + 1..]))
  }

  lemma {:induction false} SplitJoin(parts: seq<string>, sep: char)
    requires |parts| >= 1
    requires forall k :: 0 <= k < |parts| ==> sep !in parts[k]
    ensures Split(Join(parts, [sep]), sep) == parts
  {
    var p := parts[0];
    if |parts| == 1 {
      assert IndexOf(p, sep) == |p|;
    } else {
      var rest := Join(parts[1..], [sep]);
      var s := p + [sep] + rest;
      assert Join(parts, [sep]) == s;
      assert IndexOf(s, sep) == |p| by {
        var i := IndexOf(s, sep);
        assert forall j :: 0 <= j < |p| ==> s[j] == p[j];
        assert s[|p|] == sep;
      }
      assert s[..|p|] == p && s[|p| + 1..] == rest;
      SplitJoin(parts[1..], sep);
      assert parts == [p] + parts[1..];
    }
  }

  // ---------------------------------------------------------------------------
  // Integers and their decimal text

  /** The value of a string of decimal digits, most significant first. */
  function DecimalValue(ds: string): nat
    requires forall i :: 0 <= i < |ds| ==> IsDigit(ds[i])
  {
    if ds == [] then 0 else DecimalValue(ds[..|ds| - 1]) * 10 + DigitValue(ds[|ds| - 1])
  }

  /** `str(n)` for a natural number. */
  function NatToDecimal(n: nat): (r: string)
    ensures |r| >= 1
    ensures forall i :: 0 <= i < |r| ==> IsDigit(r[i])
  {
    if n < 10 then [DigitChar(n)] else NatToDecimal(n / 10) + [DigitChar(n % 10)]
  }

  /** `str(i)` for an integer. */
  function IntToDecimal(i: int): string {
    if i < 0 then "-" + NatToDecimal(-i) else NatToDecimal(i)
  }

  lemma {:induction false} DecimalValueOfNat(n: nat)
    ensures DecimalValue(NatToDecimal(n)) == n
  {
    if n >= 10 {
      var ds := NatToDecimal(n);
      assert ds[..|ds| - 1] == NatToDecimal(n / 10);
      DecimalValueOfNat(n / 10);
    }
  }

  /** The digits of `t`, `_` removed. */
  function WithoutUnderscores(t: string): (r: string)
    ensures (forall i :: 0 <= i < |t| ==> IsDigit(t[i]) || t[i] == '_')
            ==> (forall i :: 0 <= i < |r| ==> IsDigit(r[i]))
  {
    if t == [] then []
    else (if t[0] == '_' then [] else [t[0]]) + WithoutUnderscores(t[1..])
  }

  /**
   * The digit strings Python's `int()` accepts in base 10: digits, with single
   * underscores allowed between two digits.
   */
  predicate DigitGroups(t: string) {
    && |t| > 0
    && IsDigit(t[0])
    && (forall i :: 0 <= i < |t| ==> IsDigit(t[i]) || t[i] == '_')
    && (forall i :: 0 <= i < |t| && t[i] == '_' ==> i + 1 < |t| && IsDigit(t[i + 1]))
  }

  /** Python's `int(s)` (base 10): surrounding whitespace, an optional sign, digit groups. */
  function ParseInt(s: string): (r: Option<int>)
  {
    var t := IntStrip(s);
    if |t| > 0 && (t[0] == '+' || t[0] == '-') then
      var body := t[1..];
      if DigitGroups(body) then
        var n: int := DecimalValue(WithoutUnderscores(body));
        Some(if t[0] == '-' then -n else n)
      else None
    else if DigitGroups(t) then Some(DecimalValue(WithoutUnderscores(t)))
    else None
  }

  lemma WithoutUnderscoresOfDigits(ds: string)
    requires forall i :: 0 <= i < |ds| ==> IsDigit(ds[i])
    ensures WithoutUnderscores(ds) == ds
  {
  }

  lemma StripOfDigitText(t: string)
    requires |t| > 0 && !IsIntSpace(t[0]) && !IsIntSpace(t[|t| - 1])
    ensures IntStrip(t) == t
  {
  }

  /** `int(str(i)) == i`: the decimal rendering of an integer reads back as that integer. */
  lemma ParseIntOfDecimal(i: int)
    ensures ParseInt(IntToDecimal(i)) == Some(i)
  {
    if i < 0 {
      assert IntToDecimal(i) == "-" + NatToDecimal(-i);
      ParseOfNegative(-i);
    } else {
      assert IntToDecimal(i) == NatToDecimal(i);
      ParseOfNatural(i);
    }
  }

  lemma ParseOfNatural(n: nat)
    ensures ParseInt(NatToDecimal(n)) == Some(n)
  {
    var ds := NatToDecimal(n);
    DigitsAreDigitGroups(ds);
    DecimalValueOfNat(n);
    StripOfDigitText(ds);
    assert !(ds[0] == '+' || ds[0] == '-');
  }

  lemma ParseOfNegative(n: nat)
    ensures ParseInt("-" + NatToDecimal(n)) == Some(-(n as int))
  {
    var ds := NatToDecimal(n);
    DigitsAreDigitGroups(ds);
    DecimalValueOfNat(n);
    var t := "-" + ds;
    StripOfDigitText(t);
    assert t[0] == '-' && t[1..] == ds;
  }

  /** `int()` reads only what is left once its whitespace is stripped. */
  lemma ParseIntOfSameStrip(s: string, t: string)
    requires IntStrip(s) == IntStrip(t)
    ensures ParseInt(s) == ParseInt(t)
  {
  }

  lemma {:induction false} IntLStripSpaces(a: string, u: string)
    requires forall i :: 0 <= i < |a| ==> IsIntSpace(a[i])
    requires u != [] && !IsIntSpace(u[0])
    ensures IntLStrip(a + u) == u
  {
    if a != [] {
      assert (a + u)[1..] == a[1..] + u;
      IntLStripSpaces(a[1..], u);
    }
  }

  lemma {:induction false} IntRStripSpaces(u: string, b: string)
    requires forall i :: 0 <= i < |b| ==> IsIntSpace(b[i])
    requires u != [] && !IsIntSpace(u[|u| - 1])
    ensures IntRStrip(u + b) == u
  {
    if b != [] {
      assert (u + b)[..|u + b| - 1] == u + b[..|b| - 1];
      IntRStripSpaces(u, b[..|b| - 1]);
    }
  }

  /**
   * `int()` skips ASCII and non-ASCII spaces around the number: `int(a + t + b)`
   * is `int(t)` when `a` and `b` are made of such spaces.
   */
  lemma ParseIntSkipsSpaces(a: string, t: string, b: string)
    requires forall i :: 0 <= i < |a| ==> IsIntSpace(a[i])
    requires forall i :: 0 <= i < |b| ==> IsIntSpace(b[i])
    requires |t| > 0 && !IsIntSpace(t[0]) && !IsIntSpace(t[|t| - 1])
    ensures ParseInt(a + t + b) == ParseInt(t)
  {
    assert a + t + b == a + (t + b);
    IntLStripSpaces(a, t + b);
    IntRStripSpaces(t, b);
    StripOfDigitText(t);
    ParseIntOfSameStrip(a + t + b, t);
  }

  /**
   * An information separator U+001C..U+001F before or after the digits makes
   * `int()` fail, although `str.isspace()` holds for it.
   */
  lemma ParseIntRefusesSeparators(c: char, d: string)
    requires '\U{1c}' <= c <= '\U{1f}'
    requires DigitGroups(d)
    ensures ParseInt([c] + d) == None
    ensures ParseInt(d + [c]) == None
  {
    assert !IsIntSpace(c) && !IsDigit(c);
    StripOfDigitText([c] + d);
    StripOfDigitText(d + [c]);
    assert (d + [c])[|d|] == c;
  }

  lemma DigitsAreDigitGroups(ds: string)
    requires |ds| > 0 && forall i :: 0 <= i < |ds| ==> IsDigit(ds[i])
    ensures DigitGroups(ds)
    ensures DecimalValue(WithoutUnderscores(ds)) == DecimalValue(ds)
  {
    WithoutUnderscoresOfDigits(ds);
  }

  // ---------------------------------------------------------------------------
  // Ordering of strings, as Python compares them (by code point, a prefix first)

  predicate Less(a: string, b: string) {
    if a == [] then b != []
    else if b == [] then false
    else a[0] < b[0] || (a[0] == b[0] && Less(a[1..], b[1..]))
  }

  lemma {:induction false} LessIrreflexive(a: string)
    ensures !Less(a, a)
  {
    if a != [] { LessIrreflexive(a[1..]); }
  }

  lemma {:induction false} LessTransitive(a: string, b: string, c: string)
    requires Less(a, b) && Less(b, c)
    ensures Less(a, c)
  {
    if a != [] && b != [] && c != [] && a[0] == b[0] && b[0] == c[0] {
      LessTransitive(a[1..], b[1..], c[1..]);
    }
  }

  lemma {:induction false} LessTotal(a: string, b: string)
    requires a != b
    ensures Less(a, b) || Less(b, a)
  {
    if a != [] && b != [] && a[0] == b[0] {
      assert a == [a[0]] + a[1..] && b == [b[0]] + b[1..];
      LessTotal(a[1..], b[1..]);
    }
  }

  lemma LessAsymmetric(a: string, b: string)
    requires Less(a, b)
    ensures !Less(b, a)
  {
    if Less(b, a) {
      LessTransitive(a, b, a);
      LessIrreflexive(a);
    }
  }

  // ---------------------------------------------------------------------------
  // Sorted, duplicate-free sequences: the result of `sorted(some_set)`

  predicate StrictlySorted(s: seq<string>) {
    forall i, j :: 0 <= i < j < |s| ==> Less(s[i], s[j])
  }

  function Elems(s: seq<string>): set<string> {
    set x | x in s
  }

  lemma ElemsEmpty(s: seq<string>)
    ensures Elems(s) == {} <==> s == []
  {
    if s != [] { assert s[0] in Elems(s); }
  }

  /** Adds `x` to the sorted enumeration `s` of a set of strings. */
  function InsertSorted(x: string, s: seq<string>): seq<string> {
    if s == [] then [x]
    else if x == s[0] then s
    else if Less(x, s[0]) then [x] + s
    else [s[0]] + InsertSorted(x, s[1..])
  }

  lemma {:induction false} InsertSortedKeepsOrder(x: string, s: seq<string>)
    requires StrictlySorted(s)
    ensures StrictlySorted(InsertSorted(x, s))
    ensures Elems(InsertSorted(x, s)) == Elems(s) + {x}
    decreases |s|
  {
    if s == [] {
    } else if x == s[0] {
    } else if Less(x, s[0]) {
      InsertAtFront(x, s);
    } else {
      var tail := s[1..];
      TailSorted(s);
      InsertSortedKeepsOrder(x, tail);
      InsertAfterHead(x, s);
    }
  }

  lemma TailSorted(s: seq<string>)
    requires StrictlySorted(s) && s != []
    ensures StrictlySorted(s[1..])
    ensures forall k | 0 <= k < |s[1..]| :: Less(s[0], s[1..][k])
    ensures Elems(s) == {s[0]} + Elems(s[1..])
  {
    assert forall k | 0 <= k < |s[1..]| :: s[1..][k] == s[k + 1];
    assert s == [s[0]] + s[1..];
  }

  lemma InsertAtFront(x: string, s: seq<string>)
    requires StrictlySorted(s) && s != [] && Less(x, s[0])
    ensures StrictlySorted([x] + s) && Elems([x] + s) == Elems(s) + {x}
  {
    forall k | 0 <= k < |s| ensures Less(x, s[k]) {
      if k > 0 { LessTransitive(x, s[0], s[k]); }
    }
    ConsSorted(x, s);
    assert Elems([x] + s) == {x} + Elems(s);
  }

  lemma InsertAfterHead(x: string, s: seq<string>)
    requires StrictlySorted(s) && s != [] && x != s[0] && !Less(x, s[0])
    requires StrictlySorted(InsertSorted(x, s[1..]))
    requires Elems(InsertSorted(x, s[1..])) == Elems(s[1..]) + {x}
    ensures StrictlySorted(InsertSorted(x, s))
    ensures Elems(InsertSorted(x, s)) == Elems(s) + {x}
  {
    LessTotal(x, s[0]);
    TailSorted(s);
    var t := InsertSorted(x, s[1..]);
    forall k | 0 <= k < |t| ensures Less(s[0], t[k]) {
      assert t[k] in Elems(s[1..]) + {x};
      if t[k] != x {
        var m :| 0 <= m < |s[1..]| && s[1..][m] == t[k];
      }
    }
    ConsSorted(s[0], t);
    assert InsertSorted(x, s) == [s[0]] + t;
    assert Elems([s[0]] + t) == {s[0]} + Elems(t);
  }

  lemma ConsSorted(h: string, t: seq<string>)
    requires StrictlySorted(t)
    requires forall k | 0 <= k < |t| :: Less(h, t[k])
    ensures StrictlySorted([h] + t)
  {
    var r := [h] + t;
    forall i, j | 0 <= i < j < |r| ensures Less(r[i], r[j]) {
      assert r[j] == t[j - 1];
      if i > 0 { assert r[i] == t[i - 1]; }
    }
  }

  /** A set has only one strictly sorted enumeration. */
  lemma {:induction false} SortedEnumerationUnique(a: seq<string>, b: seq<string>)
    requires StrictlySorted(a) && StrictlySorted(b) && Elems(a) == Elems(b)
    ensures a == b
  {
    ElemsEmpty(a);
    ElemsEmpty(b);
    if a != [] && b != [] {
      assert a[0] in Elems(b) && b[0] in Elems(a);
      if a[0] != b[0] {
        var i :| 0 <= i < |b| && b[i] == a[0];
        var j :| 0 <= j < |a| && a[j] == b[0];
        assert i > 0 && j > 0;
        LessAsymmetric(a[0], a[j]);
      }
      assert a[0] == b[0];
      forall x | x in Elems(a[1..]) ensures x in Elems(b[1..]) {
        var k :| 1 <= k < |a| && a[k] == x;
        LessIrreflexive(a[0]);
        assert x != a[0];
        assert x in Elems(a) && x in Elems(b) && x in b;
        var m :| 0 <= m < |b| && b[m] == x;
        assert m >= 1 && b[1..][m - 1] == x;
      }
      forall x | x in Elems(b[1..]) ensures x in Elems(a[1..]) {
        var k :| 1 <= k < |b| && b[k] == x;
        LessIrreflexive(b[0]);
        assert x != b[0];
        assert x in Elems(b) && x in Elems(a) && x in a;
        var m :| 0 <= m < |a| && a[m] == x;
        assert m >= 1 && a[1..][m - 1] == x;
      }
      SortedEnumerationUnique(a[1..], b[1..]);
      assert a == [a[0]] + a[1..] && b == [b[0]] + b[1..];
    }
  }

  /** `sorted(s)` for a set of strings: its elements in ascending order. */
  ghost function Sorted(s: set<string>): (r: seq<string>)
    ensures StrictlySorted(r) && Elems(r) == s
    decreases |s|
  {
    if s == {} then []
    else
      var x :| x in s;
      var rest := Sorted(s - {x});
      InsertSortedKeepsOrder(x, rest);
      InsertSorted(x, rest)
  }

  /** Sorting a set by inserting its elements one at a time. */
  method SortSet(s: set<string>) returns (r: seq<string>)
    ensures r == Sorted(s)
  {
    r := [];
    var rest := s;
    while rest != {}
      invariant StrictlySorted(r)
      invariant Elems(r) + rest == s
      decreases |rest|
    {
      var x :| x in rest;
      InsertSortedKeepsOrder(x, r);
      r := InsertSorted(x, r);
      rest := rest - {x};
    }
    SortedEnumerationUnique(r, Sorted(s));
  }

  /** A prefix of a sorted sequence holds its smallest elements. */
  lemma SortedPrefixSmallest(full: seq<string>, n: nat)
    requires StrictlySorted(full) && n <= |full|
    ensures StrictlySorted(full[..n]) && Elems(full[..n]) <= Elems(full)
    ensures forall x, i | x in Elems(full) - Elems(full[..n]) && 0 <= i < n :: Less(full[i], x)
  {
    assert forall k | 0 <= k < n :: full[..n][k] == full[k];
    forall x, i | x in Elems(full) - Elems(full[..n]) && 0 <= i < n
      ensures Less(full[i], x)
    {
      var j :| 0 <= j < |full| && full[j] == x;
      assert i < j;
    }
  }
}
