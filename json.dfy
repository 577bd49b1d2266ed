/**
 * JSON values as the gateway sees them. Decode turns a request body into a
 * value as `json.loads` does, except that it refuses the `NaN`, `Infinity` and
 * `-Infinity` literals and lone-surrogate escapes. Encode renders a value in the
 * compact layout of `json.dumps(..., separators=(',', ':'))` with `ensure_ascii`;
 * it writes null, booleans, integers, strings, arrays and objects as that call
 * does, but a non-integer number as mantissa and exponent (`15e-1` for 1.5)
 * rather than as Python's float repr. Objects behave as Python dicts
 * (a key occurs once and keeps its first position; a later write replaces the
 * value in place).
 */
module Json {
  import opened Wrappers
  import opened Text

  /**
   * A JSON value. A number written with a fraction or an exponent is kept as the
   * decimal `mantissa * 10^exponent` it denotes; Python would round it to a float.
   */
  datatype Json =
    | JNull
    | JBool(b: bool)
    | JInt(i: int)
    | JFloat(mantissa: int, exponent: int)
    | JStr(s: string)
    | JArray(items: seq<Json>)
    | JObject(members: seq<(string, Json)>)

  type Members = seq<(string, Json)>

  // ---------------------------------------------------------------------------
  // Objects as dicts

  predicate DistinctKeys(m: Members) {
    forall i, j :: 0 <= i < j < |m| ==> m[i].0 != m[j].0
  }

  predicate HasKey(m: Members, key: string) {
    exists i | 0 <= i < |m| :: m[i].0 == key
  }

  /** The position of `key` in `m`, or `|m|` when it is absent. */
  function KeyIndex(m: Members, key: string): (i: nat)
    ensures i <= |m|
    ensures i < |m| ==> m[i].0 == key
    ensures forall j :: 0 <= j < i ==> m[j].0 != key
  {
    if m == [] then 0
    else if m[0].0 == key then 0
    else 1 + KeyIndex(m[1..], key)
  }

  /** `d.get(key)` */
  function Get(m: Members, key: string): (r: Option<Json>)
    ensures r.Some? <==> HasKey(m, key)
    ensures r.Some? ==> exists i | 0 <= i < |m| :: m[i] == (key, r.value)
  {
    var i := KeyIndex(m, key);
    if i == |m| then None else Some(m[i].1)
  }

  /** `d[key] = value`: replaces the value in place, or adds the key at the end. */
  function ObjSet(m: Members, key: string, value: Json): Members {
    var i := KeyIndex(m, key);
    if i == |m| then m + [(key, value)] else m[i := (key, value)]
  }

  /** `{**base, **extra}` */
  function ObjUpdate(base: Members, extra: Members): Members
    decreases |extra|
  {
    if extra == [] then base else ObjUpdate(ObjSet(base, extra[0].0, extra[0].1), extra[1..])
  }

  /** `dict(pairs)`: later pairs overwrite earlier ones with the same key. */
  function FromPairs(pairs: Members): Members {
    if pairs == [] then []
    else ObjSet(FromPairs(pairs[..|pairs| - 1]), pairs[|pairs| - 1].0, pairs[|pairs| - 1].1)
  }

  /** The first position holding `key` is the one `KeyIndex` finds. */
  lemma KeyIndexAt(m: Members, key: string, i: nat)
    requires i < |m| && m[i].0 == key
    requires forall j :: 0 <= j < i ==> m[j].0 != key
    ensures KeyIndex(m, key) == i
  {
  }

  lemma KeyIndexAbsent(m: Members, key: string)
    requires forall j :: 0 <= j < |m| ==> m[j].0 != key
    ensures KeyIndex(m, key) == |m|
  {
  }

  /** Two member lists with the same keys position by position look up the same positions. */
  lemma KeyIndexSameKeys(m: Members, r: Members, k: string)
    requires |m| <= |r|
    requires forall j :: 0 <= j < |m| ==> r[j].0 == m[j].0
    requires forall j :: |m| <= j < |r| ==> r[j].0 != k
    ensures KeyIndex(r, k) == (if KeyIndex(m, k) == |m| then |r| else KeyIndex(m, k))
  {
    var a := KeyIndex(m, k);
    if a < |m| {
      KeyIndexAt(r, k, a);
    } else {
      KeyIndexAbsent(r, k);
    }
  }

  /** In a dict, `get` of a key returns the value stored with it. */
  lemma GetOfDistinct(m: Members, i: nat)
    requires DistinctKeys(m) && i < |m|
    ensures Get(m, m[i].0) == Some(m[i].1)
  {
    KeyIndexAt(m, m[i].0, i);
  }

  lemma ObjSetNewKey(m: Members, key: string, value: Json)
    requires !HasKey(m, key)
    ensures ObjSet(m, key, value) == m + [(key, value)]
  {
  }

  /** Writing `key` makes `get(key)` return the new value and leaves every other key alone. */
  lemma ObjSetGet(m: Members, key: string, value: Json)
    ensures Get(ObjSet(m, key, value), key) == Some(value)
    ensures forall k :: k != key ==> Get(ObjSet(m, key, value), k) == Get(m, k)
    ensures DistinctKeys(m) ==> DistinctKeys(ObjSet(m, key, value))
  {
    var r := ObjSet(m, key, value);
    var i := KeyIndex(m, key);
    if i == |m| {
      KeyIndexAt(r, key, i);
      forall k | k != key ensures Get(r, k) == Get(m, k) {
        KeyIndexSameKeys(m, r, k);
      }
    } else {
      KeyIndexAt(r, key, i);
      forall k | k != key ensures Get(r, k) == Get(m, k) {
        KeyIndexSameKeys(m, r, k);
      }
    }
  }

  lemma {:induction false} FromPairsOfDistinct(pairs: Members)
    requires DistinctKeys(pairs)
    ensures FromPairs(pairs) == pairs
  {
    if pairs != [] {
      var init := pairs[..|pairs| - 1];
      var last := pairs[|pairs| - 1];
      FromPairsOfDistinct(init);
      assert !HasKey(init, last.0) by {
        forall i | 0 <= i < |init| ensures init[i].0 != last.0 { assert init[i] == pairs[i]; }
      }
      ObjSetNewKey(init, last.0, last.1);
      assert init + [last] == pairs;
    }
  }

  /** `{**base, **extra}` when no key repeats is `base` followed by `extra`. */
  lemma {:induction false} ObjUpdateFresh(base: Members, extra: Members)
    requires DistinctKeys(base + extra)
    ensures ObjUpdate(base, extra) == base + extra
    decreases |extra|
  {
    if extra != [] {
      var e := extra[0];
      assert !HasKey(base, e.0) by {
        forall i | 0 <= i < |base| ensures base[i].0 != e.0 {
          assert (base + extra)[i] == base[i] && (base + extra)[|base|] == e;
        }
      }
      ObjSetNewKey(base, e.0, e.1);
      assert base + extra == (base + [e]) + extra[1..];
      ObjUpdateFresh(base + [e], extra[1..]);
    }
  }

  /** Every object inside the value has distinct keys, as a Python dict does. */
  predicate WellFormed(j: Json) {
    match j
    case JArray(items) => forall k | 0 <= k < |items| :: WellFormed(items[k])
    case JObject(ms) => DistinctKeys(ms) && forall k | 0 <= k < |ms| :: WellFormed(ms[k].1)
    case _ => true
  }

  // ---------------------------------------------------------------------------
  // Encoding: json.dumps(value, separators=(',', ':')) with ensure_ascii

  function HexDigit(d: nat): (c: char)
    requires d < 16
    ensures IsHexDigit(c) && HexValue(c) == d
  {
    if d < 10 then ('0' as int + d) as char else ('a' as int + d - 10) as char
  }

  /** Four lower-case hexadecimal digits, `'{0:04x}'.format(n)`. */
  function Hex4(n: nat): string
    requires n < 0x10000
  {
    [HexDigit(n / 16 / 16 / 16), HexDigit(n / 16 / 16 % 16), HexDigit(n / 16 % 16), HexDigit(n % 16)]
  }

  /** The text `json.dumps` writes for one character of a string. */
  function EscapeChar(c: char): string {
    if c == '"' then "\\\""
    else if c == '\\' then "\\\\"
    else if c == '\n' then "\\n"
    else if c == '\r' then "\\r"
    else if c == '\t' then "\\t"
    else if c == '\U{8}' then "\\b"
    else if c == '\U{c}' then "\\f"
    else if ' ' <= c <= '~' then [c]
    else if c as int < 0x10000 then "\\u" + Hex4(c as int)
    else "\\u" + Hex4(HighSurrogate(c)) + "\\u" + Hex4(LowSurrogate(c))
  }

  /** The UTF-16 surrogate pair of a character outside the Basic Multilingual Plane. */
  function HighSurrogate(c: char): (u: nat)
    requires c as int >= 0x10000
    ensures 0xD800 <= u < 0xDC00
  {
    0xD800 + (c as int - 0x10000) / 0x400
  }

  function LowSurrogate(c: char): (u: nat)
    requires c as int >= 0x10000
    ensures 0xDC00 <= u < 0xE000
  {
    0xDC00 + (c as int - 0x10000) % 0x400
  }

  lemma SurrogatesCombine(c: char)
    requires c as int >= 0x10000
    ensures 0x10000 + (HighSurrogate(c) - 0xD800) * 0x400 + (LowSurrogate(c) - 0xDC00) == c as int
  {
    var v := c as int - 0x10000;
    assert v == v / 0x400 * 0x400 + v % 0x400;
  }

  function EscapeAll(s: string): string {
    if s == [] then [] else EscapeChar(s[0]) + EscapeAll(s[1..])
  }

  function Quote(s: string): string {
    "\"" + EscapeAll(s) + "\""
  }

  function Encode(j: Json): string
    decreases j, 1
  {
    match j
    case JNull => "null"
    case JBool(b) => if b then "true" else "false"
    case JInt(i) => IntToDecimal(i)
    case JFloat(m, e) => IntToDecimal(m) + "e" + IntToDecimal(e)
    case JStr(s) => Quote(s)
    case JArray(items) => "[" + EncodeItems(items) + "]"
    case JObject(ms) => "{" + EncodeMembers(ms) + "}"
  }

  function EncodeItems(items: seq<Json>): string
    decreases items, 0
  {
    if items == [] then ""
    else if |items| == 1 then Encode(items[0])
    else Encode(items[0]) + "," + EncodeItems(items[1..])
  }

  function EncodeMembers(ms: Members): string
    decreases ms, 0
  {
    if ms == [] then ""
    else
      assert ms[0] in ms && ms[0].1 < ms[0];
      var first := Quote(ms[0].0) + ":" + Encode(ms[0].1);
      if |ms| == 1 then first else first + "," + EncodeMembers(ms[1..])
  }

  // ---------------------------------------------------------------------------
  // Decoding: json.loads

  predicate IsJsonSpace(c: char) {
    c == ' ' || c == '\t' || c == '\n' || c == '\r'
  }

  function SkipWs(s: string): (r: string)
    ensures |r| <= |s|
    ensures r != [] ==> !IsJsonSpace(r[0])
  {
    if s != [] && IsJsonSpace(s[0]) then SkipWs(s[1..]) else s
  }

  predicate IsHexDigit(c: char) {
    IsDigit(c) || ('a' <= c <= 'f') || ('A' <= c <= 'F')
  }

  function HexValue(c: char): (v: nat)
    requires IsHexDigit(c)
    ensures v < 16
  {
    if IsDigit(c) then DigitValue(c)
    else if 'a' <= c <= 'f' then c as int - 'a' as int + 10
    else c as int - 'A' as int + 10
  }

  /** The four hexadecimal digits at the start of `s`, as a number. */
  function ParseHex4(s: string): (r: Option<nat>)
    ensures r.Some? ==> |s| >= 4 && r.value < 0x10000
  {
    if |s| >= 4 && IsHexDigit(s[0]) && IsHexDigit(s[1]) && IsHexDigit(s[2]) && IsHexDigit(s[3]) then
      Some(((HexValue(s[0]) * 16 + HexValue(s[1])) * 16 + HexValue(s[2])) * 16 + HexValue(s[3]))
    else None
  }

  /**
   * The character a backslash escape denotes and the text after it (`s` starts
   * just after the backslash). A surrogate escape is accepted only as the first
   * half of a pair.
   */
  function ParseEscape(s: string): (r: Option<(char, string)>)
    ensures r.Some? ==> |r.value.1| < |s|
  {
    if s == [] then None
    else if s[0] == '"' then Some(('"', s[1..]))
    else if s[0] == '\\' then Some(('\\', s[1..]))
    else if s[0] == '/' then Some(('/', s[1..]))
    else if s[0] == 'b' then Some(('\U{8}', s[1..]))
    else if s[0] == 'f' then Some(('\U{c}', s[1..]))
    else if s[0] == 'n' then Some(('\n', s[1..]))
    else if s[0] == 'r' then Some(('\r', s[1..]))
    else if s[0] == 't' then Some(('\t', s[1..]))
    else if s[0] == 'u' then
      match ParseHex4(s[1..])
      case None => None
      case Some(u) =>
        var rest := s[5..];
        if 0xD800 <= u < 0xDC00 then
          if |rest| >= 2 && rest[0] == '\\' && rest[1] == 'u' then
            match ParseHex4(rest[2..])
            case Some(low) =>
              if 0xDC00 <= low < 0xE000 then
                Some(((0x10000 + (u - 0xD800) * 0x400 + (low - 0xDC00)) as char, rest[6..]))
              else None
            case None => None
          else None
        else if 0xDC00 <= u < 0xE000 then None
        else Some((u as char, rest))
    else None
  }

  /** The characters of a string literal up to its closing quote (`s` starts after the opening quote). */
  function ParseStringBody(s: string): (r: Option<(string, string)>)
    ensures r.Some? ==> |r.value.1| < |s|
  {
    if s == [] then None
    else if s[0] == '"' then Some(("", s[1..]))
    else if s[0] == '\\' then
      match ParseEscape(s[1..])
      case None => None
      case Some((c, rest)) =>
        match ParseStringBody(rest)
        case None => None
        case Some((t, rest2)) => Some(([c] + t, rest2))
    else if s[0] < ' ' then None
    else
      match ParseStringBody(s[1..])
      case None => None
      case Some((t, rest)) => Some(([s[0]] + t, rest))
  }

  /** The longest run of decimal digits at the start of `s`. */
  function DigitRun(s: string): (r: string)
    ensures |r| <= |s| && r == s[..|r|]
    ensures forall i :: 0 <= i < |r| ==> IsDigit(r[i])
    ensures |r| < |s| ==> !IsDigit(s[|r|])
  {
    if s != [] && IsDigit(s[0]) then [s[0]] + DigitRun(s[1..]) else []
  }

  /** An exponent `[eE][-+]?digits` at the start of `s`: its value and the text after it. */
  function ParseExponent(s: string): (r: Option<(int, string)>)
    ensures r.Some? ==> |r.value.1| < |s|
  {
    if s != [] && (s[0] == 'e' || s[0] == 'E') then SignedDigits(s[1..]) else None
  }

  /** `[-+]?[0-9]+` at the start of `u`: its value and the text after it. */
  function SignedDigits(u: string): (r: Option<(int, string)>)
    ensures r.Some? ==> |r.value.1| < |u|
  {
    var signed := u != [] && (u[0] == '-' || u[0] == '+');
    var v := if signed then u[1..] else u;
    var ds := DigitRun(v);
    if ds == [] then None
    else
      var n: int := DecimalValue(ds);
      Some((if signed && u[0] == '-' then -n else n, v[|ds|..]))
  }

  /** The integer part `0|[1-9][0-9]*` of a number at the start of `t`. */
  function IntPart(t: string): (r: string)
    requires t != [] && IsDigit(t[0])
    ensures 1 <= |r| <= |t| && r == t[..|r|]
    ensures forall i :: 0 <= i < |r| ==> IsDigit(r[i])
  {
    if t[0] == '0' then "0" else DigitRun(t)
  }

  /** The digits of a fraction `.[0-9]+` at the start of `t`, or "" when there is none. */
  function FractionDigits(t: string): (r: string)
    ensures r != [] ==> |r| + 1 <= |t| && t[0] == '.' && r == t[1..1 + |r|]
    ensures forall i :: 0 <= i < |r| ==> IsDigit(r[i])
  {
    if |t| >= 2 && t[0] == '.' && IsDigit(t[1]) then DigitRun(t[1..]) else ""
  }

  /** An integer when the token has neither fraction nor exponent, as `json.loads` decides. */
  function NumberValue(neg: bool, intDigits: string, frac: string, exp: Option<int>): Json
    requires forall i :: 0 <= i < |intDigits| ==> IsDigit(intDigits[i])
    requires forall i :: 0 <= i < |frac| ==> IsDigit(frac[i])
  {
    var sign := if neg then -1 else 1;
    if frac == "" && exp.None? then JInt(sign * DecimalValue(intDigits))
    else JFloat(sign * DecimalValue(intDigits + frac), exp.GetOr(0) - |frac|)
  }

  /** The unsigned part `(0|[1-9][0-9]*)(.[0-9]+)?([eE][-+]?[0-9]+)?` of a number token. */
  function ParseUnsigned(neg: bool, t: string): (r: (Json, string))
    requires t != [] && IsDigit(t[0])
    ensures |r.1| < |t|
  {
    var intDigits := IntPart(t);
    var t1 := t[|intDigits|..];
    var frac := FractionDigits(t1);
    var t2 := if frac == "" then t1 else t1[1 + |frac|..];
    var exp := ParseExponent(t2);
    var t3 := if exp.Some? then exp.value.1 else t2;
    (NumberValue(neg, intDigits, frac, if exp.Some? then Some(exp.value.0) else None), t3)
  }

  /** A number token `-?(0|[1-9][0-9]*)(.[0-9]+)?([eE][-+]?[0-9]+)?` at the start of `s`. */
  function ParseNumber(s: string): (r: Option<(Json, string)>)
    ensures r.Some? ==> |r.value.1| < |s|
  {
    var neg := s != [] && s[0] == '-';
    var t := if neg then s[1..] else s;
    if t == [] || !IsDigit(t[0]) then None else Some(ParseUnsigned(neg, t))
  }

  function ParseValue(s: string): (r: Option<(Json, string)>)
    ensures r.Some? ==> |r.value.1| < |s|
    decreases |s|, 0
  {
    if s == [] then None
    else
      var c := s[0];
      if c == '"' then
        match ParseStringBody(s[1..])
        case None => None
        case Some((str, rest)) => Some((JStr(str), rest))
      else if c == '[' then ParseArray(s[1..])
      else if c == '{' then ParseObject(s[1..])
      else if c == 'n' then (if StartsWith(s, "null") then Some((JNull, s[4..])) else None)
      else if c == 't' then (if StartsWith(s, "true") then Some((JBool(true), s[4..])) else None)
      else if c == 'f' then (if StartsWith(s, "false") then Some((JBool(false), s[5..])) else None)
      else if c == '-' || IsDigit(c) then ParseNumber(s)
      else None
  }

  /** An array after its opening bracket. */
  function ParseArray(s: string): (r: Option<(Json, string)>)
    ensures r.Some? ==> |r.value.1| < |s|
    decreases |s|, 2
  {
    var t := SkipWs(s);
    if t != [] && t[0] == ']' then Some((JArray([]), t[1..]))
    else
      match ParseItems(t)
      case None => None
      case Some((items, rest)) => Some((JArray(items), rest))
  }

  /** An object after its opening brace; a repeated key keeps its first position and last value. */
  function ParseObject(s: string): (r: Option<(Json, string)>)
    ensures r.Some? ==> |r.value.1| < |s|
    decreases |s|, 2
  {
    var t := SkipWs(s);
    if t != [] && t[0] == '}' then Some((JObject([]), t[1..]))
    else
      match ParseMembers(t)
      case None => None
      case Some((pairs, rest)) => Some((JObject(FromPairs(pairs)), rest))
  }

  /** Array elements `value (, value)* ]` (`s` starts at the first value). */
  function ParseItems(s: string): (r: Option<(seq<Json>, string)>)
    ensures r.Some? ==> |r.value.1| < |s|
    decreases |s|, 1
  {
    match ParseValue(s)
    case None => None
    case Some((v, rest)) =>
      var t := SkipWs(rest);
      if t != [] && t[0] == ',' then
        match ParseItems(SkipWs(t[1..]))
        case None => None
        case Some((vs, rest2)) => Some(([v] + vs, rest2))
      else if t != [] && t[0] == ']' then Some(([v], t[1..]))
      else None
  }

  /** Object members `"key": value (, "key": value)* }` (`s` starts at the first key). */
  /** One member `"key" : value` (`s` starts at the key's opening quote). */
  function ParseMember(s: string): (r: Option<((string, Json), string)>)
    ensures r.Some? ==> |r.value.1| < |s|
    decreases |s|, 0
  {
    if s == [] || s[0] != '"' then None
    else
      match ParseStringBody(s[1..])
      case None => None
      case Some((key, rest)) =>
        var t := SkipWs(rest);
        if t == [] || t[0] != ':' then None
        else
          match ParseValue(SkipWs(t[1..]))
          case None => None
          case Some((v, rest2)) => Some(((key, v), rest2))
  }

  /** Object members `member (, member)* }` (`s` starts at the first key). */
  function ParseMembers(s: string): (r: Option<(Members, string)>)
    ensures r.Some? ==> |r.value.1| < |s|
    decreases |s|, 1
  {
    match ParseMember(s)
    case None => None
    case Some((m, rest)) =>
      var u := SkipWs(rest);
      if u != [] && u[0] == ',' then
        match ParseMembers(SkipWs(u[1..]))
        case None => None
        case Some((ms, rest2)) => Some(([m] + ms, rest2))
      else if u != [] && u[0] == '}' then Some(([m], u[1..]))
      else None
  }

  /** `json.loads(text)`: one value, with JSON whitespace around it and nothing else. */
  function Decode(text: string): Option<Json> {
    match ParseValue(SkipWs(text))
    case None => None
    case Some((v, rest)) => if SkipWs(rest) == [] then Some(v) else None
  }

  // ---------------------------------------------------------------------------
  // Round trip: decoding what was encoded gives the value back

  /** What may follow a value inside encoded JSON. */
  predicate Follows(rest: string) {
    rest == [] || rest[0] == ',' || rest[0] == ']' || rest[0] == '}'
  }

  lemma HexRoundTrip(n: nat, rest: string)
    requires n < 0x10000
    ensures ParseHex4(Hex4(n) + rest) == Some(n)
  {
    var q1 := n / 16;
    var q2 := q1 / 16;
    var q3 := q2 / 16;
    assert n == q1 * 16 + n % 16;
    assert q1 == q2 * 16 + q1 % 16;
    assert q2 == q3 * 16 + q2 % 16;
    var h := Hex4(n) + rest;
    assert HexValue(h[0]) == q3 && HexValue(h[1]) == q2 % 16;
    assert HexValue(h[2]) == q1 % 16 && HexValue(h[3]) == n % 16;
  }

  /** The string-body parser after one character's escape: that character, then the rest. */
  predicate ParsesCharThen(c: char, e: string, rest: string) {
    ParseStringBody(e + rest) ==
      match ParseStringBody(rest)
      case None => None
      case Some((t, rest2)) => Some(([c] + t, rest2))
  }

  lemma EscapeShortRoundTrip(c: char, rest: string)
    requires c == '"' || c == '\\' || c == '\n' || c == '\r' || c == '\t' || c == '\U{8}' || c == '\U{c}'
    ensures ParsesCharThen(c, EscapeChar(c), rest)
  {
    var s := EscapeChar(c) + rest;
    assert |EscapeChar(c)| == 2 && s[0] == '\\';
    assert s[1..][1..] == rest;
  }

  lemma EscapePlainRoundTrip(c: char, rest: string)
    requires ' ' <= c <= '~' && c != '"' && c != '\\'
    ensures ParsesCharThen(c, EscapeChar(c), rest)
  {
    var s := EscapeChar(c) + rest;
    assert s[0] == c && s[1..] == rest;
  }

  /** A backslash escape whose tail parses to `c` reads back as `c`. */
  lemma BackslashThen(c: char, e: string, rest: string)
    requires |e| >= 1 && e[0] == '\\'
    requires ParseEscape(e[1..] + rest) == Some((c, rest))
    ensures ParsesCharThen(c, e, rest)
  {
    assert (e + rest)[1..] == e[1..] + rest;
  }

  lemma UnicodeEscapeParse(u: nat, rest: string)
    requires u < 0x10000 && !(0xD800 <= u < 0xE000)
    ensures ParseEscape("u" + Hex4(u) + rest) == Some((u as char, rest))
  {
    var s := "u" + Hex4(u) + rest;
    assert s[1..] == Hex4(u) + rest;
    HexRoundTrip(u, rest);
    assert s[5..] == rest;
  }

  lemma PairEscapeParse(hi: nat, lo: nat, rest: string)
    requires 0xD800 <= hi < 0xDC00 && 0xDC00 <= lo < 0xE000
    ensures ParseEscape("u" + Hex4(hi) + "\\u" + Hex4(lo) + rest)
         == Some(((0x10000 + (hi - 0xD800) * 0x400 + (lo - 0xDC00)) as char, rest))
  {
    var tail := "\\u" + Hex4(lo) + rest;
    var s := "u" + Hex4(hi) + tail;
    assert s == "u" + Hex4(hi) + "\\u" + Hex4(lo) + rest;
    assert s[1..] == Hex4(hi) + tail;
    HexRoundTrip(hi, tail);
    assert s[5..] == tail;
    assert tail[2..] == Hex4(lo) + rest;
    HexRoundTrip(lo, rest);
    assert tail[6..] == rest;
  }

  lemma EscapeBmpRoundTrip(c: char, rest: string)
    requires !(' ' <= c <= '~') && c != '\n' && c != '\r' && c != '\t' && c != '\U{8}' && c != '\U{c}'
    requires c as int < 0x10000
    ensures ParsesCharThen(c, EscapeChar(c), rest)
  {
    var e := EscapeChar(c);
    assert e == "\\u" + Hex4(c as int);
    assert e[1..] + rest == "u" + Hex4(c as int) + rest;
    UnicodeEscapeParse(c as int, rest);
    BackslashThen(c, e, rest);
  }

  lemma EscapeAstralRoundTrip(c: char, rest: string)
    requires c as int >= 0x10000
    ensures ParsesCharThen(c, EscapeChar(c), rest)
  {
    var hi, lo := HighSurrogate(c), LowSurrogate(c);
    var e := EscapeChar(c);
    assert e == "\\u" + Hex4(hi) + "\\u" + Hex4(lo);
    assert e[1..] + rest == "u" + Hex4(hi) + "\\u" + Hex4(lo) + rest;
    PairEscapeParse(hi, lo, rest);
    SurrogatesCombine(c);
    BackslashThen(c, e, rest);
  }

  lemma EscapeCharRoundTrip(c: char, rest: string)
    ensures ParsesCharThen(c, EscapeChar(c), rest)
  {
    if c == '"' || c == '\\' || c == '\n' || c == '\r' || c == '\t' || c == '\U{8}' || c == '\U{c}' {
      EscapeShortRoundTrip(c, rest);
    } else if ' ' <= c <= '~' {
      EscapePlainRoundTrip(c, rest);
    } else if c as int < 0x10000 {
      EscapeBmpRoundTrip(c, rest);
    } else {
      EscapeAstralRoundTrip(c, rest);
    }
  }

  lemma {:induction false} StringRoundTrip(str: string, rest: string)
    ensures ParseStringBody(EscapeAll(str) + "\"" + rest) == Some((str, rest))
  {
    if str == [] {
      assert EscapeAll(str) + "\"" + rest == "\"" + rest;
    } else {
      var tail := EscapeAll(str[1..]) + "\"" + rest;
      assert EscapeAll(str) + "\"" + rest == EscapeChar(str[0]) + tail;
      EscapeCharRoundTrip(str[0], tail);
      StringRoundTrip(str[1..], rest);
      assert [str[0]] + str[1..] == str;
    }
  }

  lemma {:induction false} NatToDecimalLead(n: nat)
    ensures n > 0 ==> NatToDecimal(n)[0] != '0'
  {
    if n >= 10 { NatToDecimalLead(n / 10); }
  }

  lemma {:induction false} DigitRunOfDecimal(ds: string, rest: string)
    requires forall i :: 0 <= i < |ds| ==> IsDigit(ds[i])
    requires rest == [] || !IsDigit(rest[0])
    ensures DigitRun(ds + rest) == ds
  {
    if ds == [] {
      assert ds + rest == rest;
    } else {
      assert (ds + rest)[1..] == ds[1..] + rest;
      DigitRunOfDecimal(ds[1..], rest);
      assert [ds[0]] + ds[1..] == ds;
    }
  }

  /** `str(n)` followed by text that cannot continue its digits reads back as `n`. */
  lemma NatDigitsRoundTrip(n: nat, rest: string)
    requires rest == [] || !IsDigit(rest[0])
    ensures var t := NatToDecimal(n) + rest;
            && IsDigit(t[0])
            && IntPart(t) == NatToDecimal(n)
            && t[|NatToDecimal(n)|..] == rest
  {
    var ds := NatToDecimal(n);
    var t := ds + rest;
    assert t[0] == ds[0];
    NatToDecimalLead(n);
    if ds[0] != '0' {
      DigitRunOfDecimal(ds, rest);
    } else {
      assert n == 0;
    }
  }

  /** `str(i)` for a signed integer: whether it is negative and the digits of its magnitude. */
  lemma SignOfDecimal(i: int, rest: string)
    ensures var s := IntToDecimal(i) + rest;
            && s != []
            && (s[0] == '-' <==> i < 0)
            && s[0] != '+'
            && (if i < 0 then s[1..] else s) == NatToDecimal(if i < 0 then -i else i) + rest
  {
    var n: nat := if i < 0 then -i else i;
    var ds := NatToDecimal(n);
    var s := IntToDecimal(i) + rest;
    if i < 0 {
      assert s == "-" + (ds + rest);
    } else {
      assert s == ds + rest && s[0] == ds[0];
    }
  }

  lemma UnsignedIntRoundTrip(neg: bool, n: nat, rest: string)
    requires rest == [] || !(IsDigit(rest[0]) || rest[0] == '.' || rest[0] == 'e' || rest[0] == 'E')
    ensures ParseUnsigned(neg, NatToDecimal(n) + rest) == (JInt(if neg then -(n as int) else n), rest)
  {
    NatDigitsRoundTrip(n, rest);
    DecimalValueOfNat(n);
  }

  lemma IntRoundTrip(i: int, rest: string)
    requires rest == [] || !(IsDigit(rest[0]) || rest[0] == '.' || rest[0] == 'e' || rest[0] == 'E')
    ensures ParseNumber(Encode(JInt(i)) + rest) == Some((JInt(i), rest))
  {
    SignOfDecimal(i, rest);
    var n: nat := if i < 0 then -i else i;
    UnsignedIntRoundTrip(i < 0, n, rest);
  }

  lemma SignedDigitsRoundTrip(e: int, rest: string)
    requires rest == [] || !IsDigit(rest[0])
    ensures SignedDigits(IntToDecimal(e) + rest) == Some((e, rest))
  {
    var k: nat := if e < 0 then -e else e;
    var ds := NatToDecimal(k);
    SignOfDecimal(e, rest);
    DigitRunOfDecimal(ds, rest);
    DecimalValueOfNat(k);
    assert (ds + rest)[|ds|..] == rest;
  }

  lemma ExponentRoundTrip(e: int, rest: string)
    requires rest == [] || !IsDigit(rest[0])
    ensures ParseExponent("e" + IntToDecimal(e) + rest) == Some((e, rest))
  {
    var s := "e" + IntToDecimal(e) + rest;
    assert s[1..] == IntToDecimal(e) + rest;
    SignedDigitsRoundTrip(e, rest);
    ExponentAt(s);
  }

  lemma ExponentAt(s: string)
    requires s != [] && s[0] == 'e'
    ensures ParseExponent(s) == SignedDigits(s[1..])
  {
  }

  lemma UnsignedFloatRoundTrip(neg: bool, n: nat, e: int, rest: string)
    requires rest == [] || !IsDigit(rest[0])
    ensures ParseUnsigned(neg, NatToDecimal(n) + ("e" + IntToDecimal(e) + rest))
         == (JFloat(if neg then -(n as int) else n, e), rest)
  {
    var after := "e" + IntToDecimal(e) + rest;
    var ds := NatToDecimal(n);
    NatDigitsRoundTrip(n, after);
    DecimalValueOfNat(n);
    assert after[0] == 'e';
    NoFractionAt(after);
    ExponentRoundTrip(e, rest);
    UnsignedWithExponent(neg, ds + after, ds, after, e, rest);
    FloatValueOf(neg, ds, e, n);
  }

  lemma FloatValueOf(neg: bool, ds: string, e: int, n: nat)
    requires forall i :: 0 <= i < |ds| ==> IsDigit(ds[i])
    requires DecimalValue(ds) == n
    ensures NumberValue(neg, ds, "", Some(e)) == JFloat(if neg then -(n as int) else n, e)
  {
    assert ds + "" == ds;
  }

  lemma NoFractionAt(t: string)
    requires t != [] && t[0] != '.'
    ensures FractionDigits(t) == ""
  {
  }

  /** A number with an integer part, no fraction and an exponent. */
  lemma UnsignedWithExponent(neg: bool, t: string, ds: string, after: string, e: int, rest: string)
    requires t != [] && IsDigit(t[0])
    requires IntPart(t) == ds && t[|ds|..] == after
    requires FractionDigits(after) == ""
    requires ParseExponent(after) == Some((e, rest))
    ensures ParseUnsigned(neg, t) == (NumberValue(neg, ds, "", Some(e)), rest)
  {
  }

  lemma FloatRoundTrip(m: int, e: int, rest: string)
    requires rest == [] || !IsDigit(rest[0])
    ensures ParseNumber(Encode(JFloat(m, e)) + rest) == Some((JFloat(m, e), rest))
  {
    var after := "e" + IntToDecimal(e) + rest;
    assert Encode(JFloat(m, e)) + rest == IntToDecimal(m) + after;
    SignOfDecimal(m, after);
    var n: nat := if m < 0 then -m else m;
    UnsignedFloatRoundTrip(m < 0, n, e, rest);
  }

  lemma EncodeStart(j: Json)
    ensures |Encode(j)| > 0
    ensures var c := Encode(j)[0];
            c == 'n' || c == 't' || c == 'f' || c == '-' || IsDigit(c) || c == '"' || c == '[' || c == '{'
  {
    match j
    case JInt(i) =>
      if i >= 0 { assert Encode(j) == NatToDecimal(i); }
    case JFloat(m, e) =>
      if m >= 0 { assert Encode(j)[0] == NatToDecimal(m)[0]; }
    case _ =>
  }

  lemma SkipWsOfValue(j: Json, rest: string)
    ensures SkipWs(Encode(j) + rest) == Encode(j) + rest
  {
    EncodeStart(j);
  }

  lemma LiteralRoundTrip(j: Json, rest: string)
    requires j.JNull? || j.JBool?
    ensures ParseValue(Encode(j) + rest) == Some((j, rest))
  {
    var s := Encode(j) + rest;
    if j.JNull? {
      assert s[0] == 'n' && StartsWith(s, "null") && s[4..] == rest;
    } else if j.b {
      assert s[0] == 't' && StartsWith(s, "true") && s[4..] == rest;
    } else {
      assert s[0] == 'f' && StartsWith(s, "false") && s[5..] == rest;
    }
  }

  lemma StrValueRoundTrip(str: string, rest: string)
    ensures ParseValue(Encode(JStr(str)) + rest) == Some((JStr(str), rest))
  {
    var body := EscapeAll(str) + "\"" + rest;
    var s := Encode(JStr(str)) + rest;
    assert s == "\"" + body;
    FirstChar('"', body);
    StringRoundTrip(str, rest);
    ParseValueOfString(s, str, rest);
  }

  lemma ParseValueOfString(s: string, str: string, rest: string)
    requires s != [] && s[0] == '"' && ParseStringBody(s[1..]) == Some((str, rest))
    ensures ParseValue(s) == Some((JStr(str), rest))
  {
  }

  lemma NumberValueRoundTrip(j: Json, rest: string)
    requires j.JInt? || j.JFloat?
    requires Follows(rest)
    ensures ParseValue(Encode(j) + rest) == Some((j, rest))
  {
    EncodeStart(j);
    var s := Encode(j) + rest;
    assert s[0] == Encode(j)[0];
    if j.JInt? {
      IntRoundTrip(j.i, rest);
    } else {
      FloatRoundTrip(j.mantissa, j.exponent, rest);
    }
  }

  lemma ScalarRoundTrip(j: Json, rest: string)
    requires !j.JArray? && !j.JObject?
    requires Follows(rest)
    ensures ParseValue(Encode(j) + rest) == Some((j, rest))
  {
    if j.JNull? || j.JBool? {
      LiteralRoundTrip(j, rest);
    } else if j.JStr? {
      StrValueRoundTrip(j.s, rest);
    } else {
      NumberValueRoundTrip(j, rest);
    }
  }

  lemma FirstChar(c: char, body: string)
    ensures ([c] + body)[0] == c && ([c] + body)[1..] == body
  {
  }

  lemma BracketText(open: char, body: string, close: char, rest: string)
    ensures var s := [open] + body + [close] + rest;
            s[0] == open && s[1..] == body + [close] + rest
  {
  }

  lemma {:induction false} ArrayRoundTrip(items: seq<Json>, rest: string)
    requires forall k | 0 <= k < |items| :: WellFormed(items[k])
    requires Follows(rest)
    ensures ParseValue(Encode(JArray(items)) + rest) == Some((JArray(items), rest))
    decreases items, 1
  {
    var t := EncodeItems(items) + "]" + rest;
    BracketText('[', EncodeItems(items), ']', rest);
    if items != [] {
      ItemsRoundTrip(items, rest);
      assert ParseArray(t) == Some((JArray(items), rest));
    }
  }

  lemma {:induction false} ObjectRoundTrip(ms: Members, rest: string)
    requires DistinctKeys(ms) && forall k | 0 <= k < |ms| :: WellFormed(ms[k].1)
    requires Follows(rest)
    ensures ParseValue(Encode(JObject(ms)) + rest) == Some((JObject(ms), rest))
    decreases ms, 2
  {
    var t := EncodeMembers(ms) + "}" + rest;
    BracketText('{', EncodeMembers(ms), '}', rest);
    if ms != [] {
      MembersStart(ms, rest);
      MembersRoundTrip(ms, rest);
      FromPairsOfDistinct(ms);
      assert ParseObject(t) == Some((JObject(ms), rest));
    }
  }

  lemma {:induction false} ValueRoundTrip(j: Json, rest: string)
    requires WellFormed(j)
    requires Follows(rest)
    ensures ParseValue(Encode(j) + rest) == Some((j, rest))
    decreases j, 2
  {
    match j
    case JArray(items) => ArrayRoundTrip(items, rest);
    case JObject(ms) => ObjectRoundTrip(ms, rest);
    case _ => ScalarRoundTrip(j, rest);
  }

  /** What follows the first element of an encoded, closed array. */
  function ItemsAfter(items: seq<Json>, rest: string): string
    requires items != []
  {
    if |items| == 1 then "]" + rest else "," + EncodeItems(items[1..]) + "]" + rest
  }

  lemma ItemsText(items: seq<Json>, rest: string)
    requires items != []
    ensures EncodeItems(items) + "]" + rest == Encode(items[0]) + ItemsAfter(items, rest)
  {
  }

  lemma ItemsAfterShape(items: seq<Json>, rest: string)
    requires items != []
    ensures |items| == 1 ==> ItemsAfter(items, rest)[1..] == rest
    ensures |items| > 1 ==> ItemsAfter(items, rest)[1..] == EncodeItems(items[1..]) + "]" + rest
    ensures ItemsAfter(items, rest)[0] == ']' || ItemsAfter(items, rest)[0] == ','
  {
  }

  /** Text starting with a JSON token, not a blank, is left alone by whitespace skipping. */
  lemma SkipWsAtToken(s: string)
    requires s != [] && !IsJsonSpace(s[0])
    ensures SkipWs(s) == s
  {
  }

  lemma {:induction false} ItemsRoundTrip(items: seq<Json>, rest: string)
    requires items != []
    requires forall k | 0 <= k < |items| :: WellFormed(items[k])
    requires Follows(rest)
    ensures ParseItems(EncodeItems(items) + "]" + rest) == Some((items, rest))
    ensures SkipWs(EncodeItems(items) + "]" + rest) == EncodeItems(items) + "]" + rest
    ensures (EncodeItems(items) + "]" + rest)[0] != ']'
    decreases items, 0
  {
    var s := EncodeItems(items) + "]" + rest;
    var after := ItemsAfter(items, rest);
    ItemsText(items, rest);
    ItemsAfterShape(items, rest);
    EncodeStart(items[0]);
    SkipWsOfValue(items[0], after);
    ValueRoundTrip(items[0], after);
    assert s[0] == Encode(items[0])[0];
    if |items| == 1 {
      ItemsStepLast(s, items[0], after, rest);
      assert [items[0]] == items;
    } else {
      ItemsRoundTrip(items[1..], rest);
      ItemsStepMore(s, items[0], after, items[1..], rest);
      assert [items[0]] + items[1..] == items;
    }
  }

  lemma ItemsStepLast(s: string, v: Json, after: string, rest: string)
    requires ParseValue(s) == Some((v, after))
    requires after != [] && after[0] == ']' && after[1..] == rest
    ensures ParseItems(s) == Some(([v], rest))
  {
    SkipWsAtToken(after);
  }

  lemma ItemsStepMore(s: string, v: Json, after: string, vs: seq<Json>, rest: string)
    requires ParseValue(s) == Some((v, after))
    requires after != [] && after[0] == ','
    requires SkipWs(after[1..]) == after[1..]
    requires ParseItems(after[1..]) == Some((vs, rest))
    ensures ParseItems(s) == Some(([v] + vs, rest))
  {
    SkipWsAtToken(after);
  }

  /** What follows the first member's value in an encoded, closed object. */
  function MembersAfter(ms: Members, rest: string): string
    requires ms != []
  {
    if |ms| == 1 then "}" + rest else "," + EncodeMembers(ms[1..]) + "}" + rest
  }

  lemma MembersText(ms: Members, rest: string)
    requires ms != []
    ensures EncodeMembers(ms) + "}" + rest == Quote(ms[0].0) + ":" + Encode(ms[0].1) + MembersAfter(ms, rest)
  {
  }

  lemma QuoteFirst(key: string, e: string)
    ensures (Quote(key) + ":" + e)[0] == '"'
  {
  }

  lemma QuoteText(key: string, e: string)
    ensures Quote(key) + ":" + e == "\"" + (EscapeAll(key) + "\"" + (":" + e))
  {
  }

  lemma MembersAfterShape(ms: Members, rest: string)
    requires ms != []
    ensures |ms| == 1 ==> MembersAfter(ms, rest)[1..] == rest
    ensures |ms| > 1 ==> MembersAfter(ms, rest)[1..] == EncodeMembers(ms[1..]) + "}" + rest
    ensures MembersAfter(ms, rest)[0] == '}' || MembersAfter(ms, rest)[0] == ','
  {
  }

  lemma MemberRoundTrip(key: string, v: Json, after: string)
    requires ParseValue(Encode(v) + after) == Some((v, after))
    requires SkipWs(Encode(v) + after) == Encode(v) + after
    ensures ParseMember(Quote(key) + ":" + Encode(v) + after) == Some(((key, v), after))
  {
    var valueAndAfter := Encode(v) + after;
    assert Quote(key) + ":" + Encode(v) + after == Quote(key) + ":" + valueAndAfter;
    QuoteText(key, valueAndAfter);
    FirstChar('"', EscapeAll(key) + "\"" + (":" + valueAndAfter));
    StringRoundTrip(key, ":" + valueAndAfter);
    assert (":" + valueAndAfter)[1..] == valueAndAfter;
  }

  /** The first member of an encoded object parses back, leaving what follows it. */
  lemma {:induction false} MembersHead(ms: Members, rest: string)
    requires ms != []
    requires WellFormed(ms[0].1)
    requires Follows(rest)
    ensures ParseMember(EncodeMembers(ms) + "}" + rest) == Some((ms[0], MembersAfter(ms, rest)))
    decreases ms, 0
  {
    var v := ms[0].1;
    assert ms[0] in ms && v < ms[0];
    var after := MembersAfter(ms, rest);
    MembersText(ms, rest);
    MembersAfterShape(ms, rest);
    SkipWsOfValue(v, after);
    ValueRoundTrip(v, after);
    MemberRoundTrip(ms[0].0, v, after);
  }

  /** An encoded, non-empty member list starts with a key's quote. */
  lemma MembersStart(ms: Members, rest: string)
    requires ms != []
    ensures (EncodeMembers(ms) + "}" + rest)[0] == '"'
    ensures SkipWs(EncodeMembers(ms) + "}" + rest) == EncodeMembers(ms) + "}" + rest
  {
    var t := EncodeMembers(ms) + "}" + rest;
    var after := MembersAfter(ms, rest);
    MembersText(ms, rest);
    QuoteFirst(ms[0].0, Encode(ms[0].1) + after);
    assert t == Quote(ms[0].0) + ":" + (Encode(ms[0].1) + after);
    SkipWsAtToken(t);
  }

  lemma {:induction false} MembersRoundTrip(ms: Members, rest: string)
    requires ms != []
    requires forall k | 0 <= k < |ms| :: WellFormed(ms[k].1)
    requires Follows(rest)
    ensures ParseMembers(EncodeMembers(ms) + "}" + rest) == Some((ms, rest))
    decreases ms, 1
  {
    var s := EncodeMembers(ms) + "}" + rest;
    var after := MembersAfter(ms, rest);
    MembersAfterShape(ms, rest);
    MembersHead(ms, rest);
    if |ms| > 1 {
      MembersStart(ms[1..], rest);
      MembersRoundTrip(ms[1..], rest);
      MembersStepMore(s, ms[0], after, ms[1..], rest);
      assert [ms[0]] + ms[1..] == ms;
    } else {
      MembersStepLast(s, ms[0], after, rest);
      assert [ms[0]] == ms;
    }
  }

  lemma MembersStepLast(s: string, m: (string, Json), after: string, rest: string)
    requires ParseMember(s) == Some((m, after))
    requires after != [] && after[0] == '}' && after[1..] == rest
    ensures ParseMembers(s) == Some(([m], rest))
  {
    SkipWsAtToken(after);
  }

  lemma MembersStepMore(s: string, m: (string, Json), after: string, ms: Members, rest: string)
    requires ParseMember(s) == Some((m, after))
    requires after != [] && after[0] == ','
    requires SkipWs(after[1..]) == after[1..]
    requires ParseMembers(after[1..]) == Some((ms, rest))
    ensures ParseMembers(s) == Some(([m] + ms, rest))
  {
    SkipWsAtToken(after);
  }

  /** The model's compact encoding of a well-formed value decodes back to the same value. */
  lemma DecodeEncode(j: Json)
    requires WellFormed(j)
    ensures Decode(Encode(j)) == Some(j)
  {
    SkipWsOfValue(j, []);
    assert Encode(j) + [] == Encode(j);
    ValueRoundTrip(j, []);
  }
}
