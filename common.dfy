/** Values shared by every part of the model: optional and fallible results,
    JSON values as the job specification and the line protocol carry them, and
    the few string operations the programs apply to protocol lines. */
module Common {

  datatype Option<+T> = None | Some(value: T)

  datatype Result<+T, +E> = Ok(value: T) | Err(error: E)

  /** A JSON value as `json.loads` produces it (floating-point numbers are not modelled). */
  datatype Json =
    | JNull
    | JBool(b: bool)
    | JInt(i: int)
    | JStr(s: string)
    | JArr(items: seq<Json>)
    | JObj(fields: map<string, Json>)

  /** `d.get(key, default)` on a JSON object. */
  function Get(fields: map<string, Json>, key: string, default: Json): Json
  {
    if key in fields then fields[key] else default
  }

  predicate EndsWithNewline(s: string)
  {
    |s| > 0 && s[|s| - 1] == '\n'
  }

  /** Appends a line terminator unless the text already ends with one
      (the handshake line, each item line and each result line are written this way). */
  function EnsureNewline(s: string): (r: string)
    ensures EndsWithNewline(r)
    ensures |s| <= |r| <= |s| + 1 && r[..|s|] == s
    ensures EndsWithNewline(s) <==> r == s
  {
    if EndsWithNewline(s) then s else s + "\n"
  }

  lemma EnsureNewlineIdempotent(s: string)
    ensures EnsureNewline(EnsureNewline(s)) == EnsureNewline(s)
  {
  }

  /** The characters Python's `str.strip()` removes. */
  predicate IsSpace(c: char)
  {
    c == ' ' || ('\t' <= c <= '\r') || ('\U{1c}' <= c <= '\U{1f}') || c == '\U{85}' || c == '\U{a0}'
    || c == '\U{1680}' || ('\U{2000}' <= c <= '\U{200a}') || c == '\U{2028}' || c == '\U{2029}'
    || c == '\U{202f}' || c == '\U{205f}' || c == '\U{3000}'
  }

  /** The position of the first non-whitespace character at or after `i`, or `|s|`. */
  function SkipSpace(s: string, i: nat): (j: nat)
    requires i <= |s|
    ensures i <= j <= |s|
    ensures forall k :: i <= k < j ==> IsSpace(s[k])
    ensures j == |s| || !IsSpace(s[j])
    decreases |s| - i
  {
    if i < |s| && IsSpace(s[i]) then SkipSpace(s, i + 1) else i
  }

  /** The position just after the last non-whitespace character before `j`, or 0. */
  function SkipSpaceBack(s: string, j: nat): (i: nat)
    requires j <= |s|
    ensures i <= j
    ensures forall k :: i <= k < j ==> IsSpace(s[k])
    ensures i == 0 || !IsSpace(s[i - 1])
  {
    if j > 0 && IsSpace(s[j - 1]) then SkipSpaceBack(s, j - 1) else j
  }

  /** Python's `str.strip()`: the text between the leading and the trailing whitespace. */
  function Strip(s: string): (r: string)
    ensures |r| <= |s|
    ensures r == [] || (!IsSpace(r[0]) && !IsSpace(r[|r| - 1]))
    ensures (s == [] || (!IsSpace(s[0]) && !IsSpace(s[|s| - 1]))) ==> r == s
    ensures IsAscii(s) ==> IsAscii(r)
  {
    var a := SkipSpace(s, 0);
    var b := SkipSpaceBack(s, |s|);
    if a < b then s[a..b] else []
  }

  /** `strip` removes exactly a whitespace prefix and a whitespace suffix: the result is
      the slice between them, and it is empty only when the text is all whitespace. */
  lemma StripSlice(s: string)
    ensures var i := SkipSpace(s, 0);
            i + |Strip(s)| <= |s| && Strip(s) == s[i..i + |Strip(s)|]
            && (forall k :: 0 <= k < i ==> IsSpace(s[k]))
            && (forall k :: i + |Strip(s)| <= k < |s| ==> IsSpace(s[k]))
    ensures Strip(s) == [] <==> forall k :: 0 <= k < |s| ==> IsSpace(s[k])
  {
    var a := SkipSpace(s, 0);
    var b := SkipSpaceBack(s, |s|);
    if a < |s| {
      assert !IsSpace(s[a]);
      assert a < b;
    }
  }

  /** Upper case of an ASCII character. */
  function AsciiUpper(c: char): (u: char)
    ensures c < '\U{80}' ==> u < '\U{80}'
  {
    if 'a' <= c <= 'z' then (c as int - 32) as char else c
  }

  /** Python's full upper-case mapping of one character, exact for the ASCII letters and
      for every character whose upper case contains an ASCII letter (dotless i, long s,
      sharp s, the Latin letters with a spacing or combining mark, the Latin ligatures).
      Any other character is kept: its true upper case holds no ASCII character either,
      which is all that the comparisons made on upper-cased text can observe. */
  function UpperChar(c: char): (u: string)
    ensures |u| > 0
    ensures c < '\U{80}' ==> u == [AsciiUpper(c)]
  {
    if c < '\U{80}' then [AsciiUpper(c)]
    else if c == '\U{131}' then "I"
    else if c == '\U{17f}' then "S"
    else if c == '\U{df}' then "SS"
    else if c == '\U{149}' then "\U{2bc}N"
    else if c == '\U{1f0}' then "J\U{30c}"
    else if c == '\U{1e96}' then "H\U{331}"
    else if c == '\U{1e97}' then "T\U{308}"
    else if c == '\U{1e98}' then "W\U{30a}"
    else if c == '\U{1e99}' then "Y\U{30a}"
    else if c == '\U{1e9a}' then "A\U{2be}"
    else if c == '\U{fb00}' then "FF"
    else if c == '\U{fb01}' then "FI"
    else if c == '\U{fb02}' then "FL"
    else if c == '\U{fb03}' then "FFI"
    else if c == '\U{fb04}' then "FFL"
    else if c == '\U{fb05}' || c == '\U{fb06}' then "ST"
    else [c]
  }

  predicate IsAscii(s: string)
  {
    forall k :: 0 <= k < |s| ==> s[k] < '\U{80}'
  }

  /** `s.upper()`: the upper cases of the characters, in order. On ASCII text it maps
      character by character. */
  function Upper(s: string): (r: string)
    ensures IsAscii(s) ==> |r| == |s| && IsAscii(r) && forall k :: 0 <= k < |s| ==> r[k] == AsciiUpper(s[k])
  {
    if s == [] then [] else UpperChar(s[0]) + Upper(s[1..])
  }

  /** `s.encode('ascii', 'ignore')`: the ASCII characters of `s`, in order. */
  function AsciiOnly(s: string): (r: string)
    ensures |r| <= |s| && IsAscii(r)
    ensures IsAscii(s) ==> r == s
  {
    if s == [] then [] else (if s[0] < '\U{80}' then [s[0]] else []) + AsciiOnly(s[1..])
  }

  /** No value occurs twice. */
  predicate Distinct<T(==)>(s: seq<T>)
  {
    forall i, j :: 0 <= i < j < |s| ==> s[i] != s[j]
  }

  predicate StartsWith<T(==)>(s: seq<T>, prefix: seq<T>)
  {
    |prefix| <= |s| && s[..|prefix|] == prefix
  }

  function Min(a: int, b: int): int { if a <= b then a else b }

  function Max(a: int, b: int): int { if a >= b then a else b }
}
