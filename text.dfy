/** String primitives the chat page relies on: `toLowerCase`, `includes` and
    `trim`, stated over Dafny strings (sequences of Unicode scalar values). */
module Text {

  /** True for the ASCII capital letters, the only characters this model lower-cases. */
  predicate IsAsciiUpper(c: char) {
    'A' <= c <= 'Z'
  }

  /** One character of `toLowerCase`, restricted to ASCII: A-Z become a-z,
      everything else is left as it is. */
  function LowerChar(c: char): (r: char)
    ensures !IsAsciiUpper(r)
    ensures !IsAsciiUpper(c) ==> r == c
    ensures IsAsciiUpper(c) ==> 'a' <= r <= 'z' && r as int - c as int == 'a' as int - 'A' as int
  {
    if IsAsciiUpper(c) then (c as int - 'A' as int + 'a' as int) as char else c
  }

  /** `s.toLowerCase()`, character by character. */
  function ToLower(s: string): (r: string)
    ensures |r| == |s|
    ensures forall i :: 0 <= i < |s| ==> r[i] == LowerChar(s[i])
  {
    if s == [] then [] else [LowerChar(s[0])] + ToLower(s[1..])
  }

  /** Lower-casing twice is lower-casing once. */
  lemma ToLowerIdempotent(s: string)
    ensures ToLower(ToLower(s)) == ToLower(s)
  {
  }

  /** Two strings that differ only in the case of ASCII letters lower-case to the same string. */
  predicate SameUpToCase(a: string, b: string) {
    |a| == |b| && forall i :: 0 <= i < |a| ==> LowerChar(a[i]) == LowerChar(b[i])
  }

  lemma SameUpToCaseLowersEqually(a: string, b: string)
    requires SameUpToCase(a, b)
    ensures ToLower(a) == ToLower(b)
  {
  }

  /** `s` begins with `p`. */
  predicate StartsWith(s: string, p: string) {
    |p| <= |s| && s[..|p|] == p
  }

  /** `kw` is found in `s` starting at index `i`. */
  predicate OccursAt(s: string, kw: string, i: nat) {
    i + |kw| <= |s| && s[i..i + |kw|] == kw
  }

  /** The reference meaning of "substring": some index where `kw` occurs. */
  ghost predicate Contains(s: string, kw: string) {
    exists i: nat :: OccursAt(s, kw, i)
  }

  /** `s.includes(kw)`: a left-to-right scan for an index where `kw` starts. */
  function Includes(s: string, kw: string): bool
    decreases |s|
  {
    if StartsWith(s, kw) then true
    else if s == [] then false
    else Includes(s[1..], kw)
  }

  /** The scan succeeds exactly when `kw` occurs somewhere in `s`; so the
      empty keyword is found in every string, and the empty string contains
      only the empty keyword. */
  lemma {:induction false} IncludesIffContains(s: string, kw: string)
    ensures Includes(s, kw) <==> Contains(s, kw)
    decreases |s|
  {
    if StartsWith(s, kw) {
      assert OccursAt(s, kw, 0);
    } else if s != [] {
      ContainsAfterFirst(s, kw);
      IncludesIffContains(s[1..], kw);
    }
  }

  /** When `kw` does not start `s`, it occurs in `s` exactly when it occurs in
      the rest of `s` after the first character. */
  lemma ContainsAfterFirst(s: string, kw: string)
    requires s != [] && !StartsWith(s, kw)
    ensures Contains(s, kw) <==> Contains(s[1..], kw)
  {
    if Contains(s[1..], kw) {
      var j: nat :| OccursAt(s[1..], kw, j);
      assert s[1..][j..j + |kw|] == s[j + 1..j + 1 + |kw|];
      assert OccursAt(s, kw, j + 1);
    }
    if Contains(s, kw) {
      var i: nat :| OccursAt(s, kw, i);
      assert i != 0;
      assert s[1..][i - 1..i - 1 + |kw|] == s[i..i + |kw|];
      assert OccursAt(s[1..], kw, i - 1);
    }
  }

  /** Lower-casing the input keeps every occurrence of a keyword that has no
      capital letters. */
  lemma LoweringKeepsOccurrence(s: string, kw: string, i: nat)
    requires OccursAt(s, kw, i)
    requires forall j :: 0 <= j < |kw| ==> !IsAsciiUpper(kw[j])
    ensures OccursAt(ToLower(s), kw, i)
  {
  }

  /** A keyword holding a character that `s` lacks is not found in `s`. */
  lemma MissingCharNotContained(s: string, kw: string, c: char)
    requires c in kw && c !in s
    ensures !Contains(s, kw)
  {
  }

  /** The characters `String.prototype.trim` strips: ECMAScript WhiteSpace
      (TAB, VT, FF, ZWNBSP and every space separator of category Zs) and
      LineTerminator (LF, CR, LINE SEPARATOR, PARAGRAPH SEPARATOR). */
  predicate IsWhiteSpace(c: char) {
    c == '\t' || c == '\U{000B}' || c == '\U{000C}' || c == ' ' || c == '\U{00A0}' || c == '\U{FEFF}'
    || c == '\U{1680}' || ('\U{2000}' <= c <= '\U{200A}') || c == '\U{202F}' || c == '\U{205F}' || c == '\U{3000}'
    || c == '\n' || c == '\r' || c == '\U{2028}' || c == '\U{2029}'
  }

  predicate AllWhiteSpace(s: string) {
    forall i :: 0 <= i < |s| ==> IsWhiteSpace(s[i])
  }

  /** Drops the leading white space: the result is a suffix of `s`, all that was
      dropped is white space, and the result does not start with white space. */
  function TrimStart(s: string): (r: string)
    ensures |r| <= |s| && r == s[|s| - |r|..]
    ensures AllWhiteSpace(s[..|s| - |r|])
    ensures r == [] || !IsWhiteSpace(r[0])
  {
    if s != [] && IsWhiteSpace(s[0]) then
      var r := TrimStart(s[1..]);
      assert s[..|s| - |r|] == [s[0]] + s[1..][..|s| - 1 - |r|];
      AllWhiteSpaceConcat([s[0]], s[1..][..|s| - 1 - |r|]);
      r
    else s
  }

  /** Drops the trailing white space: the result is a prefix of `s`, all that was
      dropped is white space, and the result does not end with white space. */
  function TrimEnd(s: string): (r: string)
    ensures |r| <= |s| && r == s[..|r|]
    ensures AllWhiteSpace(s[|r|..])
    ensures r == [] || !IsWhiteSpace(r[|r| - 1])
  {
    if s != [] && IsWhiteSpace(s[|s| - 1]) then
      var r := TrimEnd(s[..|s| - 1]);
      assert s[|r|..] == s[..|s| - 1][|r|..] + [s[|s| - 1]];
      AllWhiteSpaceConcat(s[..|s| - 1][|r|..], [s[|s| - 1]]);
      r
    else s
  }

  /** `s.trim()`: leading and then trailing white space dropped. */
  function Trim(s: string): string {
    TrimEnd(TrimStart(s))
  }

  /** `!s.trim()`: the trimmed string is empty, hence falsy. */
  predicate IsBlank(s: string) {
    Trim(s) == []
  }

  /** A string is blank exactly when every one of its characters is white space;
      in particular the empty string is blank. */
  lemma BlankIffAllWhiteSpace(s: string)
    ensures IsBlank(s) <==> AllWhiteSpace(s)
  {
  }

  lemma AllWhiteSpaceConcat(a: string, b: string)
    requires AllWhiteSpace(a) && AllWhiteSpace(b)
    ensures AllWhiteSpace(a + b)
  {
  }
}
