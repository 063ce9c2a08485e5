/** The string operations of JavaScript that the application uses:
    the whitespace class `\s` (which `trim` also strips), `toUpperCase`,
    case-insensitive equality (a regular expression with the `i` flag),
    `trim` and `includes`.  Case mapping covers the ASCII letters only. */
module JsText {
  import Seqs

  /** The characters matched by `\s` and removed by `trim`. */
  predicate IsSpace(c: char) {
    c == ' ' || c == '\t' || c == '\n' || c == '\r' || c == '\U{B}' || c == '\U{C}' ||
    c == '\U{A0}' || c == '\U{1680}' || ('\U{2000}' <= c <= '\U{200A}') ||
    c == '\U{2028}' || c == '\U{2029}' || c == '\U{202F}' || c == '\U{205F}' ||
    c == '\U{3000}' || c == '\U{FEFF}'
  }

  function UpperChar(c: char): (u: char)
    ensures 'a' <= c <= 'z' ==> 'A' <= u <= 'Z' && u as int == c as int - 32
    ensures !('a' <= c <= 'z') ==> u == c
  {
    if 'a' <= c <= 'z' then (c as int - 32) as char else c
  }

  /** `s.toUpperCase()`. */
  function Upper(s: string): (r: string)
    ensures |r| == |s|
    ensures forall i :: 0 <= i < |s| ==> r[i] == UpperChar(s[i])
  {
    if s == [] then [] else [UpperChar(s[0])] + Upper(s[1..])
  }

  /** Upper-casing twice is upper-casing once. */
  lemma {:induction false} UpperIdempotent(s: string)
    ensures Upper(Upper(s)) == Upper(s)
  {
    if s != [] {
      UpperIdempotent(s[1..]);
      assert Upper(s)[1..] == Upper(s[1..]);
    }
  }

  /** Upper-casing neither creates nor removes whitespace. */
  lemma UpperKeepsSpaces(s: string)
    ensures forall i :: 0 <= i < |s| ==> (IsSpace(Upper(s)[i]) <==> IsSpace(s[i]))
  {
  }

  /** `a` matches the pattern `^b$` with the `i` flag (for `b` free of
      metacharacters): equal after case folding. */
  predicate EqualsIgnoringCase(a: string, b: string) {
    Upper(a) == Upper(b)
  }

  /** Case-insensitive equality is an equivalence that includes plain equality. */
  lemma EqualsIgnoringCaseIsEquivalence(a: string, b: string, c: string)
    ensures EqualsIgnoringCase(a, a)
    ensures EqualsIgnoringCase(a, b) ==> EqualsIgnoringCase(b, a)
    ensures EqualsIgnoringCase(a, b) && EqualsIgnoringCase(b, c) ==> EqualsIgnoringCase(a, c)
  {
  }

  /** `s.replace(/\s/g, '')`. */
  function RemoveSpaces(s: string): (r: string)
    ensures forall i :: 0 <= i < |r| ==> !IsSpace(r[i])
  {
    var r := Seqs.Filter(s, c => !IsSpace(c));
    assert forall i :: 0 <= i < |r| ==> r[i] in r;
    r
  }

  /** Removing whitespace keeps every other character, in order. */
  lemma RemoveSpacesKeepsText(s: string)
    ensures Seqs.IsSubsequence(RemoveSpaces(s), s)
    ensures forall i :: 0 <= i < |s| && !IsSpace(s[i]) ==> s[i] in RemoveSpaces(s)
  {
    Seqs.FilterIsSubsequence(s, c => !IsSpace(c));
    forall i | 0 <= i < |s| && !IsSpace(s[i])
      ensures s[i] in RemoveSpaces(s)
    {
      Seqs.FilterKeeps(s, c => !IsSpace(c), s[i]);
    }
  }

  /** Removing whitespace from a string without any leaves it as it is. */
  lemma RemoveSpacesOfSpaceFree(s: string)
    requires forall i :: 0 <= i < |s| ==> !IsSpace(s[i])
    ensures RemoveSpaces(s) == s
  {
    Seqs.FilterAllKept(s, c => !IsSpace(c));
  }

  function TrimStart(s: string): (r: string)
  {
    if s != [] && IsSpace(s[0]) then TrimStart(s[1..]) else s
  }

  function TrimEnd(s: string): (r: string)
  {
    if s != [] && IsSpace(s[|s| - 1]) then TrimEnd(s[..|s| - 1]) else s
  }

  /** `s.trim()`. */
  function Trim(s: string): string {
    TrimEnd(TrimStart(s))
  }

  /** Every character of `s` is whitespace. */
  predicate IsBlank(s: string) {
    forall i :: 0 <= i < |s| ==> IsSpace(s[i])
  }

  lemma {:induction false} TrimStartEmptyIffBlank(s: string)
    ensures TrimStart(s) == [] <==> IsBlank(s)
  {
    if s != [] && IsSpace(s[0]) {
      TrimStartEmptyIffBlank(s[1..]);
      assert forall i :: 1 <= i < |s| ==> s[i] == s[1..][i - 1];
    }
  }

  lemma {:induction false} TrimEndEmptyIffBlank(s: string)
    ensures TrimEnd(s) == [] <==> IsBlank(s)
  {
    if s != [] && IsSpace(s[|s| - 1]) {
      TrimEndEmptyIffBlank(s[..|s| - 1]);
    }
  }

  /** `!s.trim()` holds exactly when `s` is all whitespace. */
  lemma TrimEmptyIffBlank(s: string)
    ensures Trim(s) == [] <==> IsBlank(s)
  {
    TrimStartEmptyIffBlank(s);
    TrimEndEmptyIffBlank(TrimStart(s));
    TrimStartSuffix(s);
  }

  /** What `TrimStart` leaves is a suffix of its input that does not start with whitespace. */
  lemma {:induction false} TrimStartSuffix(s: string)
    ensures |TrimStart(s)| <= |s| && TrimStart(s) == s[|s| - |TrimStart(s)|..]
    ensures TrimStart(s) != [] ==> !IsSpace(TrimStart(s)[0])
  {
    if s != [] && IsSpace(s[0]) {
      TrimStartSuffix(s[1..]);
    }
  }

  /** `s.includes(sub)`. */
  predicate Includes(s: string, sub: string) {
    sub <= s || (s != [] && Includes(s[1..], sub))
  }

  /** A string cannot include a longer one. */
  lemma {:induction false} ShorterExcludes(s: string, sub: string)
    requires |s| < |sub|
    ensures !Includes(s, sub)
  {
    if s != [] {
      ShorterExcludes(s[1..], sub);
    }
  }
}
