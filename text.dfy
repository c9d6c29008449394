/**
 * The three string primitives the page relies on: `toLowerCase`, `includes` and `trim`.
 * Strings are sequences of Unicode scalar values.
 */
module Text {

  /** The capital letters `LowerChar` maps: ASCII A–Z, Latin-1 U+00C0–U+00DE (without ×) and Cyrillic U+0400–U+042F. */
  ghost predicate IsUpper(c: char) {
    || 'A' <= c <= 'Z'
    || (('\U{00C0}' <= c <= '\U{00DE}') && c != '\U{00D7}')
    || '\U{0400}' <= c <= '\U{042F}'
  }

  /**
   * `toLowerCase` on one character, for the scripts the page's data uses: ASCII,
   * Latin-1 and the Cyrillic range U+0400–U+045F (capitals U+0400–U+042F). Other characters are kept.
   */
  function LowerChar(c: char): (d: char)
    ensures !IsUpper(d)
    ensures !IsUpper(c) ==> d == c
    ensures IsUpper(c) ==> d as int > c as int && UpperChar(d) == c
  {
    if 'A' <= c <= 'Z' then (c as int + 32) as char
    else if ('\U{00C0}' <= c <= '\U{00DE}') && c != '\U{00D7}' then (c as int + 32) as char
    else if '\U{0410}' <= c <= '\U{042F}' then (c as int + 32) as char
    else if '\U{0400}' <= c <= '\U{040F}' then (c as int + 80) as char
    else c
  }

  /** The reverse case mapping over the same three scripts, from each small letter to its capital. */
  ghost function UpperChar(d: char): char {
    if 'a' <= d <= 'z' then (d as int - 32) as char
    else if ('\U{00E0}' <= d <= '\U{00FE}') && d != '\U{00F7}' then (d as int - 32) as char
    else if '\U{0430}' <= d <= '\U{044F}' then (d as int - 32) as char
    else if '\U{0450}' <= d <= '\U{045F}' then (d as int - 80) as char
    else d
  }

  /** `s.toLowerCase()`: same length, no capital left, every other character kept in place. */
  function Lower(s: string): (r: string)
    ensures |r| == |s|
    ensures forall i :: 0 <= i < |r| ==> !IsUpper(r[i])
    ensures forall i :: 0 <= i < |s| && !IsUpper(s[i]) ==> r[i] == s[i]
    ensures forall i :: 0 <= i < |s| && IsUpper(s[i]) ==> UpperChar(r[i]) == s[i] && r[i] as int > s[i] as int
  {
    seq(|s|, i requires 0 <= i < |s| => LowerChar(s[i]))
  }

  /** Lower-casing twice is lower-casing once. */
  lemma LowerIdempotent(s: string)
    ensures Lower(Lower(s)) == Lower(s)
  {
  }

  predicate StartsWith(s: string, prefix: string) {
    |prefix| <= |s| && s[..|prefix|] == prefix
  }

  /** `s.includes(t)`: some suffix of `s` starts with `t`. */
  predicate Includes(s: string, t: string)
    decreases |s|
  {
    StartsWith(s, t) || (s != [] && Includes(s[1..], t))
  }

  /** Independent reading of containment: `t` is the slice of `s` that starts at `k`. */
  ghost predicate OccursAt(s: string, t: string, k: int) {
    0 <= k && k + |t| <= |s| && s[k..k + |t|] == t
  }

  lemma {:induction false} IncludesIffOccurs(s: string, t: string)
    ensures Includes(s, t) <==> exists k :: OccursAt(s, t, k)
    decreases |s|
  {
    if StartsWith(s, t) {
      assert OccursAt(s, t, 0);
    } else if s == [] {
      assert forall k :: !OccursAt(s, t, k);
    } else {
      IncludesIffOccurs(s[1..], t);
      forall k | OccursAt(s[1..], t, k) ensures OccursAt(s, t, k + 1) {
        assert s[k + 1..k + 1 + |t|] == s[1..][k..k + |t|];
      }
      forall k | OccursAt(s, t, k) && k > 0 ensures OccursAt(s[1..], t, k - 1) {
        assert s[1..][k - 1..k - 1 + |t|] == s[k..k + |t|];
      }
      assert !OccursAt(s, t, 0);
    }
  }

  /** The empty string is contained in every string. */
  lemma IncludesEmpty(s: string)
    ensures Includes(s, "")
  {
  }

  /**
   * The characters `String.prototype.trim` strips: ECMAScript's WhiteSpace
   * (TAB, VT, FF, ZWNBSP and the Unicode space separators) and LineTerminator.
   */
  predicate IsWhitespace(c: char) {
    c == '\t' || c == '\n' || c == '\U{000B}' || c == '\U{000C}' || c == '\r' || c == ' '
    || c == '\U{00A0}' || c == '\U{1680}' || ('\U{2000}' <= c <= '\U{200A}')
    || c == '\U{2028}' || c == '\U{2029}' || c == '\U{202F}' || c == '\U{205F}'
    || c == '\U{3000}' || c == '\U{FEFF}'
  }

  /** Drops the longest whitespace prefix. */
  function TrimStart(s: string): (r: string)
    ensures |r| <= |s| && r == s[|s| - |r|..]
    ensures forall i :: 0 <= i < |s| - |r| ==> IsWhitespace(s[i])
    ensures r == [] || !IsWhitespace(r[0])
    decreases |s|
  {
    if s != [] && IsWhitespace(s[0]) then TrimStart(s[1..]) else s
  }

  /** Drops the longest whitespace suffix. */
  function TrimEnd(s: string): (r: string)
    ensures |r| <= |s| && r == s[..|r|]
    ensures forall i :: |r| <= i < |s| ==> IsWhitespace(s[i])
    ensures r == [] || !IsWhitespace(r[|r| - 1])
    decreases |s|
  {
    if s != [] && IsWhitespace(s[|s| - 1]) then TrimEnd(s[..|s| - 1]) else s
  }

  /**
   * `s.trim()`: a slice of `s` that neither starts nor ends with whitespace, with
   * only whitespace cut off on either side.
   */
  function Trim(s: string): (r: string)
    ensures r == [] || (!IsWhitespace(r[0]) && !IsWhitespace(r[|r| - 1]))
    ensures exists a :: TrimmedAt(s, r, a)
  {
    var t := TrimStart(s);
    var r := TrimEnd(t);
    assert TrimmedAt(s, r, |s| - |t|) by {
      assert s[|s| - |t|..|s| - |t| + |r|] == t[..|r|];
    }
    r
  }

  /** `r` is the slice of `s` starting at `a`, and everything outside it is whitespace. */
  ghost predicate TrimmedAt(s: string, r: string, a: int) {
    && 0 <= a && a + |r| <= |s| && s[a..a + |r|] == r
    && (forall i :: 0 <= i < a ==> IsWhitespace(s[i]))
    && (forall i :: a + |r| <= i < |s| ==> IsWhitespace(s[i]))
  }

  /** `s.trim()` is falsy, i.e. the empty string: exactly when every character is whitespace. */
  predicate IsBlank(s: string): (b: bool)
    ensures b <==> forall i :: 0 <= i < |s| ==> IsWhitespace(s[i])
  {
    Trim(s) == ""
  }
}
