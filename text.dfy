/**
 * Text helpers with the meaning of the Python string operations the add-on
 * uses: `startswith`, substring `in`, `find`, `strip` and `split`.
 * Whitespace is the set of characters for which Python's `str.isspace` holds,
 * which is also what `strip()` removes and what the `re` pattern `\s` matches.
 */
module Text {
  import opened Wrappers

  /**
   * Python's `str.isspace` on one character: tab to carriage return, the four
   * separators U+001C to U+001F, the space, and the Unicode spaces and line
   * and paragraph separators.
   */
  predicate IsSpace(c: char) {
    || c == ' ' || '\t' <= c <= '\r' || '\U{1C}' <= c <= '\U{1F}'
    || c == '\U{85}' || c == '\U{A0}' || c == '\U{1680}' || '\U{2000}' <= c <= '\U{200A}'
    || c == '\U{2028}' || c == '\U{2029}' || c == '\U{202F}' || c == '\U{205F}' || c == '\U{3000}'
  }

  predicate StartsWith(s: string, prefix: string) {
    |prefix| <= |s| && s[..|prefix|] == prefix
  }

  /** `p` occurs in `s` at index `i`. */
  predicate OccursAt(s: string, p: string, i: nat) {
    i + |p| <= |s| && s[i..i + |p|] == p
  }

  /** Python's `p in s` on strings. */
  predicate IsSubstring(p: string, s: string) {
    exists i :: 0 <= i <= |s| && OccursAt(s, p, i)
  }

  /** Index of the leftmost occurrence of `p` in `s` at or after `from`. */
  function FindFrom(s: string, p: string, from: nat): (r: Option<nat>)
    ensures r.Some? ==> from <= r.value && OccursAt(s, p, r.value)
    ensures r.Some? ==> forall j: nat :: from <= j < r.value ==> !OccursAt(s, p, j)
    ensures r.None? ==> forall j: nat :: from <= j ==> !OccursAt(s, p, j)
    decreases |s| - from
  {
    if from + |p| > |s| then None
    else if s[from..from + |p|] == p then Some(from)
    else FindFrom(s, p, from + 1)
  }

  /** Python's `s.find(p) >= 0`, stated through `FindFrom`. */
  lemma FindIsSubstring(s: string, p: string)
    ensures FindFrom(s, p, 0).Some? <==> IsSubstring(p, s)
  {
    if IsSubstring(p, s) {
      var i :| 0 <= i <= |s| && OccursAt(s, p, i);
    }
  }

  /** Python's `s.split(p)[0]`: the text of `s` before the first occurrence of `p`. */
  function CutAt(s: string, p: string): (r: string)
    ensures StartsWith(s, r)
    ensures forall j :: 0 <= j < |r| ==> !OccursAt(s, p, j)
    ensures |r| == |s| || OccursAt(s, p, |r|)
  {
    match FindFrom(s, p, 0)
    case Some(j) => s[..j]
    case None => s
  }

  /** A one-character pattern occurs exactly where that character stands. */
  lemma OccursChar(s: string, c: char, j: nat)
    requires j < |s|
    ensures OccursAt(s, [c], j) <==> s[j] == c
  {
    assert s[j..j + 1] == [s[j]];
  }

  /** Number of leading whitespace characters of `s`. */
  function LeadingSpaces(s: string): (n: nat)
    ensures n <= |s|
    ensures forall i :: 0 <= i < n ==> IsSpace(s[i])
    ensures n < |s| ==> !IsSpace(s[n])
  {
    if |s| == 0 || !IsSpace(s[0]) then 0 else 1 + LeadingSpaces(s[1..])
  }

  /** Number of trailing whitespace characters of `s`. */
  function TrailingSpaces(s: string): (n: nat)
    ensures n <= |s|
    ensures forall i :: |s| - n <= i < |s| ==> IsSpace(s[i])
    ensures n < |s| ==> !IsSpace(s[|s| - 1 - n])
  {
    if |s| == 0 || !IsSpace(s[|s| - 1]) then 0 else 1 + TrailingSpaces(s[..|s| - 1])
  }

  /**
   * Python's `str.strip()`: drops whitespace at both ends and keeps the middle.
   * The result stands in `s` right after its leading whitespace (see
   * `LeadingSpaces`), only whitespace follows it, and it neither starts nor
   * ends with whitespace; it is empty only for an all-whitespace `s`.
   */
  function Strip(s: string): (r: string)
    ensures |r| <= |s|
    ensures r != [] ==> !IsSpace(r[0]) && !IsSpace(r[|r| - 1])
    ensures IsSubstring(r, s)
    ensures LeadingSpaces(s) + |r| <= |s| && r == s[LeadingSpaces(s)..LeadingSpaces(s) + |r|]
    ensures forall k :: LeadingSpaces(s) + |r| <= k < |s| ==> IsSpace(s[k])
    ensures r == [] ==> forall k :: 0 <= k < |s| ==> IsSpace(s[k])
  {
    var a := LeadingSpaces(s);
    var rest := s[a..];
    var r := rest[..|rest| - TrailingSpaces(rest)];
    assert OccursAt(s, r, a);
    r
  }

  /** Python's `s.split(sep)` for a one-character separator. */
  function SplitOn(s: string, sep: char): (parts: seq<string>)
    ensures |parts| >= 1
    ensures forall k :: 0 <= k < |parts| ==> sep !in parts[k]
  {
    if sep !in s then [s]
    else
      var i := FirstIndexOf(s, sep);
      [s[..i]] + SplitOn(s[i + 1..], sep)
  }

  /** Index of the first `c` in `s`. */
  function FirstIndexOf(s: string, c: char): (i: nat)
    requires c in s
    ensures i < |s| && s[i] == c && c !in s[..i]
  {
    if s[0] == c then 0 else 1 + FirstIndexOf(s[1..], c)
  }

  /** Python's `sep.join(parts)` for a one-character separator. */
  function JoinWith(parts: seq<string>, sep: char): string
    requires |parts| >= 1
  {
    if |parts| == 1 then parts[0] else parts[0] + [sep] + JoinWith(parts[1..], sep)
  }

  /** Splitting loses nothing: joining the segments back gives the string. */
  lemma {:induction false} SplitJoin(s: string, sep: char)
    ensures JoinWith(SplitOn(s, sep), sep) == s
    decreases |s|
  {
    if sep in s {
      var i := FirstIndexOf(s, sep);
      SplitJoin(s[i + 1..], sep);
      assert s == s[..i] + [sep] + s[i + 1..];
    }
  }
}
