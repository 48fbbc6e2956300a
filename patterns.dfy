/**
 * The fixed-shape regular expressions the results and replay code uses: a pattern is a sequence
 * of single-character classes (a literal, `\s`, `\d`).  `Search` is Python's `re.search` (leftmost
 * match anywhere); `MatchInLine` is `re.match` of `.*` followed by the pattern, where `.` does not
 * match a newline.
 */
module Patterns {
  import opened Common

  datatype CharClass = Lit(c: char) | Space | Digit

  /** Python `\s` on the characters it accepts below U+0100. */
  predicate IsSpace(c: char) {
    var n := c as int;
    n == 32 || (9 <= n <= 13) || (28 <= n <= 31) || n == 0x85 || n == 0xA0
  }

  /** Python `\d` on ASCII digits. */
  predicate IsDigit(c: char) {
    '0' <= c <= '9'
  }

  predicate ClassMatches(k: CharClass, c: char) {
    match k
    case Lit(x) => c == x
    case Space => IsSpace(c)
    case Digit => IsDigit(c)
  }

  /** The pattern matches `s` starting at index `i`. */
  predicate MatchAt(s: string, i: nat, pat: seq<CharClass>) {
    i + |pat| <= |s| && forall k :: 0 <= k < |pat| ==> ClassMatches(pat[k], s[i + k])
  }

  /** The leftmost match at or after index `i` (`re.search` on `s[i..]`, shifted). */
  function Search(s: string, pat: seq<CharClass>, i: nat): (r: Option<nat>)
    ensures r.Some? ==> i <= r.value && MatchAt(s, r.value, pat)
                        && forall k :: i <= k < r.value ==> !MatchAt(s, k, pat)
    ensures r.None? ==> forall k :: i <= k ==> !MatchAt(s, k, pat)
    decreases |s| - i
  {
    if i + |pat| > |s| then None
    else if MatchAt(s, i, pat) then Some(i)
    else Search(s, pat, i + 1)
  }

  /** A match at `j` with none between `i` and `j` is what the search from `i` finds. */
  lemma SearchFinds(s: string, pat: seq<CharClass>, i: nat, j: nat)
    requires i <= j && MatchAt(s, j, pat)
    requires forall k :: i <= k < j ==> !MatchAt(s, k, pat)
    ensures Search(s, pat, i) == Some(j)
  {
  }

  /** A pattern that starts with a literal cannot match where that character is not. */
  lemma NoMatchWithout(s: string, pat: seq<CharClass>, c: char, i: nat, j: nat)
    requires |pat| >= 1 && pat[0] == Lit(c) && i <= j <= |s|
    requires c !in s[i..j]
    ensures forall k :: i <= k < j ==> !MatchAt(s, k, pat)
  {
    forall k | i <= k < j
      ensures !MatchAt(s, k, pat)
    {
      assert s[k] == s[i..j][k - i];
    }
  }

  /** Python `re.match(".*" + pattern, s)`: a match that starts before the first newline. */
  predicate MatchInLine(s: string, pat: seq<CharClass>) {
    exists i :: 0 <= i <= |s| && '\n' !in s[..i] && MatchAt(s, i, pat)
  }

  /** The matcher: scan forward from `i`, stopping at the end of the first line. */
  function ScanLine(s: string, pat: seq<CharClass>, i: nat): (r: bool)
    requires i <= |s|
    ensures r <==> exists j :: i <= j <= |s| && '\n' !in s[i..j] && MatchAt(s, j, pat)
    decreases |s| - i
  {
    if MatchAt(s, i, pat) then
      assert '\n' !in s[i..i];
      true
    else if i == |s| || s[i] == '\n' then
      assert forall j :: i < j <= |s| ==> s[i] == s[i..j][0];
      false
    else
      var r := ScanLine(s, pat, i + 1);
      assert forall j :: i + 1 <= j <= |s| ==> s[i..j] == [s[i]] + s[i + 1..j];
      r
  }

  /** The scan from the start decides `re.match`. */
  lemma ScanLineMatches(s: string, pat: seq<CharClass>)
    ensures ScanLine(s, pat, 0) <==> MatchInLine(s, pat)
  {
    assert forall j :: 0 <= j <= |s| ==> s[0..j] == s[..j];
  }
}
