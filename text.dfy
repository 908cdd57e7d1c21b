/**
 * The parts of the .NET string library that the intake code leans on:
 * char.IsWhiteSpace, string.IsNullOrWhiteSpace, string.Trim, ToLower and
 * string.Replace with StringComparison.OrdinalIgnoreCase.
 */
module Text {

  /** char.IsWhiteSpace: the characters with the Unicode White_Space property. */
  predicate IsWhiteSpace(c: char) {
    || c == ' '
    || '\t' <= c <= '\r'
    || c == '\U{0085}' || c == '\U{00A0}' || c == '\U{1680}'
    || '\U{2000}' <= c <= '\U{200A}'
    || c == '\U{2028}' || c == '\U{2029}' || c == '\U{202F}' || c == '\U{205F}' || c == '\U{3000}'
  }

  /** string.IsNullOrWhiteSpace on a non-null string: the empty string counts as blank. */
  predicate IsBlank(s: string) {
    forall i | 0 <= i < |s| :: IsWhiteSpace(s[i])
  }

  /** string.TrimStart(): drops the leading white space and keeps the rest as it is. */
  function TrimStart(s: string): (r: string)
    ensures |r| <= |s| && r == s[|s| - |r|..]
    ensures r == [] || !IsWhiteSpace(r[0])
    ensures forall i | 0 <= i < |s| - |r| :: IsWhiteSpace(s[i])
  {
    if s != [] && IsWhiteSpace(s[0]) then TrimStart(s[1..]) else s
  }

  /** string.TrimEnd(): drops the trailing white space and keeps the rest as it is. */
  function TrimEnd(s: string): (r: string)
    ensures |r| <= |s| && r == s[..|r|]
    ensures r == [] || !IsWhiteSpace(r[|r| - 1])
    ensures forall i | |r| <= i < |s| :: IsWhiteSpace(s[i])
  {
    if s != [] && IsWhiteSpace(s[|s| - 1]) then TrimEnd(s[..|s| - 1]) else s
  }

  /** string.Trim(): the text between the leading and the trailing white space. */
  function Trim(s: string): (r: string)
    ensures |r| <= |s|
    ensures r == [] || (!IsWhiteSpace(r[0]) && !IsWhiteSpace(r[|r| - 1]))
    ensures r == [] <==> IsBlank(s)
    ensures s == [] || (!IsWhiteSpace(s[0]) && !IsWhiteSpace(s[|s| - 1])) ==> r == s
  {
    var t := TrimStart(s);
    var r := TrimEnd(t);
    TrimEdges(t, r);
    TrimEmpty(s, t, r);
    TrimUnchanged(s, t, r);
    r
  }

  /** Helper for Trim: what is left starts and ends with a character that is not white space. */
  lemma TrimEdges(t: string, r: string)
    requires t == [] || !IsWhiteSpace(t[0])
    requires r == TrimEnd(t)
    ensures r == [] || (!IsWhiteSpace(r[0]) && !IsWhiteSpace(r[|r| - 1]))
  {
  }

  /** Helper for Trim: nothing is left exactly when the text is blank. */
  lemma TrimEmpty(s: string, t: string, r: string)
    requires t == TrimStart(s) && r == TrimEnd(t)
    ensures r == [] <==> IsBlank(s)
  {
    var lead := |s| - |t|;
    if t == [] {
      assert forall i | 0 <= i < |s| :: IsWhiteSpace(s[i]);
    } else {
      assert t[0] == s[lead];
      assert !IsBlank(s) by { assert !IsWhiteSpace(s[lead]); }
      assert |r| != 0 by {
        assert !IsWhiteSpace(t[0]);
      }
    }
  }

  /** Helper for Trim: a text without white space at either end is left as it is. */
  lemma TrimUnchanged(s: string, t: string, r: string)
    requires t == TrimStart(s) && r == TrimEnd(t)
    ensures s == [] || (!IsWhiteSpace(s[0]) && !IsWhiteSpace(s[|s| - 1])) ==> r == s
  {
  }

  /** Upper-casing of one character as ordinal case-insensitive comparison uses it (ASCII letters only). */
  function Upper(c: char): char {
    if 'a' <= c <= 'z' then (c as int - 32) as char else c
  }

  /** Lower-casing of one character (ASCII letters only). */
  function Lower(c: char): char {
    if 'A' <= c <= 'Z' then (c as int + 32) as char else c
  }

  /** string.ToLower(), restricted to ASCII letters. */
  function ToLower(s: string): string {
    seq(|s|, i requires 0 <= i < |s| => Lower(s[i]))
  }

  /** A text without upper-case letters is its own lower case. */
  lemma LowerCaseKept(s: string)
    requires forall i | 0 <= i < |s| :: !('A' <= s[i] <= 'Z')
    ensures ToLower(s) == s
  {
    assert forall i | 0 <= i < |s| :: ToLower(s)[i] == s[i];
  }

  /** s begins with pattern, compared with StringComparison.OrdinalIgnoreCase. */
  predicate StartsWithIgnoreCase(s: string, pattern: string) {
    |pattern| <= |s| && forall i | 0 <= i < |pattern| :: Upper(s[i]) == Upper(pattern[i])
  }

  /** pattern occurs somewhere in s, ignoring case. */
  predicate ContainsIgnoreCase(s: string, pattern: string) {
    exists i | 0 <= i <= |s| :: StartsWithIgnoreCase(s[i..], pattern)
  }

  /**
   * s.Replace(pattern, "", StringComparison.OrdinalIgnoreCase): scans s from
   * left to right and deletes every non-overlapping occurrence of pattern.
   * The text on either side of a deleted occurrence is not scanned again.
   */
  function RemoveIgnoreCase(s: string, pattern: string): (r: string)
    requires pattern != []
    ensures |r| <= |s|
    decreases |s|
  {
    if s == [] then []
    else if StartsWithIgnoreCase(s, pattern) then
      RemoveIgnoreCase(s[|pattern|..], pattern)
    else [s[0]] + RemoveIgnoreCase(s[1..], pattern)
  }

  /** Replace deletes whole occurrences only: the text shrinks by n times the pattern's length, for some n. */
  lemma {:induction false} RemoveIgnoreCaseShrinks(s: string, pattern: string) returns (n: nat)
    requires pattern != []
    ensures |s| - |RemoveIgnoreCase(s, pattern)| == n * |pattern|
    decreases |s|
  {
    if s == [] {
      n := 0;
    } else if StartsWithIgnoreCase(s, pattern) {
      var m := RemoveIgnoreCaseShrinks(s[|pattern|..], pattern);
      n := m + 1;
      MultipleStep(m, |pattern|);
    } else {
      n := RemoveIgnoreCaseShrinks(s[1..], pattern);
    }
  }

  /** Helper: one more occurrence removed is one more pattern length. */
  lemma MultipleStep(m: nat, k: nat)
    ensures (m + 1) * k == m * k + k
  {
  }

  /** Replace leaves s as it is exactly when pattern does not occur in it. */
  lemma {:induction false} RemoveIgnoreCaseIdentity(s: string, pattern: string)
    requires pattern != []
    ensures RemoveIgnoreCase(s, pattern) == s <==> !ContainsIgnoreCase(s, pattern)
  {
    if s == [] {
      assert !StartsWithIgnoreCase(s[0..], pattern);
    } else if StartsWithIgnoreCase(s, pattern) {
      assert s[0..] == s;
    } else {
      assert s[0..] == s;
      RemoveIgnoreCaseIdentity(s[1..], pattern);
      if ContainsIgnoreCase(s, pattern) {
        var i :| 0 <= i <= |s| && StartsWithIgnoreCase(s[i..], pattern);
        assert i > 0;
        assert s[1..][i - 1..] == s[i..];
      } else {
        forall i | 0 <= i <= |s[1..]|
          ensures !StartsWithIgnoreCase(s[1..][i..], pattern)
        {
          assert s[1..][i..] == s[i + 1..];
        }
      }
    }
  }
}
