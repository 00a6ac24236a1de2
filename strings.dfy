/**
 * The string operations the adapter applies to market symbols and addresses.
 * A string is a sequence of Unicode characters; JavaScript's UTF-16 code units
 * are not modelled, so lengths differ for characters outside the Basic
 * Multilingual Plane.
 */
module Strings {

  /** The position of the first `c` in `s`. */
  function IndexOf(s: string, c: char): (i: nat)
    requires c in s
    ensures i < |s| && s[i] == c && c !in s[..i]
  {
    if s[0] == c then 0
    else
      var j := IndexOf(s[1..], c);
      assert s[..j + 1] == [s[0]] + s[1..][..j];
      j + 1
  }

  /** `s.replace(c, rep)` with a one-character pattern: only the first occurrence is replaced. */
  function ReplaceFirst(s: string, c: char, rep: string): string {
    if c in s then
      var i := IndexOf(s, c);
      s[..i] + rep + s[i + 1..]
    else s
  }

  /** A character is found at the first place it occurs and nowhere before. */
  lemma IndexOfAt(s: string, c: char, i: nat)
    requires i < |s| && s[i] == c && c !in s[..i]
    ensures c in s && IndexOf(s, c) == i
  {
    var j := IndexOf(s, c);
    assert forall m :: 0 <= m < i ==> s[m] == s[..i][m];
    assert forall m :: 0 <= m < j ==> s[m] == s[..j][m];
  }

  /**
   * Replacing the first `a` by a character `b` that `s` does not contain is undone
   * by replacing the first `b` by `a`.
   */
  lemma ReplaceFirstInverse(s: string, a: char, b: char)
    requires b !in s
    ensures ReplaceFirst(ReplaceFirst(s, a, [b]), b, [a]) == s
  {
    if a in s {
      var i := IndexOf(s, a);
      var t := s[..i] + [b] + s[i + 1..];
      assert t[i] == b && t[..i] == s[..i];
      IndexOfAt(t, b, i);
      assert t[i + 1..] == s[i + 1..];
      assert s == s[..i] + [a] + s[i + 1..];
    }
  }

  /**
   * Replacing the first `a` by `b` and then deleting that `b` is the same as
   * deleting the first `a`, when `s` has no `b` of its own.
   */
  lemma ReplaceThenDelete(s: string, a: char, b: char)
    requires b !in s
    ensures ReplaceFirst(ReplaceFirst(s, a, [b]), b, "") == ReplaceFirst(s, a, "")
  {
    if a in s {
      var i := IndexOf(s, a);
      var t := s[..i] + [b] + s[i + 1..];
      assert t[i] == b && t[..i] == s[..i];
      IndexOfAt(t, b, i);
      assert t[i + 1..] == s[i + 1..];
    }
  }

  /** `s.slice(0, n)`, counting Unicode characters rather than UTF-16 code units. */
  function Take(s: string, n: nat): (r: string)
    ensures |r| == if |s| < n then |s| else n
    ensures r <= s
  {
    if |s| < n then s else s[..n]
  }
}
