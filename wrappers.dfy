/** Small shared vocabulary: optional values and substring search on strings. */
module Wrappers {
  datatype Option<T> = None | Some(value: T)

  /** `t` occurs in `s` at position `i`. */
  predicate OccursAt(s: string, t: string, i: int)
  {
    0 <= i && i + |t| <= |s| && s[i..i + |t|] == t
  }

  /** `t` is a substring of `s` (Java `String.contains`, C++ `find != npos`). */
  ghost predicate Contains(s: string, t: string)
  {
    exists i :: OccursAt(s, t, i)
  }

  /** Does `t` occur in `s` at some position `i` with `from <= i`? Recursive search. */
  function ContainsFrom(s: string, t: string, from: nat): (r: bool)
    requires from <= |s| + 1
    ensures r <==> exists i :: from <= i && OccursAt(s, t, i)
    decreases |s| + 1 - from
  {
    if from + |t| > |s| then
      assert forall i :: from <= i ==> !OccursAt(s, t, i);
      false
    else if s[from..from + |t|] == t then
      assert OccursAt(s, t, from);
      true
    else
      var r := ContainsFrom(s, t, from + 1);
      assert forall i :: from <= i && OccursAt(s, t, i) ==> i == from || from + 1 <= i;
      r
  }

  /** Executable substring test; agrees with `Contains`. */
  function ContainsString(s: string, t: string): (r: bool)
    ensures r <==> Contains(s, t)
  {
    ContainsFrom(s, t, 0)
  }

  /** A one-character substring is the same as membership of that character. */
  lemma ContainsChar(s: string, c: char)
    ensures Contains(s, [c]) <==> c in s
  {
    if c in s {
      var i :| 0 <= i < |s| && s[i] == c;
      assert OccursAt(s, [c], i);
    }
    if Contains(s, [c]) {
      var i :| OccursAt(s, [c], i);
      assert s[i..i + 1][0] == s[i];
    }
  }

  /** `p` is a prefix of `s`. */
  predicate StartsWith(s: string, p: string)
  {
    |p| <= |s| && s[..|p|] == p
  }
}
