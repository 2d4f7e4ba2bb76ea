/** Substring containment, as `str::contains` decides it. */
module Text {

  /** `sub` occurs somewhere in `s`: it is a prefix of some suffix of `s`. */
  predicate Contains(s: string, sub: string) {
    exists i :: 0 <= i <= |s| && sub <= s[i..]
  }

  /** Text added after `s` keeps every occurrence in `s`. */
  lemma ContainsBefore(s: string, t: string, sub: string)
    requires Contains(s, sub)
    ensures Contains(s + t, sub)
  {
    var i :| 0 <= i <= |s| && sub <= s[i..];
    assert (s + t)[i..] == s[i..] + t;
  }

  /** Text added before `s` keeps every occurrence in `s`. */
  lemma ContainsAfter(t: string, s: string, sub: string)
    requires Contains(s, sub)
    ensures Contains(t + s, sub)
  {
    var i :| 0 <= i <= |s| && sub <= s[i..];
    assert (t + s)[|t| + i..] == s[i..];
  }

  /** Every string contains itself. */
  lemma ContainsSelf(s: string)
    ensures Contains(s, s)
  {
    assert s[0..] == s;
  }

  /** A suffix is contained. */
  lemma ContainsSuffix(a: string, s: string)
    ensures Contains(a + s, s)
  {
    ContainsSelf(s);
    ContainsAfter(a, s, s);
  }

  /** Regrouping a concatenation, stated once so that callers need not prove it character by character. */
  lemma Regroup(a: string, b: string, c: string)
    ensures a + b + c == a + (b + c)
  {
  }
}
