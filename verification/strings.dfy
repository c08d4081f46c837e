/** Substring search on strings, as Kotlin's `String.contains` does it. */
module Strings {

  /** True when `p` occurs as a contiguous block somewhere in `s`. */
  predicate Contains(s: string, p: string)
    decreases |s|
  {
    p <= s || (|s| > 0 && Contains(s[1..], p))
  }

  /** An occurrence at a known offset is an occurrence. */
  lemma {:induction false} ContainsAt(s: string, p: string, i: nat)
    requires i + |p| <= |s|
    requires s[i..i + |p|] == p
    ensures Contains(s, p)
    decreases i
  {
    if i == 0 {
      assert p <= s;
    } else {
      assert s[1..][i - 1..i - 1 + |p|] == s[i..i + |p|];
      ContainsAt(s[1..], p, i - 1);
    }
  }

  /** A pattern whose first character does not occur in `s` does not occur in `s`. */
  lemma {:induction false} MissingFirstChar(s: string, p: string)
    requires |p| > 0 && p[0] !in s
    ensures !Contains(s, p)
    decreases |s|
  {
    if |s| > 0 {
      MissingFirstChar(s[1..], p);
    }
  }

  /** Nothing but the empty string occurs in the empty string. */
  lemma EmptyContainsOnlyEmpty(p: string)
    requires |p| > 0
    ensures !Contains("", p)
  {
  }

  /**
   * A pattern that does not contain the separator character occurs in
   * `a + [sep] + b` exactly when it occurs in `a` or in `b`: no occurrence
   * can straddle the separator.
   */
  lemma {:induction false} ContainsAcrossSeparator(a: string, sep: char, b: string, p: string)
    requires sep !in p
    ensures Contains(a + [sep] + b, p) <==> Contains(a, p) || Contains(b, p)
    decreases |a|
  {
    var s := a + [sep] + b;
    if |a| == 0 {
      assert s[1..] == b;
      assert s[0] == sep;
    } else {
      assert s[1..] == a[1..] + [sep] + b;
      ContainsAcrossSeparator(a[1..], sep, b, p);
      assert s[|a|] == sep;
      assert forall k :: 0 <= k < |p| && p <= s ==> p[k] == s[k];
      assert |p| <= |a| && p <= s ==> p == a[..|p|];
      if p <= a {
        assert s[..|p|] == a[..|p|];
      }
    }
  }
}
