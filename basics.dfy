/**
  Small shared vocabulary: optional values, error results, and Python's
  substring test (`m in s` on two strings).
 */
module Basics {

  datatype Option<+T> = None | Some(value: T)

  /** The exceptions the modelled code can raise. */
  datatype Error =
    | KeyError(key: string)       // a missing layer or table entry
    | ValueError(reason: string)  // an unresolvable argument or an impossible numpy assignment
    | IndexError(reason: string)  // a boolean index whose length does not match the axis

  datatype Result<+T> = Ok(value: T) | Err(error: Error)

  /** `p` is a prefix of `s`. */
  predicate IsPrefix(p: string, s: string)
  {
    |p| <= |s| && s[..|p|] == p
  }

  /** Python's `m in s` for two strings: `m` occurs somewhere in `s` as a contiguous piece. */
  predicate Contains(s: string, m: string)
    decreases |s|
  {
    IsPrefix(m, s) || (|s| > 0 && Contains(s[1..], m))
  }

  /** Every string occurs in itself, and the empty string occurs in every string. */
  lemma ContainsSelfAndEmpty(s: string)
    ensures Contains(s, s)
    ensures Contains(s, "")
  {
    assert s[..|s|] == s;
    assert s[..0] == "";
  }

  /** A piece of a prefix of `s` is a piece of `s`. */
  lemma {:induction false} PrefixContains(m: string, s: string, t: string)
    requires IsPrefix(m, s) && Contains(m, t)
    ensures Contains(s, t)
    decreases |m|
  {
    if IsPrefix(t, m) {
      assert s[..|t|] == m[..|t|];
    } else {
      assert |m| > 0 && Contains(m[1..], t);
      assert s[1..][..|m[1..]|] == m[1..];
      PrefixContains(m[1..], s[1..], t);
    }
  }

  /** The substring relation is transitive: a piece of a piece of `s` is a piece of `s`. */
  lemma {:induction false} ContainsTransitive(s: string, m: string, t: string)
    requires Contains(s, m) && Contains(m, t)
    ensures Contains(s, t)
    decreases |s|
  {
    if IsPrefix(m, s) {
      PrefixContains(m, s, t);
    } else {
      ContainsTransitive(s[1..], m, t);
    }
  }

  /** A string only contains pieces no longer than itself. */
  lemma {:induction false} ContainsBound(s: string, m: string)
    requires Contains(s, m)
    ensures |m| <= |s|
    decreases |s|
  {
    if !IsPrefix(m, s) {
      ContainsBound(s[1..], m);
    }
  }
}
