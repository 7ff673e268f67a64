/**
  Boolean masks and the two numpy indexing idioms the core is built on:
  gathering `x[mask]` (Select) and the masked assignment `x[mask] = v`
  (Scatter, and its in-place form MaskedAssign). Also Python's
  `len(set(x)) > 1` test, used throughout to ask whether a vector is
  non-constant.
 */
module Masks {

  /** Number of true entries of a mask. */
  function Count(m: seq<bool>): (n: nat)
    ensures n <= |m|
  {
    if |m| == 0 then 0 else (if m[0] then 1 else 0) + Count(m[1..])
  }

  /** Position that the j-th entry takes among the selected ones. */
  function Rank(m: seq<bool>, j: nat): nat
    requires j <= |m|
  {
    Count(m[..j])
  }

  function AllTrue(n: nat): (m: seq<bool>)
    ensures |m| == n && forall j :: 0 <= j < n ==> m[j]
  {
    seq(n, _ => true)
  }

  /** `x[m]`: the entries of `s` whose mask entry is true, in their original order. */
  function Select<T>(s: seq<T>, m: seq<bool>): (r: seq<T>)
    requires |s| == |m|
    ensures |r| == Count(m)
  {
    if |s| == 0 then [] else (if m[0] then [s[0]] else []) + Select(s[1..], m[1..])
  }

  /** `d[m] = v` on a copy of `d`: masked positions take the values of `v` in order, the rest keep `d`. */
  function Scatter<T>(d: seq<T>, m: seq<bool>, v: seq<T>): (r: seq<T>)
    requires |d| == |m| && |v| == Count(m)
    ensures |r| == |d|
  {
    if |d| == 0 then []
    else if m[0] then [v[0]] + Scatter(d[1..], m[1..], v[1..])
    else [d[0]] + Scatter(d[1..], m[1..], v)
  }

  /** The set of distinct values of a vector: Python's `set(x)`. */
  function Distinct<T(==)>(s: seq<T>): set<T>
  {
    set x | x in s
  }

  /** Python's `len(set(x)) > 1`. */
  predicate NonConstant<T(==)>(s: seq<T>)
  {
    |Distinct(s)| > 1
  }

  /** Counting one more entry of a prefix. */
  lemma {:induction false} CountSnoc(m: seq<bool>, j: nat)
    requires j < |m|
    ensures Count(m[..j + 1]) == Count(m[..j]) + (if m[j] then 1 else 0)
    decreases j
  {
    if j > 0 {
      assert m[..j + 1][1..] == m[1..][..j];
      assert m[..j][1..] == m[1..][..j - 1];
      CountSnoc(m[1..], j - 1);
    }
  }

  /** A prefix of the whole mask holds every true entry, so ranks stay below the count. */
  lemma {:induction false} CountPrefix(m: seq<bool>, j: nat)
    requires j < |m|
    ensures Count(m[..j]) + (if m[j] then 1 else 0) <= Count(m)
    decreases j
  {
    if j == 0 {
      assert m[..0] == [];
    } else {
      assert m[..j][1..] == m[1..][..j - 1];
      CountPrefix(m[1..], j - 1);
    }
  }

  /** Gathering keeps order: a selected entry sits at its rank in the gathered vector. */
  lemma {:induction false} SelectAt<T>(s: seq<T>, m: seq<bool>, j: nat)
    requires |s| == |m| && j < |m| && m[j]
    ensures Rank(m, j) < Count(m)
    ensures Select(s, m)[Rank(m, j)] == s[j]
    decreases j
  {
    CountPrefix(m, j);
    if j > 0 {
      assert m[..j][1..] == m[1..][..j - 1];
      SelectAt(s[1..], m[1..], j - 1);
    }
  }

  /** Gathering keeps relative order: a selected entry before another gets a smaller rank. */
  lemma {:induction false} RankMonotone(m: seq<bool>, i: nat, j: nat)
    requires i < j <= |m| && m[i]
    ensures Rank(m, i) < Rank(m, j)
    decreases j - i
  {
    CountSnoc(m, i);
    if i + 1 < j {
      RankMonotoneWeak(m, i + 1, j);
    }
  }

  lemma {:induction false} RankMonotoneWeak(m: seq<bool>, i: nat, j: nat)
    requires i <= j <= |m|
    ensures Rank(m, i) <= Rank(m, j)
    decreases j - i
  {
    if i < j {
      CountSnoc(m, i);
      RankMonotoneWeak(m, i + 1, j);
    }
  }

  /** Every gathered entry comes from a selected position. */
  lemma {:induction false} SelectFrom<T>(s: seq<T>, m: seq<bool>, x: T)
    requires |s| == |m| && x in Select(s, m)
    ensures exists j :: 0 <= j < |s| && m[j] && s[j] == x
    decreases |s|
  {
    if |s| > 0 {
      if m[0] && x == s[0] {
        assert m[0] && s[0] == x;
      } else {
        SelectFrom(s[1..], m[1..], x);
        var j :| 0 <= j < |s[1..]| && m[1..][j] && s[1..][j] == x;
        assert m[j + 1] && s[j + 1] == x;
      }
    }
  }

  /** Gathering only looks at the selected positions: vectors that agree there gather the same. */
  lemma {:induction false} SelectAgree<T>(a: seq<T>, b: seq<T>, m: seq<bool>)
    requires |a| == |m| && |b| == |m|
    requires forall i :: 0 <= i < |m| && m[i] ==> a[i] == b[i]
    ensures Select(a, m) == Select(b, m)
    decreases |m|
  {
    if |m| > 0 {
      SelectAgree(a[1..], b[1..], m[1..]);
    }
  }

  /** Gathering with a mask that is everywhere true changes nothing. */
  lemma {:induction false} SelectAll<T>(s: seq<T>, m: seq<bool>)
    requires |s| == |m| && forall j :: 0 <= j < |m| ==> m[j]
    ensures Count(m) == |m|
    ensures Select(s, m) == s
    decreases |s|
  {
    if |s| > 0 {
      SelectAll(s[1..], m[1..]);
    }
  }

  /** What a masked assignment leaves at each position. */
  lemma {:induction false} ScatterAt<T>(d: seq<T>, m: seq<bool>, v: seq<T>, j: nat)
    requires |d| == |m| && |v| == Count(m) && j < |m|
    ensures Rank(m, j) + (if m[j] then 1 else 0) <= |v|
    ensures Scatter(d, m, v)[j] == if m[j] then v[Rank(m, j)] else d[j]
    decreases j
  {
    CountPrefix(m, j);
    if j > 0 {
      assert m[..j][1..] == m[1..][..j - 1];
      if m[0] {
        ScatterAt(d[1..], m[1..], v[1..], j - 1);
      } else {
        ScatterAt(d[1..], m[1..], v, j - 1);
      }
    }
  }

  /** Round trip: reading back the masked positions after a masked assignment gives the assigned values. */
  lemma {:induction false} SelectScatter<T>(d: seq<T>, m: seq<bool>, v: seq<T>)
    requires |d| == |m| && |v| == Count(m)
    ensures Select(Scatter(d, m, v), m) == v
    decreases |d|
  {
    if |d| > 0 {
      if m[0] {
        SelectScatter(d[1..], m[1..], v[1..]);
      } else {
        SelectScatter(d[1..], m[1..], v);
      }
    }
  }

  /** Round trip: assigning the masked positions their own values changes nothing. */
  lemma {:induction false} ScatterSelect<T>(d: seq<T>, m: seq<bool>)
    requires |d| == |m|
    ensures Scatter(d, m, Select(d, m)) == d
    decreases |d|
  {
    if |d| > 0 {
      var sel := Select(d, m);
      if m[0] {
        assert sel == [d[0]] + Select(d[1..], m[1..]);
        assert sel[1..] == Select(d[1..], m[1..]);
      } else {
        assert sel == Select(d[1..], m[1..]);
      }
      ScatterSelect(d[1..], m[1..]);
      assert d == [d[0]] + d[1..];
    }
  }

  lemma {:induction false} SubsetCardinality<T>(a: set<T>, b: set<T>)
    requires a <= b
    ensures |a| <= |b|
    decreases a
  {
    if a != {} {
      var x :| x in a;
      SubsetCardinality(a - {x}, b - {x});
    }
  }

  /** `len(set(x)) > 1` holds exactly when two entries differ. */
  lemma NonConstantIff<T>(s: seq<T>)
    ensures NonConstant(s) <==> exists i, j :: 0 <= i < |s| && 0 <= j < |s| && s[i] != s[j]
  {
    if exists i, j :: 0 <= i < |s| && 0 <= j < |s| && s[i] != s[j] {
      var i, j :| 0 <= i < |s| && 0 <= j < |s| && s[i] != s[j];
      assert {s[i], s[j]} <= Distinct(s);
      assert |{s[i], s[j]}| == 2;
      SubsetCardinality({s[i], s[j]}, Distinct(s));
    } else if |s| == 0 {
      assert Distinct(s) == {};
    } else {
      forall x | x in Distinct(s) ensures x == s[0] {
        var k :| 0 <= k < |s| && s[k] == x;
        assert s[k] == s[0];
      }
      assert Distinct(s) <= {s[0]};
      SubsetCardinality(Distinct(s), {s[0]});
    }
  }

  /** On a boolean mask, `len(set(m)) > 1` means the mask holds both a true and a false entry. */
  lemma ProperMaskIff(m: seq<bool>)
    ensures NonConstant(m) <==> (true in m && false in m)
  {
    NonConstantIff(m);
    if true in m && false in m {
      var i :| 0 <= i < |m| && m[i];
      var j :| 0 <= j < |m| && !m[j];
      assert m[i] != m[j];
    }
    if NonConstant(m) {
      var i, j :| 0 <= i < |m| && 0 <= j < |m| && m[i] != m[j];
      if m[i] {
        assert m[i] in m && m[j] in m;
      } else {
        assert m[j] in m && m[i] in m;
      }
    }
  }

  /** A vector whose entries all equal one value is constant. */
  lemma ConstantNotNonConstant<T>(s: seq<T>, c: T)
    requires forall j :: 0 <= j < |s| ==> s[j] == c
    ensures !NonConstant(s)
  {
    NonConstantIff(s);
  }

  /** The number of true entries is zero exactly when no entry is true. */
  lemma {:induction false} CountZeroIff(m: seq<bool>)
    ensures Count(m) == 0 <==> true !in m
    decreases |m|
  {
    if |m| > 0 {
      CountZeroIff(m[1..]);
      assert m == [m[0]] + m[1..];
    }
  }

  /**
    `a[m] = v` in place. The loop walks the positions once, keeping in `k`
    the number of masked positions already filled.
   */
  method MaskedAssign<T>(a: array<T>, m: seq<bool>, v: seq<T>)
    requires a.Length == |m| && |v| == Count(m)
    modifies a
    ensures a[..] == Scatter(old(a[..]), m, v)
  {
    ghost var before := a[..];
    var j, k := 0, 0;
    while j < a.Length
      invariant 0 <= j <= a.Length
      invariant k == Rank(m, j) && k <= |v|
      invariant forall t :: 0 <= t < j ==> a[t] == Scatter(before, m, v)[t]
      invariant forall t :: j <= t < a.Length ==> a[t] == before[t]
    {
      ScatterAt(before, m, v, j);
      CountSnoc(m, j);
      if m[j] {
        a[j] := v[k];
        k := k + 1;
      }
      j := j + 1;
    }
  }
}
