/** Order-preserving filtering and the subsequence relation over lists of column labels. */
module Sequences {

  /** The elements of `s` that lie in `keep`, in the order of `s` (a list comprehension with a membership test). */
  function FilterIn(s: seq<string>, keep: set<string>): (r: seq<string>)
    ensures |r| <= |s|
    ensures forall x :: x in r <==> x in s && x in keep
    decreases |s|
  {
    if s == [] then []
    else FilterIn(s[..|s| - 1], keep) + (if s[|s| - 1] in keep then [s[|s| - 1]] else [])
  }

  /** `a` can be obtained from `b` by deleting elements, without reordering. */
  predicate IsSubsequence(a: seq<string>, b: seq<string>)
    decreases |b|
  {
    || a == []
    || (b != [] &&
        ((a[|a| - 1] == b[|b| - 1] && IsSubsequence(a[..|a| - 1], b[..|b| - 1]))
         || IsSubsequence(a, b[..|b| - 1])))
  }

  predicate NoDuplicates(s: seq<string>) {
    forall i, j | 0 <= i < j < |s| :: s[i] != s[j]
  }

  function Elements(s: seq<string>): set<string> {
    set x | x in s
  }

  lemma {:induction false} FilterInIsSubsequence(s: seq<string>, keep: set<string>)
    ensures IsSubsequence(FilterIn(s, keep), s)
    decreases |s|
  {
    if s != [] {
      var init := s[..|s| - 1];
      FilterInIsSubsequence(init, keep);
      var r := FilterIn(s, keep);
      if s[|s| - 1] in keep {
        assert r[..|r| - 1] == FilterIn(init, keep);
      } else {
        assert r == FilterIn(init, keep);
      }
    }
  }

  /** Filtering by the union of two disjoint sets keeps as many elements as filtering by each. */
  lemma {:induction false} FilterInDisjointUnion(s: seq<string>, a: set<string>, b: set<string>)
    requires a !! b
    ensures |FilterIn(s, a + b)| == |FilterIn(s, a)| + |FilterIn(s, b)|
    decreases |s|
  {
    if s != [] {
      FilterInDisjointUnion(s[..|s| - 1], a, b);
    }
  }

  /** Filtering by a set that holds every element is the identity. */
  lemma {:induction false} FilterInEverything(s: seq<string>, keep: set<string>)
    requires forall x | x in s :: x in keep
    ensures FilterIn(s, keep) == s
    decreases |s|
  {
    if s != [] {
      var init := s[..|s| - 1];
      forall x | x in init ensures x in keep {
        assert x in s;
      }
      FilterInEverything(init, keep);
      assert s[|s| - 1] in keep;
      assert init + [s[|s| - 1]] == s;
    }
  }

  lemma {:induction false} FilterInNoDuplicates(s: seq<string>, keep: set<string>)
    requires NoDuplicates(s)
    ensures NoDuplicates(FilterIn(s, keep))
    decreases |s|
  {
    if s != [] {
      var init := s[..|s| - 1];
      FilterInNoDuplicates(init, keep);
      forall i | 0 <= i < |init| ensures init[i] != s[|s| - 1] {
        assert init[i] == s[i];
      }
    }
  }

  /** A sequence has at most as many distinct elements as entries, and exactly as many iff it has no repeats. */
  lemma {:induction false} ElementsCardinality(s: seq<string>)
    ensures |Elements(s)| <= |s|
    ensures |Elements(s)| == |s| <==> NoDuplicates(s)
    decreases |s|
  {
    if s == [] {
      assert Elements(s) == {};
    } else {
      var init, x := s[..|s| - 1], s[|s| - 1];
      ElementsCardinality(init);
      assert Elements(s) == Elements(init) + {x};
      if x in init {
        assert Elements(s) == Elements(init);
        var i :| 0 <= i < |init| && init[i] == x;
        assert s[i] == s[|s| - 1];
      } else {
        assert |Elements(s)| == |Elements(init)| + 1;
        if NoDuplicates(init) {
          forall i, j | 0 <= i < j < |s| ensures s[i] != s[j] {
            if j == |s| - 1 {
              assert init[i] == s[i];
            } else {
              assert init[i] == s[i] && init[j] == s[j];
            }
          }
        }
        if NoDuplicates(s) {
          forall i, j | 0 <= i < j < |init| ensures init[i] != init[j] {
            assert s[i] == init[i] && s[j] == init[j];
          }
        }
      }
    }
  }

  /** A subset as large as its superset is the superset. */
  lemma SubsetOfEqualSize(a: set<string>, b: set<string>)
    requires a <= b && |a| == |b|
    ensures a == b
  {
    assert b * a == a;
    assert |b - a| == |b| - |b * a|;
    assert b - a == {};
  }

  /** The part of `k` inside `d` is at most as large as `k`, and as large exactly when `k` lies inside `d`. */
  lemma IntersectionCardinality(d: set<string>, k: set<string>)
    ensures |d * k| <= |k|
    ensures |d * k| == |k| <==> k <= d
  {
    assert k * d == d * k;
    assert |k - d| == |k| - |k * d|;
    if |d * k| == |k| {
      SubsetOfEqualSize(d * k, k);
    }
  }

  /** Filtering a repeat-free sequence keeps exactly its elements that lie in `keep`. */
  lemma FilterInCardinality(s: seq<string>, keep: set<string>)
    requires NoDuplicates(s)
    ensures |FilterIn(s, keep)| == |Elements(s) * keep|
  {
    var r := FilterIn(s, keep);
    FilterInNoDuplicates(s, keep);
    ElementsCardinality(r);
    assert Elements(r) == Elements(s) * keep;
  }
}
