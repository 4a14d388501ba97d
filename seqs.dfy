/** The optional value returned by a lookup that may find nothing (Array.prototype.find). */
module Wrappers {
  datatype Option<+T> = None | Some(value: T)
}

/**
 * The three array operations the dashboard is built from: `filter`, `reduce` with
 * a running sum, and `find`, as functions over `seq`. `Filter` and `SumOf` are
 * left folds, like `reduce`: each recurses on everything but the last element
 * and then adds the last one. `FindFirst` scans from the front and stops at the
 * first match, like `find`.
 */
module Seqs {
  import opened Wrappers

  /** Array.prototype.filter: the elements that pass `keep`, in their original order. */
  function Filter<T(!new)>(s: seq<T>, keep: T -> bool): (r: seq<T>)
    ensures |r| <= |s|
    ensures forall x :: x in r <==> x in s && keep(x)
  {
    if s == [] then []
    else
      var init := Filter(s[..|s| - 1], keep);
      assert forall x :: x in s <==> x in s[..|s| - 1] || x == s[|s| - 1];
      if keep(s[|s| - 1]) then init + [s[|s| - 1]] else init
  }

  /** Filtering a concatenation filters each part: order is kept and nothing moves across. */
  lemma {:induction false} FilterAppend<T(!new)>(a: seq<T>, b: seq<T>, keep: T -> bool)
    ensures Filter(a + b, keep) == Filter(a, keep) + Filter(b, keep)
  {
    if b == [] {
      assert a + b == a;
    } else {
      assert (a + b)[..|a + b| - 1] == a + b[..|b| - 1];
      FilterAppend(a, b[..|b| - 1], keep);
    }
  }

  /** Filtering a single element keeps it exactly when it passes. */
  lemma FilterSingleton<T(!new)>(x: T, keep: T -> bool)
    ensures Filter([x], keep) == if keep(x) then [x] else []
  {
    assert [x][..0] == [];
  }

  /** What filtering adds when one tail is replaced by another is kept when both get the same head. */
  lemma FilterConsStep<T(!new)>(h: T, b: seq<T>, b2: seq<T>, e: seq<T>, keep: T -> bool)
    requires Filter(b2, keep) == Filter(b, keep) + e
    ensures Filter([h] + b2, keep) == Filter([h] + b, keep) + e
  {
    FilterAppend([h], b2, keep);
    FilterAppend([h], b, keep);
    AppendAssoc(Filter([h], keep), Filter(b, keep), e);
  }

  lemma AppendAssoc<T>(a: seq<T>, b: seq<T>, c: seq<T>)
    ensures a + (b + c) == (a + b) + c
  {
  }

  /** Filtering out every element leaves nothing. */
  lemma FilterNone<T(!new)>(s: seq<T>, keep: T -> bool)
    requires forall x :: x in s ==> !keep(x)
    ensures Filter(s, keep) == []
  {
  }

  /** Filtering keeps everything exactly when every element passes. */
  lemma {:induction false} FilterKeepsAll<T(!new)>(s: seq<T>, keep: T -> bool)
    ensures Filter(s, keep) == s <==> forall x :: x in s ==> keep(x)
    ensures |Filter(s, keep)| == |s| <==> forall x :: x in s ==> keep(x)
  {
    if s != [] {
      var init := s[..|s| - 1];
      FilterKeepsAll(init, keep);
      assert s == init + [s[|s| - 1]];
      assert forall x :: x in s <==> x in init || x == s[|s| - 1];
    }
  }

  /** Array.prototype.reduce((sum, x) => sum + f(x), 0): a left fold from 0. */
  function SumOf<T>(s: seq<T>, f: T -> real): (r: real)
    ensures (forall x :: x in s ==> f(x) >= 0.0) ==> r >= 0.0
  {
    if s == [] then 0.0
    else
      assert forall x :: x in s[..|s| - 1] ==> x in s;
      SumOf(s[..|s| - 1], f) + f(s[|s| - 1])
  }

  /** The sum over a concatenation is the sum of the two sums. */
  lemma {:induction false} SumOfAppend<T>(a: seq<T>, b: seq<T>, f: T -> real)
    ensures SumOf(a + b, f) == SumOf(a, f) + SumOf(b, f)
  {
    if b == [] {
      assert a + b == a;
    } else {
      assert (a + b)[..|a + b| - 1] == a + b[..|b| - 1];
      SumOfAppend(a, b[..|b| - 1], f);
    }
  }

  /** The sum over a single element is its term. */
  lemma SumOfSingleton<T>(x: T, f: T -> real)
    ensures SumOf([x], f) == f(x)
  {
    assert [x][..0] == [];
  }

  /** Summing a pointwise sum of two terms gives the sum of the two sums. */
  lemma {:induction false} SumOfAdd<T>(s: seq<T>, f: T -> real, g: T -> real, h: T -> real)
    requires forall x :: x in s ==> h(x) == f(x) + g(x)
    ensures SumOf(s, h) == SumOf(s, f) + SumOf(s, g)
  {
    if s != [] {
      assert forall x :: x in s[..|s| - 1] ==> x in s;
      SumOfAdd(s[..|s| - 1], f, g, h);
    }
  }

  /** A sum of zeros is zero. */
  lemma {:induction false} SumOfZero<T>(s: seq<T>, f: T -> real)
    requires forall x :: x in s ==> f(x) == 0.0
    ensures SumOf(s, f) == 0.0
  {
    if s != [] {
      assert forall x :: x in s[..|s| - 1] ==> x in s;
      SumOfZero(s[..|s| - 1], f);
    }
  }

  /** A sum of non-negative terms, one of them positive, is positive. */
  lemma {:induction false} SumOfPositive<T>(s: seq<T>, f: T -> real, w: T)
    requires forall x :: x in s ==> f(x) >= 0.0
    requires w in s && f(w) > 0.0
    ensures SumOf(s, f) > 0.0
  {
    var init := s[..|s| - 1];
    assert s == init + [s[|s| - 1]];
    assert forall x :: x in init ==> x in s;
    if w != s[|s| - 1] {
      SumOfPositive(init, f, w);
    }
  }

  /** `f` restricted to the elements that pass `keep`, and 0 elsewhere. */
  function Masked<T>(keep: T -> bool, f: T -> real): T -> real
  {
    x => if keep(x) then f(x) else 0.0
  }

  /** Filtering and then summing is summing with the rejected terms set to 0. */
  lemma {:induction false} SumOfFilter<T(!new)>(s: seq<T>, keep: T -> bool, f: T -> real)
    ensures SumOf(Filter(s, keep), f) == SumOf(s, Masked(keep, f))
  {
    if s != [] {
      var init := s[..|s| - 1];
      SumOfFilter(init, keep, f);
      if keep(s[|s| - 1]) {
        SumOfAppend(Filter(init, keep), [s[|s| - 1]], f);
      }
    }
  }

  /** Array.prototype.find: the first element that passes `p`, or nothing. */
  function FindFirst<T(!new)>(s: seq<T>, p: T -> bool): (r: Option<T>)
    ensures r.None? <==> forall x :: x in s ==> !p(x)
    ensures r.Some? ==> r.value in s && p(r.value)
    ensures r.Some? ==> exists i :: 0 <= i < |s| && s[i] == r.value && forall j :: 0 <= j < i ==> !p(s[j])
  {
    if s == [] then None
    else if p(s[0]) then Some(s[0])
    else
      var r := FindFirst(s[1..], p);
      assert forall x :: x in s <==> x == s[0] || x in s[1..];
      assert r.Some? ==> exists i :: 0 <= i < |s[1..]| && s[1..][i] == r.value && forall j :: 0 <= j < i ==> !p(s[1..][j]);
      assert r.Some? ==> exists i :: 1 <= i < |s| && s[i] == r.value && forall j :: 1 <= j < i ==> !p(s[j]);
      r
  }
}
