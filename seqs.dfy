/** Sequence helpers shared by the list transforms of the model (`Array.prototype.filter`). */
module Seqs {

  /** The elements of `s` that satisfy `p`, in their original order. */
  function Filter<T>(s: seq<T>, p: T -> bool): (r: seq<T>)
    ensures |r| <= |s|
    ensures forall k :: 0 <= k < |r| ==> r[k] in s && p(r[k])
    ensures forall k :: 0 <= k < |s| && p(s[k]) ==> s[k] in r
  {
    if s == [] then []
    else (if p(s[0]) then [s[0]] else []) + Filter(s[1..], p)
  }

  /** Filtering distributes over concatenation: the relative order of kept elements is preserved. */
  lemma {:induction false} FilterAppend<T>(a: seq<T>, b: seq<T>, p: T -> bool)
    ensures Filter(a + b, p) == Filter(a, p) + Filter(b, p)
  {
    if a == [] {
      assert a + b == b;
    } else {
      assert (a + b)[0] == a[0];
      assert (a + b)[1..] == a[1..] + b;
      FilterAppend(a[1..], b, p);
    }
  }

  /** When every element is kept, filtering changes nothing. */
  lemma {:induction false} FilterKeepsAll<T>(s: seq<T>, p: T -> bool)
    requires forall k :: 0 <= k < |s| ==> p(s[k])
    ensures Filter(s, p) == s
  {
    if s != [] {
      FilterKeepsAll(s[1..], p);
    }
  }

  /** When no element is kept, the result is empty. */
  lemma {:induction false} FilterDropsAll<T>(s: seq<T>, p: T -> bool)
    requires forall k :: 0 <= k < |s| ==> !p(s[k])
    ensures Filter(s, p) == []
  {
    if s != [] {
      FilterDropsAll(s[1..], p);
    }
  }

  /** Two tests that agree on every element of `s` filter it the same way. */
  lemma {:induction false} FilterAgreeing<T>(s: seq<T>, p: T -> bool, q: T -> bool)
    requires forall k :: 0 <= k < |s| ==> p(s[k]) == q(s[k])
    ensures Filter(s, p) == Filter(s, q)
  {
    if s != [] {
      FilterAgreeing(s[1..], p, q);
    }
  }

  /** Past a stretch of rejected elements, filtering resumes with the next element. */
  lemma FilterAround<T>(a: seq<T>, x: T, b: seq<T>, p: T -> bool)
    requires forall k :: 0 <= k < |a| ==> !p(a[k])
    ensures Filter(a + [x] + b, p) == (if p(x) then [x] else []) + Filter(b, p)
  {
    FilterAppend(a + [x], b, p);
    FilterAppend(a, [x], p);
    FilterDropsAll(a, p);
    assert Filter([x], p) == (if p(x) then [x] else []) + Filter([x][1..], p);
    assert [x][1..] == [];
  }
}
