/** Order-preserving filtering of sequences, the model of JavaScript's
    `Array.prototype.filter`, and the subsequence relation it establishes. */
module Seqs {

  /** The elements of `s` that satisfy `p`, in their original order. */
  function Filter<T>(p: T -> bool, s: seq<T>): (r: seq<T>)
    ensures |r| <= |s|
    ensures forall i :: 0 <= i < |r| ==> r[i] in s && p(r[i])
    ensures forall i :: 0 <= i < |s| && p(s[i]) ==> s[i] in r
  {
    if s == [] then []
    else if p(s[0]) then [s[0]] + Filter(p, s[1..])
    else Filter(p, s[1..])
  }

  /** Filtering keeps every copy of an element that passes and no copy of
      one that fails. */
  lemma {:induction false} FilterCounts<T>(p: T -> bool, s: seq<T>)
    ensures multiset(Filter(p, s)) <= multiset(s)
    ensures forall i :: 0 <= i < |s| ==>
      multiset(Filter(p, s))[s[i]] == if p(s[i]) then multiset(s)[s[i]] else 0
  {
    if s != [] {
      var x0, t := s[0], s[1..];
      FilterCounts(p, t);
      assert multiset(s) == multiset{x0} + multiset(t) by {
        assert s == [x0] + t;
      }
      assert multiset(Filter(p, s)) == (if p(x0) then multiset{x0} else multiset{}) + multiset(Filter(p, t));
      forall i | 0 <= i < |s|
        ensures multiset(Filter(p, s))[s[i]] == if p(s[i]) then multiset(s)[s[i]] else 0
      {
        var y := s[i];
        if y in t {
          var k :| 0 <= k < |t| && t[k] == y;
          assert multiset(Filter(p, t))[y] == if p(y) then multiset(t)[y] else 0;
        } else {
          assert multiset(t)[y] == 0;
          assert multiset(Filter(p, t))[y] == 0;
        }
      }
    }
  }

  /** `a` can be obtained from `b` by deleting elements, keeping the order. */
  ghost predicate IsSubsequence<T>(a: seq<T>, b: seq<T>)
    decreases |b|
  {
    if b == [] then a == []
    else (a != [] && a[0] == b[0] && IsSubsequence(a[1..], b[1..])) || IsSubsequence(a, b[1..])
  }

  /** Filtering only deletes elements: it never adds or reorders any. */
  lemma {:induction false} FilterIsSubsequence<T>(p: T -> bool, s: seq<T>)
    ensures IsSubsequence(Filter(p, s), s)
  {
    if s != [] {
      FilterIsSubsequence(p, s[1..]);
      if p(s[0]) {
        assert Filter(p, s)[1..] == Filter(p, s[1..]);
      }
    }
  }

  /** Filtering twice is filtering once by the conjunction, applied in the
      same order: a chain of `.filter` calls is one filter. */
  lemma {:induction false} FilterFilter<T>(p: T -> bool, q: T -> bool, both: T -> bool, s: seq<T>)
    requires forall x :: both(x) == (q(x) && p(x))
    ensures Filter(p, Filter(q, s)) == Filter(both, s)
  {
    if s != [] {
      FilterFilter(p, q, both, s[1..]);
      if q(s[0]) {
        assert Filter(q, s) == [s[0]] + Filter(q, s[1..]);
        assert Filter(q, s)[1..] == Filter(q, s[1..]);
      }
    }
  }
}
