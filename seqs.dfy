/**
 * Sequence helpers shared by the list-valued operations of the dashboard:
 * JavaScript's `Array.prototype.filter` and the notion of an order-preserving
 * subsequence that states what a filter keeps.
 */
module Seqs {

  /** `s.filter(p)`: the elements of `s` that satisfy `p`, in their original order. */
  function Filter<T(!new)>(p: T -> bool, s: seq<T>): (r: seq<T>)
    ensures |r| <= |s|
    ensures forall x :: x in r <==> x in s && p(x)
  {
    if s == [] then [] else (if p(s[0]) then [s[0]] else []) + Filter(p, s[1..])
  }

  /** `a` is obtained from `b` by deleting elements, keeping the order of the rest. */
  predicate IsSubsequence<T(==)>(a: seq<T>, b: seq<T>)
    decreases |b|
  {
    a == [] ||
    (b != [] && ((a[0] == b[0] && IsSubsequence(a[1..], b[1..])) || IsSubsequence(a, b[1..])))
  }

  /** The positions of `s` whose element satisfies `p`. */
  function IndicesWhere<T>(p: T -> bool, s: seq<T>): set<nat> {
    set i: nat | i < |s| && p(s[i])
  }

  /** Deleting elements never makes a sequence longer. */
  lemma {:induction false} SubsequenceLength<T>(a: seq<T>, b: seq<T>)
    requires IsSubsequence(a, b)
    ensures |a| <= |b|
    decreases |b|
  {
    if a != [] {
      if a[0] == b[0] && IsSubsequence(a[1..], b[1..]) {
        SubsequenceLength(a[1..], b[1..]);
      } else {
        SubsequenceLength(a, b[1..]);
      }
    }
  }

  /** A filter's result is an order-preserving subsequence of its input. */
  lemma {:induction false} FilterIsSubsequence<T(!new)>(p: T -> bool, s: seq<T>)
    ensures IsSubsequence(Filter(p, s), s)
  {
    if s != [] {
      FilterIsSubsequence(p, s[1..]);
      if p(s[0]) {
        assert Filter(p, s) == [s[0]] + Filter(p, s[1..]);
      } else {
        assert Filter(p, s) == Filter(p, s[1..]);
      }
    }
  }

  /** With a predicate that holds everywhere on `s`, the filter keeps all of `s`. */
  lemma {:induction false} FilterKeepsAll<T(!new)>(p: T -> bool, s: seq<T>)
    requires forall i :: 0 <= i < |s| ==> p(s[i])
    ensures Filter(p, s) == s
  {
    if s != [] {
      assert p(s[0]);
      FilterKeepsAll(p, s[1..]);
    }
  }

  /** With a predicate that fails everywhere on `s`, the filter keeps nothing. */
  lemma {:induction false} FilterDropsAll<T(!new)>(p: T -> bool, s: seq<T>)
    requires forall i :: 0 <= i < |s| ==> !p(s[i])
    ensures Filter(p, s) == []
  {
    if s != [] {
      assert !p(s[0]);
      FilterDropsAll(p, s[1..]);
    }
  }

  /** A stronger predicate keeps a subsequence of what a weaker one keeps. */
  lemma {:induction false} FilterMonotone<T(!new)>(strong: T -> bool, weak: T -> bool, s: seq<T>)
    requires forall x :: strong(x) ==> weak(x)
    ensures IsSubsequence(Filter(strong, s), Filter(weak, s))
  {
    if s != [] {
      FilterMonotone(strong, weak, s[1..]);
      var a, b := Filter(strong, s[1..]), Filter(weak, s[1..]);
      if strong(s[0]) {
        assert Filter(strong, s) == [s[0]] + a;
        assert Filter(weak, s) == [s[0]] + b;
      } else if weak(s[0]) {
        assert Filter(strong, s) == a;
        assert Filter(weak, s) == [s[0]] + b;
        assert ([s[0]] + b)[1..] == b;
      } else {
        assert Filter(strong, s) == a && Filter(weak, s) == b;
      }
    }
  }

  lemma {:induction false} FilterAppend<T(!new)>(p: T -> bool, a: seq<T>, b: seq<T>)
    ensures Filter(p, a + b) == Filter(p, a) + Filter(p, b)
  {
    if a == [] {
      assert a + b == b;
    } else {
      assert (a + b)[0] == a[0];
      assert (a + b)[1..] == a[1..] + b;
      FilterAppend(p, a[1..], b);
    }
  }

  lemma IndicesWhereSnoc<T>(p: T -> bool, init: seq<T>, last: T)
    ensures IndicesWhere(p, init + [last]) == IndicesWhere(p, init) + (if p(last) then {|init|} else {})
  {
    var s := init + [last];
    forall i: nat | i < |init| ensures s[i] == init[i] { }
  }

  /** The length of a filter is the number of positions whose element satisfies the predicate. */
  lemma {:induction false} FilterLengthCountsIndices<T(!new)>(p: T -> bool, s: seq<T>)
    ensures |Filter(p, s)| == |IndicesWhere(p, s)|
    decreases |s|
  {
    if s == [] {
      assert IndicesWhere(p, s) == {};
    } else {
      var init, last := s[..|s| - 1], s[|s| - 1];
      assert s == init + [last];
      FilterLengthCountsIndices(p, init);
      FilterAppend(p, init, [last]);
      assert Filter(p, [last]) == if p(last) then [last] else [];
      IndicesWhereSnoc(p, init, last);
      assert |init| !in IndicesWhere(p, init);
    }
  }

  /** Filtering by a predicate and by its negation splits the input between them. */
  lemma {:induction false} FilterComplementLength<T(!new)>(p: T -> bool, q: T -> bool, s: seq<T>)
    requires forall x :: q(x) == !p(x)
    ensures |Filter(p, s)| + |Filter(q, s)| == |s|
  {
    if s != [] { FilterComplementLength(p, q, s[1..]); }
  }
}
