/** Order-preserving filtering of a sequence by a test on its elements, and
    the facts about it that the file-list filter relies on. */
module Filtering {

  /** `a` can be obtained from `b` by deleting elements, keeping the order
      (decided by matching each element of `a` at its earliest place in `b`). */
  predicate IsSubsequence<T(==)>(a: seq<T>, b: seq<T>)
    decreases |b|
  {
    if |a| == 0 then true
    else if |b| == 0 then false
    else if a[0] == b[0] then IsSubsequence(a[1..], b[1..])
    else IsSubsequence(a, b[1..])
  }

  /** A subsequence never holds an element more often than its source. */
  lemma {:induction false} SubsequenceMultiset<T>(a: seq<T>, b: seq<T>)
    requires IsSubsequence(a, b)
    ensures multiset(a) <= multiset(b)
    decreases |b|
  {
    if |a| > 0 {
      assert b == [b[0]] + b[1..];
      if a[0] == b[0] {
        SubsequenceMultiset(a[1..], b[1..]);
        assert a == [a[0]] + a[1..];
      } else {
        SubsequenceMultiset(a, b[1..]);
      }
    }
  }

  /** Every sequence is a subsequence of itself. */
  lemma {:induction false} SubsequenceReflexive<T>(a: seq<T>)
    ensures IsSubsequence(a, a)
    decreases |a|
  {
    if |a| > 0 {
      SubsequenceReflexive(a[1..]);
    }
  }

  /** The elements of `xs` that pass `keep`, in their order: a subsequence of
      passing elements (that it keeps every passing occurrence is
      `FilterCounts`). */
  function Filter<T(==,!new)>(xs: seq<T>, keep: T -> bool): (r: seq<T>)
    ensures IsSubsequence(r, xs)
    ensures forall i :: 0 <= i < |r| ==> keep(r[i])
  {
    if |xs| == 0 then []
    else
      var rest := Filter(xs[1..], keep);
      if keep(xs[0]) then
        assert ([xs[0]] + rest)[1..] == rest;
        [xs[0]] + rest
      else rest
  }

  /** The filter keeps every occurrence of a passing element. */
  lemma {:induction false} FilterCounts<T(!new)>(xs: seq<T>, keep: T -> bool)
    ensures forall x :: keep(x) ==> multiset(Filter(xs, keep))[x] == multiset(xs)[x]
    decreases |xs|
  {
    if |xs| > 0 {
      FilterCounts(xs[1..], keep);
      assert xs == [xs[0]] + xs[1..];
      FilterUnroll(xs, keep);
    }
  }

  /** An element survives filtering exactly when it occurs and passes. */
  lemma FilterMembership<T(!new)>(xs: seq<T>, keep: T -> bool, x: T)
    ensures x in Filter(xs, keep) <==> x in xs && keep(x)
  {
    var r := Filter(xs, keep);
    FilterCounts(xs, keep);
    if x in r {
      var i :| 0 <= i < |r| && r[i] == x;
      assert multiset(r)[x] > 0;
    }
    if x in xs && keep(x) {
      assert multiset(xs)[x] > 0;
    }
  }

  /** A subsequence of a sequence's tail holds its first element fewer times. */
  lemma MissesHead<T>(xs: seq<T>, r: seq<T>)
    requires |xs| > 0 && IsSubsequence(r, xs[1..])
    ensures multiset(r)[xs[0]] < multiset(xs)[xs[0]]
  {
    SubsequenceMultiset(r, xs[1..]);
    assert xs == [xs[0]] + xs[1..];
  }

  /** The contract of `Filter` determines it: any subsequence of passing
      elements that keeps each passing element's multiplicity is the filter. */
  lemma {:induction false} FilterUnique<T(!new)>(xs: seq<T>, keep: T -> bool, r: seq<T>)
    requires IsSubsequence(r, xs)
    requires forall i :: 0 <= i < |r| ==> keep(r[i])
    requires forall x :: keep(x) ==> multiset(r)[x] == multiset(xs)[x]
    ensures r == Filter(xs, keep)
    decreases |xs|
  {
    if |xs| > 0 {
      var x := xs[0];
      assert xs == [x] + xs[1..];
      if keep(x) {
        assert multiset(r)[x] > 0;
        if r[0] == x {
          assert r == [x] + r[1..];
          forall y | keep(y)
            ensures multiset(r[1..])[y] == multiset(xs[1..])[y]
          {
            assert multiset(r)[y] == multiset([x])[y] + multiset(r[1..])[y];
            assert multiset(xs)[y] == multiset([x])[y] + multiset(xs[1..])[y];
          }
          FilterUnique(xs[1..], keep, r[1..]);
        } else {
          MissesHead(xs, r);
          assert false;
        }
      } else {
        forall y | keep(y)
          ensures multiset(r)[y] == multiset(xs[1..])[y]
        {
          assert multiset(xs)[y] == multiset([x])[y] + multiset(xs[1..])[y];
        }
        FilterUnique(xs[1..], keep, r);
      }
    }
  }

  /** Filtering distributes over concatenation. */
  lemma {:induction false} FilterConcat<T(!new)>(a: seq<T>, b: seq<T>, keep: T -> bool)
    ensures Filter(a + b, keep) == Filter(a, keep) + Filter(b, keep)
    decreases |a|
  {
    if |a| > 0 {
      assert (a + b)[0] == a[0];
      assert (a + b)[1..] == a[1..] + b;
      FilterConcat(a[1..], b, keep);
    } else {
      assert a + b == b;
    }
  }

  /** Filtering twice is filtering once. */
  lemma FilterIdempotent<T(!new)>(xs: seq<T>, keep: T -> bool)
    ensures Filter(Filter(xs, keep), keep) == Filter(xs, keep)
  {
    var r := Filter(xs, keep);
    SubsequenceReflexive(r);
    FilterUnique(r, keep, r);
  }

  /** Of three elements whose middle one fails the test, the outer two remain. */
  lemma FilterDropsMiddle<T(!new)>(a: T, b: T, c: T, keep: T -> bool)
    requires keep(a) && !keep(b) && keep(c)
    ensures Filter([a, b, c], keep) == [a, c]
  {
    assert [a, b, c][1..] == [b, c];
    assert [b, c][1..] == [c];
    assert [c][1..] == [];
    assert Filter([c], keep) == [c] + Filter([], keep);
    assert Filter([b, c], keep) == [c];
    assert Filter([a, b, c], keep) == [a] + [c];
  }

  /** Three elements that all pass are all kept. */
  lemma FilterKeepsThree<T(!new)>(a: T, b: T, c: T, keep: T -> bool)
    requires keep(a) && keep(b) && keep(c)
    ensures Filter([a, b, c], keep) == [a, b, c]
  {
    assert [a, b, c][1..] == [b, c];
    assert [b, c][1..] == [c];
    assert [c][1..] == [];
    FilterUnroll([c], keep);
    FilterUnroll([b, c], keep);
    FilterUnroll([a, b, c], keep);
  }

  /** A sequence whose every element passes is its own filter. */
  lemma FilterKeepsAll<T(!new)>(xs: seq<T>, keep: T -> bool)
    requires forall i :: 0 <= i < |xs| ==> keep(xs[i])
    ensures Filter(xs, keep) == xs
  {
    SubsequenceReflexive(xs);
    FilterUnique(xs, keep, xs);
  }

  /** The filter unrolled by one element. */
  lemma FilterUnroll<T(!new)>(xs: seq<T>, keep: T -> bool)
    requires |xs| > 0
    ensures Filter(xs, keep) == (if keep(xs[0]) then [xs[0]] else []) + Filter(xs[1..], keep)
  {
  }
}
