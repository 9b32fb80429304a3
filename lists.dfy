/**
 * Sequences as the screens use JavaScript arrays: a stable filter
 * (`Array.prototype.filter`), the subsequence order it produces, and
 * duplicate-freedom for arrays used as sets.
 */
module Lists {

  /** The elements of `xs` that satisfy `keep`, in their original order. */
  function Filter<T>(xs: seq<T>, keep: T -> bool): (r: seq<T>)
    ensures |r| <= |xs|
    ensures forall i :: 0 <= i < |r| ==> r[i] in xs && keep(r[i])
    ensures forall i :: 0 <= i < |xs| && keep(xs[i]) ==> xs[i] in r
  {
    if xs == [] then []
    else
      var rest := Filter(xs[1..], keep);
      assert forall i :: 1 <= i < |xs| ==> xs[i] == xs[1..][i - 1];
      if keep(xs[0]) then [xs[0]] + rest else rest
  }

  /** `xs` can be obtained from `ys` by deleting elements, without reordering. */
  predicate IsSubsequence<T(==)>(xs: seq<T>, ys: seq<T>)
    decreases |ys|
  {
    if ys == [] then xs == []
    else
      (xs != [] && xs[0] == ys[0] && IsSubsequence(xs[1..], ys[1..]))
      || IsSubsequence(xs, ys[1..])
  }

  /** No element occurs twice. */
  predicate NoDuplicates<T(==)>(xs: seq<T>) {
    forall i, j :: 0 <= i < j < |xs| ==> xs[i] != xs[j]
  }

  /** The set of elements of a sequence. */
  function Elements<T>(xs: seq<T>): set<T> {
    set x | x in xs
  }

  /** A subsequence never holds an element more often than the sequence it came from. */
  lemma {:induction false} SubsequenceMultiset<T>(xs: seq<T>, ys: seq<T>)
    requires IsSubsequence(xs, ys)
    ensures multiset(xs) <= multiset(ys)
    ensures |xs| <= |ys|
    decreases |ys|
  {
    if ys == [] {
    } else if xs != [] && xs[0] == ys[0] && IsSubsequence(xs[1..], ys[1..]) {
      SubsequenceMultiset(xs[1..], ys[1..]);
      assert xs == [xs[0]] + xs[1..];
      assert ys == [ys[0]] + ys[1..];
    } else {
      SubsequenceMultiset(xs, ys[1..]);
      assert ys == [ys[0]] + ys[1..];
    }
  }

  /**
   * Keeping whatever a stronger test keeps: if every element that `strict`
   * accepts is also accepted by `loose`, the strict result is a subsequence
   * of the loose one (so in particular no longer).
   */
  lemma {:induction false} FilterMonotone<T>(xs: seq<T>, strict: T -> bool, loose: T -> bool)
    requires forall i :: 0 <= i < |xs| ==> strict(xs[i]) ==> loose(xs[i])
    ensures IsSubsequence(Filter(xs, strict), Filter(xs, loose))
    ensures |Filter(xs, strict)| <= |Filter(xs, loose)|
  {
    if xs != [] {
      assert forall i :: 0 <= i < |xs[1..]| ==> xs[1..][i] == xs[i + 1];
      FilterMonotone(xs[1..], strict, loose);
    }
    SubsequenceMultiset(Filter(xs, strict), Filter(xs, loose));
  }

  /** A filter keeps an order-preserving subsequence of its input. */
  lemma FilterIsSubsequence<T>(xs: seq<T>, keep: T -> bool)
    ensures IsSubsequence(Filter(xs, keep), xs)
  {
    FilterMonotone(xs, keep, _ => true);
    FilterKeepsAll(xs, _ => true);
  }

  /** A filter whose test accepts every element returns its input unchanged. */
  lemma {:induction false} FilterKeepsAll<T>(xs: seq<T>, keep: T -> bool)
    requires forall i :: 0 <= i < |xs| ==> keep(xs[i])
    ensures Filter(xs, keep) == xs
  {
    if xs != [] {
      assert forall i :: 0 <= i < |xs[1..]| ==> xs[1..][i] == xs[i + 1];
      FilterKeepsAll(xs[1..], keep);
    }
  }

  /** Two tests that agree on every element give the same result. */
  lemma {:induction false} FilterExtensional<T>(xs: seq<T>, p: T -> bool, q: T -> bool)
    requires forall i :: 0 <= i < |xs| ==> p(xs[i]) == q(xs[i])
    ensures Filter(xs, p) == Filter(xs, q)
  {
    if xs != [] {
      assert forall i :: 0 <= i < |xs[1..]| ==> xs[1..][i] == xs[i + 1];
      FilterExtensional(xs[1..], p, q);
    }
  }

  /**
   * A filter neither duplicates nor drops a kept element: each kept value
   * occurs exactly as often as in the input, each rejected value not at all.
   */
  lemma {:induction false} FilterMultiplicity<T>(xs: seq<T>, keep: T -> bool, x: T)
    ensures multiset(Filter(xs, keep))[x] == if keep(x) then multiset(xs)[x] else 0
  {
    if xs != [] {
      FilterMultiplicity(xs[1..], keep, x);
      assert xs == [xs[0]] + xs[1..];
    }
  }

  /** Filtering distributes over concatenation. */
  lemma {:induction false} FilterAppend<T>(xs: seq<T>, ys: seq<T>, keep: T -> bool)
    ensures Filter(xs + ys, keep) == Filter(xs, keep) + Filter(ys, keep)
  {
    if xs == [] {
      assert xs + ys == ys;
    } else {
      assert (xs + ys)[1..] == xs[1..] + ys;
      FilterAppend(xs[1..], ys, keep);
    }
  }

  /** Two tests that no element passes together keep, between them, at most the whole input. */
  lemma {:induction false} FilterDisjointCounts<T>(xs: seq<T>, p: T -> bool, q: T -> bool)
    requires forall i :: 0 <= i < |xs| ==> !(p(xs[i]) && q(xs[i]))
    ensures |Filter(xs, p)| + |Filter(xs, q)| <= |xs|
  {
    if xs != [] {
      assert forall i :: 0 <= i < |xs[1..]| ==> xs[1..][i] == xs[i + 1];
      FilterDisjointCounts(xs[1..], p, q);
    }
  }

  /** Filtering a duplicate-free sequence leaves it duplicate-free. */
  lemma FilterKeepsNoDuplicates<T>(xs: seq<T>, keep: T -> bool)
    requires NoDuplicates(xs)
    ensures NoDuplicates(Filter(xs, keep))
  {
    var r := Filter(xs, keep);
    forall x | x in r
      ensures multiset(r)[x] <= 1
    {
      FilterMultiplicity(xs, keep, x);
      NoDuplicatesMultiset(xs, x);
    }
    MultisetNoDuplicates(r);
  }

  lemma {:induction false} NoDuplicatesMultiset<T>(xs: seq<T>, x: T)
    requires NoDuplicates(xs)
    ensures multiset(xs)[x] <= 1
  {
    if xs != [] {
      assert xs == [xs[0]] + xs[1..];
      assert forall i :: 0 <= i < |xs[1..]| ==> xs[1..][i] == xs[i + 1];
      NoDuplicatesMultiset(xs[1..], x);
      if xs[0] == x {
        assert x !in xs[1..];
      }
    }
  }

  lemma {:induction false} MultisetNoDuplicates<T>(xs: seq<T>)
    requires forall x :: x in xs ==> multiset(xs)[x] <= 1
    ensures NoDuplicates(xs)
  {
    if xs != [] {
      assert xs == [xs[0]] + xs[1..];
      forall x | x in xs[1..]
        ensures multiset(xs[1..])[x] <= 1
      {
        assert multiset(xs)[x] == multiset([xs[0]])[x] + multiset(xs[1..])[x];
      }
      MultisetNoDuplicates(xs[1..]);
      assert xs[0] !in xs[1..] by {
        assert multiset(xs)[xs[0]] == 1 + multiset(xs[1..])[xs[0]];
      }
      forall i, j | 0 <= i < j < |xs|
        ensures xs[i] != xs[j]
      {
        if i == 0 {
          assert xs[j] == xs[1..][j - 1];
        } else {
          assert xs[i] == xs[1..][i - 1] && xs[j] == xs[1..][j - 1];
        }
      }
    }
  }
}
