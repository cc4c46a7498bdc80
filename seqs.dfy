/**
 * Sequence helpers shared by the catalogue queries: JavaScript's `Array.prototype.filter`
 * and `slice(0, n)`, and the notions used to specify them (subsequence, no duplicates).
 */
module Seqs {

  /** `r` can be obtained from `xs` by deleting elements, keeping the order of the rest. */
  predicate IsSubsequence<T(==)>(r: seq<T>, xs: seq<T>)
    decreases |xs|
  {
    if r == [] then true
    else if xs == [] then false
    else if r[0] == xs[0] then IsSubsequence(r[1..], xs[1..])
    else IsSubsequence(r, xs[1..])
  }

  /** No element occurs twice. */
  predicate NoDuplicates<T(==)>(xs: seq<T>) {
    forall i, j :: 0 <= i < j < |xs| ==> xs[i] != xs[j]
  }

  /**
   * `xs.filter(p)`: the elements that satisfy `p`, in their original order, each as often
   * as it occurs in `xs`.
   */
  function Filter<T(==,!new)>(xs: seq<T>, p: T -> bool): (r: seq<T>)
    ensures forall x :: x in r <==> x in xs && p(x)
    ensures forall x :: multiset(r)[x] == if p(x) then multiset(xs)[x] else 0
    ensures IsSubsequence(r, xs)
    ensures |r| <= |xs|
  {
    if xs == [] then []
    else
      var rest := Filter(xs[1..], p);
      assert xs == [xs[0]] + xs[1..];
      if p(xs[0]) then [xs[0]] + rest else rest
  }

  /**
   * `r` is `xs` filtered by `p`: exactly the elements satisfying `p`, each as often as in
   * `xs`, in the order of `xs`.
   */
  ghost predicate SelectionOf<T(!new)>(r: seq<T>, xs: seq<T>, p: T -> bool) {
    (forall x :: x in r <==> x in xs && p(x))
    && (forall x :: p(x) ==> multiset(r)[x] == multiset(xs)[x])
    && IsSubsequence(r, xs)
  }

  /** Filtering a selection by `q` selects by `p` and `q` together. */
  lemma FilterRefines<T(!new)>(xs: seq<T>, mid: seq<T>, p: T -> bool, q: T -> bool, pq: T -> bool)
    requires SelectionOf(mid, xs, p)
    requires forall x :: pq(x) <==> p(x) && q(x)
    ensures SelectionOf(Filter(mid, q), xs, pq)
  {
    SubsequenceTransitive(Filter(mid, q), mid, xs);
  }

  /** A selection by `p` is a selection by any equivalent predicate. */
  lemma SelectionEquivalent<T(!new)>(r: seq<T>, xs: seq<T>, p: T -> bool, p': T -> bool)
    requires SelectionOf(r, xs, p)
    requires forall x :: p'(x) <==> p(x)
    ensures SelectionOf(r, xs, p')
  {
  }

  /** A filter whose predicate holds of every element returns its input unchanged. */
  lemma {:induction false} FilterKeepsAll<T(!new)>(xs: seq<T>, p: T -> bool)
    requires forall x :: x in xs ==> p(x)
    ensures Filter(xs, p) == xs
  {
    if xs != [] {
      FilterKeepsAll(xs[1..], p);
    }
  }

  /** A subsequence is never longer than the sequence it is taken from. */
  lemma {:induction false} SubsequenceLength<T>(r: seq<T>, xs: seq<T>)
    requires IsSubsequence(r, xs)
    ensures |r| <= |xs|
    ensures forall x :: x in r ==> x in xs
    decreases |xs|
  {
    if r != [] {
      assert xs != [];
      if r[0] == xs[0] {
        SubsequenceLength(r[1..], xs[1..]);
        assert r == [r[0]] + r[1..];
        assert xs == [xs[0]] + xs[1..];
      } else {
        SubsequenceLength(r, xs[1..]);
      }
    }
  }

  /** Dropping the first element of a subsequence leaves a subsequence. */
  lemma {:induction false} SubsequenceTail<T>(r: seq<T>, xs: seq<T>)
    requires r != [] && IsSubsequence(r, xs)
    ensures IsSubsequence(r[1..], xs)
    decreases |xs|, 1
  {
    assert xs != [];
    if r[0] == xs[0] {
      if r[1..] != [] {
        SubsequenceTail(r[1..], xs[1..]);
        SubsequenceSkip(r[1..], xs);
      }
    } else {
      SubsequenceTail(r, xs[1..]);
      if r[1..] != [] {
        SubsequenceSkip(r[1..], xs);
      }
    }
  }

  /** A subsequence of the tail of `xs` is a subsequence of `xs`. */
  lemma {:induction false} SubsequenceSkip<T>(r: seq<T>, xs: seq<T>)
    requires xs != [] && IsSubsequence(r, xs[1..])
    ensures IsSubsequence(r, xs)
    decreases |xs|, 0
  {
    if r != [] && r[0] == xs[0] {
      SubsequenceTail(r, xs[1..]);
    }
  }

  /** Being a subsequence is transitive: filtering a filtered list keeps catalogue order. */
  lemma {:induction false} SubsequenceTransitive<T>(a: seq<T>, b: seq<T>, c: seq<T>)
    requires IsSubsequence(a, b) && IsSubsequence(b, c)
    ensures IsSubsequence(a, c)
    decreases |c|
  {
    if a == [] {
    } else if b == [] {
    } else {
      assert c != [];
      if b[0] == c[0] {
        if a[0] == b[0] {
          SubsequenceTransitive(a[1..], b[1..], c[1..]);
        } else {
          SubsequenceTransitive(a, b[1..], c[1..]);
        }
      } else {
        SubsequenceTransitive(a, b, c[1..]);
        if a[0] == c[0] {
          SubsequenceTail(a, c[1..]);
        }
      }
    }
  }

  /** Every sequence is a subsequence of itself. */
  lemma {:induction false} SubsequenceReflexive<T>(xs: seq<T>)
    ensures IsSubsequence(xs, xs)
  {
    if xs != [] {
      SubsequenceReflexive(xs[1..]);
    }
  }

  /** A subsequence of a duplicate-free sequence is duplicate-free. */
  lemma {:induction false} SubsequenceNoDuplicates<T>(r: seq<T>, xs: seq<T>)
    requires IsSubsequence(r, xs) && NoDuplicates(xs)
    ensures NoDuplicates(r)
    decreases |xs|
  {
    if r != [] {
      assert xs != [];
      assert NoDuplicates(xs[1..]) by {
        forall i, j | 0 <= i < j < |xs[1..]| ensures xs[1..][i] != xs[1..][j] {
          assert xs[1..][i] == xs[i + 1] && xs[1..][j] == xs[j + 1];
        }
      }
      if r[0] == xs[0] {
        SubsequenceNoDuplicates(r[1..], xs[1..]);
        SubsequenceLength(r[1..], xs[1..]);
        assert xs[0] !in xs[1..] by {
          forall j | 0 <= j < |xs[1..]| ensures xs[1..][j] != xs[0] {
            assert xs[1..][j] == xs[j + 1];
          }
        }
        forall i, j | 0 <= i < j < |r| ensures r[i] != r[j] {
          if i == 0 {
            assert r[j] == r[1..][j - 1];
            assert r[j] in r[1..];
          } else {
            assert r[i] == r[1..][i - 1] && r[j] == r[1..][j - 1];
          }
        }
      } else {
        SubsequenceNoDuplicates(r, xs[1..]);
      }
    }
  }

  /** Appending an element that does not yet occur keeps a sequence duplicate-free. */
  lemma AppendFreshNoDuplicates<T>(xs: seq<T>, x: T)
    requires NoDuplicates(xs) && x !in xs
    ensures NoDuplicates(xs + [x])
  {
    forall i, j | 0 <= i < j < |xs + [x]| ensures (xs + [x])[i] != (xs + [x])[j] {
      if j == |xs| {
        assert (xs + [x])[i] == xs[i];
      }
    }
  }

  /** `xs.slice(0, end)` with JavaScript's rules: a negative end counts back from the length. */
  function SliceEnd(len: nat, end: int): (e: nat)
    ensures e <= len
    ensures 0 <= end <= len ==> e == end
    ensures end >= len ==> e == len
    ensures end < 0 && len + end >= 0 ==> e == len + end
    ensures len + end < 0 ==> e == 0
  {
    if end < 0 then (if len + end > 0 then len + end else 0)
    else if end < len then end
    else len
  }
}
