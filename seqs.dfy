/**
 * Sequence selection: the model of a collection query `find({...})` or of
 * `Array.prototype.filter`, which keep the matching elements in stored order.
 */
module Seqs {

  /** `a` can be obtained from `b` by deleting elements; order is kept. */
  ghost predicate IsSubsequence<T>(a: seq<T>, b: seq<T>)
    decreases |b|
  {
    if a == [] then true
    else if b == [] then false
    else (a[0] == b[0] && IsSubsequence(a[1..], b[1..])) || IsSubsequence(a, b[1..])
  }

  /** Number of elements of `s` that satisfy `p`. */
  function CountWhere<T>(s: seq<T>, p: T -> bool): (n: nat)
    ensures n <= |s|
  {
    if s == [] then 0 else (if p(s[0]) then 1 else 0) + CountWhere(s[1..], p)
  }

  /**
   * `r` is exactly the selection of `s` by `p`: an order-preserving
   * subsequence of `s` whose every element satisfies `p` and which has as
   * many elements as `s` has matching ones. SelectsUnique shows that these
   * three facts determine `r`.
   */
  ghost predicate Selects<T>(r: seq<T>, s: seq<T>, p: T -> bool) {
    && IsSubsequence(r, s)
    && (forall i :: 0 <= i < |r| ==> p(r[i]))
    && |r| == CountWhere(s, p)
  }

  /** The elements of `s` that satisfy `p`, in the order of `s`. */
  function Filter<T>(s: seq<T>, p: T -> bool): (r: seq<T>)
    ensures Selects(r, s, p)
    ensures forall i :: 0 <= i < |r| ==> r[i] in s
    ensures forall i :: 0 <= i < |s| && p(s[i]) ==> s[i] in r
  {
    if s == [] then []
    else if p(s[0]) then [s[0]] + Filter(s[1..], p)
    else Filter(s[1..], p)
  }

  lemma {:induction false} SubsequenceSkip<T>(a: seq<T>, b: seq<T>)
    requires b != [] && IsSubsequence(a, b[1..])
    ensures IsSubsequence(a, b)
  {
  }

  /** A subsequence of `s` made of `p`-elements has at most CountWhere(s, p) of them. */
  lemma {:induction false} SubsequenceCountBound<T>(r: seq<T>, s: seq<T>, p: T -> bool)
    requires IsSubsequence(r, s)
    requires forall i :: 0 <= i < |r| ==> p(r[i])
    ensures |r| <= CountWhere(s, p)
    decreases |s|
  {
    if r != [] {
      if r[0] == s[0] && IsSubsequence(r[1..], s[1..]) {
        SubsequenceCountBound(r[1..], s[1..], p);
      } else {
        SubsequenceCountBound(r, s[1..], p);
      }
    }
  }

  /** The selection of `s` by `p` is unique, hence equal to Filter(s, p). */
  lemma {:induction false} SelectsUnique<T>(r: seq<T>, s: seq<T>, p: T -> bool)
    requires Selects(r, s, p)
    ensures r == Filter(s, p)
    decreases |s|
  {
    if s == [] {
    } else if r == [] {
      assert CountWhere(s, p) == 0;
      CountZeroFilterEmpty(s, p);
    } else if p(s[0]) {
      if r[0] == s[0] && IsSubsequence(r[1..], s[1..]) {
        SelectsUnique(r[1..], s[1..], p);
      } else {
        SubsequenceCountBound(r, s[1..], p);
        assert false;
      }
    } else {
      assert r[0] != s[0];
      SelectsUnique(r, s[1..], p);
    }
  }

  lemma CountZeroFilterEmpty<T>(s: seq<T>, p: T -> bool)
    requires CountWhere(s, p) == 0
    ensures Filter(s, p) == []
  {
  }

  /** Selecting twice by the same predicate selects nothing more. */
  lemma {:induction false} FilterIdempotent<T>(s: seq<T>, p: T -> bool)
    ensures Filter(Filter(s, p), p) == Filter(s, p)
  {
    var r := Filter(s, p);
    FilterAll(r, p);
  }

  /** When every element matches, selection keeps the whole sequence. */
  lemma {:induction false} FilterAll<T>(s: seq<T>, p: T -> bool)
    requires forall i :: 0 <= i < |s| ==> p(s[i])
    ensures Filter(s, p) == s
  {
    if s != [] {
      FilterAll(s[1..], p);
    }
  }

  /** A selection is a subsequence of its source and no longer than it. */
  lemma {:induction false} SubsequenceLength<T>(a: seq<T>, b: seq<T>)
    requires IsSubsequence(a, b)
    ensures |a| <= |b|
    decreases |b|
  {
    if a != [] {
      if a[0] == b[0] && IsSubsequence(a[1..], b[1..]) {
        SubsequenceLength(a[1..], b[1..]);
      } else {
        SubsequenceLength(a, b[1..]);
      }
    }
  }

  /** Applies `f` to every element. */
  function Map<T, U>(s: seq<T>, f: T -> U): (r: seq<U>)
    ensures |r| == |s|
    ensures forall i :: 0 <= i < |s| ==> r[i] == f(s[i])
  {
    if s == [] then [] else [f(s[0])] + Map(s[1..], f)
  }

  /**
   * Projecting and then selecting equals selecting and then projecting, when
   * the predicate only looks at what the projection keeps.
   */
  lemma {:induction false} MapFilterCommute<T, U>(s: seq<T>, f: T -> U, p: T -> bool, q: U -> bool)
    requires forall x :: p(x) == q(f(x))
    ensures Map(Filter(s, p), f) == Filter(Map(s, f), q)
  {
    if s != [] {
      MapFilterCommute(s[1..], f, p, q);
      assert Map(s, f)[1..] == Map(s[1..], f);
    }
  }

  /** Every element of a subsequence is an element of the sequence. */
  lemma {:induction false} SubsequenceElements<T>(a: seq<T>, b: seq<T>)
    requires IsSubsequence(a, b)
    ensures forall i :: 0 <= i < |a| ==> a[i] in b
    decreases |b|
  {
    if a != [] {
      if a[0] == b[0] && IsSubsequence(a[1..], b[1..]) {
        SubsequenceElements(a[1..], b[1..]);
        forall i | 0 <= i < |a| ensures a[i] in b {
          if i > 0 {
            assert a[i] == a[1..][i - 1];
          }
        }
      } else {
        SubsequenceElements(a, b[1..]);
        forall i | 0 <= i < |a| ensures a[i] in b {
          assert a[i] in b[1..];
        }
      }
    }
  }

  /** Counting only looks at the elements of the sequence. */
  lemma {:induction false} CountWhereExt<T>(s: seq<T>, p: T -> bool, q: T -> bool)
    requires forall i :: 0 <= i < |s| ==> p(s[i]) == q(s[i])
    ensures CountWhere(s, p) == CountWhere(s, q)
  {
    if s != [] {
      CountWhereExt(s[1..], p, q);
    }
  }

  /** Two predicates that agree on the elements of `s` select the same elements. */
  lemma SelectsExt<T>(r: seq<T>, s: seq<T>, p: T -> bool, q: T -> bool)
    requires Selects(r, s, p)
    requires forall i :: 0 <= i < |s| ==> p(s[i]) == q(s[i])
    ensures Selects(r, s, q)
  {
    SubsequenceElements(r, s);
    CountWhereExt(s, p, q);
    forall i | 0 <= i < |r| ensures q(r[i]) {
      var j :| 0 <= j < |s| && s[j] == r[i];
    }
  }

  /** Undoing a projection elementwise gives back the original sequence. */
  lemma MapInverse<T, U>(s: seq<T>, f: T -> U, g: U -> T)
    requires forall i :: 0 <= i < |s| ==> g(f(s[i])) == s[i]
    ensures Map(Map(s, f), g) == s
  {
  }
}
