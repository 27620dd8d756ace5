/**
 * Generic list combinators used by the service and the batch views:
 * Array.prototype.filter, order-preserving subsequences, and flattening.
 */
module Seqs {

  /** Array.prototype.filter: the elements of `s` satisfying `p`, in order. */
  function Filter<T(==)>(s: seq<T>, p: T -> bool): (r: seq<T>)
    ensures |r| <= |s|
    ensures forall i :: 0 <= i < |r| ==> p(r[i]) && r[i] in s
    ensures forall i :: 0 <= i < |s| && p(s[i]) ==> s[i] in r
  {
    if s == [] then []
    else if p(s[0]) then [s[0]] + Filter(s[1..], p)
    else Filter(s[1..], p)
  }

  /** `a` is obtained from `b` by deleting elements, keeping the order of the rest. */
  predicate IsSubsequence<T(==)>(a: seq<T>, b: seq<T>)
    decreases |b|
  {
    if a == [] then true
    else if b == [] then false
    else (a[0] == b[0] && IsSubsequence(a[1..], b[1..])) || IsSubsequence(a, b[1..])
  }

  /** A filter result is a subsequence of its input. */
  lemma {:induction false} FilterIsSubsequence<T>(s: seq<T>, p: T -> bool)
    ensures IsSubsequence(Filter(s, p), s)
  {
    if s != [] {
      FilterIsSubsequence(s[1..], p);
      if p(s[0]) {
        assert Filter(s, p)[1..] == Filter(s[1..], p);
      } else if Filter(s, p) != [] {
        assert Filter(s, p) == Filter(s[1..], p);
      }
    }
  }

  /** Filtering a second time with the same predicate changes nothing. */
  lemma {:induction false} FilterIdempotent<T>(s: seq<T>, p: T -> bool)
    ensures Filter(Filter(s, p), p) == Filter(s, p)
  {
    if s != [] {
      FilterIdempotent(s[1..], p);
      if p(s[0]) {
        var r := Filter(s, p);
        assert r[0] == s[0] && r[1..] == Filter(s[1..], p);
      }
    }
  }

  /** The filter keeps nothing when no element passes. */
  lemma {:induction false} FilterNonePass<T>(s: seq<T>, p: T -> bool)
    requires forall i :: 0 <= i < |s| ==> !p(s[i])
    ensures Filter(s, p) == []
  {
    if s != [] {
      assert forall i :: 0 <= i < |s[1..]| ==> s[1..][i] == s[i + 1];
      FilterNonePass(s[1..], p);
    }
  }

  /** Every element of `s` passes `p`. */
  predicate AllPass<T>(s: seq<T>, p: T -> bool) {
    forall i :: 0 <= i < |s| ==> p(s[i])
  }

  /** A non-empty list passes exactly when its head and its tail pass. */
  lemma AllPassCons<T>(s: seq<T>, p: T -> bool)
    requires s != []
    ensures AllPass(s, p) <==> p(s[0]) && AllPass(s[1..], p)
  {
    if p(s[0]) && AllPass(s[1..], p) {
      forall i | 0 < i < |s| ensures p(s[i]) {
        assert s[i] == s[1..][i - 1];
      }
    }
    if AllPass(s, p) {
      forall j | 0 <= j < |s[1..]| ensures p(s[1..][j]) {
        assert s[1..][j] == s[j + 1];
      }
    }
  }

  /** The filter keeps the whole input exactly when every element passes. */
  lemma {:induction false} FilterKeepsAllIff<T>(s: seq<T>, p: T -> bool)
    ensures |Filter(s, p)| == |s| <==> AllPass(s, p)
    ensures AllPass(s, p) ==> Filter(s, p) == s
  {
    if s != [] {
      var rest := s[1..];
      FilterKeepsAllIff(rest, p);
      AllPassCons(s, p);
      if p(s[0]) {
        assert Filter(s, p) == [s[0]] + Filter(rest, p);
        assert s == [s[0]] + rest;
      } else {
        assert Filter(s, p) == Filter(rest, p);
      }
    }
  }

  /** The total number of elements in a list of lists. */
  function TotalCount<T>(ss: seq<seq<T>>): nat {
    if ss == [] then 0 else |ss[0]| + TotalCount(ss[1..])
  }

  /** Array.prototype.flat on a list of lists: the inner lists concatenated in order. */
  function Flatten<T>(ss: seq<seq<T>>): (r: seq<T>)
    ensures |r| == TotalCount(ss)
  {
    if ss == [] then [] else ss[0] + Flatten(ss[1..])
  }

  /** Flattening distributes over appending one more inner list. */
  lemma {:induction false} FlattenSnoc<T>(ss: seq<seq<T>>, last: seq<T>)
    ensures Flatten(ss + [last]) == Flatten(ss) + last
  {
    if ss == [] {
      assert [] + [last] == [last];
    } else {
      assert (ss + [last])[1..] == ss[1..] + [last];
      FlattenSnoc(ss[1..], last);
    }
  }
}
