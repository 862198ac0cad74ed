/**
 * JavaScript's `Array.prototype.filter` and `Array.prototype.map`, as the
 * cart, the seller order list and the seller product list use them.
 */
module Seqs {

  /** `s.filter(keep)`: the elements that satisfy `keep`, in their original order. */
  function Filter<T>(s: seq<T>, keep: T -> bool): (r: seq<T>)
    ensures |r| <= |s|
    ensures forall i :: 0 <= i < |r| ==> r[i] in s && keep(r[i])
    ensures forall i :: 0 <= i < |s| && keep(s[i]) ==> s[i] in r
  {
    if s == [] then []
    else (if keep(s[0]) then [s[0]] else []) + Filter(s[1..], keep)
  }

  /** `s.map(f)`: one result per element, position by position. */
  function Map<T, U>(s: seq<T>, f: T -> U): (r: seq<U>)
    ensures |r| == |s|
    ensures forall i :: 0 <= i < |s| ==> r[i] == f(s[i])
  {
    if s == [] then [] else [f(s[0])] + Map(s[1..], f)
  }

  /** Filtering a concatenation filters each part and keeps the parts in order. */
  lemma {:induction false} FilterConcat<T>(a: seq<T>, b: seq<T>, keep: T -> bool)
    ensures Filter(a + b, keep) == Filter(a, keep) + Filter(b, keep)
  {
    if a == [] {
      assert a + b == b;
    } else {
      assert (a + b)[1..] == a[1..] + b;
      FilterConcat(a[1..], b, keep);
    }
  }

  /** When every element is kept, filtering changes nothing. */
  lemma {:induction false} FilterKeepsAll<T>(s: seq<T>, keep: T -> bool)
    requires forall i :: 0 <= i < |s| ==> keep(s[i])
    ensures Filter(s, keep) == s
  {
    if s != [] {
      FilterKeepsAll(s[1..], keep);
    }
  }

  /** When no element is kept, filtering gives the empty list. */
  lemma {:induction false} FilterDropsAll<T>(s: seq<T>, keep: T -> bool)
    requires forall i :: 0 <= i < |s| ==> !keep(s[i])
    ensures Filter(s, keep) == []
  {
    if s != [] {
      FilterDropsAll(s[1..], keep);
    }
  }

  /** A sequence is its prefix, the element at `k` and its suffix. */
  lemma SplitAround<T>(s: seq<T>, k: int)
    requires 0 <= k < |s|
    ensures s == s[..k] + [s[k]] + s[k + 1..]
  {
  }

  /** Updating position `k` puts the new element between the same prefix and suffix. */
  lemma ReplaceAround<T>(s: seq<T>, k: int, x: T)
    requires 0 <= k < |s|
    ensures s[k := x] == s[..k] + [x] + s[k + 1..]
  {
  }

  /** Filtering out the one dropped element between two kept runs joins the runs. */
  lemma {:induction false} FilterOutOne<T>(pre: seq<T>, x: T, post: seq<T>, keep: T -> bool)
    requires forall i :: 0 <= i < |pre| ==> keep(pre[i])
    requires forall i :: 0 <= i < |post| ==> keep(post[i])
    requires !keep(x)
    ensures Filter(pre + [x] + post, keep) == pre + post
  {
    if pre == [] {
      assert pre + [x] + post == [x] + post;
      assert ([x] + post)[1..] == post;
      FilterKeepsAll(post, keep);
    } else {
      var s := pre + [x] + post;
      assert s[0] == pre[0] && s[1..] == pre[1..] + [x] + post;
      FilterOutOne(pre[1..], x, post, keep);
      assert pre + post == [pre[0]] + (pre[1..] + post);
    }
  }

  /** Filtering twice with the same test is filtering once. */
  lemma {:induction false} FilterIdempotent<T>(s: seq<T>, keep: T -> bool)
    ensures Filter(Filter(s, keep), keep) == Filter(s, keep)
  {
    var r := Filter(s, keep);
    FilterKeepsAll(r, keep);
  }
}
