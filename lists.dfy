/** Optional values and the array operations the listing pages use:
    `Array.prototype.filter`, and the "use the supplied list when it is
    non-empty, otherwise filter the full list by a flag" idiom shared by
    the saved listings, saved routes and joined groups views. */
module Lists {

  /** An optional property (`field?: T` in the source's interfaces). */
  datatype Option<+T> = None | Some(value: T)

  /** `a` is an order-preserving subsequence of `b`. */
  predicate IsSubsequence<T(==)>(a: seq<T>, b: seq<T>)
    decreases |b|
  {
    if a == [] then true
    else if b == [] then false
    else (a[0] == b[0] && IsSubsequence(a[1..], b[1..])) || IsSubsequence(a, b[1..])
  }

  /** `xs.filter(p)`: keeps, in order, exactly the elements satisfying `p`. */
  function Filter<T(==)>(xs: seq<T>, p: T -> bool): (r: seq<T>)
    ensures |r| <= |xs|
    ensures forall i :: 0 <= i < |r| ==> r[i] in xs && p(r[i])
    ensures forall i :: 0 <= i < |xs| && p(xs[i]) ==> xs[i] in r
    ensures IsSubsequence(r, xs)
  {
    if xs == [] then []
    else if p(xs[0]) then [xs[0]] + Filter(xs[1..], p)
    else Filter(xs[1..], p)
  }

  /** The number of elements of `xs` that satisfy `p`. */
  function Count<T>(xs: seq<T>, p: T -> bool): nat {
    if xs == [] then 0 else (if p(xs[0]) then 1 else 0) + Count(xs[1..], p)
  }

  /** Filtering keeps as many elements as satisfy the predicate, so no
      qualifying duplicate is dropped. */
  lemma {:induction false} FilterLength<T>(xs: seq<T>, p: T -> bool)
    ensures |Filter(xs, p)| == Count(xs, p)
  {
    if xs != [] {
      FilterLength(xs[1..], p);
    }
  }

  /** `supplied.length > 0 ? supplied : all.filter(flag)`. */
  function SavedView<T(==)>(supplied: seq<T>, all: seq<T>, flag: T -> bool): (r: seq<T>)
    ensures |supplied| > 0 ==> r == supplied
    ensures |supplied| == 0 ==>
      && IsSubsequence(r, all)
      && (forall i :: 0 <= i < |r| ==> flag(r[i]))
      && (forall i :: 0 <= i < |all| && flag(all[i]) ==> all[i] in r)
      && |r| == Count(all, flag)
  {
    FilterLength(all, flag);
    if |supplied| > 0 then supplied else Filter(all, flag)
  }
}
