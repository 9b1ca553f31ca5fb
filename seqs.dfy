/** Sequence operations the pages use: JavaScript's `Array.prototype.find`,
    and the "subsequence in the same order" relation that `filter` establishes. */
module Seqs {
  import opened Wrappers

  /** `j` is the first position of `s` whose element satisfies `f`. */
  ghost predicate IsFirst<T>(s: seq<T>, f: T -> bool, j: int) {
    0 <= j < |s| && f(s[j]) && forall i :: 0 <= i < j ==> !f(s[i])
  }

  /** The position of the first element satisfying `f`, scanning from the front. */
  function FindIndex<T>(s: seq<T>, f: T -> bool): (r: Option<nat>)
    ensures r.None? <==> forall i :: 0 <= i < |s| ==> !f(s[i])
    ensures r.Some? ==> IsFirst(s, f, r.value)
  {
    if s == [] then None
    else if f(s[0]) then Some(0)
    else match FindIndex(s[1..], f)
      case None => None
      case Some(j) => Some(j + 1)
  }

  /** `Array.prototype.find`: the first element satisfying `f`, if any. */
  function Find<T>(s: seq<T>, f: T -> bool): (r: Option<T>)
    ensures r.None? <==> forall i :: 0 <= i < |s| ==> !f(s[i])
    ensures r.Some? ==> r.value in s && f(r.value)
    ensures forall j :: IsFirst(s, f, j) ==> r == Some(s[j])
  {
    match FindIndex(s, f)
    case None => None
    case Some(k) => Some(s[k])
  }

  /** `a` is obtained from `b` by deleting elements, keeping the order of the rest. */
  ghost predicate IsSubsequence<T>(a: seq<T>, b: seq<T>)
    decreases |b|
  {
    if a == [] then true
    else if b == [] then false
    else (a[0] == b[0] && IsSubsequence(a[1..], b[1..])) || IsSubsequence(a, b[1..])
  }
}
