/** The first-match lookup behind every table scan of the model, and facts about
    sequence concatenation that the trace proofs share. */
module Sequences {
  import opened Wrappers

  /** The position of the first element satisfying `p`, if any: what a scan that
      stops at the first match (`for ... if ...: break`, a dictionary lookup by
      key) finds. */
  function FirstMatch<T>(s: seq<T>, p: T -> bool): (r: Option<nat>)
    ensures r.Some? ==> r.value < |s| && p(s[r.value])
    ensures r.Some? ==> forall j :: 0 <= j < r.value ==> !p(s[j])
    ensures r.None? ==> forall j :: 0 <= j < |s| ==> !p(s[j])
  {
    if s == [] then None
    else if p(s[0]) then Some(0)
    else match FirstMatch(s[1..], p)
      case None => None
      case Some(k) => Some(k + 1)
  }
  /** A total that is `before`, then `c`, then `r` is what has been produced
      once `c` is added to `before`, followed by `r`. */
  lemma Regroup<T>(x: seq<T>, before: seq<T>, after: seq<T>, c: seq<T>, r: seq<T>)
    requires x == before + (c + r) && after == before + c
    ensures x == after + r
  {
    assert before + (c + r) == (before + c) + r;
  }

  /** Dropping the head of a prefix is taking a prefix of the tail. */
  lemma TailOfPrefix<T>(s: seq<T>, n: nat)
    requires 0 < n <= |s|
    ensures s[..n][1..] == s[1..][..n - 1]
  {
  }

  /** `a m b m r`, read as `a m` followed by the rest. */
  lemma Reassociate<T>(a: seq<T>, m: seq<T>, b: seq<T>, r: seq<T>)
    ensures a + m + b + m + r == a + m + (b + m + r)
  {
  }
}
