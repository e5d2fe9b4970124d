/** Small shared vocabulary: an Option type and "the first element that
    satisfies a predicate", the shape behind every `or`-chain, `for ... break`
    and first-success-wins search of the fetcher. */
module Common {

  datatype Option<+T> = None | Some(value: T)

  /** Index of the first element of `s` that satisfies `p`, if there is one. */
  function FirstIndex<T>(s: seq<T>, p: T -> bool): (r: Option<nat>)
    ensures r.Some? ==> r.value < |s| && p(s[r.value])
    ensures r.Some? ==> forall j :: 0 <= j < r.value ==> !p(s[j])
    ensures r.None? <==> forall j :: 0 <= j < |s| ==> !p(s[j])
  {
    if |s| == 0 then None
    else if p(s[0]) then Some(0)
    else match FirstIndex(s[1..], p)
      case None => None
      case Some(k) => Some(k + 1)
  }

  /** The first index is determined by its two defining facts. */
  lemma FirstIndexIs<T>(s: seq<T>, p: T -> bool, k: nat)
    requires k < |s| && p(s[k])
    requires forall j :: 0 <= j < k ==> !p(s[j])
    ensures FirstIndex(s, p) == Some(k)
  {
  }

  /** Appending a block leaves the earlier slices alone and puts the block
      at the end. */
  lemma SliceOfAppend<T>(prefix: seq<T>, last: seq<T>, lo: nat, hi: nat)
    requires lo <= hi <= |prefix|
    ensures (prefix + last)[lo..hi] == prefix[lo..hi]
    ensures (prefix + last)[|prefix|..|prefix| + |last|] == last
  {
  }
}
