/** Small shared vocabulary: an optional value and the first-match search
    that `Array.prototype.find` performs in the modelled TypeScript. */
module Common {

  /** `T | undefined` / `T | null` of the source. */
  datatype Option<+T> = None | Some(value: T)

  /** The index of the first element of `s` satisfying `p`, scanning in list
      order, or `None` when no element does. */
  function FirstIndex<T>(s: seq<T>, p: T -> bool): (r: Option<nat>)
    ensures r.Some? ==> r.value < |s| && p(s[r.value])
    ensures r.Some? ==> forall j :: 0 <= j < r.value ==> !p(s[j])
    ensures r.None? <==> forall j :: 0 <= j < |s| ==> !p(s[j])
  {
    if |s| == 0 then None
    else if p(s[0]) then Some(0)
    else
      match FirstIndex(s[1..], p)
      case None => None
      case Some(k) => Some(k + 1)
  }

  /** The first element satisfying `p`: `s.find(p)`. */
  function Find<T>(s: seq<T>, p: T -> bool): (r: Option<T>)
    ensures r.Some? ==> r.value in s && p(r.value)
    ensures r.None? <==> forall j :: 0 <= j < |s| ==> !p(s[j])
  {
    match FirstIndex(s, p)
    case None => None
    case Some(i) => Some(s[i])
  }

  /** Searches with predicates that agree on every element find the same index. */
  lemma {:induction false} FirstIndexCongruent<T>(s: seq<T>, p: T -> bool, q: T -> bool)
    requires forall j :: 0 <= j < |s| ==> p(s[j]) == q(s[j])
    ensures FirstIndex(s, p) == FirstIndex(s, q)
  {
    if |s| > 0 && !p(s[0]) {
      FirstIndexCongruent(s[1..], p, q);
    }
  }

  /** An element that satisfies `p` with no earlier element satisfying it is
      the one the search finds. */
  lemma FirstIndexIs<T>(s: seq<T>, p: T -> bool, i: nat)
    requires i < |s| && p(s[i])
    requires forall j :: 0 <= j < i ==> !p(s[j])
    ensures FirstIndex(s, p) == Some(i)
  {
  }
}
