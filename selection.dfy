/** The minimum selector `min`: a left-to-right scan in which the first of equal least values wins. */
module Selection {

  /** `i` is the first position that holds the least value of `s`. */
  predicate IsFirstMin(s: seq<real>, i: int) {
    && 0 <= i < |s|
    && (forall j :: 0 <= j < |s| ==> s[i] <= s[j])
    && (forall j :: 0 <= j < i ==> s[j] > s[i])
  }

  /** `min(a)`; Go's `min` reads `a[0]` first, so `a` must not be empty. */
  method Min(a: array<real>) returns (index: nat, min: real)
    requires a.Length > 0
    ensures IsFirstMin(a[..], index) && min == a[index]
  {
    min := a[0];
    index := 0;
    for i := 0 to a.Length
      invariant index < a.Length && min == a[index]
      invariant forall j :: 0 <= j < i ==> min <= a[j]
      invariant forall j :: 0 <= j < index ==> a[j] > min
    {
      if a[i] < min {
        min := a[i];
        index := i;
      }
    }
  }

  /** At most one position is the first least one, so `Min`'s answer is determined. */
  lemma FirstMinUnique(s: seq<real>, i: int, k: int)
    requires IsFirstMin(s, i) && IsFirstMin(s, k)
    ensures i == k
  {
    assert s[i] <= s[k] && s[k] <= s[i];
  }
}
