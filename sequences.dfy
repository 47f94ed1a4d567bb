/**
 * The two array operations the component relies on: a linear scan for the
 * first element equal to a key, and `dmArray::EraseSwap`, which removes an
 * element by moving the last one into its slot.
 */
module Sequences {
  import opened ParticleTypes

  /** The first index holding `x`, or None when `x` does not occur in `s`. */
  function FirstIndex<T(==)>(s: seq<T>, x: T): (r: Option<nat>)
    ensures r.None? <==> x !in s
    ensures r.Some? ==> r.value < |s| && s[r.value] == x
    ensures r.Some? ==> forall j :: 0 <= j < r.value ==> s[j] != x
    decreases |s|
  {
    if |s| == 0 then None
    else if s[0] == x then Some(0)
    else
      match FirstIndex(s[1..], x)
      case None => assert s == [s[0]] + s[1..]; None
      case Some(k) => Some(k + 1)
  }

  /** An index whose element equals `x` and with no earlier occurrence is the first index. */
  lemma FirstIndexUnique<T>(s: seq<T>, x: T, i: nat)
    requires i < |s| && s[i] == x
    requires forall j :: 0 <= j < i ==> s[j] != x
    ensures FirstIndex(s, x) == Some(i)
  {
    assert x in s;
  }

  /**
   * `dmArray::EraseSwap(i)`: the last element overwrites slot `i`, then the
   * array shrinks by one; every other slot keeps its element.
   */
  function EraseSwap<T>(s: seq<T>, i: nat): (r: seq<T>)
    requires i < |s|
    ensures |r| == |s| - 1
    ensures i < |s| - 1 ==> r[i] == s[|s| - 1]
    ensures forall j :: 0 <= j < |s| - 1 && j != i ==> r[j] == s[j]
  {
    s[i := s[|s| - 1]][..|s| - 1]
  }

  /** `EraseSwap` removes exactly one copy of `s[i]` and keeps every other element. */
  lemma EraseSwapMultiset<T>(s: seq<T>, i: nat)
    requires i < |s|
    ensures multiset(EraseSwap(s, i)) == multiset(s) - multiset{s[i]}
  {
    var n := |s|;
    var r := EraseSwap(s, i);
    if i == n - 1 {
      assert r == s[..n - 1];
      assert s == s[..n - 1] + [s[n - 1]];
    } else {
      assert s == s[..i] + [s[i]] + s[i + 1..n - 1] + [s[n - 1]];
      assert r == s[..i] + [s[n - 1]] + s[i + 1..n - 1];
    }
  }
}
