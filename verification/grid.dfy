/** Strictly increasing timestamp grids and the two lookups the engine makes on them. */
module Grid {
  ghost predicate Increasing(times: seq<int>) {
    forall i, j :: 0 <= i < j < |times| ==> times[i] < times[j]
  }

  /** `np.searchsorted(times, t)`: the first index whose timestamp is not before `t`. */
  function SearchSorted(times: seq<int>, t: int): (r: nat)
    requires Increasing(times)
    ensures r <= |times|
    ensures forall k :: 0 <= k < r ==> times[k] < t
    ensures forall k :: r <= k < |times| ==> times[k] >= t
  {
    if |times| == 0 then 0
    else
      var n := |times| - 1;
      if times[n] < t then n + 1 else SearchSorted(times[..n], t)
  }

  /** A timestamp that is on the grid is found at its own index. */
  lemma SearchSortedFinds(times: seq<int>, i: nat)
    requires Increasing(times) && i < |times|
    ensures SearchSorted(times, times[i]) == i
  {}

  /** The lookup's answer is the only index that splits the grid at `t`. */
  lemma SplitIs(times: seq<int>, t: int, i: nat)
    requires Increasing(times) && i <= |times|
    requires (forall k :: 0 <= k < i ==> times[k] < t) && (forall k :: i <= k < |times| ==> times[k] >= t)
    ensures SearchSorted(times, t) == i
  {
    var r := SearchSorted(times, t);
    assert r < |times| ==> times[r] >= t;
    assert r > 0 ==> times[r - 1] < t;
  }

  const NS_PER_DAY: int := 86_400_000_000_000

  /** Calendar day of a nanosecond timestamp (`astype("M8[D]")`, which floors). */
  function Day(t: int): int {
    t / NS_PER_DAY
  }
}
