/** The portfolio's merged schedule: every strategy sees exactly the iterations it would run alone. */
module PortfolioSchedule {
  import opened Options
  import opened Grid

  /** One `_run_iteration` call: which strategy, and at which index of its own grid. */
  datatype Call = Call(strategy: nat, index: nat)

  /** A date range; a missing end is open. */
  datatype Dates = Dates(start: Option<int>, end: Option<int>)
  {
    predicate Valid() {
      start.Some? && end.Some? ==> start.value <= end.value
    }

    predicate Has(t: int) {
      (start.Some? ==> start.value <= t) && (end.Some? ==> t <= end.value)
    }
  }

  // ---- A strategy on its own ----

  /** First and past-the-last index whose timestamps lie in the range. */
  function Low(times: seq<int>, dates: Dates): nat
    requires Increasing(times)
  {
    if dates.start.Some? then SearchSorted(times, dates.start.value) else 0
  }

  function High(times: seq<int>, dates: Dates): nat
    requires Increasing(times)
  {
    if dates.end.Some? then SearchSorted(times, dates.end.value + 1) else |times|
  }

  function Range(low: nat, high: nat): (r: seq<nat>)
    ensures |r| == if low <= high then high - low else 0
    ensures forall k :: 0 <= k < |r| ==> r[k] == low + k
  {
    if low >= high then [] else Range(low, high - 1) + [high - 1]
  }

  /** The indices a strategy runs on its own: those whose timestamps lie in the range, in order. */
  function OwnIndices(times: seq<int>, dates: Dates): seq<nat>
    requires Increasing(times)
  {
    Range(Low(times, dates), High(times, dates))
  }

  lemma OwnIndicesAre(times: seq<int>, dates: Dates, i: nat)
    requires Increasing(times) && i < |times|
    ensures i in OwnIndices(times, dates) <==> dates.Has(times[i])
  {
    var low, high := Low(times, dates), High(times, dates);
    if low <= i < high {
      assert OwnIndices(times, dates)[i - low] == i;
    }
  }

  /** The loop of `Strategy.run_rules`: skip what comes before the range, stop after it. */
  method RunOwnRules(times: seq<int>, dates: Dates) returns (indices: seq<nat>)
    requires Increasing(times) && dates.Valid()
    ensures indices == OwnIndices(times, dates)
  {
    indices := [];
    var low, high := Low(times, dates), High(times, dates);
    for i := 0 to |times|
      invariant indices == Range(low, if i < high then i else high)
      invariant i <= high
    {
      if dates.start.Some? && times[i] < dates.start.value {
        continue;
      }
      if dates.end.Some? && times[i] > dates.end.value {
        break;
      }
      indices := indices + [i];
    }
  }

  // ---- Merging the grids ----

  /** `np.union1d` of two grids. */
  function Union(a: seq<int>, b: seq<int>): (r: seq<int>)
    decreases |a| + |b|
  {
    if |a| == 0 then b
    else if |b| == 0 then a
    else
      var x, y := a[|a| - 1], b[|b| - 1];
      if x > y then Union(a[..|a| - 1], b) + [x]
      else if y > x then Union(a, b[..|b| - 1]) + [y]
      else Union(a[..|a| - 1], b[..|b| - 1]) + [x]
  }

  lemma {:induction false} UnionHas(a: seq<int>, b: seq<int>)
    ensures forall t :: t in Union(a, b) <==> t in a || t in b
    decreases |a| + |b|
  {
    if |a| > 0 && |b| > 0 {
      var m, n := |a| - 1, |b| - 1;
      assert a == a[..m] + [a[m]] && b == b[..n] + [b[n]];
      if a[m] > b[n] {
        UnionHas(a[..m], b);
      } else if b[n] > a[m] {
        UnionHas(a, b[..n]);
      } else {
        UnionHas(a[..m], b[..n]);
      }
    }
  }

  lemma {:induction false} UnionIncreases(a: seq<int>, b: seq<int>)
    requires Increasing(a) && Increasing(b)
    ensures Increasing(Union(a, b))
    decreases |a| + |b|
  {
    if |a| > 0 && |b| > 0 {
      var m, n := |a| - 1, |b| - 1;
      if a[m] > b[n] {
        UnionIncreases(a[..m], b);
        Appended(Union(a[..m], b), a[..m], b, a[m]);
      } else if b[n] > a[m] {
        UnionIncreases(a, b[..n]);
        Appended(Union(a, b[..n]), a, b[..n], b[n]);
      } else {
        UnionIncreases(a[..m], b[..n]);
        Appended(Union(a[..m], b[..n]), a[..m], b[..n], a[m]);
      }
    }
  }

  lemma Appended(merged: seq<int>, a: seq<int>, b: seq<int>, x: int)
    requires merged == Union(a, b) && Increasing(merged)
    requires (forall k :: 0 <= k < |a| ==> a[k] < x) && (forall k :: 0 <= k < |b| ==> b[k] < x)
    ensures Increasing(merged + [x])
  {
    UnionHas(a, b);
    forall k | 0 <= k < |merged| ensures merged[k] < x {
      assert merged[k] in merged;
    }
  }

  lemma UnionMerges(a: seq<int>, b: seq<int>)
    requires Increasing(a) && Increasing(b)
    ensures Increasing(Union(a, b))
    ensures forall t :: t in Union(a, b) <==> t in a || t in b
  {
    UnionHas(a, b);
    UnionIncreases(a, b);
  }

  function UnionAll(grids: seq<seq<int>>): seq<int> {
    if |grids| == 0 then [] else Union(UnionAll(grids[..|grids| - 1]), grids[|grids| - 1])
  }

  predicate AllIncreasing(grids: seq<seq<int>>) {
    forall s :: 0 <= s < |grids| ==> Ascends(grids[s])
  }

  predicate Ascends(times: seq<int>) {
    forall i, j :: 0 <= i < j < |times| ==> times[i] < times[j]
  }

  lemma {:induction false} UnionAllMerges(grids: seq<seq<int>>)
    requires AllIncreasing(grids)
    ensures Increasing(UnionAll(grids))
    ensures forall t :: t in UnionAll(grids) <==> exists s :: 0 <= s < |grids| && t in grids[s]
  {
    if |grids| > 0 {
      var n := |grids| - 1;
      UnionAllMerges(grids[..n]);
      assert Ascends(grids[n]);
      UnionMerges(UnionAll(grids[..n]), grids[n]);
      forall t ensures t in UnionAll(grids) <==> exists s :: 0 <= s < |grids| && t in grids[s] {
        if s :| 0 <= s < n && t in grids[..n][s] {
          assert t in grids[s];
        }
        if s :| 0 <= s < |grids| && t in grids[s] {
          assert s < n ==> t in grids[..n][s];
        }
      }
    }
  }

  /** The merged grid cut to the range. */
  function Cut(times: seq<int>, dates: Dates): (r: seq<int>)
    ensures forall t :: t in r <==> t in times && dates.Has(t)
  {
    if |times| == 0 then []
    else
      var n := |times| - 1;
      assert times == times[..n] + [times[n]];
      Cut(times[..n], dates) + if dates.Has(times[n]) then [times[n]] else []
  }

  lemma {:induction false} CutIncreases(times: seq<int>, dates: Dates)
    requires Increasing(times)
    ensures Increasing(Cut(times, dates))
  {
    if |times| > 0 {
      var n := |times| - 1;
      CutIncreases(times[..n], dates);
      var rest := Cut(times[..n], dates);
      forall k | 0 <= k < |rest| ensures rest[k] < times[n] {
        assert rest[k] in rest && rest[k] in times[..n];
      }
    }
  }

  // ---- The merged loop ----

  /** The indices one strategy is called with, in order. */
  function Indices(calls: seq<Call>, s: nat): seq<nat> {
    if |calls| == 0 then []
    else
      var c := calls[|calls| - 1];
      Indices(calls[..|calls| - 1], s) + if c.strategy == s then [c.index] else []
  }

  lemma IndicesSnoc(calls: seq<Call>, c: Call, s: nat)
    ensures Indices(calls + [c], s) == Indices(calls, s) + if c.strategy == s then [c.index] else []
  {
    assert (calls + [c])[..|calls|] == calls;
  }

  predicate Legal(grids: seq<seq<int>>, c: Call) {
    c.strategy < |grids| && c.index < |grids[c.strategy]|
  }

  function TimeOf(grids: seq<seq<int>>, c: Call): int
    requires Legal(grids, c)
  {
    grids[c.strategy][c.index]
  }

  /** Calls go forward in time, and through the strategies in order at each time. */
  ghost predicate Chronological(grids: seq<seq<int>>, calls: seq<Call>) {
    && (forall k :: 0 <= k < |calls| ==> Legal(grids, calls[k]))
    && (forall j, k :: 0 <= j < k < |calls| ==> Before(grids, calls[j], calls[k]))
  }

  predicate Before(grids: seq<seq<int>>, a: Call, b: Call)
    requires Legal(grids, a) && Legal(grids, b)
  {
    TimeOf(grids, a) < TimeOf(grids, b) || (TimeOf(grids, a) == TimeOf(grids, b) && a.strategy < b.strategy)
  }

  /** How far a strategy has got once the merged grid has passed its first `i` times. */
  function Reached(times: seq<int>, dates: Dates, all: seq<int>, i: nat): nat
    requires Increasing(times) && i <= |all|
  {
    if i < |all| then SearchSorted(times, all[i]) else High(times, dates)
  }

  /** The merged grid has every time of the strategy that lies in the range. */
  ghost predicate Covers(all: seq<int>, dates: Dates, times: seq<int>) {
    && (forall t :: t in all ==> dates.Has(t))
    && (forall k :: 0 <= k < |times| && dates.Has(times[k]) ==> times[k] in all)
  }

  lemma FirstReached(times: seq<int>, dates: Dates, all: seq<int>)
    requires Increasing(times) && Increasing(all) && Covers(all, dates, times) && dates.Valid()
    ensures Range(Low(times, dates), Reached(times, dates, all, 0)) == []
  {
    forall k | Low(times, dates) <= k < |times|
      ensures if |all| > 0 then times[k] >= all[0] else dates.end.Some? && times[k] > dates.end.value
    {
      assert dates.Has(times[k]) ==> times[k] in all;
      assert |all| > 0 ==> all[0] in all;
    }
    var low := Low(times, dates);
    assert low < |times| ==> if |all| > 0 then times[low] >= all[0] else times[low] > dates.end.value;
  }

  lemma {:induction false} LastIsLatest(all: seq<int>, t: int)
    requires Increasing(all) && t in all
    ensures |all| > 0 && t <= all[|all| - 1]
  {}

  /** Passing a time moves a grid on by one exactly when the grid has it. */
  lemma Passed(times: seq<int>, t: int)
    requires Increasing(times)
    ensures var p := SearchSorted(times, t);
            SearchSorted(times, t + 1) == if p < |times| && times[p] == t then p + 1 else p
  {
    var p := SearchSorted(times, t);
    SplitIs(times, t + 1, if p < |times| && times[p] == t then p + 1 else p);
  }

  /** Between two neighbouring times of the merged grid the strategy has none of its own. */
  lemma NoneBetween(times: seq<int>, dates: Dates, all: seq<int>, i: nat)
    requires Increasing(times) && Increasing(all) && Covers(all, dates, times) && i + 1 < |all|
    ensures SearchSorted(times, all[i + 1]) == SearchSorted(times, all[i] + 1)
  {
    var p := SearchSorted(times, all[i] + 1);
    assert all[i] in all && all[i + 1] in all;
    forall k | p <= k < |times| ensures times[k] >= all[i + 1] {
      if times[k] in all {
        var j :| 0 <= j < |all| && all[j] == times[k];
        assert j > i;
      }
    }
    SplitIs(times, all[i + 1], p);
  }

  /** After the last one the strategy has none left in the range. */
  lemma NoneAfter(times: seq<int>, dates: Dates, all: seq<int>)
    requires Increasing(times) && Increasing(all) && Covers(all, dates, times) && |all| > 0
    ensures High(times, dates) == SearchSorted(times, all[|all| - 1] + 1)
  {
    var last := all[|all| - 1];
    var p := SearchSorted(times, last + 1);
    assert last in all;
    forall k | p <= k < |times| ensures dates.end.Some? && times[k] > dates.end.value {
      if times[k] in all {
        LastIsLatest(all, times[k]);
      }
    }
    if dates.end.Some? {
      SplitIs(times, dates.end.value + 1, p);
    }
  }

  lemma NextReached(times: seq<int>, dates: Dates, all: seq<int>, i: nat)
    requires Increasing(times) && Increasing(all) && Covers(all, dates, times) && i < |all|
    ensures var p := SearchSorted(times, all[i]);
            && Low(times, dates) <= p
            && Reached(times, dates, all, i + 1) == if p < |times| && times[p] == all[i] then p + 1 else p
  {
    assert all[i] in all;
    Passed(times, all[i]);
    LowIsPassed(times, dates, all[i]);
    if i + 1 < |all| {
      NoneBetween(times, dates, all, i);
    } else {
      NoneAfter(times, dates, all);
    }
  }

  lemma LowIsPassed(times: seq<int>, dates: Dates, t: int)
    requires Increasing(times) && dates.Has(t)
    ensures Low(times, dates) <= SearchSorted(times, t)
  {
    var p := SearchSorted(times, t);
    assert p < |times| ==> times[p] >= t;
  }

  /** The nested loops of `Portfolio.run_rules`. */
  method RunRules(grids: seq<seq<int>>, dates: Dates) returns (calls: seq<Call>)
    requires AllIncreasing(grids) && dates.Valid()
    ensures forall s :: 0 <= s < |grids| ==> Ascends(grids[s]) && Indices(calls, s) == OwnIndices(grids[s], dates)
    ensures Chronological(grids, calls)
  {
    hide Indices, SearchSorted;
    var all := Cut(UnionAll(grids), dates);
    UnionAllMerges(grids);
    CutIncreases(UnionAll(grids), dates);
    forall s | 0 <= s < |grids| ensures Ascends(grids[s]) && Covers(all, dates, grids[s]) {
    }
    calls := [];
    forall s | 0 <= s < |grids|
      ensures Indices(calls, s) == Range(Low(grids[s], dates), Reached(grids[s], dates, all, 0))
    {
      FirstReached(grids[s], dates, all);
      NoIndices(s);
    }
    for i := 0 to |all|
      invariant forall s :: 0 <= s < |grids| ==>
        Indices(calls, s) == Range(Low(grids[s], dates), Reached(grids[s], dates, all, i))
      invariant Chronological(grids, calls)
      invariant forall k :: 0 <= k < |calls| && i < |all| ==> TimeOf(grids, calls[k]) < all[i]
    {
      calls := RunMoment(grids, dates, all, i, calls);
    }
  }

  lemma NoIndices(s: nat)
    ensures Indices([], s) == []
  {}

  /** One timestamp of the merged grid: every strategy that has it runs it. */
  method RunMoment(
    grids: seq<seq<int>>, dates: Dates, all: seq<int>, i: nat, before: seq<Call>) returns (calls: seq<Call>)
    requires AllIncreasing(grids) && Increasing(all) && i < |all|
    requires forall s :: 0 <= s < |grids| ==> Ascends(grids[s]) && Covers(all, dates, grids[s])
    requires forall s :: 0 <= s < |grids| ==>
      Indices(before, s) == Range(Low(grids[s], dates), Reached(grids[s], dates, all, i))
    requires Chronological(grids, before) && forall k :: 0 <= k < |before| ==> TimeOf(grids, before[k]) < all[i]
    ensures forall s :: 0 <= s < |grids| ==>
      Indices(calls, s) == Range(Low(grids[s], dates), Reached(grids[s], dates, all, i + 1))
    ensures Chronological(grids, calls)
    ensures forall k :: 0 <= k < |calls| && i + 1 < |all| ==> TimeOf(grids, calls[k]) < all[i + 1]
  {
    hide Indices, SearchSorted, Covers;
    calls := before;
    for s := 0 to |grids|
      invariant forall j :: 0 <= j < |grids| ==>
        Indices(calls, j) == Range(Low(grids[j], dates), Reached(grids[j], dates, all, if j < s then i + 1 else i))
      invariant Chronological(grids, calls)
      invariant forall k :: 0 <= k < |calls| ==>
        TimeOf(grids, calls[k]) < all[i] || (TimeOf(grids, calls[k]) == all[i] && calls[k].strategy < s)
    {
      var times := grids[s];
      var index := SearchSorted(times, all[i]);
      NextReached(times, dates, all, i);
      if index != |times| && times[index] == all[i] {
        var c := Call(s, index);
        forall j | 0 <= j < |grids|
          ensures Indices(calls + [c], j)
               == Range(Low(grids[j], dates), Reached(grids[j], dates, all, if j <= s then i + 1 else i))
        {
          IndicesSnoc(calls, c, j);
          assert Indices(calls, j) + [] == Indices(calls, j);
        }
        calls := calls + [c];
      }
    }
  }
}
