/** The account's daily calculation times. */
module CalcClock {
  import opened Grid
  import opened Options

  const NS_PER_MINUTE: int := 60_000_000_000

  /** `np.searchsorted(grid, t, side="right")`. */
  function SearchSortedRight(grid: seq<int>, t: int): (r: nat)
    requires Increasing(grid)
    ensures r <= |grid|
    ensures forall k :: 0 <= k < r ==> grid[k] <= t
    ensures forall k :: r <= k < |grid| ==> grid[k] > t
  {
    SearchSorted(grid, t + 1)
  }

  /** `np.unique(timestamps.astype("M8[D]"))` of an ordered grid. */
  function Dates(grid: seq<int>): (r: seq<int>) {
    if |grid| == 0 then []
    else
      var n := |grid| - 1;
      var rest := Dates(grid[..n]);
      if n > 0 && Day(grid[n - 1]) == Day(grid[n]) then rest else rest + [Day(grid[n])]
  }

  /** The calculation time of one date, if the grid has one: the last time not after the daily cut-off. */
  function CalcTimeOf(grid: seq<int>, minute: nat, date: int): (r: Option<int>)
    requires Increasing(grid) && minute < 1440
    ensures r.Some? ==> r.value in grid
  {
    var start := SearchSorted(grid, date * NS_PER_DAY);
    var end := SearchSortedRight(grid, date * NS_PER_DAY + minute * NS_PER_MINUTE);
    if end > start then Some(grid[end - 1]) else None
  }

  /** `_get_calc_timestamps` over the first dates. */
  function CalcTimesOf(grid: seq<int>, minute: nat, dates: seq<int>): (r: seq<int>)
    requires Increasing(grid) && minute < 1440
    ensures forall c :: c in r ==> c in grid
  {
    if |dates| == 0 then []
    else
      var one := CalcTimeOf(grid, minute, dates[|dates| - 1]);
      CalcTimesOf(grid, minute, dates[..|dates| - 1]) + if one.Some? then [one.value] else []
  }

  function CalcTimes(grid: seq<int>, minute: nat): (r: seq<int>)
    requires Increasing(grid) && minute < 1440
  {
    CalcTimesOf(grid, minute, Dates(grid))
  }

  /** A grid time is its date's calculation time when it is the last one at or before the cut-off. */
  ghost predicate LastBeforeCutOff(grid: seq<int>, minute: nat, c: int) {
    var cutOff := Day(c) * NS_PER_DAY + minute * NS_PER_MINUTE;
    c in grid && c <= cutOff && forall t :: t in grid && t <= cutOff ==> t <= c
  }

  lemma CalcTimeOfIs(grid: seq<int>, minute: nat, date: int, c: int)
    requires Increasing(grid) && minute < 1440
    ensures CalcTimeOf(grid, minute, date) == Some(c) <==> Day(c) == date && LastBeforeCutOff(grid, minute, c)
  {
    var cutOff := date * NS_PER_DAY + minute * NS_PER_MINUTE;
    var start := SearchSorted(grid, date * NS_PER_DAY);
    var end := SearchSortedRight(grid, cutOff);
    if end > start {
      var last := grid[end - 1];
      assert date * NS_PER_DAY <= last <= cutOff < (date + 1) * NS_PER_DAY;
      assert Day(last) == date;
      forall t | t in grid && t <= cutOff ensures t <= last {
        var k :| 0 <= k < |grid| && grid[k] == t;
        assert k < end;
      }
    }
    if Day(c) == date && LastBeforeCutOff(grid, minute, c) {
      var k :| 0 <= k < |grid| && grid[k] == c;
      assert start <= k < end;
      assert grid[end - 1] in grid && grid[end - 1] <= cutOff;
    }
  }

  lemma {:induction false} DatesFacts(grid: seq<int>)
    requires Increasing(grid)
    ensures Increasing(Dates(grid))
    ensures forall k :: 0 <= k < |grid| ==> Day(grid[k]) in Dates(grid)
    ensures |grid| > 0 ==> |Dates(grid)| > 0 && Dates(grid)[|Dates(grid)| - 1] == Day(grid[|grid| - 1])
  {
    hide Day;
    if |grid| > 0 {
      var n := |grid| - 1;
      DatesFacts(grid[..n]);
      if n > 0 {
        assert grid[..n][n - 1] == grid[n - 1];
        DayMonotone(grid[n - 1], grid[n]);
      }
    }
  }

  lemma DayMonotone(a: int, b: int)
    requires a <= b
    ensures Day(a) <= Day(b)
  {}

  lemma {:induction false} CalcTimesOfAre(grid: seq<int>, minute: nat, dates: seq<int>)
    requires Increasing(grid) && minute < 1440 && Increasing(dates)
    ensures Increasing(CalcTimesOf(grid, minute, dates))
    ensures forall c :: c in CalcTimesOf(grid, minute, dates) <==> Day(c) in dates && LastBeforeCutOff(grid, minute, c)
  {
    hide LastBeforeCutOff, Day, CalcTimeOf;
    if |dates| > 0 {
      var n := |dates| - 1;
      var rest, d := dates[..n], dates[n];
      assert dates == rest + [d];
      CalcTimesOfAre(grid, minute, rest);
      var before := CalcTimesOf(grid, minute, rest);
      var one := CalcTimeOf(grid, minute, d);
      forall c ensures one == Some(c) <==> Day(c) == d && LastBeforeCutOff(grid, minute, c) {
        CalcTimeOfIs(grid, minute, d, c);
      }
      if one.Some? {
        forall k | 0 <= k < |before| ensures before[k] < one.value {
          assert before[k] in before;
          assert Day(before[k]) in rest;
          if one.value <= before[k] {
            DayMonotone(one.value, before[k]);
          }
        }
      }
    }
  }

  /** The calculation times are, per date of the grid, the last grid time at or before the cut-off. */
  lemma CalcTimesAre(grid: seq<int>, minute: nat)
    requires Increasing(grid) && minute < 1440
    ensures Increasing(CalcTimes(grid, minute))
    ensures forall c :: c in CalcTimes(grid, minute) <==> LastBeforeCutOff(grid, minute, c)
  {
    hide Day;
    DatesFacts(grid);
    CalcTimesOfAre(grid, minute, Dates(grid));
  }
}
