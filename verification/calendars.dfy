/** Trading-day arithmetic in closed form: ordinals, counts, enumerations, offsets, the day/time split. */
module Calendars {
  import opened Options
  import opened Grid

  /** A business-day calendar as NumPy normalizes it: some weekday open, holidays sorted, distinct and on
      open weekdays. Weekday 0 is Monday; day 0 is Thursday 1 January 1970. */
  datatype Calendar = Calendar(weekmask: seq<bool>, holidays: seq<int>)
  {
    ghost predicate Valid() {
      && |weekmask| == 7 && true in weekmask && Increasing(holidays)
      && forall h :: h in holidays ==> weekmask[Weekday(h)]
    }

    ghost predicate IsOpen(d: int)
      requires Valid()
    {
      weekmask[Weekday(d)] && d !in holidays
    }
  }

  function Weekday(d: int): nat {
    (d + 3) % 7
  }

  /** Open days in [a, b), by looking at each. */
  ghost function Count(c: Calendar, a: int, b: int): nat
    requires c.Valid()
    decreases b - a
  {
    if a >= b then 0 else Count(c, a, b - 1) + if c.IsOpen(b - 1) then 1 else 0
  }

  // ---- `_business_day_ordinal` ----

  /** `cumsum(roll(weekmask, -3))` with a leading zero, at index `i`. */
  function Prefix(c: Calendar, i: nat): nat
    requires |c.weekmask| == 7 && i <= 7
  {
    if i == 0 then 0 else Prefix(c, i - 1) + if c.weekmask[(i - 1 + 3) % 7] then 1 else 0
  }

  function Ordinal(c: Calendar, d: int): int
    requires |c.weekmask| == 7 && Increasing(c.holidays)
  {
    (d / 7) * Prefix(c, 7) + Prefix(c, d % 7) - SearchSorted(c.holidays, d)
  }

  lemma NextWeekday(c: Calendar, d: int)
    requires |c.weekmask| == 7
    ensures ((d + 1) / 7) * Prefix(c, 7) + Prefix(c, (d + 1) % 7)
         == (d / 7) * Prefix(c, 7) + Prefix(c, d % 7) + if c.weekmask[Weekday(d)] then 1 else 0
  {
    var q, r := d / 7, d % 7;
    assert d == 7 * q + r;
    assert (r + 3) % 7 == Weekday(d);
    if r == 6 {
      assert (d + 1) / 7 == q + 1 && (d + 1) % 7 == 0;
      assert (q + 1) * Prefix(c, 7) == q * Prefix(c, 7) + Prefix(c, 7);
    } else {
      assert (d + 1) / 7 == q && (d + 1) % 7 == r + 1;
    }
  }

  lemma NextHoliday(holidays: seq<int>, d: int)
    requires Increasing(holidays)
    ensures SearchSorted(holidays, d + 1) == SearchSorted(holidays, d) + if d in holidays then 1 else 0
  {
    if d in holidays {
      var k :| 0 <= k < |holidays| && holidays[k] == d;
      SplitIs(holidays, d, k);
      SplitIs(holidays, d + 1, k + 1);
    } else {
      forall k | SearchSorted(holidays, d) <= k < |holidays| ensures holidays[k] >= d + 1 {
        assert holidays[k] in holidays;
      }
      SplitIs(holidays, d + 1, SearchSorted(holidays, d));
    }
  }

  lemma NextOrdinal(c: Calendar, d: int)
    requires c.Valid()
    ensures Ordinal(c, d + 1) == Ordinal(c, d) + if c.IsOpen(d) then 1 else 0
  {
    hide SearchSorted, Prefix;
    NextWeekday(c, d);
    NextHoliday(c.holidays, d);
  }

  /** For all days, before 1970 included, a difference of ordinals is the number of open days between. */
  lemma {:induction false} OrdinalCounts(c: Calendar, a: int, b: int)
    requires c.Valid() && a <= b
    ensures Ordinal(c, b) - Ordinal(c, a) == Count(c, a, b)
    decreases b - a
  {
    hide Ordinal;
    if a < b {
      OrdinalCounts(c, a, b - 1);
      NextOrdinal(c, b - 1);
    }
  }

  /** An ordinal pins an open day. */
  lemma OpenDayIsUnique(c: Calendar, x: int, y: int)
    requires c.Valid() && c.IsOpen(x) && c.IsOpen(y) && Ordinal(c, x) == Ordinal(c, y)
    ensures x == y
  {
    hide Ordinal;
    if x < y {
      OpenDayAdvances(c, x, y);
    } else if y < x {
      OpenDayAdvances(c, y, x);
    }
  }

  lemma OpenDayAdvances(c: Calendar, x: int, y: int)
    requires c.Valid() && c.IsOpen(x) && x < y
    ensures Ordinal(c, x) < Ordinal(c, y)
  {
    hide Ordinal;
    NextOrdinal(c, x);
    OrdinalCounts(c, x + 1, y);
  }

  // ---- There is always an open day near ----

  lemma {:induction false} PrefixOpens(c: Calendar, i: nat, k: nat)
    requires |c.weekmask| == 7 && k < i <= 7 && c.weekmask[(k + 3) % 7]
    ensures Prefix(c, i) > 0
  {
    if k < i - 1 {
      PrefixOpens(c, i - 1, k);
    }
  }

  lemma WeekOpens(c: Calendar)
    requires c.Valid()
    ensures Prefix(c, 7) >= 1
  {
    var j :| 0 <= j < 7 && c.weekmask[j];
    var k := (j + 4) % 7;
    assert (k + 3) % 7 == j;
    PrefixOpens(c, 7, k);
  }

  const WEEK: nat := 7

  /** Every stretch of one week more than there are holidays has an open day in it. */
  lemma OpenDayIsNear(c: Calendar, a: int)
    requires c.Valid()
    ensures Count(c, a, a + WEEK * (|c.holidays| + 1)) >= 1
  {
    hide Prefix, SearchSorted;
    var k := |c.holidays| + 1;
    var b := a + 7 * k;
    OrdinalCounts(c, a, b);
    WeekOpens(c);
    assert b / 7 == a / 7 + k && b % 7 == a % 7;
    Distributes(a / 7, k, Prefix(c, 7));
  }

  lemma Distributes(a: int, k: nat, p: nat)
    requires p >= 1
    ensures (a + k) * p >= a * p + k
  {
    assert (a + k) * p == a * p + k * p;
    assert k * (p - 1) >= 0;
  }

  lemma {:induction false} CountFinds(c: Calendar, a: int, b: int) returns (d: int)
    requires c.Valid() && Count(c, a, b) >= 1
    ensures a <= d < b && c.IsOpen(d)
    decreases b - a
  {
    if c.IsOpen(b - 1) {
      d := b - 1;
    } else {
      d := CountFinds(c, a, b - 1);
    }
  }

  /** The first open day at or after `d`, searching towards one that is known. */
  ghost function FirstOpen(c: Calendar, d: int, known: int): (r: int)
    requires c.Valid() && d <= known && c.IsOpen(known)
    ensures d <= r <= known && c.IsOpen(r) && forall x :: d <= x < r ==> !c.IsOpen(x)
    decreases known - d
  {
    if c.IsOpen(d) then d else FirstOpen(c, d + 1, known)
  }

  ghost function LastOpen(c: Calendar, d: int, known: int): (r: int)
    requires c.Valid() && known <= d && c.IsOpen(known)
    ensures known <= r <= d && c.IsOpen(r) && forall x :: r < x <= d ==> !c.IsOpen(x)
    decreases d - known
  {
    if c.IsOpen(d) then d else LastOpen(c, d - 1, known)
  }

  ghost predicate NextOpen(c: Calendar, d: int, r: int)
    requires c.Valid()
  {
    d <= r && c.IsOpen(r) && forall x :: d <= x < r ==> !c.IsOpen(x)
  }

  ghost predicate PreviousOpen(c: Calendar, d: int, r: int)
    requires c.Valid()
  {
    r <= d && c.IsOpen(r) && forall x :: r < x <= d ==> !c.IsOpen(x)
  }

  /** Rolling forward or backward always lands, and never further than a week more than the holidays. */
  lemma RollsAreNear(c: Calendar, d: int) returns (next: int, previous: int)
    requires c.Valid()
    ensures NextOpen(c, d, next) && next - d <= WEEK * (|c.holidays| + 1)
    ensures PreviousOpen(c, d, previous) && d - previous <= WEEK * (|c.holidays| + 1)
  {
    var k := WEEK * (|c.holidays| + 1);
    OpenDayIsNear(c, d);
    var later := CountFinds(c, d, d + k);
    next := FirstOpen(c, d, later);
    OpenDayIsNear(c, d - k + 1);
    var earlier := CountFinds(c, d - k + 1, d + 1);
    previous := LastOpen(c, d, earlier);
  }

  // ---- Offsets ----

  /** What a business-day offset means: the open day with that many open days from the base up to it, or, going
      back, from it up to the base. */
  ghost predicate Shifted(c: Calendar, base: int, n: int, out: int)
    requires c.Valid()
  {
    && c.IsOpen(out)
    && if n >= 0 then base <= out && Count(c, base, out) == n else out <= base && Count(c, out, base) == -n
  }

  lemma ShiftedOrdinals(c: Calendar, base: int, n: int, out: int)
    requires c.Valid() && Shifted(c, base, n, out)
    ensures c.IsOpen(out) && Ordinal(c, out) - Ordinal(c, base) == n
  {
    hide Ordinal;
    if n >= 0 {
      OrdinalCounts(c, base, out);
    } else {
      OrdinalCounts(c, out, base);
    }
  }

  /** From an open day, counting open days and subtracting ordinals find the same day. */
  lemma OrdinalsShift(c: Calendar, base: int, n: int, out: int)
    requires c.Valid() && c.IsOpen(base) && c.IsOpen(out)
    ensures Shifted(c, base, n, out) <==> Ordinal(c, out) - Ordinal(c, base) == n
  {
    hide Ordinal;
    if base <= out {
      OrdinalCounts(c, base, out);
      if base < out {
        OpenDayAdvances(c, base, out);
      }
    } else {
      OrdinalCounts(c, out, base);
      OpenDayAdvances(c, out, base);
    }
  }

  /** Offsets always exist. */
  lemma {:induction false} ShiftExists(c: Calendar, base: int, n: int) returns (out: int)
    requires c.Valid() && c.IsOpen(base)
    ensures Shifted(c, base, n, out)
    decreases if n < 0 then -n else n
  {
    hide Ordinal;
    if n == 0 {
      out := base;
    } else if n > 0 {
      var before := ShiftExists(c, base, n - 1);
      ShiftedOrdinals(c, base, n - 1, before);
      var unused;
      out, unused := RollsAreNear(c, before + 1);
      NextOrdinal(c, before);
      ClosedStretch(c, before + 1, out);
    } else {
      var after := ShiftExists(c, base, n + 1);
      ShiftedOrdinals(c, base, n + 1, after);
      var unused;
      unused, out := RollsAreNear(c, after - 1);
      NextOrdinal(c, out);
      ClosedStretch(c, out + 1, after);
    }
    OrdinalsShift(c, base, n, out);
  }

  lemma {:induction false} ClosedStretch(c: Calendar, a: int, b: int)
    requires c.Valid() && a <= b && forall x :: a <= x < b ==> !c.IsOpen(x)
    ensures Ordinal(c, a) == Ordinal(c, b) && Count(c, a, b) == 0
    decreases b - a
  {
    hide Ordinal;
    if a < b {
      ClosedStretch(c, a, b - 1);
      NextOrdinal(c, b - 1);
    }
  }

  /** And they are unique: the displacement pins the open day. */
  lemma ShiftIsUnique(c: Calendar, base: int, n: int, a: int, b: int)
    requires c.Valid() && Shifted(c, base, n, a) && Shifted(c, base, n, b)
    ensures a == b
  {
    hide Ordinal;
    ShiftedOrdinals(c, base, n, a);
    ShiftedOrdinals(c, base, n, b);
    OpenDayIsUnique(c, a, b);
  }

  /** Trading-day addition composes, and subtracting undoes adding. */
  lemma ShiftComposes(c: Calendar, base: int, m: int, mid: int, n: int, out: int)
    requires c.Valid() && c.IsOpen(base) && Shifted(c, base, m, mid) && Shifted(c, mid, n, out)
    ensures Shifted(c, base, m + n, out)
    ensures m + n == 0 ==> out == base
  {
    hide Ordinal;
    ShiftedOrdinals(c, base, m, mid);
    ShiftedOrdinals(c, mid, n, out);
    OrdinalsShift(c, base, m + n, out);
    if m + n == 0 {
      OpenDayIsUnique(c, base, out);
    }
  }

  // ---- `num_trading_days` and `get_trading_days` ----

  datatype Interval = Interval(first: int, end: int)

  /** `_normalize` on dates: a half-open interval, never reversed; a start after the end is refused. */
  function Normalize(start: int, end: int, includeFirst: bool, includeLast: bool): Option<Interval> {
    if start > end then None
    else
      var s := if includeFirst then start else start + 1;
      var e := if includeLast then end + 1 else end;
      Some(Interval(if s > e then e else s, e))
  }

  /** Whether a day lies between the endpoints, as the flags mean it. */
  predicate Between(start: int, end: int, includeFirst: bool, includeLast: bool, d: int) {
    && (if includeFirst then start <= d else start < d)
    && (if includeLast then d <= end else d < end)
  }

  lemma NormalizeMeans(start: int, end: int, includeFirst: bool, includeLast: bool, d: int)
    ensures var i := Normalize(start, end, includeFirst, includeLast);
            && (i.None? <==> start > end)
            && (i.Some? ==> i.value.first <= i.value.end)
            && (i.Some? ==> (i.value.first <= d < i.value.end <==> Between(start, end, includeFirst, includeLast, d)))
  {}

  ghost function NumTradingDays(c: Calendar, start: int, end: int, includeFirst: bool, includeLast: bool): Option<nat>
    requires c.Valid()
  {
    match Normalize(start, end, includeFirst, includeLast)
    case None => None
    case Some(i) => Some(Count(c, i.first, i.end))
  }

  /** `arange(s, e)[is_busday]`. */
  ghost function OpenDays(c: Calendar, a: int, b: int): (r: seq<int>)
    requires c.Valid()
    decreases b - a
  {
    if a >= b then [] else OpenDays(c, a, b - 1) + if c.IsOpen(b - 1) then [b - 1] else []
  }

  lemma {:induction false} OpenDaysAre(c: Calendar, a: int, b: int)
    requires c.Valid()
    ensures |OpenDays(c, a, b)| == Count(c, a, b)
    ensures Increasing(OpenDays(c, a, b))
    ensures forall d :: d in OpenDays(c, a, b) <==> a <= d < b && c.IsOpen(d)
    decreases b - a
  {
    if a < b {
      OpenDaysAre(c, a, b - 1);
      var before := OpenDays(c, a, b - 1);
      assert forall k :: 0 <= k < |before| ==> before[k] in before;
    }
  }

  /** Counting and enumerating agree under every combination of flags, and both mean the open days between
      the endpoints; the closed form gives the same number. */
  lemma CountMatchesEnumeration(c: Calendar, start: int, end: int, includeFirst: bool, includeLast: bool)
    requires c.Valid()
    ensures var i := Normalize(start, end, includeFirst, includeLast);
            var n := NumTradingDays(c, start, end, includeFirst, includeLast);
            && (n.Some? <==> start <= end)
            && (n.Some? ==>
                  && n.value == |OpenDays(c, i.value.first, i.value.end)|
                  && n.value == Ordinal(c, i.value.end) - Ordinal(c, i.value.first)
                  && Increasing(OpenDays(c, i.value.first, i.value.end))
                  && forall d :: d in OpenDays(c, i.value.first, i.value.end) <==>
                       Between(start, end, includeFirst, includeLast, d) && c.IsOpen(d))
  {
    hide Ordinal, OpenDays, Count;
    var i := Normalize(start, end, includeFirst, includeLast);
    if i.Some? {
      OpenDaysAre(c, i.value.first, i.value.end);
      OrdinalCounts(c, i.value.first, i.value.end);
      forall d ensures i.value.first <= d < i.value.end <==> Between(start, end, includeFirst, includeLast, d) {
        NormalizeMeans(start, end, includeFirst, includeLast, d);
      }
    }
  }

  // ---- `add_trading_days` ----

  datatype Roll = Refuse | Missing | Forward | Backward | ModifiedForward | ModifiedBackward | Allow

  /** Where NumPy's roll takes a date; `month` numbers the calendar months. */
  ghost predicate RolledTo(c: Calendar, roll: Roll, month: int -> int, d: int, base: int)
    requires c.Valid()
  {
    if c.IsOpen(d) then base == d
    else
      match roll
      case Refuse => false
      case Missing => false
      case Forward => NextOpen(c, d, base)
      case Allow => NextOpen(c, d, base)
      case Backward => PreviousOpen(c, d, base)
      case ModifiedForward =>
        exists n, p :: NextOpen(c, d, n) && PreviousOpen(c, d, p) && base == if month(n) == month(d) then n else p
      case ModifiedBackward =>
        exists n, p :: NextOpen(c, d, n) && PreviousOpen(c, d, p) && base == if month(p) == month(d) then p else n
  }

  /** With roll "allow", a positive offset from a closed day counts the rolled day as day one. */
  ghost function Adjusted(c: Calendar, roll: Roll, d: int, n: int): int
    requires c.Valid()
  {
    if roll == Allow && !c.IsOpen(d) && n > 0 then n - 1 else n
  }

  /** The two guards on NumPy's answers: the displacement, and the distance rolled. */
  ghost predicate Guards(c: Calendar, d: int, n: int, base: int, out: int)
    requires c.Valid()
  {
    && Ordinal(c, out) - Ordinal(c, base) == n
    && base - d <= WEEK * (|c.holidays| + 1) && d - base <= WEEK * (|c.holidays| + 1)
  }

  lemma RolledIsNear(c: Calendar, roll: Roll, month: int -> int, d: int, base: int)
    requires c.Valid() && RolledTo(c, roll, month, d, base)
    ensures c.IsOpen(base)
    ensures base - d <= WEEK * (|c.holidays| + 1) && d - base <= WEEK * (|c.holidays| + 1)
  {
    var next, previous := RollsAreNear(c, d);
    assert forall n :: NextOpen(c, d, n) ==> n == next;
    assert forall p :: PreviousOpen(c, d, p) ==> p == previous;
  }

  /** Right answers pass both guards, so the overflow error is raised only for wrong ones; and an open day
      that passes from the right base is the right answer. */
  lemma GuardsAreExact(c: Calendar, roll: Roll, month: int -> int, d: int, n: int, base: int, out: int)
    requires c.Valid() && RolledTo(c, roll, month, d, base) && c.IsOpen(out)
    ensures Guards(c, d, n, base, out) <==> Shifted(c, base, n, out)
    ensures Guards(c, d, n, base, out) ==> forall other :: Shifted(c, base, n, other) ==> other == out
  {
    hide Ordinal, Shifted;
    RolledIsNear(c, roll, month, d, base);
    OrdinalsShift(c, base, n, out);
    forall other | Shifted(c, base, n, other) && Shifted(c, base, n, out) ensures other == out {
      ShiftIsUnique(c, base, n, other, out);
    }
  }

  /** Roll "allow": `n` days after any day, open or not, is the day with exactly `n` open days in (start, end];
      `n` days before a day is the one with exactly `n` open days in [end, start). */
  lemma AllowCounts(c: Calendar, month: int -> int, d: int, n: int, base: int, out: int)
    requires c.Valid() && RolledTo(c, Allow, month, d, base) && Shifted(c, base, Adjusted(c, Allow, d, n), out)
    ensures n > 0 ==> d < out && Count(c, d + 1, out + 1) == n
    ensures n < 0 ==> out < d && Count(c, out, d) == -n
  {
    hide Ordinal;
    ShiftedOrdinals(c, base, Adjusted(c, Allow, d, n), out);
    RolledIsNear(c, Allow, month, d, base);
    ClosedStretch(c, d, base);
    NextOrdinal(c, out);
    NextOrdinal(c, d);
    var m := Adjusted(c, Allow, d, n);
    if n > 0 {
      if out < base {
        OpenDayAdvances(c, out, base);
      }
      assert d <= base <= out;
      OrdinalCounts(c, d + 1, out + 1);
    } else if n < 0 {
      if base <= out {
        if base < out {
          OpenDayAdvances(c, base, out);
        }
      }
      if d <= out {
        OrdinalCounts(c, d, out);
      }
      OrdinalCounts(c, out, d);
    }
  }

  /** Counting from an open day to the day `n` trading days later gives back `n`. */
  lemma CountInvertsAdd(c: Calendar, start: int, n: int, out: int)
    requires c.Valid() && c.IsOpen(start) && n >= 0 && Shifted(c, start, n, out)
    ensures NumTradingDays(c, start, out, false, true) == Some(n)
  {
    hide Ordinal;
    ShiftedOrdinals(c, start, n, out);
    NextOrdinal(c, start);
    NextOrdinal(c, out);
    OrdinalCounts(c, start + 1, out + 1);
  }

  // ---- Splitting a timestamp into day and time ----

  datatype Split = Split(day: int, time: int, step: nat)

  /** `_normalize_datetime` for a unit of `ticks` per day counted in steps of `step`. */
  function SplitTime(value: int, step: nat, ticks: nat): Split
    requires step > 0 && ticks > 0
  {
    var total := value * step;
    var timeStep := if ticks % step == 0 then step else 1;
    Split(total / ticks, (total % ticks) / timeStep, timeStep)
  }

  /** Putting the day and the time of day back together, as `add_trading_days` does with its result. */
  function Recombine(day: int, time: int, step: nat, ticks: nat): int
    requires step > 0
  {
    day * (ticks / step) + time
  }

  lemma DividesRemainder(total: int, step: nat, ticks: nat, m: int)
    requires step > 0 && ticks > 0 && ticks % step == 0 && total == m * step
    ensures (total % ticks) % step == 0
  {
    var q, k := total / ticks, ticks / step;
    assert ticks == k * step;
    assert total % ticks == total - q * ticks;
    assert q * ticks == (q * k) * step;
    assert total % ticks == (m - q * k) * step;
    MultipleHasNoRemainder(m - q * k, step);
  }

  lemma MultipleHasNoRemainder(a: int, step: nat)
    requires step > 0
    ensures (a * step) % step == 0
  {
    var r, q := (a * step) % step, (a * step) / step;
    assert a * step == q * step + r;
    assert r == (a - q) * step;
    Grows(a - q, step);
  }

  lemma Grows(x: int, step: nat)
    ensures x >= 1 ==> x * step >= step
    ensures x <= -1 ==> x * step <= -(step as int)
  {
    assert x >= 1 ==> (x - 1) * step >= 0;
    assert x <= -1 ==> (-1 - x) * step >= 0;
  }

  /** The split recombines exactly for every unit and step, and the time lies within the day. */
  lemma SplitRecombines(value: int, step: nat, ticks: nat)
    requires step > 0 && ticks > 0
    ensures var s := SplitTime(value, step, ticks);
            && Recombine(s.day, s.time, s.step, ticks) * s.step == value * step
            && 0 <= s.time * s.step < ticks
  {
    var s := SplitTime(value, step, ticks);
    var total := value * step;
    var rest := total % ticks;
    if ticks % step == 0 {
      DividesRemainder(total, step, ticks, value);
      var k := ticks / step;
      assert ticks == k * step && rest == s.time * step;
      assert (s.day * k + s.time) * step == s.day * (k * step) + s.time * step;
    } else {
      assert ticks / 1 == ticks;
    }
  }
}
