/** Hierarchical exposure clipping: every limit holds at once, whatever order the limits came in. */
module ExposureLimits {
  import opened Options

  datatype Level = Instrument | Group | Strategy | Portfolio

  /** A limit on the gross exposure of one hierarchy node; a portfolio limit's key is empty. */
  datatype Limit = Limit(level: Level, key: string, maximum: real)

  datatype Row = Row(symbol: string, strategy: string, group: string, before: real, net: real, multiplier: real)

  predicate Matches(l: Limit, r: Row) {
    match l.level
    case Instrument => r.symbol == l.key
    case Group => r.group == l.key
    case Strategy => r.strategy == l.key
    case Portfolio => true
  }

  predicate ValidLimits(limits: seq<Limit>) {
    && (forall i :: 0 <= i < |limits| ==>
      limits[i].maximum > 0.0 && (limits[i].level.Portfolio? ==> limits[i].key == ""))
    && (forall i, j :: 0 <= i < j < |limits| ==> Apart(limits[i], limits[j]))
  }

  /** Distinct identities. */
  predicate Apart(a: Limit, b: Limit) {
    a.level != b.level || a.key != b.key
  }

  function Abs(x: real): real {
    if x < 0.0 then -x else x
  }

  function Times(x: real, m: real): real {
    x * m
  }

  lemma TimesFacts(x: real, m: real)
    requires 0.0 <= m
    ensures Abs(Times(x, m)) == Times(Abs(x), m)
    ensures m <= 1.0 ==> Times(Abs(x), m) <= Abs(x)
    ensures Times(x, 1.0) == x && Times(0.0, m) == 0.0
    ensures x > 0.0 && m > 0.0 ==> Times(x, m) > 0.0
  {
    Nonnegative(Abs(x), m);
    if m <= 1.0 {
      Nonnegative(Abs(x), 1.0 - m);
      assert Abs(x) * (1.0 - m) == Abs(x) - Abs(x) * m;
    }
    assert x < 0.0 ==> (-x) * m == -(x * m);
  }

  lemma Nonnegative(a: real, b: real)
    requires a >= 0.0 && b >= 0.0
    ensures a * b >= 0.0
  {}

  lemma Expanded(r: real, b: real)
    ensures (r - 1.0) * b == b * r - b && (-r) * b == -(b * r)
  {}

  lemma BelowOne(a: real, b: real, r: real)
    requires 0.0 < a < b && b * r == a
    ensures 0.0 < r < 1.0
  {
    Expanded(r, b);
    if r >= 1.0 {
      Nonnegative(r - 1.0, b);
    } else if r <= 0.0 {
      Nonnegative(-r, b);
    }
  }

  lemma Ratio(a: real, b: real)
    requires 0.0 < a < b
    ensures 0.0 < a / b < 1.0 && b * (a / b) == a
  {
    BelowOne(a, b, a / b);
  }

  lemma TimesAdds(a: real, b: real, m: real)
    ensures Times(a + b, m) == Times(a, m) + Times(b, m)
    ensures Times(Times(a, b), m) == Times(Times(a, m), b)
    ensures Times(Times(a, b), m) == Times(a, Times(b, m))
  {}

  /** Gross exposure of a node. */
  function Gross(l: Limit, rows: seq<Row>): real {
    if |rows| == 0 then 0.0
    else
      var r := rows[|rows| - 1];
      Gross(l, rows[..|rows| - 1]) + if Matches(l, r) then Abs(r.net) else 0.0
  }

  function Multiplier(l: Limit, rows: seq<Row>): real
    requires l.maximum > 0.0
  {
    var gross := Gross(l, rows);
    if gross > l.maximum then l.maximum / gross else 1.0
  }

  function Scaled(l: Limit, r: Row, m: real): Row {
    if Matches(l, r) then r.(net := Times(r.net, m), multiplier := Times(r.multiplier, m)) else r
  }

  function Scale(l: Limit, rows: seq<Row>, m: real): (s: seq<Row>)
    ensures |s| == |rows| && forall k :: 0 <= k < |rows| ==> s[k] == Scaled(l, rows[k], m)
  {
    seq(|rows|, k requires 0 <= k < |rows| => Scaled(l, rows[k], m))
  }

  /** One limit applied. */
  function Clip(l: Limit, rows: seq<Row>): (s: seq<Row>)
    requires l.maximum > 0.0
    ensures |s| == |rows|
  {
    Scale(l, rows, Multiplier(l, rows))
  }

  // ---- What clipping does to gross exposures ----

  lemma {:induction false} GrossNonnegative(l: Limit, rows: seq<Row>)
    ensures Gross(l, rows) >= 0.0
  {
    if |rows| > 0 {
      GrossNonnegative(l, rows[..|rows| - 1]);
    }
  }

  lemma ScaleSnoc(l: Limit, rows: seq<Row>, m: real)
    requires |rows| > 0
    ensures var n := |rows| - 1;
            Scale(l, rows, m)[..n] == Scale(l, rows[..n], m) && Scale(l, rows, m)[n] == Scaled(l, rows[n], m)
  {}

  lemma {:induction false} ScaledGross(l: Limit, rows: seq<Row>, m: real)
    requires 0.0 <= m
    ensures Gross(l, Scale(l, rows, m)) == Times(Gross(l, rows), m)
  {
    hide Times, Scale;
    TimesFacts(0.0, m);
    if |rows| > 0 {
      var n := |rows| - 1;
      ScaledGross(l, rows[..n], m);
      ScaleSnoc(l, rows, m);
      TimesFacts(rows[n].net, m);
      TimesAdds(Gross(l, rows[..n]), Abs(rows[n].net), m);
    }
  }

  /** Scaling one node down never raises another node's gross exposure. */
  lemma {:induction false} OthersShrink(l: Limit, other: Limit, rows: seq<Row>, m: real)
    requires 0.0 <= m <= 1.0
    ensures Gross(other, Scale(l, rows, m)) <= Gross(other, rows)
  {
    hide Times, Scale;
    if |rows| > 0 {
      var n := |rows| - 1;
      OthersShrink(l, other, rows[..n], m);
      ScaleSnoc(l, rows, m);
      TimesFacts(rows[n].net, m);
    }
  }

  lemma MultiplierFacts(l: Limit, rows: seq<Row>)
    requires l.maximum > 0.0
    ensures 0.0 < Multiplier(l, rows) <= 1.0
    ensures Times(Gross(l, rows), Multiplier(l, rows)) 
         == if Gross(l, rows) > l.maximum then l.maximum else Gross(l, rows)
    ensures Gross(l, rows) <= l.maximum <==> Multiplier(l, rows) == 1.0
  {
    var gross := Gross(l, rows);
    if gross > l.maximum {
      Ratio(l.maximum, gross);
    }
  }

  /** Clipping meets its limit and takes no more than that needs. */
  lemma ClipMeets(l: Limit, rows: seq<Row>)
    requires l.maximum > 0.0
    ensures Gross(l, Clip(l, rows)) == if Gross(l, rows) > l.maximum then l.maximum else Gross(l, rows)
  {
    hide Times;
    MultiplierFacts(l, rows);
    ScaledGross(l, rows, Multiplier(l, rows));
  }

  // ---- All limits, in a list ----

  function ApplyAll(limits: seq<Limit>, rows: seq<Row>): (s: seq<Row>)
    requires forall i :: 0 <= i < |limits| ==> limits[i].maximum > 0.0
    ensures |s| == |rows|
  {
    if |limits| == 0 then rows else ApplyAll(limits[1..], Clip(limits[0], rows))
  }

  lemma {:induction false} OthersStayShrunk(limits: seq<Limit>, other: Limit, rows: seq<Row>)
    requires forall i :: 0 <= i < |limits| ==> limits[i].maximum > 0.0
    ensures Gross(other, ApplyAll(limits, rows)) <= Gross(other, rows)
  {
    hide Multiplier;
    if |limits| > 0 {
      MultiplierFacts(limits[0], rows);
      OthersShrink(limits[0], other, rows, Multiplier(limits[0], rows));
      OthersStayShrunk(limits[1..], other, Clip(limits[0], rows));
    }
  }

  /** After all limits have been applied, every one of them holds. */
  lemma {:induction false} AllHold(limits: seq<Limit>, rows: seq<Row>, i: nat)
    requires (forall j :: 0 <= j < |limits| ==> limits[j].maximum > 0.0) && i < |limits|
    ensures Gross(limits[i], ApplyAll(limits, rows)) <= limits[i].maximum
  {
    if i == 0 {
      ClipMeets(limits[0], rows);
      OthersStayShrunk(limits[1..], limits[0], Clip(limits[0], rows));
    } else {
      AllHold(limits[1..], Clip(limits[0], rows), i - 1);
    }
  }

  lemma {:induction false} ApplyNext(limits: seq<Limit>, x: Limit, rows: seq<Row>)
    requires x.maximum > 0.0 && forall i :: 0 <= i < |limits| ==> limits[i].maximum > 0.0
    ensures ApplyAll(limits + [x], rows) == Clip(x, ApplyAll(limits, rows))
  {
    hide Clip;
    if |limits| > 0 {
      ApplyNext(limits[1..], x, Clip(limits[0], rows));
      assert (limits + [x])[1..] == limits[1..] + [x];
    } else {
      assert ([] + [x])[1..] == [];
    }
  }

  /** A row's exposure is its original times its recorded multiplier, which lies in (0, 1]. */
  predicate Recorded(r: Row) {
    r.net == Times(r.before, r.multiplier) && 0.0 < r.multiplier <= 1.0
  }

  lemma ScaledRecords(l: Limit, r: Row, m: real)
    requires Recorded(r) && 0.0 < m <= 1.0
    ensures Recorded(Scaled(l, r, m)) && Scaled(l, r, m).before == r.before
  {
    hide Times;
    TimesAdds(r.before, r.multiplier, m);
    TimesFacts(r.multiplier, m);
  }

  lemma {:induction false} AllRecorded(limits: seq<Limit>, rows: seq<Row>)
    requires forall j :: 0 <= j < |limits| ==> limits[j].maximum > 0.0
    requires forall k :: 0 <= k < |rows| ==> Recorded(rows[k])
    ensures var s := ApplyAll(limits, rows);
            forall k :: 0 <= k < |rows| ==> Recorded(s[k]) && s[k].before == rows[k].before
  {
    hide Recorded, Multiplier;
    if |limits| > 0 {
      MultiplierFacts(limits[0], rows);
      forall k | 0 <= k < |rows|
        ensures Recorded(Clip(limits[0], rows)[k]) && Clip(limits[0], rows)[k].before == rows[k].before
      {
        ScaledRecords(limits[0], rows[k], Multiplier(limits[0], rows));
      }
      AllRecorded(limits[1..], Clip(limits[0], rows));
    }
  }

  /** Rows that already meet every limit are left alone. */
  lemma {:induction false} MetChangesNothing(limits: seq<Limit>, rows: seq<Row>)
    requires forall i :: 0 <= i < |limits| ==> limits[i].maximum > 0.0 && Gross(limits[i], rows) <= limits[i].maximum
    ensures ApplyAll(limits, rows) == rows
  {
    hide Multiplier, Times;
    if |limits| > 0 {
      MultiplierFacts(limits[0], rows);
      forall k | 0 <= k < |rows| ensures Scaled(limits[0], rows[k], 1.0) == rows[k] {
        TimesFacts(rows[k].net, 1.0);
        TimesFacts(rows[k].multiplier, 1.0);
      }
      assert Clip(limits[0], rows) == rows;
      MetChangesNothing(limits[1..], rows);
    }
  }

  // ---- Independence of the order ----

  /** Two limits of one level touch different rows. */
  lemma {:induction false} DisjointGross(l: Limit, other: Limit, rows: seq<Row>, m: real)
    requires l.level == other.level && !l.level.Portfolio? && l.key != other.key
    ensures Gross(other, Scale(l, rows, m)) == Gross(other, rows)
  {
    hide Times, Scale;
    if |rows| > 0 {
      DisjointGross(l, other, rows[..|rows| - 1], m);
      ScaleSnoc(l, rows, m);
    }
  }

  lemma ClipsCommute(a: Limit, b: Limit, rows: seq<Row>)
    requires a.maximum > 0.0 && b.maximum > 0.0
    requires a.level == b.level && !a.level.Portfolio? && a.key != b.key
    ensures Clip(a, Clip(b, rows)) == Clip(b, Clip(a, rows))
  {
    hide Times;
    DisjointGross(b, a, rows, Multiplier(b, rows));
    DisjointGross(a, b, rows, Multiplier(a, rows));
  }

  predicate LevelsAscend(limits: seq<Limit>) {
    forall i, j :: 0 <= i < j < |limits| ==> Rank(limits[i].level) <= Rank(limits[j].level)
  }

  function Rank(l: Level): nat {
    match l
    case Instrument => 0
    case Group => 1
    case Strategy => 2
    case Portfolio => 3
  }

  lemma Front(x: Limit, rest: seq<Limit>, rows: seq<Row>)
    requires x.maximum > 0.0 && forall i :: 0 <= i < |rest| ==> rest[i].maximum > 0.0
    ensures ApplyAll([x] + rest, rows) == ApplyAll(rest, Clip(x, rows))
  {
    hide Clip;
    assert ([x] + rest)[1..] == rest;
  }

  /** A limit may be applied ahead of the ones before it that share its level. */
  lemma {:induction false} MoveToFront(before: seq<Limit>, x: Limit, after: seq<Limit>, rows: seq<Row>)
    requires x.maximum > 0.0 && forall i :: 0 <= i < |before| ==> before[i].maximum > 0.0
    requires forall i :: 0 <= i < |after| ==> after[i].maximum > 0.0
    requires !x.level.Portfolio? || |before| == 0
    requires forall i :: 0 <= i < |before| ==> before[i].level == x.level && before[i].key != x.key
    ensures ApplyAll(before + ([x] + after), rows) == ApplyAll([x] + (before + after), rows)
  {
    hide Clip, ApplyAll;
    if |before| == 0 {
      assert before + ([x] + after) == [x] + after && before + after == after;
    } else {
      var first, rest := before[0], before[1..];
      MoveToFront(rest, x, after, Clip(first, rows));
      assert before + ([x] + after) == [first] + (rest + ([x] + after)) && before + after == [first] + (rest + after);
      Front(first, rest + ([x] + after), rows);
      Front(x, rest + after, Clip(first, rows));
      Front(x, [first] + (rest + after), rows);
      Front(first, rest + after, Clip(x, rows));
      ClipsCommute(first, x, rows);
    }
  }

  /** Two level-ordered lists of the same limits give the same result. */
  lemma {:induction false} OrderDoesNotMatter(a: seq<Limit>, b: seq<Limit>, rows: seq<Row>)
    requires ValidLimits(a) && ValidLimits(b) && LevelsAscend(a) && LevelsAscend(b)
    requires multiset(a) == multiset(b)
    ensures ApplyAll(a, rows) == ApplyAll(b, rows)
    decreases |a|
  {
    hide ApplyAll, Clip;
    if |a| == 0 {
      assert |b| == |multiset(b)| == |multiset(a)| == 0;
      assert a == b;
    } else {
      var j := FirstAmong(a, b);
      var before, after := b[..j], b[j + 1..];
      assert b == before + ([a[0]] + after) && a == [a[0]] + a[1..];
      MoveToFront(before, a[0], after, rows);
      Front(a[0], before + after, rows);
      Front(a[0], a[1..], rows);
      RemovedKeeps(b, j);
      TailKeeps(a);
      SameRest(a, b, j);
      OrderDoesNotMatter(a[1..], before + after, Clip(a[0], rows));
    }
  }

  /** The first limit of one list stands in the other behind limits of its own level only. */
  lemma FirstAmong(a: seq<Limit>, b: seq<Limit>) returns (j: nat)
    requires ValidLimits(a) && ValidLimits(b) && LevelsAscend(a) && LevelsAscend(b)
    requires multiset(a) == multiset(b) && |a| > 0
    ensures j < |b| && b[j] == a[0] && (a[0].level.Portfolio? ==> j == 0)
    ensures forall i :: 0 <= i < j ==> b[i].level == a[0].level && b[i].key != a[0].key
  {
    assert a[0] in multiset(b);
    j :| 0 <= j < |b| && b[j] == a[0];
    forall i | 0 <= i < j ensures b[i].level == a[0].level && b[i].key != a[0].key {
      assert b[i] in multiset(a);
      var k :| 0 <= k < |a| && a[k] == b[i];
      assert k > 0 ==> Rank(a[0].level) <= Rank(a[k].level);
      assert Rank(b[i].level) <= Rank(b[j].level);
      assert Apart(b[i], b[j]);
    }
    assert a[0].level.Portfolio? ==> a[0].key == "";
    assert b[0].level.Portfolio? ==> b[0].key == "";
  }

  lemma TailKeeps(a: seq<Limit>)
    requires ValidLimits(a) && LevelsAscend(a) && |a| > 0
    ensures ValidLimits(a[1..]) && LevelsAscend(a[1..])
  {}

  lemma SameRest(a: seq<Limit>, b: seq<Limit>, j: nat)
    requires multiset(a) == multiset(b) && |a| > 0 && j < |b| && b[j] == a[0]
    ensures multiset(a[1..]) == multiset(b[..j] + b[j + 1..])
  {
    assert a == [a[0]] + a[1..] && b == b[..j] + [b[j]] + b[j + 1..];
    assert multiset(a[1..]) == multiset(a) - multiset{a[0]};
    assert multiset(b[..j] + b[j + 1..]) == multiset(b) - multiset{b[j]};
  }

  lemma RemovedKeeps(b: seq<Limit>, j: nat)
    requires ValidLimits(b) && LevelsAscend(b) && j < |b|
    ensures ValidLimits(b[..j] + b[j + 1..]) && LevelsAscend(b[..j] + b[j + 1..])
  {
    var rest := b[..j] + b[j + 1..];
    assert forall i :: 0 <= i < |rest| ==> rest[i] == b[if i < j then i else i + 1];
  }

  /** `sorted(limits, key=level)`: stable, so each level keeps its order. */
  function OfLevel(limits: seq<Limit>, level: Level): (r: seq<Limit>)
    ensures forall l :: l in r ==> l in limits && l.level == level
  {
    if |limits| == 0 then []
    else
      assert limits == limits[..|limits| - 1] + [limits[|limits| - 1]];
      var last := limits[|limits| - 1];
      OfLevel(limits[..|limits| - 1], level) + if last.level == level then [last] else []
  }

  function ByLevel(limits: seq<Limit>): seq<Limit> {
    OfLevel(limits, Instrument) + OfLevel(limits, Group) + OfLevel(limits, Strategy) + OfLevel(limits, Portfolio)
  }

  lemma OfLevelSnoc(limits: seq<Limit>, x: Limit, level: Level)
    ensures OfLevel(limits + [x], level) == OfLevel(limits, level) + if x.level == level then [x] else []
  {
    assert (limits + [x])[..|limits|] == limits;
  }

  lemma {:induction false} ByLevelPermutes(limits: seq<Limit>)
    ensures multiset(ByLevel(limits)) == multiset(limits)
  {
    hide OfLevel;
    if |limits| == 0 {
      NoLevels();
    } else {
      var rest, x := limits[..|limits| - 1], limits[|limits| - 1];
      ByLevelPermutes(rest);
      assert limits == rest + [x];
      OfLevelSnoc(rest, x, Instrument);
      OfLevelSnoc(rest, x, Group);
      OfLevelSnoc(rest, x, Strategy);
      OfLevelSnoc(rest, x, Portfolio);
      assert multiset(ByLevel(limits)) == multiset(ByLevel(rest)) + multiset{x};
    }
  }

  lemma NoLevels()
    ensures ByLevel([]) == []
  {}

  lemma ByLevelAscends(limits: seq<Limit>)
    ensures LevelsAscend(ByLevel(limits))
  {
    var a, b, c, d := OfLevel(limits, Instrument), OfLevel(limits, Group), OfLevel(limits, Strategy),
      OfLevel(limits, Portfolio);
    var all := a + b + c + d;
    forall i | 0 <= i < |all|
      ensures Rank(all[i].level) ==
        if i < |a| then 0 else if i < |a| + |b| then 1 else if i < |a| + |b| + |c| then 2 else 3
    {
      if i < |a| {
        assert a[i] in a;
      } else if i < |a| + |b| {
        assert b[i - |a|] in b;
      } else if i < |a| + |b| + |c| {
        assert c[i - |a| - |b|] in c;
      } else {
        assert d[i - |a| - |b| - |c|] in d;
      }
    }
  }

  /** Distinctness is a matter of what is in the list, not where. */
  lemma ValidPermutes(a: seq<Limit>, b: seq<Limit>)
    requires ValidLimits(a) && multiset(a) == multiset(b)
    ensures ValidLimits(b)
  {
    forall i | 0 <= i < |b| ensures b[i].maximum > 0.0 && (b[i].level.Portfolio? ==> b[i].key == "") {
      assert b[i] in multiset(a);
      var k :| 0 <= k < |a| && a[k] == b[i];
    }
    forall i, j | 0 <= i < j < |b| ensures Apart(b[i], b[j]) {
      assert b[i] in multiset(a) && b[j] in multiset(a);
      var k :| 0 <= k < |a| && a[k] == b[i];
      var l :| 0 <= l < |a| && a[l] == b[j];
      if k == l {
        Once(a, k);
        Twice(b, i, j);
      } else {
        assert Apart(a[if k < l then k else l], a[if k < l then l else k]);
      }
    }
  }

  lemma Once(a: seq<Limit>, k: nat)
    requires ValidLimits(a) && k < |a|
    ensures multiset(a)[a[k]] == 1
  {
    assert a == a[..k] + [a[k]] + a[k + 1..];
    assert forall i :: 0 <= i < |a| && i != k ==> a[i] != a[k] by {
      forall i | 0 <= i < |a| && i != k ensures a[i] != a[k] {
        assert Apart(a[if i < k then i else k], a[if i < k then k else i]);
      }
    }
    assert a[k] !in a[..k] && a[k] !in a[k + 1..];
  }

  lemma Twice(b: seq<Limit>, i: nat, j: nat)
    requires i < j < |b| && b[i] == b[j]
    ensures multiset(b)[b[i]] >= 2
  {
    assert b == b[..i] + [b[i]] + b[i + 1..j] + [b[j]] + b[j + 1..];
  }

  // ---- `HierarchicalExposureLimiter.apply` ----

  datatype Diagnostic = Diagnostic(limit: Limit, grossBefore: real, multiplier: real, grossAfter: real)

  predicate MatchesSome(l: Limit, rows: seq<Row>) {
    exists k :: 0 <= k < |rows| && Matches(l, rows[k])
  }

  /** A row as it enters: nothing clipped yet. */
  predicate Entering(r: Row) {
    r.net == r.before && r.multiplier == 1.0
  }

  /** A diagnostic row describes its own limit's step: what it found, what it applied, what it left. */
  ghost predicate Describes(d: Diagnostic, l: Limit, found: seq<Row>) {
    && d.limit == l && l.maximum > 0.0
    && d.grossBefore == Gross(l, found) && d.grossAfter == Gross(l, Clip(l, found)) <= l.maximum
    && d.grossAfter == Times(d.grossBefore, d.multiplier) && 0.0 < d.multiplier <= 1.0
    && (d.multiplier == 1.0 <==> d.grossBefore <= l.maximum)
  }

  lemma StepDescribed(l: Limit, found: seq<Row>)
    requires l.maximum > 0.0
    ensures var gross, m := Gross(l, found), Multiplier(l, found);
            Describes(Diagnostic(l, gross, m, Times(gross, m)), l, found)
  {
    hide Multiplier, Times;
    MultiplierFacts(l, found);
    ScaledGross(l, found, Multiplier(l, found));
    ClipMeets(l, found);
  }

  /** The limiter's loop; a limit that matches no position is an error. */
  method Apply(limits: seq<Limit>, positions: seq<Row>) returns (result: Option<seq<Row>>, rows: seq<Diagnostic>)
    requires ValidLimits(limits) && forall k :: 0 <= k < |positions| ==> Entering(positions[k])
    ensures result.Some? <==> forall l :: l in limits ==> MatchesSome(l, positions)
    ensures forall i :: 0 <= i < |ByLevel(limits)| ==> ByLevel(limits)[i].maximum > 0.0
    ensures result.Some? ==>
      && |result.value| == |positions|
      && result.value == ApplyAll(ByLevel(limits), positions)
      && (forall l :: l in limits ==> Gross(l, result.value) <= l.maximum)
      && (forall k :: 0 <= k < |positions| ==>
        Recorded(result.value[k]) && result.value[k].before == positions[k].before)
      && |rows| == |ByLevel(limits)|
      && (forall i :: 0 <= i < |rows| ==>
        Describes(rows[i], ByLevel(limits)[i], ApplyAll(ByLevel(limits)[..i], positions)))
  {
    hide Multiplier, Times, MatchesSome, ByLevel, Describes;
    var sorted := ByLevel(limits);
    ByLevelPermutes(limits);
    ValidPermutes(limits, sorted);
    var current := positions;
    rows := [];
    for i := 0 to |sorted|
      invariant |rows| == i && current == ApplyAll(sorted[..i], positions)
      invariant forall l :: MatchesSome(l, current) <==> MatchesSome(l, positions)
      invariant forall j :: 0 <= j < i ==> MatchesSome(sorted[j], positions)
      invariant forall j :: 0 <= j < i ==> Describes(rows[j], sorted[j], ApplyAll(sorted[..j], positions))
    {
      var limit := sorted[i];
      assert limit in multiset(sorted);
      if !MatchesSome(limit, current) {
        return None, rows;
      }
      var gross, multiplier := Gross(limit, current), Multiplier(limit, current);
      StepDescribed(limit, current);
      ScaleMatches(limit, current, multiplier);
      ApplyNext(sorted[..i], limit, positions);
      assert sorted[..i + 1] == sorted[..i] + [limit];
      current := Scale(limit, current, multiplier);
      rows := rows + [Diagnostic(limit, gross, multiplier, Times(gross, multiplier))];
    }
    assert sorted[..|sorted|] == sorted;
    AllMet(limits, positions);
    result := Some(current);
  }

  lemma AllMet(limits: seq<Limit>, positions: seq<Row>)
    requires ValidLimits(limits) && forall k :: 0 <= k < |positions| ==> Entering(positions[k])
    ensures |ByLevel(limits)| == |limits| && forall l :: l in limits ==> l in ByLevel(limits)
    ensures forall i :: 0 <= i < |ByLevel(limits)| ==> ByLevel(limits)[i].maximum > 0.0
    ensures var s := ApplyAll(ByLevel(limits), positions);
            && (forall l :: l in limits ==> Gross(l, s) <= l.maximum)
            && (forall k :: 0 <= k < |positions| ==> Recorded(s[k]) && s[k].before == positions[k].before)
  {
    hide ByLevel, ApplyAll, Gross, Times;
    var sorted := ByLevel(limits);
    ByLevelPermutes(limits);
    ValidPermutes(limits, sorted);
    assert |sorted| == |multiset(sorted)| == |limits|;
    forall l | l in limits ensures l in sorted && Gross(l, ApplyAll(sorted, positions)) <= l.maximum {
      assert l in multiset(limits);
      var i :| 0 <= i < |sorted| && sorted[i] == l;
      AllHold(sorted, positions, i);
    }
    forall k | 0 <= k < |positions| ensures Recorded(positions[k]) {
      TimesFacts(positions[k].before, 1.0);
    }
    AllRecorded(sorted, positions);
  }

  lemma ScaleMatches(l: Limit, rows: seq<Row>, m: real)
    ensures forall x :: MatchesSome(x, Scale(l, rows, m)) <==> MatchesSome(x, rows)
  {
    var s := Scale(l, rows, m);
    forall x ensures MatchesSome(x, s) <==> MatchesSome(x, rows) {
      if MatchesSome(x, rows) {
        var k :| 0 <= k < |rows| && Matches(x, rows[k]);
        assert Matches(x, s[k]);
      }
      if MatchesSome(x, s) {
        var k :| 0 <= k < |s| && Matches(x, s[k]);
        assert Matches(x, rows[k]);
      }
    }
  }

  /** The result does not depend on the order the limits were supplied in, and is stable under reapplication. */
  lemma SupplyOrderDoesNotMatter(a: seq<Limit>, b: seq<Limit>, rows: seq<Row>)
    requires ValidLimits(a) && multiset(a) == multiset(b)
    ensures ValidLimits(b)
    ensures ValidLimits(ByLevel(a)) && ValidLimits(ByLevel(b))
    ensures ApplyAll(ByLevel(a), rows) == ApplyAll(ByLevel(b), rows)
  {
    hide ByLevel;
    ValidPermutes(a, b);
    ByLevelPermutes(a);
    ByLevelPermutes(b);
    ValidPermutes(a, ByLevel(a));
    ValidPermutes(b, ByLevel(b));
    ByLevelAscends(a);
    ByLevelAscends(b);
    OrderDoesNotMatter(ByLevel(a), ByLevel(b), rows);
  }

  /** A row of a result handed in again. */
  function Again(rows: seq<Row>): (s: seq<Row>)
    ensures |s| == |rows| && forall k :: 0 <= k < |s| ==> s[k] == rows[k].(before := rows[k].net, multiplier := 1.0)
  {
    seq(|rows|, k requires 0 <= k < |rows| => rows[k].(before := rows[k].net, multiplier := 1.0))
  }

  lemma {:induction false} AgainGross(l: Limit, rows: seq<Row>)
    ensures Gross(l, Again(rows)) == Gross(l, rows)
  {
    if |rows| > 0 {
      AgainGross(l, rows[..|rows| - 1]);
      assert Again(rows)[..|rows| - 1] == Again(rows[..|rows| - 1]);
    }
  }

  /** Applying the limits to their own result changes nothing. */
  lemma ApplyIsIdempotent(limits: seq<Limit>, rows: seq<Row>)
    requires ValidLimits(limits)
    ensures ValidLimits(ByLevel(limits))
    ensures var once := ApplyAll(ByLevel(limits), rows);
            ApplyAll(ByLevel(limits), Again(once)) == Again(once)
  {
    hide ByLevel, ApplyAll;
    ByLevelPermutes(limits);
    ValidPermutes(limits, ByLevel(limits));
    var sorted := ByLevel(limits);
    var once := ApplyAll(sorted, rows);
    forall i | 0 <= i < |sorted| ensures Gross(sorted[i], Again(once)) <= sorted[i].maximum {
      AllHold(sorted, rows, i);
      AgainGross(sorted[i], once);
    }
    MetChangesNothing(sorted, Again(once));
  }
}
