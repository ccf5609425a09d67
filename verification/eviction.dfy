/** Which nodes an eviction removes: the shortest least-recently-used prefix that meets the limits. */
module Eviction {
  import opened Options

  type Key = nat
  type Gen = nat

  /** What a scan learns of one indexed node. */
  datatype Entry = Entry(
    lastAccess: int, key: Key, generation: Gen, stored: nat, space: nat, isProtected: bool)

  datatype Limits = Limits(
    maxBytes: nat, maxNodes: Option<nat>, maxSpace: Option<nat>, minFree: nat, trigger: Option<nat>)
  {
    predicate Consistent() {
      trigger.Some? && maxSpace.Some? ==> trigger.value >= maxSpace.value
    }
  }

  datatype Totals = Totals(bytes: int, nodes: int, space: int, free: int)

  datatype Report = Report(
    evicted: seq<Key>, removed: seq<Gen>, kept: seq<Key>, before: Totals, after: Totals, triggered: bool,
      satisfied: bool)

  /** A generation directory as the scan reads it. */
  datatype Stored = Stored(key: Key, stored: nat, space: nat, lastAccess: int, leased: bool)

  function Triggered(limits: Limits, t: Totals): bool {
    (limits.trigger.Some? && t.space > limits.trigger.value) || t.free < limits.minFree
  }

  predicate OverLimit(limits: Limits, triggered: bool, t: Totals) {
    || t.bytes > limits.maxBytes
    || (limits.maxNodes.Some? && t.nodes > limits.maxNodes.value)
    || (triggered && ((limits.maxSpace.Some? && t.space > limits.maxSpace.value) || t.free < limits.minFree))
  }

  /** Least recently used first; ties by key. */
  predicate Older(a: Entry, b: Entry) {
    a.lastAccess < b.lastAccess || (a.lastAccess == b.lastAccess && a.key < b.key)
  }

  ghost predicate LruOrder(s: seq<Entry>) {
    forall i, j :: 0 <= i < j < |s| ==> Older(s[i], s[j])
  }

  function Without(t: Totals, e: Entry): Totals {
    Totals(t.bytes - e.stored, t.nodes - 1, t.space - e.space, t.free + e.space)
  }

  /** Totals once the unprotected entries of a list are gone. */
  function After(t: Totals, s: seq<Entry>): Totals {
    if |s| == 0 then t
    else
      var e := s[|s| - 1];
      if e.isProtected then After(t, s[..|s| - 1]) else Without(After(t, s[..|s| - 1]), e)
  }

  function Select(s: seq<Entry>, isProtected: bool): (r: seq<Entry>)
    ensures forall e :: e in r <==> e in s && e.isProtected == isProtected
  {
    if |s| == 0 then []
    else
      assert s == s[..|s| - 1] + [s[|s| - 1]];
      Select(s[..|s| - 1], isProtected) + if s[|s| - 1].isProtected == isProtected then [s[|s| - 1]] else []
  }

  function KeysOf(s: seq<Entry>): (r: seq<Key>)
    ensures |r| == |s| && forall k :: 0 <= k < |s| ==> r[k] == s[k].key
  {
    seq(|s|, k requires 0 <= k < |s| => s[k].key)
  }

  function GensOf(s: seq<Entry>): (r: seq<Gen>)
    ensures |r| == |s| && forall k :: 0 <= k < |s| ==> r[k] == s[k].generation
  {
    seq(|s|, k requires 0 <= k < |s| => s[k].generation)
  }

  /** `n` is where the loop stops: no shorter prefix meets the limits, and this one does unless it is all. */
  ghost predicate Stops(limits: Limits, t: Totals, s: seq<Entry>, n: nat) {
    && n <= |s|
    && (forall m :: 0 <= m < n ==> OverLimit(limits, Triggered(limits, t), After(t, s[..m])))
    && (n < |s| ==> !OverLimit(limits, Triggered(limits, t), After(t, s[..n])))
  }

  lemma StopsOnce(limits: Limits, t: Totals, s: seq<Entry>, a: nat, b: nat)
    requires Stops(limits, t, s, a) && Stops(limits, t, s, b)
    ensures a == b
  {}

  /** The report of an eviction over the entries in order, stopping at `n`. */
  ghost function ReportOf(limits: Limits, t: Totals, s: seq<Entry>, n: nat): Report
    requires n <= |s|
  {
    var gone := Select(s[..n], false);
    var after := After(t, s[..n]);
    Report(KeysOf(gone), GensOf(gone), KeysOf(Select(s[..n], true)), t, after, Triggered(limits, t),
           !OverLimit(limits, Triggered(limits, t), after))
  }

  // ---- Totals are sums over what remains ----

  function Bytes(s: seq<Entry>): nat {
    if |s| == 0 then 0 else Bytes(s[..|s| - 1]) + s[|s| - 1].stored
  }

  function Space(s: seq<Entry>): nat {
    if |s| == 0 then 0 else Space(s[..|s| - 1]) + s[|s| - 1].space
  }

  lemma {:induction false} SumsAppend(a: seq<Entry>, b: seq<Entry>)
    ensures Bytes(a + b) == Bytes(a) + Bytes(b) && Space(a + b) == Space(a) + Space(b)
  {
    if |b| == 0 {
      assert a + b == a;
    } else {
      SumsAppend(a, b[..|b| - 1]);
      assert (a + b)[..|a + b| - 1] == a + b[..|b| - 1];
    }
  }

  lemma Snoc(t: Totals, s: seq<Entry>, e: Entry)
    ensures After(t, s + [e]) == if e.isProtected then After(t, s) else Without(After(t, s), e)
    ensures Select(s + [e], true) == Select(s, true) + if e.isProtected then [e] else []
    ensures Select(s + [e], false) == Select(s, false) + if e.isProtected then [] else [e]
    ensures Bytes(s + [e]) == Bytes(s) + e.stored && Space(s + [e]) == Space(s) + e.space
  {
    assert (s + [e])[..|s|] == s;
  }

  lemma Nothing(t: Totals)
    ensures After(t, []) == t && Select([], true) == [] && Select([], false) == [] && Bytes([]) == 0 && Space([]) == 0
  {}

  /** After the prefix, byte and node totals are those of its protected entries and of the rest; the space
      taken off the cache is exactly that of the evicted entries and is what the filesystem gains. */
  lemma {:induction false} AfterIsRemaining(t: Totals, s: seq<Entry>, n: nat)
    requires n <= |s| && t.bytes == Bytes(s) && t.nodes == |s|
    ensures var remaining := Select(s[..n], true) + s[n..];
            var after := After(t, s[..n]);
            && after.bytes == Bytes(remaining) && after.nodes == |remaining|
            && t.space - after.space == Space(Select(s[..n], false)) == after.free - t.free
  {
    hide Select, After, Bytes, Space;
    if n == 0 {
      Nothing(t);
      assert s[..0] == [] && [] + s[0..] == s;
    } else {
      AfterIsRemaining(t, s, n - 1);
      var head, e := s[..n - 1], s[n - 1];
      assert s[..n] == head + [e] && s[n - 1..] == [e] + s[n..];
      Snoc(t, head, e);
      var kept, gone := Select(head, true), Select(head, false);
      Snoc(t, gone, e);
      Snoc(t, kept, e);
      assert kept + s[n - 1..] == (kept + [e]) + s[n..];
      assert kept + [] == kept && gone + [] == gone;
      SumsAppend(kept + [e], s[n..]);
      SumsAppend(kept, s[n..]);
    }
  }

  /** Two runs from the same state evict the same: the order and the stopping point are determined. */
  lemma {:induction false} LruIsUnique(a: seq<Entry>, b: seq<Entry>)
    requires LruOrder(a) && LruOrder(b) && forall e :: e in a <==> e in b
    ensures a == b
  {
    assert (|a| > 0 ==> a[0] in a) && (|b| > 0 ==> b[0] in b);
    if |a| > 0 {
      assert a[0] in b && b[0] in a;
      var i :| 0 <= i < |b| && b[i] == a[0];
      var j :| 0 <= j < |a| && a[j] == b[0];
      assert i == 0 && j == 0;
      forall e ensures e in a[1..] <==> e in b[1..] {
        TailHas(a, e);
        TailHas(b, e);
      }
      LruIsUnique(a[1..], b[1..]);
      assert a == [a[0]] + a[1..] && b == [b[0]] + b[1..];
    }
  }

  lemma TailHas(s: seq<Entry>, e: Entry)
    requires LruOrder(s) && |s| > 0
    ensures e in s[1..] <==> e in s && e != s[0]
  {}

  // ---- Sorting the scan ----

  method InsertOlder(sorted: seq<Entry>, e: Entry) returns (r: seq<Entry>)
    requires LruOrder(sorted) && forall x :: x in sorted ==> x.key != e.key
    ensures LruOrder(r) && forall x :: x in r <==> x in sorted || x == e
  {
    hide LruOrder;
    var i := 0;
    while i < |sorted| && Older(sorted[i], e)
      invariant 0 <= i <= |sorted|
      invariant forall j :: 0 <= j < i ==> Older(sorted[j], e)
    {
      i := i + 1;
    }
    r := sorted[..i] + [e] + sorted[i..];
    InsertKeepsOrder(sorted, i, e);
    InsertKeepsEntries(sorted, i, e);
  }

  lemma InsertKeepsOrder(sorted: seq<Entry>, i: nat, e: Entry)
    requires LruOrder(sorted) && i <= |sorted| && forall x :: x in sorted ==> x.key != e.key
    requires (forall j :: 0 <= j < i ==> Older(sorted[j], e)) && (i < |sorted| ==> !Older(sorted[i], e))
    ensures LruOrder(sorted[..i] + [e] + sorted[i..])
  {
    forall j | i <= j < |sorted| ensures Older(e, sorted[j]) {
      assert sorted[i] in sorted && sorted[j] in sorted;
      assert i < j ==> Older(sorted[i], sorted[j]);
    }
  }

  lemma InsertKeepsEntries(sorted: seq<Entry>, i: nat, e: Entry)
    requires i <= |sorted|
    ensures forall x :: x in sorted[..i] + [e] + sorted[i..] <==> x in sorted || x == e
  {
    assert sorted == sorted[..i] + sorted[i..];
  }

  method SumStored(entries: seq<Entry>) returns (bytes: nat)
    ensures bytes == Bytes(entries)
  {
    bytes := 0;
    for k := 0 to |entries|
      invariant bytes == Bytes(entries[..k])
    {
      assert entries[..k + 1][..k] == entries[..k];
      bytes := bytes + entries[k].stored;
    }
    assert entries[..|entries|] == entries;
  }

  /** The indexed part of the store, as eviction reads and changes it. */
  class Cache {
    var current: Gen
    var nodes: map<Key, Gen>
    var gens: map<Gen, Stored>

    /** Every pointer names an existing generation whose manifest carries its key. */
    ghost predicate Valid()
      reads this
    {
      forall k :: k in nodes ==> nodes[k] in gens && gens[nodes[k]].key == k
    }

    function EntryOf(k: Key): Entry
      reads this
      requires k in nodes && nodes[k] in gens
    {
      var g := nodes[k];
      Entry(gens[g].lastAccess, k, g, gens[g].stored, gens[g].space, g == current || gens[g].leased)
    }

    ghost predicate Scanned(s: seq<Entry>)
      reads this
      requires Valid()
    {
      LruOrder(s) && forall e :: e in s <==> e.key in nodes && e == EntryOf(e.key)
    }

    /** The scan, in whatever order the directory is listed, and its sort. */
    method Scan() returns (sorted: seq<Entry>)
      requires Valid()
      ensures Scanned(sorted)
    {
      sorted := [];
      var left := nodes.Keys;
      while left != {}
        invariant left <= nodes.Keys && LruOrder(sorted)
        invariant forall e :: e in sorted <==> e.key in nodes && e.key !in left && e == EntryOf(e.key)
        decreases |left|
      {
        var k :| k in left;
        left := left - {k};
        sorted := InsertOlder(sorted, EntryOf(k));
      }
    }

    /** Unlink a node's pointer and delete its generation. */
    method RemoveNode(e: Entry, ghost nodes0: map<Key, Gen>, ghost gens0: map<Gen, Stored>, ghost gone: seq<Entry>)
      requires Valid() && Removed(nodes0, nodes, gens0, gens, gone)
      requires e.key in nodes0 && nodes0[e.key] == e.generation && !Has(gone, e.key)
      modifies this`nodes, this`gens
      ensures Valid() && Removed(nodes0, nodes, gens0, gens, gone + [e])
    {
      hide Removed;
      assert e.key in nodes && nodes[e.key] == e.generation by {
        StillIndexed(nodes0, nodes, gens0, gens, gone, e.key);
      }
      RemoveOne(nodes0, nodes, gens0, gens, gone, e);
      nodes := nodes - {e.key};
      gens := gens - {e.generation};
    }

    /** The loop over the sorted entries. */
    method EvictInOrder(limits: Limits, before: Totals, entries: seq<Entry>, dryRun: bool)
      returns (gone: seq<Entry>, kept: seq<Entry>, after: Totals, ghost n: nat)
      requires Valid() && Scanned(entries)
      modifies this`nodes, this`gens
      ensures Valid() && Stops(limits, before, entries, n) && after == After(before, entries[..n])
      ensures gone == Select(entries[..n], false) && kept == Select(entries[..n], true)
      ensures dryRun ==> nodes == old(nodes) && gens == old(gens)
      ensures !dryRun ==> Removed(old(nodes), nodes, old(gens), gens, gone)
    {
      hide After, Select, OverLimit, Removed, LruOrder, Triggered;
      var triggered := Triggered(limits, before);
      gone, kept, after := [], [], before;
      n := 0;
      Nothing(before);
      assert entries[..0] == [];
      NothingRemoved(nodes, gens);
      ghost var nodes0, gens0 := nodes, gens;
      for i := 0 to |entries|
        invariant n == i && Valid()
        invariant forall m :: 0 <= m < i ==> OverLimit(limits, triggered, After(before, entries[..m]))
        invariant after == After(before, entries[..i])
        invariant gone == Select(entries[..i], false) && kept == Select(entries[..i], true)
        invariant dryRun ==> nodes == nodes0 && gens == gens0
        invariant !dryRun ==> Removed(nodes0, nodes, gens0, gens, gone)
      {
        if !OverLimit(limits, triggered, after) {
          break;
        }
        var e := entries[i];
        assert entries[..i + 1] == entries[..i] + [e];
        Snoc(before, entries[..i], e);
        assert gone + [] == gone && kept + [] == kept;
        if e.isProtected {
          kept := kept + [e];
        } else {
          after := Without(after, e);
          if !dryRun {
            EntryIsFresh(nodes0, entries, i, gone);
            RemoveNode(e, nodes0, gens0, gone);
          }
          gone := gone + [e];
        }
        n := n + 1;
      }
    }

    lemma EntryIsFresh(nodes0: map<Key, Gen>, entries: seq<Entry>, i: nat, gone: seq<Entry>)
      requires LruOrder(entries) && i < |entries| && gone == Select(entries[..i], false)
      requires forall e :: e in entries ==> e.key in nodes0 && nodes0[e.key] == e.generation
      requires forall e, f :: e in entries && f in entries && e.key == f.key ==> e == f
      ensures entries[i].key in nodes0 && nodes0[entries[i].key] == entries[i].generation && !Has(gone, entries[i].key)
    {
      assert entries[i] in entries;
      forall j | 0 <= j < |gone| ensures gone[j].key != entries[i].key {
        assert gone[j] in gone && gone[j] in entries[..i];
        var h :| 0 <= h < i && entries[h] == gone[j];
        assert entries[h] in entries && Older(entries[h], entries[i]);
      }
    }

    /** `evict_factor_nodes`; limits whose trigger lies below their target are refused. */
    method Evict(limits: Limits, cacheSpace: nat, free: nat, dryRun: bool)
      returns (ok: bool, r: Report, ghost sorted: seq<Entry>, ghost n: nat)
      requires Valid()
      modifies this`nodes, this`gens
      ensures Valid()
      ensures ok <==> limits.Consistent()
      ensures !ok || dryRun ==> nodes == old(nodes) && gens == old(gens)
      ensures ok ==> old(Scanned(sorted))
      ensures ok ==> var t := Totals(Bytes(sorted), |sorted|, cacheSpace, free);
              Stops(limits, t, sorted, n) && r == ReportOf(limits, t, sorted, n)
      ensures ok && !dryRun ==>
        && (forall k :: k in nodes <==> k in old(nodes) && k !in r.evicted)
        && (forall k :: k in nodes ==> nodes[k] == old(nodes)[k])
        && (forall g :: g in gens <==> g in old(gens) && g !in r.removed)
        && (forall g :: g in gens ==> gens[g] == old(gens)[g])
      ensures ok ==> forall g :: g in r.removed ==> g in old(gens) && g != current && !old(gens)[g].leased
    {
      hide After, OverLimit, Stops, Bytes, LruOrder;
      if !limits.Consistent() {
        return false, Report([], [], [], Totals(0, 0, 0, 0), Totals(0, 0, 0, 0), false, true), [], 0;
      }
      ok := true;
      var entries := Scan();
      sorted := entries;
      var bytes := SumStored(entries);
      var before := Totals(bytes, |entries|, cacheSpace, free);
      var gone, kept, after;
      gone, kept, after, n := EvictInOrder(limits, before, entries, dryRun);
      r := Report(KeysOf(gone), GensOf(gone), KeysOf(kept), before, after, Triggered(limits, before),
                  !OverLimit(limits, Triggered(limits, before), after));
      RemovedKeys(gone);
    }

    constructor (current: Gen, nodes: map<Key, Gen>, gens: map<Gen, Stored>)
      ensures this.current == current && this.nodes == nodes && this.gens == gens
    {
      this.current, this.nodes, this.gens := current, nodes, gens;
    }
  }

  ghost predicate Has(gone: seq<Entry>, k: Key) {
    exists j :: 0 <= j < |gone| && gone[j].key == k
  }

  ghost predicate HasGen(gone: seq<Entry>, g: Gen) {
    exists j :: 0 <= j < |gone| && gone[j].generation == g
  }

  /** The store without exactly the given entries. */
  ghost predicate Removed(nodes0: map<Key, Gen>, nodes: map<Key, Gen>, gens0: map<Gen, Stored>, gens: map<Gen, Stored>,
                          gone: seq<Entry>)
  {
    && (forall k :: k in nodes <==> k in nodes0 && !Has(gone, k))
    && (forall k :: k in nodes ==> nodes[k] == nodes0[k])
    && (forall g :: g in gens <==> g in gens0 && !HasGen(gone, g))
    && (forall g :: g in gens ==> gens[g] == gens0[g])
  }

  lemma HasSnoc(gone: seq<Entry>, e: Entry)
    ensures forall k :: Has(gone + [e], k) <==> Has(gone, k) || k == e.key
    ensures forall g :: HasGen(gone + [e], g) <==> HasGen(gone, g) || g == e.generation
  {
    var all := gone + [e];
    assert all[|gone|] == e;
    forall k | Has(gone, k) ensures Has(all, k) {
      var j :| 0 <= j < |gone| && gone[j].key == k;
      assert all[j].key == k;
    }
    forall g | HasGen(gone, g) ensures HasGen(all, g) {
      var j :| 0 <= j < |gone| && gone[j].generation == g;
      assert all[j].generation == g;
    }
  }

  /** Removing one node's pointer and generation leaves every other pointer intact. */
  lemma RemoveOne(nodes0: map<Key, Gen>, nodes: map<Key, Gen>, gens0: map<Gen, Stored>, gens: map<Gen, Stored>,
                  gone: seq<Entry>, e: Entry)
    requires Removed(nodes0, nodes, gens0, gens, gone) && e.key in nodes && nodes[e.key] == e.generation
    requires forall k :: k in nodes ==> nodes[k] in gens && gens[nodes[k]].key == k
    ensures Removed(nodes0, nodes - {e.key}, gens0, gens - {e.generation}, gone + [e])
    ensures forall k :: k in nodes && k != e.key ==> nodes[k] in gens - {e.generation}
  {
    HasSnoc(gone, e);
    forall k | k in nodes && k != e.key ensures nodes[k] != e.generation {
      assert gens[nodes[k]].key == k && gens[e.generation].key == e.key;
    }
  }

  lemma NothingRemoved(nodes: map<Key, Gen>, gens: map<Gen, Stored>)
    ensures Removed(nodes, nodes, gens, gens, [])
  {}

  lemma StillIndexed(nodes0: map<Key, Gen>, nodes: map<Key, Gen>, gens0: map<Gen, Stored>, gens: map<Gen, Stored>,
                     gone: seq<Entry>, k: Key)
    requires Removed(nodes0, nodes, gens0, gens, gone) && k in nodes0 && !Has(gone, k)
    ensures k in nodes && nodes[k] == nodes0[k]
  {}

  lemma RemovedKeys(gone: seq<Entry>)
    ensures forall k :: k in KeysOf(gone) <==> Has(gone, k)
    ensures forall g :: g in GensOf(gone) <==> HasGen(gone, g)
  {
    forall k | Has(gone, k) ensures k in KeysOf(gone) {
      var j :| 0 <= j < |gone| && gone[j].key == k;
      assert KeysOf(gone)[j] == k;
    }
    forall g | HasGen(gone, g) ensures g in GensOf(gone) {
      var j :| 0 <= j < |gone| && gone[j].generation == g;
      assert GensOf(gone)[j] == g;
    }
  }

  /** A dry run reports what a real run from the same state does. */
  lemma DryRunReportsRealRun(limits: Limits, space: nat, free: nat, a: seq<Entry>, m: nat, b: seq<Entry>, n: nat)
    requires LruOrder(a) && LruOrder(b) && forall e :: e in a <==> e in b
    requires Stops(limits, Totals(Bytes(a), |a|, space, free), a, m)
    requires Stops(limits, Totals(Bytes(b), |b|, space, free), b, n)
    ensures ReportOf(limits, Totals(Bytes(a), |a|, space, free), a, m)
         == ReportOf(limits, Totals(Bytes(b), |b|, space, free), b, n)
  {
    hide ReportOf;
    LruIsUnique(a, b);
    StopsOnce(limits, Totals(Bytes(a), |a|, space, free), a, m, n);
  }

  /** When the limits can be met at all by removing unprotected nodes, the eviction meets them. */
  lemma LimitsAreMet(limits: Limits, t: Totals, s: seq<Entry>, n: nat, m: nat)
    requires Stops(limits, t, s, n) && m <= |s|
    requires !OverLimit(limits, Triggered(limits, t), After(t, s[..m]))
    ensures n <= m && ReportOf(limits, t, s, n).satisfied
  {}

  // ---- Quota ----

  const MAX_BYTES: nat := 9223372036854775807

  /** `int(max_cache_bytes * watermark)` of a fraction, exactly. */
  function Watermark(maxCache: nat, fraction: real): nat
    requires 0.0 <= fraction
  {
    (maxCache as real * fraction).Floor
  }

  function QuotaLimits(maxCache: nat, reserve: nat, high: real, low: real): Limits
    requires 0.0 <= low < high <= 1.0
  {
    Limits(MAX_BYTES, None, Some(Watermark(maxCache, low)), reserve, Some(Watermark(maxCache, high)))
  }

  lemma WatermarksOrder(maxCache: nat, high: real, low: real)
    requires 0.0 <= low < high <= 1.0
    ensures Watermark(maxCache, low) <= Watermark(maxCache, high)
    ensures QuotaLimits(maxCache, 0, high, low).Consistent()
  {
    Scales(maxCache as real, low, high);
  }

  lemma Scales(k: real, a: real, b: real)
    requires k >= 0.0 && a <= b
    ensures k * a <= k * b
  {}

  /** `enforce_factor_cache_quota`: hysteresis between two watermarks of the whole cache. */
  method EnforceQuota(cache: Cache, maxCache: nat, reserve: nat, high: real, low: real, cacheSpace: nat, free: nat,
                      dryRun: bool)
    returns (ok: bool, r: Report, ghost sorted: seq<Entry>, ghost n: nat)
    requires cache.Valid()
    modifies cache`nodes, cache`gens
    ensures cache.Valid()
    ensures ok <==> 0.0 <= low < high <= 1.0
    ensures !ok || dryRun ==> cache.nodes == old(cache.nodes) && cache.gens == old(cache.gens)
    ensures ok ==>
      && old(cache.Scanned(sorted))
      && Stops(QuotaLimits(maxCache, reserve, high, low), Totals(Bytes(sorted), |sorted|, cacheSpace, free), sorted, n)
      && r == ReportOf(QuotaLimits(maxCache, reserve, high, low), Totals(Bytes(sorted), |sorted|, cacheSpace, free),
        sorted, n)
  {
    ok := 0.0 <= low < high <= 1.0;
    if ok {
      WatermarksOrder(maxCache, high, low);
      var fine;
      fine, r, sorted, n := cache.Evict(QuotaLimits(maxCache, reserve, high, low), cacheSpace, free, dryRun);
    } else {
      r := Report([], [], [], Totals(0, 0, 0, 0), Totals(0, 0, 0, 0), false, true);
      sorted, n := [], 0;
    }
  }

  lemma {:induction false} ProtectedStay(t: Totals, s: seq<Entry>)
    requires forall k :: 0 <= k < |s| ==> s[k].isProtected
    ensures After(t, s) == t && Select(s, false) == []
  {
    if |s| > 0 {
      ProtectedStay(t, s[..|s| - 1]);
    }
  }

  lemma NoneSelected(s: seq<Entry>, k: nat)
    requires Select(s, false) == [] && k < |s|
    ensures s[k].isProtected
  {
    assert s[k] in s && s[k] !in Select(s, false);
  }

  /** An untriggered eviction with only a byte limit evicts nothing exactly when the bytes are within it or
      every node is protected. */
  lemma EvictsNothingExactly(limits: Limits, t: Totals, s: seq<Entry>, n: nat)
    requires limits.maxNodes.None? && !Triggered(limits, t) && t.bytes == Bytes(s) && Stops(limits, t, s, n)
    ensures ReportOf(limits, t, s, n).evicted == [] <==>
      t.bytes <= limits.maxBytes || forall k :: 0 <= k < |s| ==> s[k].isProtected
  {
    hide Bytes;
    var head := s[..n];
    if t.bytes <= limits.maxBytes {
      assert s[..0] == [];
    } else if forall k :: 0 <= k < n ==> s[k].isProtected {
      ProtectedStay(t, head);
    } else {
      var k: nat :| k < n && !s[k].isProtected;
      if Select(head, false) == [] {
        NoneSelected(head, k);
      }
    }
  }

  /** A quota's trigger and target are its watermarks and its reserve; untriggered, it evicts nothing exactly
      when the stored bytes are within 2^63 - 1, the one limit that needs no trigger, or every node is protected. */
  lemma UntriggeredQuotaEvictsNothing(
    maxCache: nat, reserve: nat, high: real, low: real, t: Totals, s: seq<Entry>, n: nat)
    requires 0.0 <= low < high <= 1.0 && t.bytes == Bytes(s) && t.nodes == |s|
    requires Stops(QuotaLimits(maxCache, reserve, high, low), t, s, n)
    ensures var limits := QuotaLimits(maxCache, reserve, high, low);
            && (Triggered(limits, t) <==> t.space > Watermark(maxCache, high) || t.free < reserve)
            && (!Triggered(limits, t) ==> (n == 0 <==> t.bytes <= MAX_BYTES || s == []))
            && (!Triggered(limits, t) ==>
                  (ReportOf(limits, t, s, n).evicted == [] <==>
                     t.bytes <= MAX_BYTES || forall k :: 0 <= k < |s| ==> s[k].isProtected))
            && (t.bytes <= MAX_BYTES && ReportOf(limits, t, s, n).satisfied && Triggered(limits, t) ==>
                  After(t, s[..n]).space <= Watermark(maxCache, low) && After(t, s[..n]).free >= reserve)
  {
    hide Watermark, ReportOf;
    assert s[..0] == [];
    var limits := QuotaLimits(maxCache, reserve, high, low);
    if !Triggered(limits, t) {
      EvictsNothingExactly(limits, t, s, n);
    } else if ReportOf(limits, t, s, n).satisfied {
      SatisfiedMeans(limits, t, s, n);
    }
  }

  lemma SatisfiedMeans(limits: Limits, t: Totals, s: seq<Entry>, n: nat)
    requires n <= |s| && ReportOf(limits, t, s, n).satisfied
    ensures !OverLimit(limits, Triggered(limits, t), After(t, s[..n]))
  {}

  /** The one way an untriggered quota evicts: nodes recorded at more bytes in all than the ordinary limit. */
  lemma OversizedQuotaEvicts(maxCache: nat, high: real, low: real, e: Entry)
    requires 0.0 <= low < high <= 1.0 && e.stored == MAX_BYTES + 1 && !e.isProtected
    ensures Bytes([e]) == e.stored
    ensures var t, limits := Totals(e.stored, 1, 0, 0), QuotaLimits(maxCache, 0, high, low);
            !Triggered(limits, t) && Stops(limits, t, [e], 1) && ReportOf(limits, t, [e], 1).evicted == [e.key]
  {
    hide Watermark;
    var limits := QuotaLimits(maxCache, 0, high, low);
    hide QuotaLimits;
    OneTooBig(limits, e);
  }

  lemma OneTooBig(limits: Limits, e: Entry)
    requires e.stored > limits.maxBytes && !e.isProtected && limits.minFree == 0
    ensures Bytes([e]) == e.stored
    ensures var t := Totals(e.stored, 1, 0, 0);
            !Triggered(limits, t) && Stops(limits, t, [e], 1) && ReportOf(limits, t, [e], 1).evicted == [e.key]
  {
    assert [e][..0] == [] && [e][..1] == [e];
    assert Select([e], false) == Select([], false) + [e];
  }
}
