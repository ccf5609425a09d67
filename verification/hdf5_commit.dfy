/** The HDF5 writer's commit protocol: three groups in one file, atomic steps, a crash or an exception
    before any of them. */
module Hdf5Commit {
  import opened Options

  type Data = map<string, seq<int>>

  /** A dataframe group; `stamp` numbers the write that made it. */
  datatype Group = Group(stamp: nat, data: Data, committed: bool)

  /** What happens to the next atomic step: it succeeds, it raises, or the process dies before it. */
  datatype Event = Fine | Raise | Crash

  /** The readable versions a list of moments shows, oldest first, never going back. */
  ghost predicate Forward(views: seq<Option<Group>>) {
    forall i, j :: 0 <= i < j < |views| ==> NotAfter(views[i], views[j])
  }

  /** A version, or nothing, that may be followed by another: the same or a later write. */
  predicate NotAfter(a: Option<Group>, b: Option<Group>) {
    a.Some? ==> b.Some? && (a.value.stamp < b.value.stamp || a == b)
  }

  class File {
    var main: Option<Group>
    var pending: Option<Group>
    var backup: Option<Group>
    var events: seq<Event>
    ghost var views: seq<Option<Group>>  // what a reader would have found after every step so far

    constructor (events: seq<Event>)
      ensures main == None && pending == None && backup == None && views == [] && this.events == events
      ensures Valid(0)
    {
      main, pending, backup, views := None, None, None, [];
      this.events := events;
    }

    /** `hdf5_to_np_arrays`: the group under the key, else its backup. */
    function View(): Option<Group>
      reads this
    {
      if main.Some? then main else backup
    }

    /** The next steps, as far as they are foretold, all succeed. */
    predicate Calm()
      reads this
    {
      forall k :: 0 <= k < |events| ==> events[k] == Fine
    }

    /** Readable groups are committed and older than the next write; history so far went forward only. */
    ghost predicate Valid(next: nat)
      reads this
    {
      && (main.Some? ==> main.value.committed && main.value.stamp < next)
      && (backup.Some? ==> backup.value.committed && backup.value.stamp < next)
      && Forward(views + [View()])
    }

    /** Reading: a committed group or nothing; never a group still being written. */
    method Read(ghost next: nat) returns (r: Option<Data>)
      requires Valid(next)
      ensures r.Some? <==> View().Some?
      ensures r.Some? ==> View().value.committed && r.value == View().value.data
    {
      var g := View();
      return if g.Some? && g.value.committed then Some(g.value.data) else None;
    }

    /** One atomic change of the file, if the process gets to make it. */
    method Commit(main': Option<Group>, pending': Option<Group>, backup': Option<Group>) returns (e: Event)
      modifies this
      ensures e == Fine ==> main == main' && pending == pending' && backup == backup' && views == old(views) + [View()]
      ensures e != Fine ==> main == old(main) && pending == old(pending) && backup == old(backup) && views == old(views)
      ensures old(Calm()) ==> e == Fine && Calm()
    {
      e := Fine;
      if |events| > 0 {
        e := events[0];
        events := events[1..];
      }
      if e == Fine {
        main, pending, backup := main', pending', backup';
        views := views + [View()];
      }
    }

    /** `_recover_hdf5_group`: whatever it finds and wherever it stops, readers find what they found before. */
    method Recover(ghost next: nat) returns (e: Event)
      requires Valid(next)
      modifies this
      ensures Valid(next) && View() == old(View())
      ensures Only(old(views), views, View())
      ensures e == Fine ==> pending == None && backup == None
      ensures old(Calm()) ==> e == Fine && Calm()
    {
      hide Forward;
      e := Fine;
      ghost var was, view := views, View();
      if main.None? && backup.Some? {
        e := Commit(backup, pending, None);
        Extends(was, views, view);
        if e != Fine {
          return;
        }
      }
      if pending.Some? {
        e := Commit(main, None, backup);
        Extends(was, views, view);
        if e != Fine {
          return;
        }
      }
      if main.Some? && backup.Some? {
        e := Commit(main, pending, None);
        Extends(was, views, view);
      }
    }

    /** The `except` block: drop the pending group, if the process still lives. */
    method Abandon(ghost next: nat)
      requires Valid(next)
      modifies this
      ensures Valid(next) && View() == old(View()) && Only(old(views), views, View())
      ensures old(Calm()) ==> pending == None && Calm()
    {
      hide Forward;
      if pending.Some? {
        ghost var was, view := views, View();
        var e := Commit(main, None, backup);
        Extends(was, views, view);
      }
    }

    /** One step on the pending group, which readers never look at. */
    method Pend(stamp: nat, g: Group) returns (e: Event)
      requires Valid(stamp) && backup == None
      modifies this
      ensures Valid(stamp) && main == old(main) && backup == None
      ensures pending == if e == Fine then Some(g) else old(pending)
      ensures Only(old(views), views, View())
      ensures old(Calm()) ==> e == Fine && Calm()
    {
      hide Forward;
      ghost var was := views;
      e := Commit(main, Some(g), backup);
      Extends(was, views, View());
    }

    /** Create the pending group, write its columns one by one, mark it committed. */
    method WritePending(stamp: nat, data: Data) returns (e: Event)
      requires Valid(stamp) && pending == None && backup == None
      modifies this
      ensures Valid(stamp) && View() == old(View()) && backup == None
      ensures Only(old(views), views, View())
      ensures e == Fine ==> pending == Some(Group(stamp, data, true))
      ensures old(Calm()) ==> e == Fine && Calm()
    {
      hide Valid, Calm, Only;
      ghost var was, view := views, View();
      e := Pend(stamp, Group(stamp, map[], false));
      var left := data.Keys;
      assert data - left == map[];
      while e == Fine && left != {}
        invariant Valid(stamp) && View() == view && main == old(main) && backup == None
        invariant Only(was, views, view) && left <= data.Keys
        invariant e == Fine ==> pending == Some(Group(stamp, data - left, false))
        invariant old(Calm()) ==> e == Fine && Calm()
        decreases e == Fine, |left|
      {
        var k :| k in left;
        var written := pending.value.data[k := data[k]];
        assert written == data - (left - {k});
        left := left - {k};
        ghost var before := views;
        e := Pend(stamp, Group(stamp, written, false));
        OnlyJoins(was, before, views, view);
      }
      if e == Fine {
        assert data - left == data;
        ghost var before := views;
        e := Pend(stamp, pending.value.(committed := true));
        OnlyJoins(was, before, views, view);
      }
    }

    /** Move the old version aside, the new one into place, then drop the old one. */
    method Publish(stamp: nat, data: Data) returns (e: Event, ghost mid: seq<Option<Group>>)
      requires Valid(stamp) && pending == Some(Group(stamp, data, true)) && backup == None
      modifies this
      ensures Valid(stamp + 1)
      ensures View() == old(View()) || View() == Some(Group(stamp, data, true))
      ensures e == Fine ==> main == Some(Group(stamp, data, true)) && pending == None && backup == None
      ensures old(Calm()) ==> e == Fine && Calm()
      ensures Only(old(views), mid, old(View())) && Only(mid, views, View())
    {
      hide Forward;
      e := Fine;
      ghost var was, view := views, View();
      mid := views;
      if main.Some? {
        e := Commit(None, pending, main);
        Extends(was, views, view);
        mid := views;
        if e != Fine {
          return;
        }
      }
      e := Commit(pending, None, backup);
      if e != Fine {
        return;
      }
      ghost var fresher := Some(Group(stamp, data, true));
      Advances(mid, view, fresher);
      Extends(mid, views, fresher);
      if backup.Some? {
        e := Commit(main, pending, None);
        Extends(mid, views, fresher);
      }
    }

    /** `np_arrays_to_hdf5`: readers find the old version up to some moment and the new one from then on. */
    method Write(stamp: nat, data: Data) returns (done: bool, ghost mid: seq<Option<Group>>)
      requires Valid(stamp)
      modifies this
      ensures Valid(stamp + 1)
      ensures View() == old(View()) || View() == Some(Group(stamp, data, true))
      ensures done && data != map[] ==> main == Some(Group(stamp, data, true)) && pending == None && backup == None
      ensures old(Calm()) ==> done && Calm()
      ensures Only(old(views), mid, old(View())) && Only(mid, views, View())
    {
      ghost var was, view := views, View();
      mid := views;
      if data == map[] {
        return true, mid;
      }
      var e := Recover(stamp);
      mid := views;
      if e != Fine {
        return false, mid;
      }
      e := WritePending(stamp, data);
      mid := views;
      if e == Fine {
        e, mid := Publish(stamp, data);
      }
      if e == Raise {
        Abandon(stamp + 1);
      }
      done := e == Fine;
    }

    /** Any sequence of writes, numbered from `first`, by processes that may die or fail at any step, on a file
        that holds whatever earlier writes left: what readers find only ever moves forward, and is always the
        version found at the start, nothing if nothing was, or a committed version of these writes. */
    method WriteAll(jobs: seq<Data>, first: nat)
      requires Valid(first)
      modifies this
      ensures Valid(first + |jobs|) && Forward(views)
      ensures |old(views)| <= |views| && views[..|old(views)|] == old(views)
      ensures forall k :: |old(views)| <= k < |views| ==>
        views[k] == old(View()) || Written(jobs, first, |jobs|, views[k])
      ensures View() == old(View()) || Written(jobs, first, |jobs|, View())
      ensures old(Calm()) && |jobs| > 0 && jobs[|jobs| - 1] != map[] ==>
        View() == Some(Group(first + |jobs| - 1, jobs[|jobs| - 1], true))
    {
      ghost var start, before := View(), views;
      for i := 0 to |jobs|
        invariant Valid(first + i) && (old(Calm()) ==> Calm())
        invariant old(Calm()) && i > 0 && jobs[i - 1] != map[] ==>
          View() == Some(Group(first + i - 1, jobs[i - 1], true))
        invariant View() == start || Written(jobs, first, i, View())
        invariant |before| <= |views| && views[..|before|] == before
        invariant forall k :: |before| <= k < |views| ==> views[k] == start || Written(jobs, first, i, views[k])
      {
        ghost var was, view := views, View();
        ghost var mid;
        var done;
        done, mid := Write(first + i, jobs[i]);
        forall k | |before| <= k < |views| ensures views[k] == start || Written(jobs, first, i + 1, views[k]) {
          assert k < |was| ==> views[k] == mid[k] == was[k];
          assert |was| <= k < |mid| ==> views[k] == mid[k] == view;
        }
        assert views[..|before|] == mid[..|before|] == was[..|before|];
      }
      assert Forward(views) by {
        ForwardPrefix(views, View());
      }
    }
  }

  /** A committed version of one of the first `n` writes, numbered from `first`. */
  ghost predicate Written(jobs: seq<Data>, first: nat, n: nat, v: Option<Group>) {
    && v.Some? && v.value.committed && first <= v.value.stamp < first + n <= first + |jobs|
    && v.value.data == jobs[v.value.stamp - first]
  }

  /** `b` is `a` followed by nothing but `v`. */
  ghost predicate Only(a: seq<Option<Group>>, b: seq<Option<Group>>, v: Option<Group>) {
    |a| <= |b| && b[..|a|] == a && forall k :: |a| <= k < |b| ==> b[k] == v
  }

  lemma OnlyJoins(a: seq<Option<Group>>, b: seq<Option<Group>>, c: seq<Option<Group>>, v: Option<Group>)
    requires Only(a, b, v) && Only(b, c, v)
    ensures Only(a, c, v)
  {
    assert c[..|a|] == c[..|b|][..|a|];
  }

  lemma Extends(a: seq<Option<Group>>, b: seq<Option<Group>>, v: Option<Group>)
    requires Forward(a + [v]) && Only(a, b, v)
    ensures Forward(b + [v])
  {
    var s, t := a + [v], b + [v];
    forall i | 0 <= i < |t| ensures t[i] == s[if i < |a| then i else |a|] {
      if i < |a| {
        assert b[..|a|][i] == a[i];
      }
    }
  }

  lemma Advances(a: seq<Option<Group>>, v: Option<Group>, w: Option<Group>)
    requires Forward(a + [v]) && w.Some? && (v.Some? ==> v.value.stamp < w.value.stamp)
    ensures Forward(a + [w])
  {
    var s := a + [v];
    assert forall i :: 0 <= i < |a| ==> s[i] == a[i];
    assert s[|a|] == v;
  }

  lemma ForwardPrefix(a: seq<Option<Group>>, v: Option<Group>)
    requires Forward(a + [v])
    ensures Forward(a)
  {
    var s := a + [v];
    assert forall i :: 0 <= i < |a| ==> s[i] == a[i];
  }
}
