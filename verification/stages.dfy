/** Depth-first topological ordering of strategy stages, with cycle reports. */
module Stages {
  import opened Options

  type Name = string

  datatype Outcome = Ordered(order: seq<Name>) | Missing(names: set<Name>) | Cyclic(path: seq<Name>)

  /** A path along dependencies: each step goes from a stage to one it depends on. */
  ghost predicate Path(graph: map<Name, seq<Name>>, p: seq<Name>) {
    && (forall i :: 0 <= i < |p| ==> p[i] in graph)
    && (forall i :: 0 <= i < |p| - 1 ==> Link(graph, p, i))
  }

  ghost predicate Link(graph: map<Name, seq<Name>>, p: seq<Name>, i: nat)
    requires i + 1 < |p| && p[i] in graph
  {
    p[i + 1] in graph[p[i]]
  }

  /** A walk along dependencies back to where it started. */
  ghost predicate Cycle(graph: map<Name, seq<Name>>, p: seq<Name>) {
    |p| >= 2 && p[0] == p[|p| - 1] && Path(graph, p)
  }

  /** One that passes through each of its stages once. */
  ghost predicate SimpleCycle(graph: map<Name, seq<Name>>, p: seq<Name>) {
    Cycle(graph, p) && Distinct(p[1..])
  }

  predicate Distinct(s: seq<Name>) {
    forall i, j :: 0 <= i < j < |s| ==> s[i] != s[j]
  }

  /** Every listed stage comes after everything it depends on. */
  ghost predicate AfterDependencies(graph: map<Name, seq<Name>>, order: seq<Name>) {
    forall i :: 0 <= i < |order| ==> order[i] in graph && Preceded(graph, order, i)
  }

  ghost predicate Preceded(graph: map<Name, seq<Name>>, order: seq<Name>, i: nat)
    requires i < |order| && order[i] in graph
  {
    forall d :: d in graph[order[i]] ==> d in order[..i]
  }

  /** Every stage exactly once, after all its dependencies. */
  ghost predicate Topological(graph: map<Name, seq<Name>>, order: seq<Name>) {
    Distinct(order) && (forall n :: n in order <==> n in graph) && AfterDependencies(graph, order)
  }

  ghost predicate Closed(graph: map<Name, seq<Name>>) {
    forall n, d :: n in graph && d in graph[n] ==> d in graph
  }

  // ---- A topological order rules out cycles ----

  function Position(order: seq<Name>, n: Name): (i: nat)
    requires n in order
    ensures i < |order| && order[i] == n
  {
    if order[|order| - 1] == n then |order| - 1 else Position(order[..|order| - 1], n)
  }

  lemma {:induction false} PathDescends(graph: map<Name, seq<Name>>, order: seq<Name>, p: seq<Name>, k: nat)
    requires Topological(graph, order) && Path(graph, p) && 0 < k < |p|
    ensures p[0] in order && p[k] in order && Position(order, p[k]) < Position(order, p[0])
  {
    if k > 1 {
      PathDescends(graph, order, p, k - 1);
    }
    assert Link(graph, p, k - 1);
    var i := Position(order, p[k - 1]);
    assert Preceded(graph, order, i);
    assert p[k] in order[..i];
    var j :| 0 <= j < i && order[j] == p[k];
    assert Position(order, p[k]) == j;
  }

  lemma OrderedIsAcyclic(graph: map<Name, seq<Name>>, order: seq<Name>, p: seq<Name>)
    requires Topological(graph, order)
    ensures !Cycle(graph, p)
  {
    if Cycle(graph, p) {
      PathDescends(graph, order, p, |p| - 1);
    }
  }

  // ---- The search ----

  class StageGraph {
    const graph: map<Name, seq<Name>>
    const names: seq<Name>  // insertion order of the stages
    var visiting: seq<Name>
    var complete: set<Name>
    var order: seq<Name>

    ghost predicate Valid() {
      Distinct(names) && forall n :: n in names <==> n in graph
    }

    constructor (names: seq<Name>, graph: map<Name, seq<Name>>)
      requires Distinct(names) && forall n :: n in names <==> n in graph
      ensures Valid() && this.graph == graph && this.names == names
    {
      this.graph, this.names := graph, names;
      visiting, complete, order := [], {}, [];
    }

    /** The search so far: a path being visited, and a finished part in topological order. */
    ghost predicate Searching()
      reads this
    {
      && Closed(graph) && Path(graph, visiting) && Distinct(visiting) && Distinct(order)
      && (forall n :: n in visiting ==> n !in complete)
      && (forall n :: n in order <==> n in complete)
      && AfterDependencies(graph, order)
    }

    /** Leave a stage whose dependencies are all complete. */
    method Finish(name: Name, ghost before: seq<Name>)
      requires Searching() && visiting == before + [name] && name in graph
      requires forall k :: 0 <= k < |graph[name]| ==> graph[name][k] in complete
      modifies this
      ensures Searching() && visiting == before && complete == old(complete) + {name}
    {
      hide Distinct, Path, AfterDependencies, Closed;
      assert name in visiting;
      FinishKeeps(graph, order, name);
      PopKeeps(graph, before, name);
      visiting := visiting[..|visiting| - 1];
      complete := complete + {name};
      order := order + [name];
    }

    /** The recursive `visit`. */
    method Visit(name: Name) returns (cycle: Option<seq<Name>>)
      requires Searching() && name in graph
      requires |visiting| > 0 ==> name in graph[visiting[|visiting| - 1]]
      modifies this
      ensures cycle.None? ==> Searching() && visiting == old(visiting) && name in complete && old(complete) <= complete
      ensures cycle.Some? ==> SimpleCycle(graph, cycle.value)
      decreases |graph.Keys - Members(visiting)|
    {
      hide Distinct, Path, AfterDependencies, SimpleCycle, Closed, Members;
      if name in complete {
        return None;
      }
      if name in visiting {
        var i := Position(visiting, name);
        CycleCloses(graph, visiting, i, name);
        return Some(visiting[i..] + [name]);
      }
      PushKeeps(graph, visiting, name);
      MembersGrow(graph.Keys, visiting, name);
      ghost var before := visiting;
      visiting := visiting + [name];
      ghost var path := visiting;
      var dependencies := graph[name];
      for k := 0 to |dependencies|
        invariant Searching() && visiting == path && old(complete) <= complete
        invariant forall j :: 0 <= j < k ==> dependencies[j] in complete
      {
        InGraph(dependencies[k], name);
        cycle := Visit(dependencies[k]);
        if cycle.Some? {
          return;
        }
      }
      Finish(name, before);
      return None;
    }

    lemma InGraph(d: Name, name: Name)
      requires Searching() && name in graph && d in graph[name]
      ensures d in graph
    {}

    /** `topological_order`. */
    method TopologicalOrder() returns (r: Outcome)
      requires Valid()
      modifies this
      ensures r.Missing? <==> !Closed(graph)
      ensures r.Missing? ==> forall d :: d in r.names <==> d !in graph && exists n :: n in graph && d in graph[n]
      ensures r.Ordered? ==> Topological(graph, r.order)
      ensures r.Cyclic? ==> SimpleCycle(graph, r.path)
      ensures !r.Missing? ==> (r.Cyclic? <==> exists p :: Cycle(graph, p))
    {
      var missing := MissingDependencies(graph);
      MissingMeansOpen(graph);
      if missing != {} {
        return Missing(missing);
      }
      visiting, complete, order := [], {}, [];
      for k := 0 to |names|
        invariant Searching() && visiting == []
        invariant forall j :: 0 <= j < k ==> names[j] in complete
        invariant forall n :: n in complete ==> n in graph
      {
        assert names[k] in names;
        ghost var was := complete;
        var cycle := Visit(names[k]);
        if cycle.Some? {
          FailsExactlyWhenCyclic(graph, Cyclic(cycle.value));
          return Cyclic(cycle.value);
        }
        forall n | n in complete ensures n in graph {
          assert n in order;
        }
      }
      forall n | n in graph ensures n in order {
        assert n in names;
      }
      FailsExactlyWhenCyclic(graph, Ordered(order));
      return Ordered(order);
    }
  }

  function Members(s: seq<Name>): set<Name> {
    set n | n in s
  }

  lemma MembersGrow(keys: set<Name>, s: seq<Name>, name: Name)
    requires name in keys && name !in s
    ensures |keys - Members(s + [name])| < |keys - Members(s)|
  {
    assert Members(s + [name]) == Members(s) + {name};
    assert keys - Members(s + [name]) == (keys - Members(s)) - {name};
    assert name in keys - Members(s);
  }

  function MissingDependencies(graph: map<Name, seq<Name>>): set<Name> {
    set n, d | n in graph && d in graph[n] && d !in graph :: d
  }

  lemma MissingMeansOpen(graph: map<Name, seq<Name>>)
    ensures MissingDependencies(graph) == {} <==> Closed(graph)
  {
    forall n, d | n in graph && d in graph[n] && d !in graph ensures d in MissingDependencies(graph) {
    }
  }

  lemma CycleCloses(graph: map<Name, seq<Name>>, visiting: seq<Name>, i: nat, name: Name)
    requires Path(graph, visiting) && Distinct(visiting) && i < |visiting| && visiting[i] == name
    requires name in graph[visiting[|visiting| - 1]]
    ensures SimpleCycle(graph, visiting[i..] + [name])
  {
    var c := visiting[i..] + [name];
    forall k | 0 <= k < |c| - 1 ensures Link(graph, c, k) {
      if i + k + 1 < |visiting| {
        assert Link(graph, visiting, i + k);
      }
    }
  }

  lemma PushKeeps(graph: map<Name, seq<Name>>, visiting: seq<Name>, name: Name)
    requires Path(graph, visiting) && Distinct(visiting) && name in graph && name !in visiting
    requires |visiting| > 0 ==> name in graph[visiting[|visiting| - 1]]
    ensures Path(graph, visiting + [name]) && Distinct(visiting + [name])
  {
    var p := visiting + [name];
    forall i | 0 <= i < |p| - 1 ensures Link(graph, p, i) {
      if i + 1 < |visiting| {
        assert Link(graph, visiting, i);
      }
    }
  }

  lemma PopKeeps(graph: map<Name, seq<Name>>, visiting: seq<Name>, name: Name)
    requires Path(graph, visiting + [name]) && Distinct(visiting + [name])
    ensures Path(graph, visiting) && Distinct(visiting) && name !in visiting
  {
    var p := visiting + [name];
    assert forall i :: 0 <= i < |visiting| ==> p[i] == visiting[i];
    forall i | 0 <= i < |visiting| - 1 ensures Link(graph, visiting, i) {
      assert Link(graph, p, i);
    }
    assert p[|visiting|] == name;
  }

  lemma FinishKeeps(graph: map<Name, seq<Name>>, order: seq<Name>, name: Name)
    requires Distinct(order) && AfterDependencies(graph, order) && name in graph && name !in order
    requires forall k :: 0 <= k < |graph[name]| ==> graph[name][k] in order
    ensures Distinct(order + [name]) && AfterDependencies(graph, order + [name])
  {
    var more := order + [name];
    forall i | 0 <= i < |more| ensures more[i] in graph && Preceded(graph, more, i) {
      if i < |order| {
        assert Preceded(graph, order, i);
        assert more[..i] == order[..i];
      } else {
        assert more[..i] == order;
      }
    }
  }

  /** With no dependency missing, the search fails exactly when the graph is cyclic. */
  lemma FailsExactlyWhenCyclic(graph: map<Name, seq<Name>>, r: Outcome)
    requires r.Ordered? ==> Topological(graph, r.order)
    requires r.Cyclic? ==> Cycle(graph, r.path)
    requires !r.Missing?
    ensures r.Cyclic? <==> exists p :: Cycle(graph, p)
  {
    if r.Ordered? {
      forall p ensures !Cycle(graph, p) {
        OrderedIsAcyclic(graph, r.order, p);
      }
    }
  }
}
