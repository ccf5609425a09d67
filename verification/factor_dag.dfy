/** The factor DAG executor: with a coherent cache it computes exactly what evaluation without a cache does. */
module FactorDag {
  import opened Options

  type Key = nat
  type Column = seq<real>
  type Frame = seq<(string, Column)>
  type Stored = map<string, Column>

  /** A node: its identity (key, parents, output schema) and its deterministic computation. */
  datatype Node = Node(key: Key, parents: seq<Key>, schema: seq<string>, compute: seq<Frame> -> Option<Frame>)

  predicate DistinctNames(names: seq<string>) {
    forall i, j :: 0 <= i < j < |names| ==> names[i] != names[j]
  }

  /** `_validate_output`: the columns are the schema's, in its order. */
  predicate Conforms(schema: seq<string>, f: Frame) {
    |f| == |schema| && forall k :: 0 <= k < |f| ==> f[k].0 == schema[k]
  }

  // ---- Storing a frame and reading it back ----

  /** Published columns, by name. */
  function Store(f: Frame): Stored {
    if |f| == 0 then map[] else Store(f[..|f| - 1])[f[|f| - 1].0 := f[|f| - 1].1]
  }

  predicate Readable(schema: seq<string>, s: Stored) {
    forall k :: 0 <= k < |schema| ==> schema[k] in s
  }

  /** A cache hit's frame: the stored columns in schema order. */
  function Load(schema: seq<string>, s: Stored): (f: Frame)
    requires Readable(schema, s)
    ensures Conforms(schema, f)
  {
    seq(|schema|, k requires 0 <= k < |schema| => (schema[k], s[schema[k]]))
  }

  lemma {:induction false} StoreHas(schema: seq<string>, f: Frame, k: nat)
    requires DistinctNames(schema) && Conforms(schema, f) && k < |f|
    ensures schema[k] in Store(f) && Store(f)[schema[k]] == f[k].1
  {
    var n := |f| - 1;
    if k < n {
      StoreHas(schema[..n], f[..n], k);
    }
  }

  /** Publishing a frame and reading it back by its schema returns the frame. */
  lemma StoreLoads(schema: seq<string>, f: Frame)
    requires DistinctNames(schema) && Conforms(schema, f)
    ensures Readable(schema, Store(f)) && Load(schema, Store(f)) == f
  {
    forall k | 0 <= k < |schema| ensures schema[k] in Store(f) && Store(f)[schema[k]] == f[k].1 {
      StoreHas(schema, f, k);
    }
  }

  // ---- Evaluation without a cache ----

  predicate Ready(node: Node, outputs: map<Key, Frame>) {
    node.key !in outputs && forall k :: 0 <= k < |node.parents| ==> node.parents[k] in outputs
  }

  function ParentFrames(node: Node, outputs: map<Key, Frame>): seq<Frame>
    requires Ready(node, outputs)
  {
    seq(|node.parents|, k requires 0 <= k < |node.parents| => outputs[node.parents[k]])
  }

  /** The node's own value, or nothing if it raises or breaks its schema. */
  function Value(node: Node, outputs: map<Key, Frame>): Option<Frame>
    requires Ready(node, outputs)
  {
    var f := node.compute(ParentFrames(node, outputs));
    if f.Some? && Conforms(node.schema, f.value) then f else None
  }

  /** The first `k` nodes evaluated in order; nothing once a node repeats, comes before a parent, or fails. */
  function Eval(nodes: seq<Node>, k: nat): Option<map<Key, Frame>>
    requires k <= |nodes|
  {
    if k == 0 then Some(map[])
    else
      match Eval(nodes, k - 1)
      case None => None
      case Some(outputs) =>
        var node := nodes[k - 1];
        if !Ready(node, outputs) then None
        else
          match Value(node, outputs)
          case None => None
          case Some(f) => Some(outputs[node.key := f])
  }

  /** One more node: what evaluating it adds, or that it fails. */
  lemma EvalNext(nodes: seq<Node>, k: nat, outputs: map<Key, Frame>)
    requires k < |nodes| && Eval(nodes, k) == Some(outputs)
    ensures Eval(nodes, k + 1).Some? <==> Ready(nodes[k], outputs) && Value(nodes[k], outputs).Some?
    ensures Eval(nodes, k + 1).Some? ==>
      Eval(nodes, k + 1) == Some(outputs[nodes[k].key := Value(nodes[k], outputs).value])
  {
    hide Ready, Value;
  }

  lemma NothingEvaluated(nodes: seq<Node>)
    ensures Eval(nodes, 0) == Some(map[])
  {}

  lemma {:induction false} FailureSticks(nodes: seq<Node>, k: nat, n: nat)
    requires k <= n <= |nodes| && Eval(nodes, k).None?
    ensures Eval(nodes, n).None?
  {
    if k < n {
      FailureSticks(nodes, k, n - 1);
    }
  }

  predicate WellSchemed(nodes: seq<Node>) {
    forall k :: 0 <= k < |nodes| ==> DistinctNames(nodes[k].schema)
  }

  /** Every stored value of a node of this DAG is that node's own value. */
  ghost predicate Coherent(nodes: seq<Node>, values: map<Key, Stored>) {
    forall k :: 0 <= k < |nodes| && nodes[k].key in values ==> CoherentAt(nodes, k, values[nodes[k].key])
  }

  ghost predicate CoherentAt(nodes: seq<Node>, k: nat, s: Stored)
    requires k < |nodes|
  {
    var before := Eval(nodes, k);
    before.Some? && Ready(nodes[k], before.value) ==>
      Readable(nodes[k].schema, s) && Value(nodes[k], before.value) == Some(Load(nodes[k].schema, s))
  }

  /** Keys of evaluated nodes are distinct. */
  lemma {:induction false} EvalKeys(nodes: seq<Node>, k: nat)
    requires k <= |nodes| && Eval(nodes, k).Some?
    ensures forall key :: key in Eval(nodes, k).value <==> exists j :: 0 <= j < k && nodes[j].key == key
    ensures forall i, j :: 0 <= i < j < k ==> nodes[i].key != nodes[j].key
  {
    if k > 0 {
      EvalKeys(nodes, k - 1);
      var before := Eval(nodes, k - 1).value;
      forall j | 0 <= j < k - 1 ensures nodes[j].key != nodes[k - 1].key {
        assert nodes[j].key in before;
      }
    }
  }

  // ---- The cache and the executor ----

  /** The shared cache: its values may be replaced by other processes at any moment, with coherent ones;
      any access may raise. */
  class Cache {
    var values: map<Key, Stored>
    var pins: set<nat>  // leases open on it
    var nextPin: nat
    var rejections: set<Key>
    var others: seq<map<Key, Stored>>
    var faults: seq<bool>

    ghost predicate Valid(nodes: seq<Node>)
      reads this
    {
      && Coherent(nodes, values)
      && (forall w :: w in others ==> Coherent(nodes, w))
      && (forall p :: p in pins ==> p < nextPin)
    }

    constructor (values: map<Key, Stored>, rejections: set<Key>, others: seq<map<Key, Stored>>, faults: seq<bool>)
      ensures this.values == values && pins == {} && this.others == others && this.faults == faults
    {
      this.values, this.rejections, this.others, this.faults := values, rejections, others, faults;
      pins, nextPin := {}, 0;
    }

    /** Other processes publish, migrate and evict. */
    method Interfere(ghost nodes: seq<Node>)
      requires Valid(nodes)
      modifies this`values, this`others
      ensures Valid(nodes)
      ensures old(others) == [] ==> values == old(values) && others == []
    {
      if |others| > 0 {
        assert others[0] in others;
        values, others := others[0], others[1..];
      }
    }

    /** Whether the `n`-th access from now is to raise. */
    predicate Fault(n: nat)
      reads this
    {
      n < |faults| && faults[n]
    }

    /** Whether this access raises. */
    method Raises() returns (b: bool)
      modifies this`faults
      ensures b == old(Fault(0)) && (b ==> true in old(faults))
      ensures faults == if |old(faults)| > 0 then old(faults)[1..] else []
      ensures forall x :: x in faults ==> x in old(faults)
    {
      b := |faults| > 0 && faults[0];
      if |faults| > 0 {
        faults := faults[1..];
      }
    }

    method Pin() returns (lease: nat)
      requires forall p :: p in pins ==> p < nextPin
      modifies this`pins, this`nextPin
      ensures lease == old(nextPin) && pins == old(pins) + {lease} && nextPin == old(nextPin) + 1
    {
      lease := nextPin;
      pins, nextPin := pins + {lease}, nextPin + 1;
    }

    method Unpin(leases: seq<nat>)
      modifies this`pins
      ensures pins == old(pins) - set l | l in leases
    {
      for k := 0 to |leases|
        invariant pins == old(pins) - set l | l in leases[..k]
      {
        assert leases[..k + 1] == leases[..k] + [leases[k]];
        pins := pins - {leases[k]};
      }
      assert leases[..|leases|] == leases;
    }
  }

  /** Storing a node's own value under its key keeps the cache coherent. */
  lemma PublishIsCoherent(nodes: seq<Node>, values: map<Key, Stored>, k: nat, f: Frame)
    requires WellSchemed(nodes) && Coherent(nodes, values) && k < |nodes|
    requires Eval(nodes, k).Some? && Ready(nodes[k], Eval(nodes, k).value)
    requires Value(nodes[k], Eval(nodes, k).value) == Some(f)
    ensures Coherent(nodes, values[nodes[k].key := Store(f)])
  {
    var key := nodes[k].key;
    StoreLoads(nodes[k].schema, f);
    forall j | 0 <= j < |nodes| && nodes[j].key == key ensures CoherentAt(nodes, j, Store(f)) {
      if Eval(nodes, j).Some? && j != k {
        EvalKeys(nodes, j);
        EvalKeys(nodes, k);
        assert k < j ==> nodes[k].key in Eval(nodes, j).value;
      }
    }
  }

  /** How one node's output came about. */
  /** How one node ends; one that raises may leave the lease it had just opened. */
  datatype Outcome =
    | Raised(open: Option<nat>) | Hit(frame: Frame, lease: nat) | Wrote(frame: Frame) | Declined(frame: Frame)

  datatype Telemetry = Telemetry(hits: seq<Key>, misses: seq<Key>, writes: seq<Key>, declines: seq<Key>,
    hints: seq<Key>)

  /** `all` split into two lists, each member in exactly one of them. */
  ghost predicate Split(all: seq<Key>, a: seq<Key>, b: seq<Key>) {
    && |a| + |b| == |all|
    && forall key :: key in all <==> ((key in a) != (key in b))
  }

  lemma SplitGrows(all: seq<Key>, a: seq<Key>, b: seq<Key>, key: Key)
    requires Split(all, a, b) && key !in all && (forall x :: x in a ==> x in all) && (forall x :: x in b ==> x in all)
    ensures Split(all + [key], a + [key], b) && Split(all + [key], a, b + [key])
  {}

  /** The lease a node leaves open. */
  function Opened(r: Outcome): set<nat> {
    match r
    case Raised(open) => if open.Some? then {open.value} else {}
    case Hit(_, lease) => {lease}
    case _ => {}
  }

  /** What one node does to a cache nobody else touches: a hit exactly when its value is there, and the
      only change is a write's. */
  ghost predicate Alone(key: Key, r: Outcome, before: map<Key, Stored>, after: map<Key, Stored>) {
    match r
    case Raised(_) => after == before || exists f :: after == before[key := Store(f)]
    case Hit(_, _) => key in before && after == before
    case Wrote(f) => key !in before && after == before[key := Store(f)]
    case Declined(_) => key !in before && after == before
  }

  /** The same over a list of keys. */
  ghost predicate Reused(keys: seq<Key>, t: Telemetry, before: map<Key, Stored>, after: map<Key, Stored>) {
    && (forall x :: x in t.hits <==> x in keys && x in before)
    && (forall x :: x in after <==> x in before || x in t.writes)
    && (forall x :: x in before ==> after[x] == before[x])
  }

  lemma ReusedNext(keys: seq<Key>, t: Telemetry, key: Key, r: Outcome, hinted: bool, before: map<Key, Stored>,
                   mid: map<Key, Stored>, after: map<Key, Stored>)
    requires Recorded(keys, t) && key !in keys && !r.Raised?
    requires Reused(keys, t, before, mid) && Alone(key, r, mid, after)
    ensures Reused(keys + [key], RecordNode(keys, t, key, r, hinted), before, after)
  {
    assert key !in t.writes;
  }

  predicate Admitted(admits: seq<bool>, k: nat) {
    k < |admits| && admits[k]
  }

  /** Among the first `k` nodes, misses were written or declined as the admission policy said. */
  ghost predicate AsAdmitted(nodes: seq<Node>, admits: seq<bool>, k: nat, t: Telemetry)
    requires k <= |nodes|
  {
    forall j :: 0 <= j < k ==>
      && (nodes[j].key in t.writes ==> Admitted(admits, j))
      && (nodes[j].key in t.declines ==> !Admitted(admits, j))
  }

  lemma NothingAdmitted(nodes: seq<Node>, admits: seq<bool>, t: Telemetry)
    ensures AsAdmitted(nodes, admits, 0, t)
  {}

  lemma AsAdmittedNext(nodes: seq<Node>, admits: seq<bool>, k: nat, t: Telemetry, r: Outcome, hinted: bool)
    requires k < |nodes| && AsAdmitted(nodes, admits, k, t) && !r.Raised?
    requires Recorded(KeysOf(nodes[..k]), t) && nodes[k].key !in KeysOf(nodes[..k])
    requires (r.Wrote? ==> Admitted(admits, k)) && (r.Declined? ==> !Admitted(admits, k))
    ensures AsAdmitted(nodes, admits, k + 1, RecordNode(KeysOf(nodes[..k]), t, nodes[k].key, r, hinted))
  {
    hide Admitted;
    var keys := KeysOf(nodes[..k]);
    assert nodes[k].key !in t.writes && nodes[k].key !in t.declines;
    forall j | 0 <= j < k ensures nodes[j].key != nodes[k].key {
      assert keys[j] == nodes[j].key;
    }
  }

  lemma NothingReused(values: map<Key, Stored>)
    ensures Reused([], Telemetry([], [], [], [], []), values, values)
  {}

  function KeysOf(nodes: seq<Node>): (r: seq<Key>)
    ensures |r| == |nodes| && forall k :: 0 <= k < |r| ==> r[k] == nodes[k].key
  {
    seq(|nodes|, k requires 0 <= k < |nodes| => nodes[k].key)
  }

  /** Outputs that pin every cache-hit generation until closed. */
  class Execution {
    const cache: Cache
    const telemetry: Telemetry
    var outputs: map<Key, Frame>
    var leases: seq<nat>
    var closed: bool

    constructor (cache: Cache, telemetry: Telemetry, outputs: map<Key, Frame>, leases: seq<nat>)
      ensures this.cache == cache && this.telemetry == telemetry && this.outputs == outputs && this.leases == leases
      ensures !closed
    {
      this.cache, this.telemetry, this.outputs, this.leases, closed := cache, telemetry, outputs, leases, false;
    }

    /** Reading after `close` is an error. */
    function Get(key: Key): Option<Frame>
      reads this
    {
      if closed || key !in outputs then None else Some(outputs[key])
    }

    /** Closing releases exactly this execution's leases, once. */
    method Close()
      modifies this, cache`pins
      ensures forall key :: Get(key) == None
      ensures closed && (old(closed) ==> cache.pins == old(cache.pins))
      ensures !old(closed) ==>
        cache.pins == old(cache.pins) - (set l | l in old(leases)) && outputs == map[] && leases == []
    {
      if closed {
        return;
      }
      outputs := map[];
      cache.Unpin(leases);
      leases := [];
      closed := true;
    }
  }

  class Executor {
    const cache: Cache

    constructor (cache: Cache)
      ensures this.cache == cache
    {
      this.cache := cache;
    }

    /** The tail of a miss: publish the computed frame, or record that it was declined. */
    method Keep(nodes: seq<Node>, k: nat, ghost outputs: map<Key, Frame>, frame: Frame, admitted: bool, hinted: bool)
      returns (r: Outcome)
      requires WellSchemed(nodes) && cache.Valid(nodes) && k < |nodes|
      requires Eval(nodes, k) == Some(outputs) && Ready(nodes[k], outputs) && Value(nodes[k], outputs) == Some(frame)
      requires cache.others == [] ==> nodes[k].key !in cache.values
      requires hinted ==> nodes[k].key in cache.rejections
      modifies cache
      ensures cache.Valid(nodes) && cache.pins == old(cache.pins) && cache.nextPin == old(cache.nextPin)
      ensures forall x :: x in cache.faults ==> x in old(cache.faults)
      ensures !r.Hit? && (r.Raised? ==> r.open.None? && true in old(cache.faults)) && (!r.Raised? ==> r.frame == frame)
      ensures r.Wrote? ==> admitted && nodes[k].key !in cache.rejections
      ensures r.Declined? ==> !admitted && nodes[k].key in cache.rejections
      ensures old(cache.others) == [] ==> cache.others == [] && Alone(nodes[k].key, r, old(cache.values), cache.values)
    {
      hide Eval, Coherent, Value;
      var node := nodes[k];
      if admitted {
        var broken := cache.Raises();
        if broken {
          return Raised(None);
        }
        cache.Interfere(nodes);
        if node.key !in cache.values {
          PublishIsCoherent(nodes, cache.values, k, frame);
          cache.values := cache.values[node.key := Store(frame)];
        }
        broken := cache.Raises();
        if broken {
          return Raised(None);
        }
        cache.rejections := cache.rejections - {node.key};
        return Wrote(frame);
      }
      if !hinted {
        var broken := cache.Raises();
        if broken {
          return Raised(None);
        }
        cache.rejections := cache.rejections + {node.key};
      }
      return Declined(frame);
    }

    /** Try to open a node's cached value: nothing on a miss, else a hit or what raised. */
    method Reopen(nodes: seq<Node>, k: nat, ghost outputs: map<Key, Frame>) returns (r: Option<Outcome>)
      requires cache.Valid(nodes) && k < |nodes|
      requires Eval(nodes, k) == Some(outputs) && Ready(nodes[k], outputs)
      modifies cache
      ensures cache.Valid(nodes) && old(cache.nextPin) <= cache.nextPin
      ensures forall x :: x in cache.faults ==> x in old(cache.faults)
      ensures r.None? ==>
        cache.pins == old(cache.pins) && cache.rejections == old(cache.rejections) && nodes[k].key !in cache.values
      ensures r.Some? ==>
        && (r.value.Hit? || r.value.Raised?) && cache.pins == old(cache.pins) + Opened(r.value)
        && (r.value.Hit? ==>
              Value(nodes[k], outputs) == Some(r.value.frame) && nodes[k].key !in cache.rejections)
        && (r.value.Raised? ==> true in old(cache.faults))
        && (forall l :: l in Opened(r.value) ==> l == old(cache.nextPin) < cache.nextPin)
      ensures old(cache.others) == [] ==>
        && cache.others == [] && cache.values == old(cache.values)
        && (r.Some? ==> Alone(nodes[k].key, r.value, old(cache.values), cache.values))
        && (r.Some? && r.value.Raised? && r.value.open.Some? <==>
              nodes[k].key in old(cache.values) && !old(cache.Fault(0)) && old(cache.Fault(1)))
    {
      hide Eval, Coherent, Value;
      var node := nodes[k];
      cache.Interfere(nodes);
      var broken := cache.Raises();
      if broken {
        return Some(Raised(None));
      }
      if node.key !in cache.values {
        return None;
      }
      HitIsValue(nodes, k, outputs, cache.values);
      var frame := Load(node.schema, cache.values[node.key]);
      var lease := cache.Pin();
      broken := cache.Raises();
      if broken {
        return Some(Raised(Some(lease)));
      }
      cache.rejections := cache.rejections - {node.key};
      return Some(Hit(frame, lease));
    }

    /** One node: reuse its cached value, or compute it and perhaps store it. A hit opens its lease before it
        clears the node's hint, and hands it over only afterwards: alone on the cache, a lease is left open
        exactly when opening succeeds and clearing raises. */
    method RunNode(nodes: seq<Node>, k: nat, outputs: map<Key, Frame>, admitted: bool)
      returns (r: Outcome, hinted: bool)
      requires WellSchemed(nodes) && cache.Valid(nodes) && k < |nodes|
      requires Eval(nodes, k) == Some(outputs) && Ready(nodes[k], outputs)
      modifies cache
      ensures cache.Valid(nodes) && old(cache.nextPin) <= cache.nextPin
      ensures forall x :: x in cache.faults ==> x in old(cache.faults)
      ensures !r.Raised? ==> Value(nodes[k], outputs) == Some(r.frame)
      ensures true !in old(cache.faults) ==> (r.Raised? <==> Value(nodes[k], outputs).None?)
      ensures cache.pins == old(cache.pins) + Opened(r)
      ensures forall l :: l in Opened(r) ==> l == old(cache.nextPin) < cache.nextPin
      ensures r.Raised? && r.open.Some? ==> true in old(cache.faults)
      ensures old(cache.others) == [] ==>
        (r.Raised? && r.open.Some? <==>
          nodes[k].key in old(cache.values) && !old(cache.Fault(0)) && old(cache.Fault(1)))
      ensures r.Wrote? ==> admitted
      ensures r.Declined? ==> !admitted && nodes[k].key in cache.rejections
      ensures r.Hit? || r.Wrote? ==> nodes[k].key !in cache.rejections
      ensures old(cache.others) == [] ==> cache.others == [] && Alone(nodes[k].key, r, old(cache.values), cache.values)
    {
      hide Eval, Coherent, Value, Alone;
      var node := nodes[k];
      hinted := node.key in cache.rejections;
      cache.Interfere(nodes);
      if node.key in cache.values {
        hinted := false;
      }
      if !hinted {
        var reopened := Reopen(nodes, k, outputs);
        if reopened.Some? {
          return reopened.value, hinted;
        }
      }
      var frame := Compute(node, outputs);
      if frame.None? {
        UntouchedAlone(node.key, cache.values);
        return Raised(None), hinted;
      }
      r := Keep(nodes, k, outputs, frame.value, admitted, hinted);
    }

    lemma UntouchedAlone(key: Key, values: map<Key, Stored>)
      ensures Alone(key, Raised(None), values, values)
    {}

    /** Run a node's computation and check its columns. */
    method Compute(node: Node, outputs: map<Key, Frame>) returns (frame: Option<Frame>)
      requires Ready(node, outputs)
      ensures frame == Value(node, outputs)
    {
      frame := node.compute(ParentFrames(node, outputs));
      if frame.Some? && !Conforms(node.schema, frame.value) {
        return None;
      }
    }

    lemma HitIsValue(nodes: seq<Node>, k: nat, outputs: map<Key, Frame>, values: map<Key, Stored>)
      requires Coherent(nodes, values) && k < |nodes| && nodes[k].key in values
      requires Eval(nodes, k) == Some(outputs) && Ready(nodes[k], outputs)
      ensures Readable(nodes[k].schema, values[nodes[k].key])
      ensures Value(nodes[k], outputs) == Some(Load(nodes[k].schema, values[nodes[k].key]))
    {
      assert CoherentAt(nodes, k, values[nodes[k].key]);
    }

    /** `execute`: the outputs are those of evaluation without a cache, whatever the cache holds, whatever
        the admission policy and the rejection hints say; only a store error can make it fail where plain
        evaluation would not. On failure every lease it holds is closed; the only one it can miss is a lease
        the failing node had opened and not yet handed over, left to its finalizer. */
    method Execute(nodes: seq<Node>, admits: seq<bool>) returns (ok: bool, e: Execution?, ghost missed: Outcome)
      requires WellSchemed(nodes) && cache.Valid(nodes)
      modifies cache
      ensures cache.Valid(nodes)
      ensures ok ==> |nodes| > 0
      ensures true !in old(cache.faults) ==> (ok <==> |nodes| > 0 && Eval(nodes, |nodes|).Some?)
      ensures !ok ==> e == null && missed.Raised? && cache.pins == old(cache.pins) + Opened(missed)
      ensures Opened(missed) != {} ==> !ok && true in old(cache.faults)
      ensures forall l :: l in Opened(missed) ==> l !in old(cache.pins)
      ensures ok ==>
        && e != null && fresh(e) && e.cache == cache && !e.closed
        && Eval(nodes, |nodes|) == Some(e.outputs)
        && |e.leases| == |e.telemetry.hits|
        && cache.pins == old(cache.pins) + (set l | l in e.leases)
        && (forall l :: l in e.leases ==> l !in old(cache.pins))
        && Split(KeysOf(nodes), e.telemetry.hits, e.telemetry.misses)
        && Split(e.telemetry.misses, e.telemetry.writes, e.telemetry.declines)
        && AsAdmitted(nodes, admits, |nodes|, e.telemetry)
      ensures ok && old(cache.others) == [] ==>
        Reused(KeysOf(nodes), e.telemetry, old(cache.values), cache.values)
    {
      hide Eval, AsAdmitted, Reused, Recorded, Admitted, Alone, Split, Coherent, Value, Ready;
      missed := Raised(None);
      if |nodes| == 0 {
        return false, null, missed;
      }
      var outputs: map<Key, Frame>, leases: seq<nat> := map[], [];
      var t := Telemetry([], [], [], [], []);
      NothingEvaluated(nodes);
      NothingAdmitted(nodes, admits, t);
      NothingSplit();
      NothingReused(cache.values);
      assert KeysOf(nodes[..0]) == [];
      for k := 0 to |nodes|
        invariant cache.Valid(nodes) && Eval(nodes, k) == Some(outputs)
        invariant old(cache.nextPin) <= cache.nextPin
          && (forall l :: l in leases ==> old(cache.nextPin) <= l < cache.nextPin)
        invariant cache.pins == old(cache.pins) + (set l | l in leases)
        invariant |leases| == |t.hits|
        invariant Recorded(KeysOf(nodes[..k]), t)
        invariant forall x :: x in cache.faults ==> x in old(cache.faults)
        invariant AsAdmitted(nodes, admits, k, t)
        invariant old(cache.others) == [] ==>
          cache.others == [] && Reused(KeysOf(nodes[..k]), t, old(cache.values), cache.values)
      {
        var node := nodes[k];
        EvalNext(nodes, k, outputs);
        if !Ready(node, outputs) {
          FailureSticks(nodes, k + 1, |nodes|);
          cache.Unpin(leases);
          return false, null, missed;
        }
        ghost var mid := cache.values;
        var r, hinted := RunNode(nodes, k, outputs, Admitted(admits, k));
        if r.Raised? {
          if true !in old(cache.faults) {
            FailureSticks(nodes, k + 1, |nodes|);
          }
          cache.Unpin(leases);
          return false, null, r;
        }
        KeyIsNew(nodes, k, outputs);
        assert KeysOf(nodes[..k + 1]) == KeysOf(nodes[..k]) + [node.key];
        AsAdmittedNext(nodes, admits, k, t, r, hinted);
        if old(cache.others) == [] {
          ReusedNext(KeysOf(nodes[..k]), t, node.key, r, hinted, old(cache.values), mid, cache.values);
        }
        t := RecordNode(KeysOf(nodes[..k]), t, node.key, r, hinted);
        outputs := outputs[node.key := r.frame];
        if r.Hit? {
          assert (set l | l in leases + [r.lease]) == (set l | l in leases) + {r.lease};
          leases := leases + [r.lease];
        }
      }
      assert nodes[..|nodes|] == nodes;
      e := new Execution(cache, t, outputs, leases);
      RecordedSplits(KeysOf(nodes), t);
      ok := true;
    }
  }

  /** The concrete case: the value is cached, the first access (opening) succeeds, the second (clearing the
      hint) raises. */
  method ClearingFaultLeavesLease() returns (r: Outcome)
    ensures r.Raised? && r.open.Some?
  {
    var frame: Frame := [("x", [])];
    var nodes := [Node(0, [], ["x"], (parents: seq<Frame>) => Some(frame))];
    var cache := new Cache(map[0 := Store(frame)], {}, [], [false, true]);
    var executor := new Executor(cache);
    NothingCached(nodes);
    PublishIsCoherent(nodes, map[], 0, frame);
    var hinted;
    r, hinted := executor.RunNode(nodes, 0, map[], false);
  }

  lemma NothingCached(nodes: seq<Node>)
    ensures Coherent(nodes, map[]) && Eval(nodes, 0) == Some(map[])
  {}

  ghost predicate Recorded(keys: seq<Key>, t: Telemetry) {
    && Split(keys, t.hits, t.misses) && Split(t.misses, t.writes, t.declines)
    && (forall x :: x in t.hits ==> x in keys) && (forall x :: x in t.misses ==> x in keys)
    && (forall x :: x in t.writes ==> x in t.misses) && (forall x :: x in t.declines ==> x in t.misses)
  }

  lemma RecordedSplits(keys: seq<Key>, t: Telemetry)
    requires Recorded(keys, t)
    ensures Split(keys, t.hits, t.misses) && Split(t.misses, t.writes, t.declines)
  {}

  lemma NothingSplit()
    ensures Recorded([], Telemetry([], [], [], [], []))
  {}

  lemma KeyIsNew(nodes: seq<Node>, k: nat, outputs: map<Key, Frame>)
    requires k < |nodes| && Eval(nodes, k) == Some(outputs) && Ready(nodes[k], outputs)
    ensures nodes[k].key !in KeysOf(nodes[..k])
  {
    EvalKeys(nodes, k);
    var keys := KeysOf(nodes[..k]);
    forall j | 0 <= j < k ensures keys[j] != nodes[k].key {
      assert keys[j] == nodes[j].key && nodes[j].key in outputs;
    }
  }

  function RecordNode(ghost keys: seq<Key>, t: Telemetry, key: Key, r: Outcome, hinted: bool): (t': Telemetry)
    requires !r.Raised? && Recorded(keys, t) && key !in keys
    ensures Recorded(keys + [key], t')
    ensures |t'.hits| == |t.hits| + if r.Hit? then 1 else 0
  {
    SplitGrows(keys, t.hits, t.misses, key);
    SplitGrows(t.misses, t.writes, t.declines, key);
    var u := if hinted then t.(hints := t.hints + [key]) else t;
    match r
    case Hit(_, _) => u.(hits := u.hits + [key])
    case Wrote(_) => u.(misses := u.misses + [key], writes := u.writes + [key])
    case Declined(_) => u.(misses := u.misses + [key], declines := u.declines + [key])
  }
}
