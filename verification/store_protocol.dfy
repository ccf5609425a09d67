/** The factor store as a transition system: many processes, one directory tree, three lock modes.
    One step is one atomic filesystem operation; a process may die or raise between any two. */
module StoreProtocol {
  import opened Options

  type Key = nat
  type Gen = nat
  type Columns = map<string, seq<real>>

  datatype Manifest = Manifest(generation: Gen, key: Key, strict: bool, columns: Columns)

  /** A generation directory: complete and immutable, or partly deleted. */
  datatype Directory = Whole(manifest: Manifest) | Partial

  datatype Pid = Pid(host: nat, number: nat)

  datatype Lease = Lease(generation: Gen, pid: Pid)

  datatype Query = Current | ByKey(key: Key)

  /** A publication; a migration names the generation it means to replace. */
  datatype Job = Job(key: Key, strict: bool, columns: Columns, replace: Option<Gen>)

  datatype Pc =
    | Idle
    // open: shared store lock
    | OpenLocked(query: Query)
    | OpenFound(query: Query, generation: Gen)
    | OpenMapped(query: Query, generation: Gen, manifest: Manifest)
    | OpenDone
    // publish: writer lock, then shared (reuse) or exclusive (commit)
    | PubChecking(job: Job)
    | PubReusing(key: Key, generation: Gen)
    | PubReuseLocked(key: Key, generation: Gen)
    | PubReuseDone
    | PubStaging(job: Job)
    | PubWriting(job: Job, generation: Gen)
    | PubWritten(job: Job, generation: Gen)
    | PubRenaming(job: Job, generation: Gen)
    | PubPointing(job: Job, generation: Gen)
    | PubIndexing(job: Job, generation: Gen)
    | PubDone
    | PubCleaning(generation: Gen)
    // collect and evict: writer lock, then exclusive
    | GcWaiting
    | GcScanning
    | GcLoop(keep: set<Gen>)
    | GcDeleting(keep: set<Gen>, generation: Gen)
    | EvWaiting
    | EvScanning
    | EvLoop(candidates: set<Key>)
    | EvUnlinked(candidates: set<Key>, generation: Gen)
    | EvDeleting(candidates: set<Key>, generation: Gen)
    // only the writer lock left to release
    | Finishing
  {
    predicate Shares() {
      OpenLocked? || OpenFound? || OpenMapped? || OpenDone? || PubReuseLocked? || PubReuseDone?
    }

    predicate Excludes() {
      || PubRenaming? || PubPointing? || PubIndexing? || PubDone?
      || GcScanning? || GcLoop? || GcDeleting? || EvScanning? || EvLoop? || EvUnlinked? || EvDeleting?
    }

    predicate Writes() {
      !Idle? && !OpenLocked? && !OpenFound? && !OpenMapped? && !OpenDone?
    }
  }

  /** A live process: where it is, the columns it has mapped by lease, the leases it is unlinking. */
  datatype Proc = Proc(pc: Pc, held: map<nat, Manifest>, closing: set<nat>)

  /** The directory tree: files and directories that survive every process. */
  datatype Disk = Disk(
    current: Option<Gen>, nodes: map<Key, Gen>, gens: map<Gen, Directory>, staging: set<Gen>, leases: map<nat, Lease>,
    next: nat,  // unique identifiers handed out so far
    history: map<Gen, Manifest>, retired: set<Gen>)  // history: every manifest, every generation that left the index
  {
    predicate Unleased(g: Gen) {
      forall l :: l in leases ==> leases[l].generation != g
    }

    /** What opening a generation checks in its manifest. */
    predicate Readable(query: Query, g: Gen) {
      && g in gens && gens[g].Whole? && gens[g].manifest.generation == g
      && (query.ByKey? ==> gens[g].manifest.key == query.key && gens[g].manifest.strict)
    }

    function Lookup(query: Query): Option<Gen> {
      match query
      case Current => current
      case ByKey(k) => if k in nodes then Some(nodes[k]) else None
    }
  }

  datatype State = State(disk: Disk, procs: map<Pid, Proc>)
  {
    /** A process goes to its next point, leaving this disk. */
    function Move(p: Pid, pc: Pc, d: Disk): State
      requires p in procs
    {
      State(d, procs[p := procs[p].(pc := pc)])
    }

    predicate WriterFree() {
      forall q :: q in procs ==> !procs[q].pc.Writes()
    }

    predicate NobodyExcludes() {
      forall q :: q in procs ==> !procs[q].pc.Excludes()
    }

    predicate NobodyShares() {
      forall q :: q in procs ==> !procs[q].pc.Shares()
    }

    /** The new lease file and the mapping it protects. */
    function Leased(p: Pid, g: Gen, m: Manifest, pc: Pc): State
      requires p in procs
    {
      State(disk.(leases := disk.leases[disk.next := Lease(g, p)], next := disk.next + 1),
            procs[p := procs[p].(pc := pc, held := procs[p].held[disk.next := m])])
    }
  }

  const Empty: State := State(Disk(None, map[], map[], {}, map[], 0, map[], {}), map[])

  datatype Action =
    | Spawn(p: Pid)
    | Die(p: Pid)
    | CloseBegin(p: Pid, lease: nat)
    | CloseEnd(p: Pid, lease: nat)
    | Open(p: Pid, query: Query)
    | Publish(p: Pid, job: Job)
    | Migrate(p: Pid, lease: nat)
    | Collect(p: Pid)
    | Evict(p: Pid)
    | Advance(p: Pid)
    | Fail(p: Pid)
    | DropStaging(p: Pid, generation: Gen)
    | DropLease(p: Pid, lease: nat)
    | Delete(p: Pid, generation: Gen)
    | Unlink(p: Pid, key: Key)

  /** Locks block; everything else is enabled by the acting process alone. */
  predicate Enabled(s: State, a: Action) {
    match a
    case Spawn(p) => p !in s.procs
    case Die(p) => p in s.procs
    case CloseBegin(p, l) => p in s.procs && l in s.procs[p].held
    case CloseEnd(p, l) => p in s.procs && l in s.procs[p].closing
    case Open(p, _) => p in s.procs && s.procs[p].pc.Idle? && s.NobodyExcludes()
    case Publish(p, job) => p in s.procs && s.procs[p].pc.Idle? && s.WriterFree() && job.replace.None?
    case Migrate(p, l) =>
      p in s.procs && s.procs[p].pc.Idle? && s.WriterFree() && l in s.procs[p].held && s.procs[p].held[l].strict
    case Collect(p) => p in s.procs && s.procs[p].pc.Idle? && s.WriterFree()
    case Evict(p) => p in s.procs && s.procs[p].pc.Idle? && s.WriterFree()
    case Advance(p) =>
      && p in s.procs && !s.procs[p].pc.Idle?
      && (s.procs[p].pc.PubReusing? ==> s.NobodyExcludes())
      && (s.procs[p].pc.PubWritten? || s.procs[p].pc.GcWaiting? || s.procs[p].pc.EvWaiting? ==>
            s.NobodyExcludes() && s.NobodyShares())
    case Fail(p) => p in s.procs && !s.procs[p].pc.Idle? && !s.procs[p].pc.PubCleaning?
    case DropStaging(p, g) => p in s.procs && s.procs[p].pc.GcLoop?
    case DropLease(p, l) =>
      // stale and provably dead: the holder ran on this host and is gone
      && p in s.procs && s.procs[p].pc.GcLoop? && l in s.disk.leases
        && s.disk.leases[l].generation !in s.procs[p].pc.keep
      && s.disk.leases[l].pid.host == p.host && s.disk.leases[l].pid !in s.procs
    case Delete(p, g) =>
      p in s.procs && s.procs[p].pc.GcLoop? && g in s.disk.gens && g !in s.procs[p].pc.keep && s.disk.Unleased(g)
    case Unlink(p, k) => p in s.procs && s.procs[p].pc.EvLoop? && k in s.procs[p].pc.candidates && k in s.disk.nodes
  }

  /** Generations a collection must keep: CURRENT and everything indexed. */
  function Kept(d: Disk): set<Gen> {
    d.nodes.Values + if d.current.Some? then {d.current.value} else {}
  }

  /** Nodes an eviction may remove: not current, and without any lease file. */
  function Evictable(d: Disk): set<Key> {
    set k | k in d.nodes && d.current != Some(d.nodes[k]) && d.Unleased(d.nodes[k])
  }

  /** What collection and eviction check about the index before touching anything. */
  predicate IndexMatches(d: Disk) {
    forall k :: k in d.nodes ==> d.Readable(ByKey(k), d.nodes[k])
  }

  /** Where an exception leaves a process, after its `finally` and `except` blocks have released its locks. */
  function Unwound(pc: Pc): Pc {
    match pc
    case PubWriting(_, g) => PubCleaning(g)
    case PubWritten(_, g) => PubCleaning(g)
    case PubRenaming(_, g) => PubCleaning(g)
    case PubPointing(_, g) => PubCleaning(g)
    case PubIndexing(_, g) => PubCleaning(g)
    case _ => if pc.Writes() && !pc.Finishing? then Finishing else Idle
  }

  /** The publisher's look at the index: lost race, reuse, or go ahead. */
  function Checked(d: Disk, job: Job): Pc {
    if job.replace.Some? then
      if job.key in d.nodes && d.nodes[job.key] == job.replace.value then PubStaging(job) else Finishing
    else if job.strict && job.key in d.nodes then PubReusing(job.key, d.nodes[job.key])
    else PubStaging(job)
  }

  function StepOpen(s: State, p: Pid): State
    requires p in s.procs
  {
    var d := s.disk;
    match s.procs[p].pc
    case OpenLocked(q) =>
      var found := d.Lookup(q);
      s.Move(p, if found.Some? then OpenFound(q, found.value) else Idle, d)
    case OpenFound(q, g) => s.Move(p, if d.Readable(q, g) then OpenMapped(q, g, d.gens[g].manifest) else Idle, d)
    case OpenMapped(q, g, m) => s.Leased(p, g, m, OpenDone)
    case _ => s.Move(p, Idle, d)
  }

  function StepReuse(s: State, p: Pid): State
    requires p in s.procs
  {
    var d := s.disk;
    match s.procs[p].pc
    case PubReusing(k, g) => s.Move(p, PubReuseLocked(k, g), d)
    case PubReuseLocked(k, g) =>
      if d.Readable(ByKey(k), g) then s.Leased(p, g, d.gens[g].manifest, PubReuseDone) else s.Move(p, Finishing, d)
    case _ => s.Move(p, Finishing, d)
  }

  function StepPublish(s: State, p: Pid): State
    requires p in s.procs
  {
    var d := s.disk;
    match s.procs[p].pc
    case PubChecking(job) => s.Move(p, Checked(d, job), d)
    case PubStaging(job) =>
      s.Move(p, PubWriting(job, d.next), d.(staging := d.staging + {d.next}, next := d.next + 1))
    case PubWriting(job, g) => s.Move(p, PubWritten(job, g), d)
    case PubWritten(job, g) => s.Move(p, PubRenaming(job, g), d)
    case PubRenaming(job, g) =>
      var m := Manifest(g, job.key, job.strict, job.columns);
      s.Move(p, PubPointing(job, g),
             d.(staging := d.staging - {g}, gens := d.gens[g := Whole(m)], history := d.history[g := m]))
    case PubPointing(job, g) => s.Move(p, PubIndexing(job, g), d.(current := Some(g)))
    case PubIndexing(job, g) =>
      s.Move(p, PubDone,
             if job.strict then
               d.(nodes := d.nodes[job.key := g],
                  retired := d.retired + if job.key in d.nodes then {d.nodes[job.key]} else {})
             else d)
    case PubCleaning(g) => s.Move(p, Finishing, d.(staging := d.staging - {g}))
    case _ => s.Move(p, Finishing, d)
  }

  function StepCollect(s: State, p: Pid): State
    requires p in s.procs
  {
    var d := s.disk;
    match s.procs[p].pc
    case GcWaiting => s.Move(p, GcScanning, d)
    case GcScanning => s.Move(p, if d.current.Some? && IndexMatches(d) then GcLoop(Kept(d)) else Finishing, d)
    case GcDeleting(keep, g) => s.Move(p, GcLoop(keep), d.(gens := d.gens - {g}))
    case _ => s.Move(p, Finishing, d)
  }

  function StepEvict(s: State, p: Pid): State
    requires p in s.procs
  {
    var d := s.disk;
    match s.procs[p].pc
    case EvWaiting => s.Move(p, EvScanning, d)
    case EvScanning => s.Move(p, if d.current.Some? && IndexMatches(d) then EvLoop(Evictable(d)) else Finishing, d)
    case EvUnlinked(c, g) => s.Move(p, EvDeleting(c, g), d.(gens := d.gens[g := Partial]))
    case EvDeleting(c, g) => s.Move(p, EvLoop(c), d.(gens := d.gens - {g}))
    case _ => s.Move(p, Finishing, d)
  }

  function StepAdvance(s: State, p: Pid): State
    requires p in s.procs
  {
    var pc := s.procs[p].pc;
    if pc.OpenLocked? || pc.OpenFound? || pc.OpenMapped? || pc.OpenDone? then StepOpen(s, p)
    else if pc.PubReusing? || pc.PubReuseLocked? || pc.PubReuseDone? then StepReuse(s, p)
    else if pc.GcWaiting? || pc.GcScanning? || pc.GcLoop? || pc.GcDeleting? then StepCollect(s, p)
    else if pc.EvWaiting? || pc.EvScanning? || pc.EvLoop? || pc.EvUnlinked? || pc.EvDeleting? then StepEvict(s, p)
    else if pc.Finishing? then s.Move(p, Idle, s.disk)
    else StepPublish(s, p)
  }

  function Do(s: State, a: Action): State
    requires Enabled(s, a)
  {
    var d := s.disk;
    match a
    case Spawn(p) => State(d, s.procs[p := Proc(Idle, map[], {})])
    case Die(p) => State(d, s.procs - {p})
    case CloseBegin(p, l) =>
      var proc := s.procs[p];
      State(d, s.procs[p := proc.(held := proc.held - {l}, closing := proc.closing + {l})])
    case CloseEnd(p, l) =>
      var proc := s.procs[p];
      State(d.(leases := d.leases - {l}), s.procs[p := proc.(closing := proc.closing - {l})])
    case Open(p, q) => s.Move(p, OpenLocked(q), d)
    case Publish(p, job) => s.Move(p, PubChecking(job), d)
    case Migrate(p, l) =>
      var m := s.procs[p].held[l];
      s.Move(p, PubChecking(Job(m.key, true, m.columns, Some(m.generation))), d)
    case Collect(p) => s.Move(p, GcWaiting, d)
    case Evict(p) => s.Move(p, EvWaiting, d)
    case Advance(p) => StepAdvance(s, p)
    case Fail(p) => s.Move(p, Unwound(s.procs[p].pc), d)
    case DropStaging(p, g) => State(d.(staging := d.staging - {g}), s.procs)
    case DropLease(p, l) => State(d.(leases := d.leases - {l}), s.procs)
    case Delete(p, g) => s.Move(p, GcDeleting(s.procs[p].pc.keep, g), d.(gens := d.gens[g := Partial]))
    case Unlink(p, k) =>
      s.Move(p, EvUnlinked(s.procs[p].pc.candidates - {k}, d.nodes[k]),
             d.(nodes := d.nodes - {k}, retired := d.retired + {d.nodes[k]}))
  }

  /** A schedule: actions in any order; a disabled one does nothing. */
  function Run(s: State, actions: seq<Action>): State {
    if |actions| == 0 then s
    else
      var before := Run(s, actions[..|actions| - 1]);
      var a := actions[|actions| - 1];
      if Enabled(before, a) then Do(before, a) else before
  }
}
