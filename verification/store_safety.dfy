/** The inductive invariant of the factor store, kept by every step of every process. */
module StoreSafety {
  import opened Options
  import opened StoreProtocol

  /** At most one writer; an exclusive holder shares with nobody. */
  ghost predicate Exclusion(procs: map<Pid, Proc>) {
    && (forall p, q :: p in procs && q in procs && procs[p].pc.Writes() && procs[q].pc.Writes() ==> p == q)
    && (forall p, q :: p in procs && q in procs && procs[p].pc.Excludes() ==> p == q || !procs[q].pc.Shares())
  }

  /** Names come from a counter that never goes back. */
  ghost predicate Named(d: Disk) {
    && (forall g :: g in d.gens ==> g in d.history)
    && (forall g :: g in d.history ==> g < d.next && d.history[g].generation == g && g !in d.staging)
    && (forall g :: g in d.staging ==> g < d.next)
    && (forall l :: l in d.leases ==> l < d.next)
    && (forall g :: g in d.retired ==> g in d.history)
  }

  /** A complete generation holds exactly what was renamed into place. */
  ghost predicate Stored(d: Disk) {
    forall g :: g in d.gens && d.gens[g].Whole? ==> g in d.history && d.gens[g].manifest == d.history[g]
  }

  ghost predicate IsWhole(d: Disk, g: Gen) {
    g in d.gens && g in d.history && d.gens[g] == Whole(d.history[g])
  }

  /** CURRENT and every node pointer name a complete generation; a pointer's manifest carries its own key;
      what has left the index never returns to it. */
  ghost predicate Pointing(d: Disk) {
    && (d.current.Some? ==> IsWhole(d, d.current.value))
    && (forall k :: k in d.nodes ==>
          && IsWhole(d, d.nodes[k]) && d.history[d.nodes[k]].key == k && d.history[d.nodes[k]].strict
          && d.nodes[k] !in d.retired)
  }

  ghost predicate Sane(d: Disk) {
    Named(d) && Stored(d) && Pointing(d)
  }

  /** A mapping's lease file is on disk and its generation complete. */
  ghost predicate Protected(d: Disk, p: Pid, l: nat, m: Manifest) {
    && l in d.leases && d.leases[l] == Lease(m.generation, p)
    && IsWhole(d, m.generation) && d.history[m.generation] == m
  }

  /** A lease being unlinked is no longer mapped, and its file, if still there, is the process's own. */
  ghost predicate Unlinking(d: Disk, p: Pid, held: map<nat, Manifest>, l: nat) {
    l < d.next && l !in held && (l in d.leases ==> d.leases[l].pid == p)
  }

  ghost predicate Leasing(d: Disk, p: Pid, proc: Proc) {
    && (forall l :: l in proc.held ==> Protected(d, p, l, proc.held[l]))
    && (forall l :: l in proc.closing ==> Unlinking(d, p, proc.held, l))
  }

  /** A generation that may be deleted: nobody points at it and no lease file names it. */
  ghost predicate Doomed(d: Disk, g: Gen) {
    d.current != Some(g) && g !in d.nodes.Values && d.Unleased(g) && g in d.history
  }

  ghost predicate KeepsAll(d: Disk, keep: set<Gen>) {
    && (d.current.Some? ==> d.current.value in keep)
    && forall k :: k in d.nodes ==> d.nodes[k] in keep
  }

  ghost predicate Evicting(d: Disk, candidates: set<Key>) {
    forall k :: k in candidates ==> k in d.nodes && d.current != Some(d.nodes[k]) && d.Unleased(d.nodes[k])
  }

  /** A migration carries the columns of the generation it replaces. */
  ghost predicate Faithful(d: Disk, job: Job) {
    job.replace.Some? ==>
      && job.strict && job.replace.value in d.history
      && d.history[job.replace.value].columns == job.columns && d.history[job.replace.value].key == job.key
  }

  /** A publication under way: its key is still free, or still maps to the generation it replaces. */
  ghost predicate Going(d: Disk, job: Job) {
    && Faithful(d, job)
    && if job.replace.Some? then job.key in d.nodes && d.nodes[job.key] == job.replace.value
       else job.strict ==> job.key !in d.nodes
  }

  ghost predicate Staged(d: Disk, g: Gen) {
    g in d.staging && g !in d.history
  }

  ghost predicate Renamed(d: Disk, job: Job, g: Gen) {
    && IsWhole(d, g) && d.history[g] == Manifest(g, job.key, job.strict, job.columns)
    && g !in d.nodes.Values && g !in d.retired
  }

  ghost predicate Found(d: Disk, q: Query, g: Gen) {
    IsWhole(d, g) && d.Lookup(q) == Some(g)
  }

  /** What each point of a process's program knows about the disk. */
  ghost predicate Knows(d: Disk, pc: Pc) {
    match pc
    case OpenFound(q, g) => Found(d, q, g)
    case OpenMapped(q, g, m) => Found(d, q, g) && d.history[g] == m
    case PubChecking(job) => Faithful(d, job)
    case PubReusing(k, g) => k in d.nodes && d.nodes[k] == g
    case PubReuseLocked(k, g) => k in d.nodes && d.nodes[k] == g
    case PubStaging(job) => Going(d, job)
    case PubWriting(job, g) => Going(d, job) && Staged(d, g)
    case PubWritten(job, g) => Going(d, job) && Staged(d, g)
    case PubRenaming(job, g) => Going(d, job) && Staged(d, g)
    case PubPointing(job, g) => Going(d, job) && Renamed(d, job, g)
    case PubIndexing(job, g) => Going(d, job) && Renamed(d, job, g) && d.current == Some(g)
    case GcLoop(keep) => KeepsAll(d, keep)
    case GcDeleting(keep, g) => KeepsAll(d, keep) && Doomed(d, g)
    case EvLoop(c) => Evicting(d, c)
    case EvUnlinked(c, g) => Evicting(d, c) && Doomed(d, g)
    case EvDeleting(c, g) => Evicting(d, c) && Doomed(d, g)
    case _ => true
  }

  ghost predicate Inv(s: State) {
    && Exclusion(s.procs) && Sane(s.disk)
    && (forall p :: p in s.procs ==> Leasing(s.disk, p, s.procs[p]))
    && (forall p :: p in s.procs ==> Knows(s.disk, s.procs[p].pc))
  }

  lemma EmptyIsSafe()
    ensures Inv(Empty)
  {}

  // ---- Frames ----

  /** The locks a process's next point needs are free of others. */
  ghost predicate Admitted(procs: map<Pid, Proc>, p: Pid, pc: Pc) {
    forall q :: q in procs && q != p ==>
      && (pc.Writes() ==> !procs[q].pc.Writes())
      && (pc.Excludes() ==> !procs[q].pc.Shares())
      && (pc.Shares() ==> !procs[q].pc.Excludes())
  }

  /** While one process excludes, every other is idle. */
  lemma OthersIdle(s: State, p: Pid)
    requires Inv(s) && p in s.procs && s.procs[p].pc.Excludes()
    ensures forall q :: q in s.procs && q != p ==> s.procs[q].pc.Idle?
  {}

  lemma ExclusionMoves(procs: map<Pid, Proc>, p: Pid, proc: Proc)
    requires Exclusion(procs) && Admitted(procs, p, proc.pc)
    ensures Exclusion(procs[p := proc])
  {}

  /** A process moves on over a disk that is still sane and on which everybody else's knowledge stands. */
  lemma MoveKeeps(s: State, p: Pid, pc: Pc, d: Disk)
    requires Inv(s) && p in s.procs && Sane(d) && Knows(d, pc) && Admitted(s.procs, p, pc)
    requires forall q :: q in s.procs ==> Leasing(d, q, s.procs[q])
    requires forall q :: q in s.procs && q != p ==> Knows(d, s.procs[q].pc)
    ensures Inv(s.Move(p, pc, d))
  {
    hide Knows, Sane, Protected, Unlinking, Exclusion, Admitted;
    ExclusionMoves(s.procs, p, s.procs[p].(pc := pc));
  }

  /** Its special case: no file changes. */
  lemma GoKeeps(s: State, p: Pid, pc: Pc)
    requires Inv(s) && p in s.procs && Knows(s.disk, pc) && Admitted(s.procs, p, pc)
    ensures Inv(s.Move(p, pc, s.disk))
  {
    hide Knows, Sane, Leasing;
    MoveKeeps(s, p, pc, s.disk);
  }

  /** Staying within the locks one holds is always admitted. */
  lemma StaysAdmitted(s: State, p: Pid, pc: Pc)
    requires Inv(s) && p in s.procs
    requires pc.Writes() ==> s.procs[p].pc.Writes()
    requires pc.Excludes() ==> s.procs[p].pc.Excludes()
    requires pc.Shares() ==> s.procs[p].pc.Shares()
    ensures Admitted(s.procs, p, pc)
  {}

  /** Mappings survive any change that keeps lease files and complete leased generations. */
  lemma LeasingFrame(d: Disk, d': Disk, p: Pid, proc: Proc)
    requires Leasing(d, p, proc)
    requires d'.leases == d.leases && d.next <= d'.next
    requires forall g :: IsWhole(d, g) && !d.Unleased(g) ==> IsWhole(d', g) && d'.history[g] == d.history[g]
    ensures Leasing(d', p, proc)
  {
    hide IsWhole;
    forall l | l in proc.held ensures Protected(d', p, l, proc.held[l]) {
      assert Protected(d, p, l, proc.held[l]);
      assert !d.Unleased(proc.held[l].generation);
    }
    forall l | l in proc.closing ensures Unlinking(d', p, proc.held, l) {
      assert Unlinking(d, p, proc.held, l);
    }
  }

  // ---- Opening ----

  lemma OpenKeeps(s: State, p: Pid)
    requires Inv(s) && p in s.procs
    requires var pc := s.procs[p].pc; pc.OpenLocked? || pc.OpenFound? || pc.OpenDone?
    ensures Inv(StepOpen(s, p))
  {
    hide Leasing;
    var d, pc := s.disk, s.procs[p].pc;
    match pc
    case OpenLocked(q) =>
      var found := d.Lookup(q);
      var next := if found.Some? then OpenFound(q, found.value) else Idle;
      StaysAdmitted(s, p, next);
      GoKeeps(s, p, next);
    case OpenFound(q, g) =>
      var next := if d.Readable(q, g) then OpenMapped(q, g, d.gens[g].manifest) else Idle;
      StaysAdmitted(s, p, next);
      GoKeeps(s, p, next);
    case OpenDone =>
      StaysAdmitted(s, p, Idle);
      GoKeeps(s, p, Idle);
  }

  /** Only exclusive holders know anything about lease files. */
  lemma KnowsDespiteLeases(d: Disk, d': Disk, pc: Pc)
    requires Knows(d, pc) && !pc.Excludes()
    requires d' == d.(leases := d'.leases, next := d'.next)
    ensures Knows(d', pc)
  {}

  lemma SaneDespiteLeases(d: Disk, d': Disk)
    requires Sane(d) && d' == d.(leases := d'.leases, next := d'.next) && d.next <= d'.next
    requires forall l :: l in d'.leases ==> l < d'.next
    ensures Sane(d')
  {}

  /** Creating a lease file over a complete generation, under the shared lock. */
  lemma LeaseKeeps(s: State, p: Pid, g: Gen, m: Manifest, pc: Pc)
    requires Inv(s) && p in s.procs && s.procs[p].pc.Shares() && IsWhole(s.disk, g) && s.disk.history[g] == m
    requires pc == OpenDone || (pc == PubReuseDone && s.procs[p].pc.Writes())
    ensures Inv(s.Leased(p, g, m, pc))
  {
    hide Leasing, Exclusion, Admitted, Knows;
    var s' := s.Leased(p, g, m, pc);
    var d, d' := s.disk, s'.disk;
    LeaseIds(d);
    SaneDespiteLeases(d, d');
    forall q | q in s'.procs ensures Leasing(d', q, s'.procs[q]) {
      LeaseGrows(s, p, g, m, pc, q);
    }
    forall q | q in s'.procs ensures Knows(d', s'.procs[q].pc) {
      if q == p {
        NothingToKnow(d', pc);
      } else {
        assert !s.procs[q].pc.Excludes() by {
          SharersExcludeNone(s, p, q);
        }
        KnowsDespiteLeases(d, d', s.procs[q].pc);
      }
    }
    StaysAdmitted(s, p, pc);
    ExclusionMoves(s.procs, p, s'.procs[p]);
  }

  lemma SharersExcludeNone(s: State, p: Pid, q: Pid)
    requires Inv(s) && p in s.procs && q in s.procs && s.procs[p].pc.Shares() && q != p
    ensures !s.procs[q].pc.Excludes()
  {}

  lemma LeaseIds(d: Disk)
    requires Sane(d)
    ensures forall l :: l in d.leases ==> l < d.next
  {}

  lemma NothingToKnow(d: Disk, pc: Pc)
    requires pc.OpenDone? || pc.PubReuseDone? || pc.Finishing? || pc.Idle? || pc.PubDone?
    ensures Knows(d, pc)
  {}

  lemma LeaseGrows(s: State, p: Pid, g: Gen, m: Manifest, pc: Pc, q: Pid)
    requires Inv(s) && p in s.procs && q in s.procs && IsWhole(s.disk, g) && s.disk.history[g] == m
    ensures var s' := s.Leased(p, g, m, pc); Leasing(s'.disk, q, s'.procs[q])
  {
    hide Knows;
    var s' := s.Leased(p, g, m, pc);
    var d := s.disk;
    assert Leasing(d, q, s.procs[q]);
    forall l | l in s'.procs[q].held ensures Protected(s'.disk, q, l, s'.procs[q].held[l]) {
      if l in s.procs[q].held {
        assert Protected(d, q, l, s.procs[q].held[l]);
      }
    }
    forall l | l in s'.procs[q].closing ensures Unlinking(s'.disk, q, s'.procs[q].held, l) {
      assert Unlinking(d, q, s.procs[q].held, l);
    }
  }

  lemma MappedKeeps(s: State, p: Pid)
    requires Inv(s) && p in s.procs && s.procs[p].pc.OpenMapped?
    ensures Inv(StepOpen(s, p))
  {
    var pc := s.procs[p].pc;
    assert Knows(s.disk, pc);
    LeaseKeeps(s, p, pc.generation, pc.manifest, OpenDone);
  }

  lemma ReuseKeeps(s: State, p: Pid)
    requires Inv(s) && p in s.procs
    requires var pc := s.procs[p].pc; pc.PubReusing? || pc.PubReuseLocked? || pc.PubReuseDone?
    requires s.procs[p].pc.PubReusing? ==> s.NobodyExcludes()
    ensures Inv(StepReuse(s, p))
  {
    hide Leasing, Exclusion;
    var d, pc := s.disk, s.procs[p].pc;
    assert Knows(d, pc);
    if pc.PubReusing? {
      WritersAdmitted(s, p, PubReuseLocked(pc.key, pc.generation));
      GoKeeps(s, p, PubReuseLocked(pc.key, pc.generation));
    } else if pc.PubReuseLocked? && d.Readable(ByKey(pc.key), pc.generation) {
      LeaseKeeps(s, p, pc.generation, d.gens[pc.generation].manifest, PubReuseDone);
    } else {
      StaysAdmitted(s, p, Finishing);
      GoKeeps(s, p, Finishing);
    }
  }

  // ---- Publishing ----

  /** Steps of a publication that only move on. */
  lemma PublishMoves(s: State, p: Pid)
    requires Inv(s) && p in s.procs
    requires var pc := s.procs[p].pc; pc.PubChecking? || pc.PubWriting? || pc.PubWritten? || pc.PubDone?
    requires s.procs[p].pc.PubWritten? ==> s.NobodyExcludes() && s.NobodyShares()
    ensures Inv(StepPublish(s, p))
  {
    hide Leasing, Exclusion, Sane, Faithful;
    var d, pc := s.disk, s.procs[p].pc;
    assert Knows(d, pc);
    var next := match pc
                case PubChecking(job) => Checked(d, job)
                case PubWriting(job, g) => PubWritten(job, g)
                case PubWritten(job, g) => PubRenaming(job, g)
                case _ => Finishing;
    if pc.PubWritten? {
      WritersAdmitted(s, p, next);
    } else {
      StaysAdmitted(s, p, next);
    }
    GoKeeps(s, p, next);
  }

  /** The writer may take the store lock once nobody else has it. */
  lemma WritersAdmitted(s: State, p: Pid, pc: Pc)
    requires Inv(s) && p in s.procs && s.procs[p].pc.Writes() && s.NobodyExcludes()
    requires pc.Excludes() ==> s.NobodyShares()
    ensures Admitted(s.procs, p, pc)
  {}

  /** Changes to staging never reach what a process without the writer lock knows. */
  lemma KnowsDespiteStaging(d: Disk, d': Disk, pc: Pc)
    requires Knows(d, pc) && !pc.Writes()
    requires d' == d.(staging := d'.staging, next := d'.next)
    ensures Knows(d', pc)
  {}

  lemma StagingKeeps(s: State, p: Pid, pc: Pc, d: Disk)
    requires Inv(s) && p in s.procs && s.procs[p].pc.Writes() && Knows(d, pc) && Admitted(s.procs, p, pc)
    requires d == s.disk.(staging := d.staging, next := d.next) && s.disk.next <= d.next
    requires forall g :: g in d.staging ==> g < d.next && g !in d.history
    ensures Inv(s.Move(p, pc, d))
  {
    hide Leasing;
    forall q | q in s.procs && q != p ensures Knows(d, s.procs[q].pc) {
      KnowsDespiteStaging(s.disk, d, s.procs[q].pc);
    }
    forall q | q in s.procs ensures Leasing(d, q, s.procs[q]) {
      LeasingFrame(s.disk, d, q, s.procs[q]);
    }
    MoveKeeps(s, p, pc, d);
  }

  lemma StageKeeps(s: State, p: Pid)
    requires Inv(s) && p in s.procs && (s.procs[p].pc.PubStaging? || s.procs[p].pc.PubCleaning?)
    ensures Inv(StepPublish(s, p))
  {
    hide Leasing, Exclusion;
    var d, pc := s.disk, s.procs[p].pc;
    assert Knows(d, pc);
    match pc
    case PubStaging(job) =>
      StaysAdmitted(s, p, PubWriting(job, d.next));
      StagingKeeps(s, p, PubWriting(job, d.next), d.(staging := d.staging + {d.next}, next := d.next + 1));
    case PubCleaning(g) =>
      StaysAdmitted(s, p, Finishing);
      StagingKeeps(s, p, Finishing, d.(staging := d.staging - {g}));
  }

  /** A step under the exclusive lock: every other process is idle and knows nothing. */
  lemma ExclusiveKeeps(s: State, p: Pid, pc: Pc, d: Disk)
    requires Inv(s) && p in s.procs && s.procs[p].pc.Excludes() && Sane(d) && Knows(d, pc)
    requires !pc.Shares()
    requires forall q :: q in s.procs ==> Leasing(d, q, s.procs[q])
    ensures Inv(s.Move(p, pc, d))
  {
    hide Leasing, Sane;
    OthersIdle(s, p);
    forall q | q in s.procs && q != p ensures Knows(d, s.procs[q].pc) {
    }
    MoveKeeps(s, p, pc, d);
  }

  lemma RenameKeeps(s: State, p: Pid)
    requires Inv(s) && p in s.procs && s.procs[p].pc.PubRenaming?
    ensures Inv(StepPublish(s, p))
  {
    hide Leasing, Exclusion;
    var d, pc := s.disk, s.procs[p].pc;
    var job, g := pc.job, pc.generation;
    var m := Manifest(g, job.key, job.strict, job.columns);
    var d' := d.(staging := d.staging - {g}, gens := d.gens[g := Whole(m)], history := d.history[g := m]);
    assert Knows(d, pc);
    forall q | q in s.procs ensures Leasing(d', q, s.procs[q]) {
      LeasingFrame(d, d', q, s.procs[q]);
    }
    RenameIsSane(d, job, g);
    ExclusiveKeeps(s, p, PubPointing(job, g), d');
  }

  lemma RenameIsSane(d: Disk, job: Job, g: Gen)
    requires Sane(d) && Going(d, job) && Staged(d, g)
    ensures var m := Manifest(g, job.key, job.strict, job.columns);
            var d' := d.(staging := d.staging - {g}, gens := d.gens[g := Whole(m)], history := d.history[g := m]);
            Sane(d') && Going(d', job) && Renamed(d', job, g)
  {}

  lemma PointKeeps(s: State, p: Pid)
    requires Inv(s) && p in s.procs && s.procs[p].pc.PubPointing?
    ensures Inv(StepPublish(s, p))
  {
    hide Leasing, Exclusion;
    var d, pc := s.disk, s.procs[p].pc;
    assert Knows(d, pc);
    var d' := d.(current := Some(pc.generation));
    forall q | q in s.procs ensures Leasing(d', q, s.procs[q]) {
      LeasingFrame(d, d', q, s.procs[q]);
    }
    ExclusiveKeeps(s, p, PubIndexing(pc.job, pc.generation), d');
  }

  lemma IndexKeeps(s: State, p: Pid)
    requires Inv(s) && p in s.procs && s.procs[p].pc.PubIndexing?
    ensures Inv(StepPublish(s, p))
  {
    hide Leasing, Exclusion;
    var d, pc := s.disk, s.procs[p].pc;
    assert Knows(d, pc);
    var job, g := pc.job, pc.generation;
    var d' := if job.strict then
                d.(nodes := d.nodes[job.key := g],
                   retired := d.retired + if job.key in d.nodes then {d.nodes[job.key]} else {})
              else d;
    forall q | q in s.procs ensures Leasing(d', q, s.procs[q]) {
      LeasingFrame(d, d', q, s.procs[q]);
    }
    if job.strict {
      IndexIsSane(d, job, g);
    }
    ExclusiveKeeps(s, p, PubDone, d');
  }

  lemma IndexIsSane(d: Disk, job: Job, g: Gen)
    requires Sane(d) && Renamed(d, job, g) && job.strict
    ensures Sane(d.(nodes := d.nodes[job.key := g],
                    retired := d.retired + if job.key in d.nodes then {d.nodes[job.key]} else {}))
  {
    var d' := d.(nodes := d.nodes[job.key := g],
                 retired := d.retired + if job.key in d.nodes then {d.nodes[job.key]} else {});
    forall k | k in d'.nodes
      ensures IsWhole(d', d'.nodes[k]) && d'.history[d'.nodes[k]].key == k && d'.history[d'.nodes[k]].strict
      ensures d'.nodes[k] !in d'.retired
    {
      if k != job.key {
        assert d.history[d.nodes[k]].key == k;
      }
    }
  }
}
