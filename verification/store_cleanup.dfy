/** Collection, eviction, lease closing and process death keep the store's invariant; so does every step. */
module StoreCleanup {
  import opened Options
  import opened StoreProtocol
  import opened StoreSafety

  // ---- Collecting and evicting ----

  /** Deleting, wholly or in part, a generation nobody points at and nobody leases. */
  lemma DoomedIsSane(d: Disk, d': Disk, g: Gen)
    requires Sane(d) && Doomed(d, g)
    requires d' == d.(gens := d'.gens)
    requires d'.gens == d.gens[g := Partial] || d'.gens == d.gens - {g}
    ensures Sane(d') && Doomed(d', g)
  {}

  lemma DeletionKeeps(s: State, p: Pid, pc: Pc, d: Disk, g: Gen)
    requires Inv(s) && p in s.procs && s.procs[p].pc.Excludes() && Doomed(s.disk, g)
    requires d == s.disk.(gens := d.gens) && (d.gens == s.disk.gens[g := Partial] || d.gens == s.disk.gens - {g})
    requires Knows(d, pc) && !pc.Shares()
    ensures Inv(s.Move(p, pc, d))
  {
    hide Knows, Leasing, Sane, Exclusion;
    DoomedIsSane(s.disk, d, g);
    forall q | q in s.procs ensures Leasing(d, q, s.procs[q]) {
      LeasingFrame(s.disk, d, q, s.procs[q]);
    }
    ExclusiveKeeps(s, p, pc, d);
  }

  lemma CollectKeeps(s: State, p: Pid)
    requires Inv(s) && p in s.procs
    requires var pc := s.procs[p].pc; pc.GcWaiting? || pc.GcScanning? || pc.GcLoop? || pc.GcDeleting?
    requires s.procs[p].pc.GcWaiting? ==> s.NobodyExcludes() && s.NobodyShares()
    ensures Inv(StepCollect(s, p))
  {
    hide Leasing, Exclusion, Sane;
    var d, pc := s.disk, s.procs[p].pc;
    assert Knows(d, pc);
    if pc.GcWaiting? {
      WritersAdmitted(s, p, GcScanning);
      GoKeeps(s, p, GcScanning);
    } else if pc.GcScanning? && d.current.Some? && IndexMatches(d) {
      StaysAdmitted(s, p, GcLoop(Kept(d)));
      GoKeeps(s, p, GcLoop(Kept(d)));
    } else if pc.GcDeleting? {
      DeletionKeeps(s, p, GcLoop(pc.keep), d.(gens := d.gens - {pc.generation}), pc.generation);
    } else {
      StaysAdmitted(s, p, Finishing);
      GoKeeps(s, p, Finishing);
    }
  }

  lemma DeleteKeeps(s: State, a: Action)
    requires Inv(s) && a.Delete? && Enabled(s, a)
    ensures Inv(Do(s, a))
  {
    hide Leasing, Exclusion, IsWhole, Stored;
    var d, pc := s.disk, s.procs[a.p].pc;
    assert Knows(d, pc);
    DeletionKeeps(s, a.p, GcDeleting(pc.keep, a.generation), d.(gens := d.gens[a.generation := Partial]), a.generation);
  }

  lemma EvictMoves(s: State, p: Pid)
    requires Inv(s) && p in s.procs
    requires var pc := s.procs[p].pc; pc.EvWaiting? || pc.EvScanning? || pc.EvLoop?
    requires s.procs[p].pc.EvWaiting? ==> s.NobodyExcludes() && s.NobodyShares()
    ensures Inv(StepEvict(s, p))
  {
    hide Leasing, Exclusion, Sane;
    var d, pc := s.disk, s.procs[p].pc;
    if pc.EvWaiting? {
      WritersAdmitted(s, p, EvScanning);
      GoKeeps(s, p, EvScanning);
    } else if pc.EvScanning? && d.current.Some? && IndexMatches(d) {
      StaysAdmitted(s, p, EvLoop(Evictable(d)));
      GoKeeps(s, p, EvLoop(Evictable(d)));
    } else {
      StaysAdmitted(s, p, Finishing);
      GoKeeps(s, p, Finishing);
    }
  }

  lemma EvictDeletes(s: State, p: Pid)
    requires Inv(s) && p in s.procs && (s.procs[p].pc.EvUnlinked? || s.procs[p].pc.EvDeleting?)
    ensures Inv(StepEvict(s, p))
  {
    hide Leasing, Exclusion, Sane, Doomed, Evicting;
    var d, pc := s.disk, s.procs[p].pc;
    assert Knows(d, pc);
    var g, c := pc.generation, pc.candidates;
    var d' := d.(gens := if pc.EvUnlinked? then d.gens[g := Partial] else d.gens - {g});
    DoomedIsSane(d, d', g);
    EvictingDespiteGens(d, d', c);
    DeletionKeeps(s, p, if pc.EvUnlinked? then EvDeleting(c, g) else EvLoop(c), d', g);
  }

  lemma EvictingDespiteGens(d: Disk, d': Disk, candidates: set<Key>)
    requires Evicting(d, candidates) && d' == d.(gens := d'.gens)
    ensures Evicting(d', candidates)
  {}

  /** Unlinking one node's pointer dooms its own generation and breaks no other pointer. */
  lemma UnlinkIsSane(d: Disk, k: Key, candidates: set<Key>)
    requires Sane(d) && k in candidates && Evicting(d, candidates)
    ensures var d' := d.(nodes := d.nodes - {k}, retired := d.retired + {d.nodes[k]});
            && Sane(d') && Doomed(d', d.nodes[k]) && Evicting(d', candidates - {k})
            && forall j :: j in d.nodes && j != k ==> j in d'.nodes && d'.nodes[j] == d.nodes[j] != d.nodes[k]
  {
    var d' := d.(nodes := d.nodes - {k}, retired := d.retired + {d.nodes[k]});
    forall j | j in d.nodes && j != k ensures d.nodes[j] != d.nodes[k] {
      assert d.history[d.nodes[j]].key == j && d.history[d.nodes[k]].key == k;
    }
  }

  lemma UnlinkKeeps(s: State, a: Action)
    requires Inv(s) && a.Unlink? && Enabled(s, a)
    ensures Inv(Do(s, a))
  {
    hide Leasing, Exclusion, Sane, Doomed, Evicting;
    var d, pc := s.disk, s.procs[a.p].pc;
    var k := a.key;
    assert Knows(d, pc);
    var d' := d.(nodes := d.nodes - {k}, retired := d.retired + {d.nodes[k]});
    UnlinkIsSane(d, k, pc.candidates);
    forall q | q in s.procs ensures Leasing(d', q, s.procs[q]) {
      LeasingFrame(d, d', q, s.procs[q]);
    }
    ExclusiveKeeps(s, a.p, EvUnlinked(pc.candidates - {k}, d.nodes[k]), d');
  }

  // ---- Leases ----

  /** Removing lease files only ever makes more generations unleased. */
  lemma KnowsFewerLeases(d: Disk, l: nat, pc: Pc)
    requires Knows(d, pc)
    ensures Knows(d.(leases := d.leases - {l}), pc)
  {
    var d' := d.(leases := d.leases - {l});
    assert forall g :: d.Unleased(g) ==> d'.Unleased(g);
  }

  /** A removed lease file takes no mapping with it unless the mapping was its own. */
  lemma LeaseRemoved(d: Disk, l: nat, p: Pid, proc: Proc)
    requires Leasing(d, p, proc) && l !in proc.held
    ensures Leasing(d.(leases := d.leases - {l}), p, proc)
  {
    var d' := d.(leases := d.leases - {l});
    forall j | j in proc.held ensures Protected(d', p, j, proc.held[j]) {
      assert Protected(d, p, j, proc.held[j]);
    }
    forall j | j in proc.closing ensures Unlinking(d', p, proc.held, j) {
      assert Unlinking(d, p, proc.held, j);
    }
  }

  lemma DropLeaseKeeps(s: State, a: Action)
    requires Inv(s) && a.DropLease? && Enabled(s, a)
    ensures Inv(Do(s, a))
  {
    hide Knows, Exclusion, Leasing;
    var d, d' := s.disk, Do(s, a).disk;
    SaneDespiteLeases(d, d') by {
      LeaseIds(d);
    }
    forall q | q in s.procs ensures Leasing(d', q, s.procs[q]) && Knows(d', s.procs[q].pc) {
      KnowsFewerLeases(d, a.lease, s.procs[q].pc);
      HeldOnDisk(d, q, s.procs[q]);
      LeaseRemoved(d, a.lease, q, s.procs[q]);
    }
  }

  lemma HeldOnDisk(d: Disk, p: Pid, proc: Proc)
    requires Leasing(d, p, proc)
    ensures forall l :: l in proc.held ==> l in d.leases && d.leases[l].pid == p
  {
    forall l | l in proc.held ensures l in d.leases && d.leases[l].pid == p {
      assert Protected(d, p, l, proc.held[l]);
    }
  }

  lemma CloseEndKeeps(s: State, a: Action)
    requires Inv(s) && a.CloseEnd? && Enabled(s, a)
    ensures Inv(Do(s, a))
  {
    hide Knows, Exclusion;
    var d, s', l := s.disk, Do(s, a), a.lease;
    var proc := s.procs[a.p];
    assert Leasing(d, a.p, proc) && Unlinking(d, a.p, proc.held, l);
    SaneDespiteLeases(d, s'.disk) by {
      LeaseIds(d);
    }
    forall q | q in s'.procs ensures Leasing(s'.disk, q, s'.procs[q]) && Knows(s'.disk, s'.procs[q].pc) {
      KnowsFewerLeases(d, l, s.procs[q].pc);
      HeldOnDisk(d, q, s.procs[q]);
      LeaseRemoved(d, l, q, s.procs[q]);
    }
    SamePcsExclude(s.procs, a.p, s'.procs[a.p]);
  }

  lemma SamePcsExclude(procs: map<Pid, Proc>, p: Pid, proc: Proc)
    requires Exclusion(procs) && p in procs && proc.pc == procs[p].pc
    ensures Exclusion(procs[p := proc])
  {}

  lemma CloseBeginKeeps(s: State, a: Action)
    requires Inv(s) && a.CloseBegin? && Enabled(s, a)
    ensures Inv(Do(s, a))
  {
    hide Knows, Exclusion, Sane;
    var d, s', l := s.disk, Do(s, a), a.lease;
    var proc, proc' := s.procs[a.p], s'.procs[a.p];
    assert Leasing(d, a.p, proc) && Protected(d, a.p, l, proc.held[l]);
    LeaseIds(d);
    forall j | j in proc'.closing ensures Unlinking(d, a.p, proc'.held, j) {
      if j != l {
        assert Unlinking(d, a.p, proc.held, j);
      }
    }
    forall j | j in proc'.held ensures Protected(d, a.p, j, proc'.held[j]) {
      assert Protected(d, a.p, j, proc.held[j]);
    }
    SamePcsExclude(s.procs, a.p, proc');
  }

  // ---- Starting, failing, dying ----

  lemma BeginKeeps(s: State, a: Action)
    requires Inv(s) && (a.Open? || a.Publish? || a.Collect? || a.Evict?) && Enabled(s, a)
    ensures Inv(Do(s, a))
  {
    hide Leasing, Exclusion, Sane;
    var pc := if a.Open? then OpenLocked(a.query) else if a.Publish? then PubChecking(a.job)
              else if a.Collect? then GcWaiting else EvWaiting;
    GoKeeps(s, a.p, pc);
  }

  lemma MigrateKeeps(s: State, a: Action)
    requires Inv(s) && a.Migrate? && Enabled(s, a)
    ensures Inv(Do(s, a))
  {
    hide Exclusion, Sane;
    var m := s.procs[a.p].held[a.lease];
    assert Leasing(s.disk, a.p, s.procs[a.p]) && Protected(s.disk, a.p, a.lease, m);
    GoKeeps(s, a.p, PubChecking(Job(m.key, true, m.columns, Some(m.generation))));
  }

  lemma FailKeeps(s: State, a: Action)
    requires Inv(s) && a.Fail? && Enabled(s, a)
    ensures Inv(Do(s, a))
  {
    hide Leasing, Exclusion, Sane;
    var pc := Unwound(s.procs[a.p].pc);
    StaysAdmitted(s, a.p, pc);
    GoKeeps(s, a.p, pc);
  }

  lemma SpawnKeeps(s: State, a: Action)
    requires Inv(s) && a.Spawn? && Enabled(s, a)
    ensures Inv(Do(s, a))
  {
    hide Leasing, Sane, Knows, Exclusion;
    NothingHeld(s.disk, a.p);
    NothingToKnow(s.disk, Idle);
    ExclusionMoves(s.procs, a.p, Proc(Idle, map[], {}));
  }

  /** Death releases the process's locks and mappings and leaves every file where it is. */
  lemma DieKeeps(s: State, a: Action)
    requires Inv(s) && a.Die? && Enabled(s, a)
    ensures Inv(Do(s, a)) && Do(s, a).disk == s.disk
  {
    hide Leasing, Sane, Knows;
  }

  lemma NothingHeld(d: Disk, p: Pid)
    ensures Leasing(d, p, Proc(Idle, map[], {}))
  {}

  lemma DropStagingKeeps(s: State, a: Action)
    requires Inv(s) && a.DropStaging? && Enabled(s, a)
    ensures Inv(Do(s, a))
  {
    hide Leasing, Exclusion;
    var d, pc := s.disk, s.procs[a.p].pc;
    assert Knows(d, pc);
    StaysAdmitted(s, a.p, pc);
    var d' := d.(staging := d.staging - {a.generation});
    StagingKeeps(s, a.p, pc, d');
    assert s.procs[a.p := s.procs[a.p].(pc := pc)] == s.procs;
  }

  // ---- Every step ----

  lemma AdvanceKeeps(s: State, a: Action)
    requires Inv(s) && a.Advance? && Enabled(s, a)
    ensures Inv(Do(s, a))
  {
    hide Inv, StepOpen, StepReuse, StepPublish, StepCollect, StepEvict, Knows;
    var p, pc := a.p, s.procs[a.p].pc;
    match pc
    case OpenMapped(_, _, _) => MappedKeeps(s, p);
    case PubRenaming(_, _) => RenameKeeps(s, p);
    case PubPointing(_, _) => PointKeeps(s, p);
    case PubIndexing(_, _) => IndexKeeps(s, p);
    case PubStaging(_) => StageKeeps(s, p);
    case PubCleaning(_) => StageKeeps(s, p);
    case Finishing => FinishKeeps(s, p);
    case _ =>
      if pc.OpenLocked? || pc.OpenFound? || pc.OpenDone? {
        OpenKeeps(s, p);
      } else if pc.PubReusing? || pc.PubReuseLocked? || pc.PubReuseDone? {
        ReuseKeeps(s, p);
      } else if pc.GcWaiting? || pc.GcScanning? || pc.GcLoop? || pc.GcDeleting? {
        CollectKeeps(s, p);
      } else if pc.EvWaiting? || pc.EvScanning? || pc.EvLoop? {
        EvictMoves(s, p);
      } else if pc.EvUnlinked? || pc.EvDeleting? {
        EvictDeletes(s, p);
      } else {
        PublishMoves(s, p);
      }
  }

  lemma FinishKeeps(s: State, p: Pid)
    requires Inv(s) && p in s.procs
    ensures Inv(s.Move(p, Idle, s.disk))
  {
    hide Leasing, Exclusion, Sane;
    StaysAdmitted(s, p, Idle);
    GoKeeps(s, p, Idle);
  }

  lemma StepKeeps(s: State, a: Action)
    requires Inv(s) && Enabled(s, a)
    ensures Inv(Do(s, a))
  {
    hide Inv, Do, Enabled;
    match a
    case Spawn(_) => SpawnKeeps(s, a);
    case Die(_) => DieKeeps(s, a);
    case CloseBegin(_, _) => CloseBeginKeeps(s, a);
    case CloseEnd(_, _) => CloseEndKeeps(s, a);
    case Open(_, _) => BeginKeeps(s, a);
    case Publish(_, _) => BeginKeeps(s, a);
    case Migrate(_, _) => MigrateKeeps(s, a);
    case Collect(_) => BeginKeeps(s, a);
    case Evict(_) => BeginKeeps(s, a);
    case Advance(_) => AdvanceKeeps(s, a);
    case Fail(_) => FailKeeps(s, a);
    case DropStaging(_, _) => DropStagingKeeps(s, a);
    case DropLease(_, _) => DropLeaseKeeps(s, a);
    case Delete(_, _) => DeleteKeeps(s, a);
    case Unlink(_, _) => UnlinkKeeps(s, a);
  }
}
