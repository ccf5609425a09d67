/** What the store's operations achieve when nothing gets in the way: publishing, opening, migrating. */
module StoreEffects {
  import opened Options
  import opened StoreProtocol
  import opened StoreSafety
  import opened StoreCleanup
  import opened StoreTheorems

  /** Nobody is inside an operation. */
  ghost predicate Quiet(s: State) {
    forall q :: q in s.procs ==> s.procs[q].pc.Idle?
  }

  /** The next step of a process, if its locks let it take one. */
  function Solo(s: State, p: Pid): State {
    if Enabled(s, Advance(p)) then Do(s, Advance(p)) else s
  }

  /** `n` steps of one process on its own. */
  function Steps(s: State, p: Pid, n: nat): State {
    if n == 0 then s else Solo(Steps(s, p, n - 1), p)
  }

  /** A process alone inside an operation. */
  ghost predicate OnlyOne(s: State, p: Pid) {
    p in s.procs && forall q :: q in s.procs && q != p ==> s.procs[q].pc.Idle?
  }

  /** The state after a publication that finds the key free: a new complete generation, current and indexed,
      beside everything that was there. */
  ghost predicate Installed(d: Disk, d': Disk, key: Key, strict: bool, columns: Columns) {
    var g := d.next;
    && d' == d.(current := Some(g), gens := d.gens[g := Whole(Manifest(g, key, strict, columns))],
                history := d'.history, next := g + 1,
                nodes := if strict then d.nodes[key := g] else d.nodes, retired := d'.retired)
    && g !in d.gens
  }

  /** Alone inside an operation, a process is never blocked. */
  lemma NeverBlocked(s: State, p: Pid)
    requires OnlyOne(s, p) && !s.procs[p].pc.Idle?
    ensures Enabled(s, Advance(p)) && Solo(s, p) == StepAdvance(s, p)
  {
    hide StepAdvance;
    assert s.procs[p].pc.PubReusing? ==> s.NobodyExcludes();
    assert s.procs[p].pc.PubWritten? || s.procs[p].pc.GcWaiting? || s.procs[p].pc.EvWaiting? ==>
        s.NobodyExcludes() && s.NobodyShares();
  }

  /** A step moves nobody else. */
  ghost predicate MovesOnly(s: State, s': State, p: Pid) {
    s'.procs.Keys == s.procs.Keys && forall q :: q in s.procs && q != p ==> s'.procs[q] == s.procs[q]
  }

  lemma ReadersMoveOne(s: State, p: Pid)
    requires p in s.procs
    ensures MovesOnly(s, StepOpen(s, p), p) && MovesOnly(s, StepReuse(s, p), p)
  {}

  lemma PublishersMoveOne(s: State, p: Pid)
    requires p in s.procs
    ensures MovesOnly(s, StepPublish(s, p), p)
  {}

  lemma CleanersMoveOne(s: State, p: Pid)
    requires p in s.procs
    ensures MovesOnly(s, StepCollect(s, p), p) && MovesOnly(s, StepEvict(s, p), p)
  {}

  /** One step of the only active process, from a known point. */
  lemma SoloAt(s: State, p: Pid, pc: Pc)
    requires OnlyOne(s, p) && s.procs[p].pc == pc && !pc.Idle?
    ensures Solo(s, p) == StepAdvance(s, p) && OnlyOne(Solo(s, p), p) && Solo(s, p).procs.Keys == s.procs.Keys
  {
    NeverBlocked(s, p);
    ReadersMoveOne(s, p);
    PublishersMoveOne(s, p);
    CleanersMoveOne(s, p);
    hide Solo, Enabled, StepOpen, StepReuse, StepPublish, StepCollect, StepEvict;
  }

  /** A publisher's step: where it goes and the disk it leaves. */
  lemma Publishes(s: State, p: Pid, pc: Pc, pc': Pc, d': Disk)
    requires OnlyOne(s, p) && s.procs[p].pc == pc
    requires pc.PubChecking? || pc.PubStaging? || pc.PubWriting? || pc.PubWritten? || pc.PubRenaming? || pc.PubPointing?
          || pc.PubIndexing? || pc.PubDone?
    requires StepPublish(s, p) == s.Move(p, pc', d')
    ensures var s' := Solo(s, p);
            OnlyOne(s', p) && s'.procs.Keys == s.procs.Keys && s'.procs[p].pc == pc' && s'.disk == d'
  {
    hide StepPublish, StepOpen, StepReuse, StepCollect, StepEvict;
    SoloAt(s, p, pc);
  }

  /** The three steps before the commit: a staging directory under a new name, its files, its manifest. */
  lemma Stages(s: State, p: Pid, job: Job)
    requires OnlyOne(s, p) && s.procs[p].pc == PubStaging(job)
    ensures var g, s' := s.disk.next, Solo(Solo(Solo(s, p), p), p);
            && OnlyOne(s', p) && s'.procs.Keys == s.procs.Keys && s'.procs[p].pc == PubRenaming(job, g)
            && s'.disk == s.disk.(staging := s.disk.staging + {g}, next := g + 1)
  {
    hide Solo, OnlyOne;
    var g := s.disk.next;
    var d1 := s.disk.(staging := s.disk.staging + {g}, next := g + 1);
    Publishes(s, p, PubStaging(job), PubWriting(job, g), d1);
    var s1 := Solo(s, p);
    Publishes(s1, p, PubWriting(job, g), PubWritten(job, g), d1);
    var s2 := Solo(s1, p);
    Publishes(s2, p, PubWritten(job, g), PubRenaming(job, g), d1);
  }

  /** The commit: rename, CURRENT, node pointer, unlock. */
  lemma Commits(s: State, p: Pid, job: Job, g: Gen)
    requires OnlyOne(s, p) && s.procs[p].pc == PubRenaming(job, g)
    ensures var s' := Solo(Solo(Solo(Solo(Solo(s, p), p), p), p), p);
            var m := Manifest(g, job.key, job.strict, job.columns);
            var d := s.disk;
            && OnlyOne(s', p) && s'.procs.Keys == s.procs.Keys && s'.procs[p].pc == Idle
            && s'.disk == d.(staging := d.staging - {g}, gens := d.gens[g := Whole(m)], history := d.history[g := m],
                             current := Some(g), nodes := if job.strict then d.nodes[job.key := g] else d.nodes,
                             retired := s'.disk.retired)
  {
    hide Solo, OnlyOne;
    var d := s.disk;
    var m := Manifest(g, job.key, job.strict, job.columns);
    var d1 := d.(staging := d.staging - {g}, gens := d.gens[g := Whole(m)], history := d.history[g := m]);
    Publishes(s, p, PubRenaming(job, g), PubPointing(job, g), d1);
    var s1 := Solo(s, p);
    var d2 := d1.(current := Some(g));
    Publishes(s1, p, PubPointing(job, g), PubIndexing(job, g), d2);
    var s2 := Solo(s1, p);
    var d3 := if job.strict then
      d2.(nodes := d2.nodes[job.key := g],
          retired := d2.retired + if job.key in d2.nodes then {d2.nodes[job.key]} else {}) else d2;
    Publishes(s2, p, PubIndexing(job, g), PubDone, d3);
    var s3 := Solo(s2, p);
    Publishes(s3, p, PubDone, Finishing, d3);
    var s4 := Solo(s3, p);
    Finishes(s4, p);
  }

  lemma Finishes(s: State, p: Pid)
    requires OnlyOne(s, p) && s.procs[p].pc == Finishing
    ensures var s' := Solo(s, p);
            OnlyOne(s', p) && s'.procs.Keys == s.procs.Keys && s'.procs[p].pc == Idle && s'.disk == s.disk
  {
    SoloAt(s, p, Finishing);
  }

  lemma EightSteps(s: State, p: Pid)
    ensures Steps(s, p, 8) == Solo(Solo(Solo(Solo(Steps(s, p, 4), p), p), p), p)
  {
    hide Solo;
    assert Steps(s, p, 5) == Solo(Steps(s, p, 4), p) && Steps(s, p, 6) == Solo(Steps(s, p, 5), p);
    assert Steps(s, p, 7) == Solo(Steps(s, p, 6), p) && Steps(s, p, 8) == Solo(Steps(s, p, 7), p);
  }

  /** Writing a generation and committing it, once the publisher has decided to go ahead. */
  lemma CommitInstalls(s: State, p: Pid, job: Job)
    requires Inv(s) && OnlyOne(s, p) && s.procs[p].pc == PubStaging(job)
    ensures var s' := Steps(s, p, 8);
            s'.procs.Keys == s.procs.Keys && Quiet(s') && Installed(s.disk, s'.disk, job.key, job.strict, job.columns)
  {
    var d, g := s.disk, s.disk.next;
    assert g !in d.gens && g !in d.staging && d.staging + {g} - {g} == d.staging;
    hide Inv, Solo, Steps;
    Stages(s, p, job);
    Commits(Solo(Solo(Solo(s, p), p), p), p, job, g);
    FourSteps(s, p);
    EightSteps(s, p);
  }

  lemma {:induction false} StepsFront(s: State, p: Pid, n: nat)
    ensures Steps(s, p, n + 1) == Steps(Solo(s, p), p, n)
  {
    hide Solo;
    if n > 0 {
      StepsFront(s, p, n - 1);
    }
  }

  lemma {:induction false} StepsRest(s: State, p: Pid, n: nat)
    requires p in s.procs && s.procs[p].pc.Idle?
    ensures Steps(s, p, n) == s
  {
    if n > 0 {
      StepsRest(s, p, n - 1);
    }
  }

  // ---- Publishing ----

  /** A quiet disk keeps everything but a lease file. */
  predicate OnlyLeased(d: Disk, d': Disk) {
    d' == d.(leases := d'.leases, next := d'.next)
  }

  /** Publishing an indexed key only reopens what is there. */
  lemma Reuses(s: State, p: Pid, key: Key, g: Gen)
    requires OnlyOne(s, p) && s.procs[p].pc == PubReusing(key, g) && s.disk.Readable(ByKey(key), g)
    ensures var s' := Steps(s, p, 4);
            s'.procs.Keys == s.procs.Keys && Quiet(s') && s'.procs[p].pc == Idle && OnlyLeased(s.disk, s'.disk)
  {
    hide Solo, Steps, OnlyOne;
    ReuseLocks(s, p, key, g);
    var s1 := Solo(s, p);
    ReuseLeases(s1, p, key, g);
    var s2 := Solo(s1, p);
    ReuseUnlocks(s2, p);
    var s3 := Solo(s2, p);
    Finishes(s3, p);
    NobodyLeft(Solo(s3, p), p);
    FourSteps(s, p);
  }

  lemma ReuseLocks(s: State, p: Pid, key: Key, g: Gen)
    requires OnlyOne(s, p) && s.procs[p].pc == PubReusing(key, g)
    ensures var s' := Solo(s, p);
            OnlyOne(s', p) && s'.procs.Keys == s.procs.Keys && s'.procs[p].pc == PubReuseLocked(key, g)
              && s'.disk == s.disk
  {
    SoloReuses(s, p, PubReusing(key, g));
    hide Solo, OnlyOne;
  }

  lemma ReuseLeases(s: State, p: Pid, key: Key, g: Gen)
    requires OnlyOne(s, p) && s.procs[p].pc == PubReuseLocked(key, g) && s.disk.Readable(ByKey(key), g)
    ensures var s' := Solo(s, p);
            && OnlyOne(s', p) && s'.procs.Keys == s.procs.Keys && s'.procs[p].pc == PubReuseDone
            && OnlyLeased(s.disk, s'.disk)
  {
    SoloReuses(s, p, PubReuseLocked(key, g));
    hide Solo, OnlyOne;
  }

  lemma ReuseUnlocks(s: State, p: Pid)
    requires OnlyOne(s, p) && s.procs[p].pc == PubReuseDone
    ensures var s' := Solo(s, p);
            OnlyOne(s', p) && s'.procs.Keys == s.procs.Keys && s'.procs[p].pc == Finishing && s'.disk == s.disk
  {
    SoloReuses(s, p, PubReuseDone);
    hide Solo, OnlyOne;
  }

  lemma SoloReuses(s: State, p: Pid, pc: Pc)
    requires OnlyOne(s, p) && s.procs[p].pc == pc
    requires pc.PubReusing? || pc.PubReuseLocked? || pc.PubReuseDone?
    ensures Solo(s, p) == StepReuse(s, p) && OnlyOne(Solo(s, p), p) && Solo(s, p).procs.Keys == s.procs.Keys
  {
    hide StepPublish, StepOpen, StepReuse, StepCollect, StepEvict;
    SoloAt(s, p, pc);
  }

  /** Whatever the index names can be reopened. */
  lemma IndexedIsReadable(s: State, key: Key)
    requires Inv(s) && key in s.disk.nodes
    ensures s.disk.Readable(ByKey(key), s.disk.nodes[key])
  {
    hide Leasing, Knows, Exclusion;
  }

  lemma PublishBegins(s: State, p: Pid, job: Job)
    requires Inv(s) && Quiet(s) && p in s.procs && job.replace.None?
    ensures Enabled(s, Publish(p, job)) && Inv(Do(s, Publish(p, job)))
    ensures var s1 := Do(s, Publish(p, job));
            OnlyOne(s1, p) && s1.procs.Keys == s.procs.Keys && s1.procs[p].pc == PubChecking(job) && s1.disk == s.disk
  {
    assert Enabled(s, Publish(p, job));
    StepKeeps(s, Publish(p, job));
    hide Inv;
  }

  /** The publisher's look at the index. */
  lemma Looks(s: State, p: Pid, job: Job)
    requires OnlyOne(s, p) && s.procs[p].pc == PubChecking(job)
    ensures var s' := Solo(s, p);
            OnlyOne(s', p) && s'.procs.Keys == s.procs.Keys && s'.procs[p].pc == Checked(s.disk, job)
              && s'.disk == s.disk
  {
    hide Solo, Checked, OnlyOne;
    Publishes(s, p, PubChecking(job), Checked(s.disk, job), s.disk);
  }

  /** What a publication that meets nobody makes of the disk it looked at. */
  ghost predicate Effect(d: Disk, d': Disk, job: Job) {
    match Checked(d, job)
    case PubReusing(_, _) => OnlyLeased(d, d')
    case PubStaging(_) => Installed(d, d', job.key, job.strict, job.columns)
    case _ => d' == d
  }

  /** A migration that lost its race goes straight home. */
  lemma Abandons(s: State, p: Pid)
    requires OnlyOne(s, p) && s.procs[p].pc == Finishing
    ensures var s' := Steps(s, p, 8); s'.procs.Keys == s.procs.Keys && Quiet(s') && s'.disk == s.disk
  {
    hide Solo, Steps, OnlyOne;
    Finishes(s, p);
    StepsFront(s, p, 7);
    StepsRest(Solo(s, p), p, 7);
    NobodyLeft(Solo(s, p), p);
  }

  /** The rest of a publication, once the publisher has looked at the index. */
  lemma DecidedTakesEffect(s: State, p: Pid, job: Job)
    requires Inv(s) && OnlyOne(s, p) && s.procs[p].pc == Checked(s.disk, job)
    ensures var s' := Steps(s, p, 8); s'.procs.Keys == s.procs.Keys && Quiet(s') && Effect(s.disk, s'.disk, job)
  {
    assert p in s.procs;
    hide Solo, Steps, Inv, OnlyOne, Quiet, Installed, OnlyLeased, Disk.Readable;
    match Checked(s.disk, job)
    case PubReusing(k, g) =>
      IndexedIsReadable(s, k);
      Reuses(s, p, k, g);
      EightFromFour(s, p);
    case PubStaging(_) =>
      CommitInstalls(s, p, job);
    case _ =>
      Abandons(s, p);
  }

  /** The rest of a publication, from the look at the index. */
  lemma CheckedTakesEffect(s: State, p: Pid, job: Job)
    requires Inv(s) && OnlyOne(s, p) && s.procs[p].pc == PubChecking(job)
    ensures var s' := Steps(s, p, 9); s'.procs.Keys == s.procs.Keys && Quiet(s') && Effect(s.disk, s'.disk, job)
  {
    hide Solo, Steps, Inv, OnlyOne, Quiet, Effect, Checked;
    SoloKeeps(s, p);
    Looks(s, p, job);
    StepsFront(s, p, 8);
    DecidedTakesEffect(Solo(s, p), p, job);
  }

  lemma NobodyLeft(s: State, p: Pid)
    requires OnlyOne(s, p) && s.procs[p].pc.Idle?
    ensures Quiet(s)
  {}

  lemma EffectOfPublish(d: Disk, d': Disk, job: Job)
    requires job.replace.None? && Effect(d, d', job)
    ensures if job.strict && job.key in d.nodes then OnlyLeased(d, d')
            else Installed(d, d', job.key, job.strict, job.columns)
  {
    hide OnlyLeased, Installed;
  }

  /** A publication that meets nobody: the first publisher of a strict key wins, a later one changes nothing;
      anything else is installed, and becomes current. */
  lemma PublishTakesEffect(s: State, p: Pid, job: Job)
    requires Inv(s) && Quiet(s) && p in s.procs && job.replace.None?
    ensures Enabled(s, Publish(p, job))
    ensures var s' := Steps(Do(s, Publish(p, job)), p, 9);
            && s'.procs.Keys == s.procs.Keys && Quiet(s')
            && if job.strict && job.key in s.disk.nodes then OnlyLeased(s.disk, s'.disk)
               else Installed(s.disk, s'.disk, job.key, job.strict, job.columns)
  {
    hide *;
    PublishBegins(s, p, job);
    var s1 := Do(s, Publish(p, job));
    CheckedTakesEffect(s1, p, job);
    EffectOfPublish(s.disk, Steps(s1, p, 9).disk, job);
  }

  /** A migration that meets nobody: if its generation is still the indexed one it installs the same columns
      under a new name, otherwise it leaves the disk alone. */
  lemma MigrateTakesEffect(s: State, p: Pid, l: nat)
    requires Inv(s) && Quiet(s) && p in s.procs && l in s.procs[p].held && s.procs[p].held[l].strict
    ensures Enabled(s, Migrate(p, l))
    ensures var m, s' := s.procs[p].held[l], Steps(Do(s, Migrate(p, l)), p, 9);
            && s'.procs.Keys == s.procs.Keys && Quiet(s')
            && if s.disk.Lookup(ByKey(m.key)) == Some(m.generation)
              then Installed(s.disk, s'.disk, m.key, true, m.columns)
               else s'.disk == s.disk
  {
    hide Steps, OnlyOne, Installed, OnlyLeased, Inv, Do, Enabled, Quiet;
    MigrateBegins(s, p, l);
    var m := s.procs[p].held[l];
    CheckedTakesEffect(Do(s, Migrate(p, l)), p, Job(m.key, true, m.columns, Some(m.generation)));
  }

  lemma MigrateBegins(s: State, p: Pid, l: nat)
    requires Inv(s) && Quiet(s) && p in s.procs && l in s.procs[p].held && s.procs[p].held[l].strict
    ensures Enabled(s, Migrate(p, l)) && Inv(Do(s, Migrate(p, l)))
    ensures var m, s1 := s.procs[p].held[l], Do(s, Migrate(p, l));
            && OnlyOne(s1, p) && s1.procs.Keys == s.procs.Keys && s1.disk == s.disk
            && s1.procs[p].pc == PubChecking(Job(m.key, true, m.columns, Some(m.generation)))
  {
    assert Enabled(s, Migrate(p, l));
    StepKeeps(s, Migrate(p, l));
    hide Inv;
  }

  // ---- Opening ----

  /** Reading the pointer and the manifest under the shared lock. */
  lemma Finds(s: State, p: Pid, q: Query, g: Gen)
    requires OnlyOne(s, p) && s.procs[p].pc == OpenLocked(q)
    requires s.disk.Lookup(q) == Some(g) && s.disk.Readable(q, g)
    ensures var s' := Solo(Solo(s, p), p);
            OnlyOne(s', p) && s'.procs.Keys == s.procs.Keys && s'.procs[p].held == s.procs[p].held && s'.disk == s.disk
            && s'.procs[p].pc == OpenMapped(q, g, s.disk.gens[g].manifest)
  {
    assert g in s.disk.gens && s.disk.gens[g].Whole?;
    hide Solo, OnlyOne, Disk.Readable, Disk.Lookup;
    SoloOpens(s, p, OpenLocked(q));
    SoloOpens(Solo(s, p), p, OpenFound(q, g));
  }

  /** Writing the lease file and letting go of the lock. */
  lemma Leases(s: State, p: Pid, q: Query, g: Gen, m: Manifest)
    requires OnlyOne(s, p) && s.procs[p].pc == OpenMapped(q, g, m)
    ensures var d, s' := s.disk, Solo(Solo(s, p), p);
            && Quiet(s') && s'.procs.Keys == s.procs.Keys
            && s'.disk == d.(leases := d.leases[d.next := Lease(g, p)], next := d.next + 1)
            && s'.procs[p].held == s.procs[p].held[d.next := m]
  {
    hide Solo, OnlyOne;
    SoloOpens(s, p, OpenMapped(q, g, m));
    SoloOpens(Solo(s, p), p, OpenDone);
    NobodyLeft(Solo(Solo(s, p), p), p);
  }

  lemma OpenBegins(s: State, p: Pid, q: Query)
    requires Quiet(s) && p in s.procs
    ensures Enabled(s, Open(p, q))
    ensures var s1 := Do(s, Open(p, q));
            && OnlyOne(s1, p) && s1.procs.Keys == s.procs.Keys && s1.disk == s.disk
            && s1.procs[p].pc == OpenLocked(q) && s1.procs[p].held == s.procs[p].held
  {}

  /** Opening an indexed key, undisturbed: the process ends up holding a lease, on disk, on the generation
      the index names, with the columns that key has. */
  lemma OpenTakesEffect(s: State, p: Pid, key: Key)
    requires Inv(s) && Quiet(s) && p in s.procs && key in s.disk.nodes
    ensures Enabled(s, Open(p, ByKey(key)))
    ensures var d, s' := s.disk, Steps(Do(s, Open(p, ByKey(key))), p, 4);
            && Quiet(s') && p in s'.procs && OnlyLeased(d, s'.disk)
            && d.next in s'.procs[p].held && d.next in s'.disk.leases
            && s'.disk.leases[d.next] == Lease(d.nodes[key], p)
            && s'.procs[p].held[d.next].generation == d.nodes[key]
            && Some(s'.procs[p].held[d.next].columns) == ValueOf(d, key)
  {
    IndexedIsReadable(s, key);
    OpenBegins(s, p, ByKey(key));
    hide Inv, Solo, Steps, Do, Enabled, Quiet, OnlyOne;
    var d, g := s.disk, s.disk.nodes[key];
    var s0 := Do(s, Open(p, ByKey(key)));
    Finds(s0, p, ByKey(key), g);
    Leases(Solo(Solo(s0, p), p), p, ByKey(key), g, d.gens[g].manifest);
    FourSteps(s0, p);
  }

  lemma FourSteps(s: State, p: Pid)
    ensures Steps(s, p, 4) == Solo(Solo(Solo(Solo(s, p), p), p), p)
  {
    hide Solo;
    assert Steps(s, p, 1) == Solo(s, p) && Steps(s, p, 2) == Solo(Steps(s, p, 1), p);
    assert Steps(s, p, 3) == Solo(Steps(s, p, 2), p) && Steps(s, p, 4) == Solo(Steps(s, p, 3), p);
  }

  lemma SoloOpens(s: State, p: Pid, pc: Pc)
    requires OnlyOne(s, p) && s.procs[p].pc == pc
    requires pc.OpenLocked? || pc.OpenFound? || pc.OpenMapped? || pc.OpenDone?
    ensures Solo(s, p) == StepOpen(s, p) && OnlyOne(Solo(s, p), p) && Solo(s, p).procs.Keys == s.procs.Keys
  {
    hide StepPublish, StepOpen, StepReuse, StepCollect, StepEvict;
    SoloAt(s, p, pc);
  }

  /** Round trip: what an undisturbed strict publication leaves under its key, and so what any process that
      opens the key next maps, is the value of the key's first publisher. */
  lemma PublishThenOpen(s: State, p: Pid, reader: Pid, job: Job)
    requires Inv(s) && Quiet(s) && p in s.procs && reader in s.procs && job.replace.None? && job.strict
    ensures Enabled(s, Publish(p, job))
    ensures var s1 := Steps(Do(s, Publish(p, job)), p, 9);
            && Enabled(s1, Open(reader, ByKey(job.key)))
            && var s2 := Steps(Do(s1, Open(reader, ByKey(job.key))), reader, 4);
               && reader in s2.procs && s1.disk.next in s2.procs[reader].held
               && Some(s2.procs[reader].held[s1.disk.next].columns)
                  == if job.key in s.disk.nodes then ValueOf(s.disk, job.key) else Some(job.columns)
  {
    hide Steps, Do, Enabled, Inv;
    PublishTakesEffect(s, p, job);
    var s1 := Steps(Do(s, Publish(p, job)), p, 9);
    PublishBegins(s, p, job);
    StepsKeep(Do(s, Publish(p, job)), p, 9);
    OpenTakesEffect(s1, reader, job.key);
  }

  lemma {:induction false} StepsKeep(s: State, p: Pid, n: nat)
    requires Inv(s)
    ensures Inv(Steps(s, p, n))
  {
    hide Inv, Solo;
    if n > 0 {
      StepsKeep(s, p, n - 1);
      SoloKeeps(Steps(s, p, n - 1), p);
    }
  }

  lemma SoloKeeps(s: State, p: Pid)
    requires Inv(s)
    ensures Inv(Solo(s, p))
  {
    hide Inv, Enabled, Do;
    if Enabled(s, Advance(p)) {
      StepKeeps(s, Advance(p));
    }
  }

  lemma EightFromFour(s: State, p: Pid)
    requires var s' := Steps(s, p, 4); p in s'.procs && s'.procs[p].pc == Idle
    ensures Steps(s, p, 8) == Steps(s, p, 4)
  {
    var s' := Steps(s, p, 4);
    assert Solo(s', p) == s';
    hide Solo;
    assert Steps(s, p, 5) == s' && Steps(s, p, 6) == s' && Steps(s, p, 7) == s';
  }
}
