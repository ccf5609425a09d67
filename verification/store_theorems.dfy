/** What the store promises, over every schedule of every set of processes. */
module StoreTheorems {
  import opened Options
  import opened StoreProtocol
  import opened StoreSafety
  import opened StoreCleanup

  lemma {:induction false} RunIsSafe(s: State, actions: seq<Action>)
    requires Inv(s)
    ensures Inv(Run(s, actions))
  {
    hide Inv, Do, Enabled;
    if |actions| > 0 {
      var before, a := Run(s, actions[..|actions| - 1]), actions[|actions| - 1];
      RunIsSafe(s, actions[..|actions| - 1]);
      if Enabled(before, a) {
        StepKeeps(before, a);
      }
    }
  }

  /** After any schedule, whatever died or failed between whichever two steps: CURRENT and every pointer
      name a complete generation, each pointer one whose manifest carries its key and a strict identity;
      so neither collection nor eviction can find the index broken. */
  lemma PointersNameComplete(actions: seq<Action>)
    ensures var d := Run(Empty, actions).disk;
            && (d.current.Some? ==> d.Readable(Current, d.current.value))
            && IndexMatches(d)
  {
    hide Do, Enabled, Run;
    EmptyIsSafe();
    RunIsSafe(Empty, actions);
  }

  /** No collection or eviction ever touches a generation that a live process has mapped. */
  lemma LeasedIsNeverDeleted(actions: seq<Action>, p: Pid, l: nat)
    requires p in Run(Empty, actions).procs && l in Run(Empty, actions).procs[p].held
    ensures var s := Run(Empty, actions);
            var m := s.procs[p].held[l];
            m.generation in s.disk.gens && s.disk.gens[m.generation] == Whole(m)
  {
    hide Do, Enabled, Run;
    EmptyIsSafe();
    RunIsSafe(Empty, actions);
    var s := Run(Empty, actions);
    assert Leasing(s.disk, p, s.procs[p]) && Protected(s.disk, p, l, s.procs[p].held[l]);
  }

  // ---- Values ----

  function ValueOf(d: Disk, k: Key): Option<Columns> {
    if k in d.nodes && d.nodes[k] in d.gens && d.gens[d.nodes[k]].Whole? then
      Some(d.gens[d.nodes[k]].manifest.columns)
    else None
  }

  /** Only renaming and indexing, of all points of all programs, touch the index or the record. */
  lemma MostAdvancesSpareTheIndex(s: State, p: Pid)
    requires p in s.procs && !s.procs[p].pc.PubIndexing? && !s.procs[p].pc.PubRenaming?
    ensures var d, d' := s.disk, StepAdvance(s, p).disk;
            d'.nodes == d.nodes && d'.history == d.history && d'.retired == d.retired
  {
    hide Kept, Evictable, IndexMatches, Checked;
  }

  /** What a step may do to the index: nothing, commit a publication, or evict a node. */
  lemma IndexSteps(s: State, a: Action)
    requires Enabled(s, a)
    ensures Do(s, a).disk.nodes == s.disk.nodes
         || (a.Unlink? && Do(s, a).disk.nodes == s.disk.nodes - {a.key})
         || (a.Advance? && a.p in s.procs && s.procs[a.p].pc.PubIndexing? && s.procs[a.p].pc.job.strict
             && Do(s, a).disk.nodes == s.disk.nodes[s.procs[a.p].pc.job.key := s.procs[a.p].pc.generation])
  {
    hide StepOpen, StepReuse, StepCollect, StepEvict, Unwound;
    if a.Advance? && !s.procs[a.p].pc.PubIndexing? && !s.procs[a.p].pc.PubRenaming? {
      MostAdvancesSpareTheIndex(s, a.p);
    }
  }

  lemma HistoryGrows(s: State, a: Action)
    requires Inv(s) && Enabled(s, a)
    ensures var d, d' := s.disk, Do(s, a).disk;
            (forall g :: g in d.history ==> g in d'.history && d'.history[g] == d.history[g]) && d.retired <= d'.retired
  {
    hide Sane, Leasing, Exclusion, StepOpen, StepReuse, StepCollect, StepEvict, Unwound, IsWhole, Knows;
    if a.Advance? {
      if s.procs[a.p].pc.PubRenaming? {
        RenamingIsNew(s, a.p);
      } else if !s.procs[a.p].pc.PubIndexing? {
        MostAdvancesSpareTheIndex(s, a.p);
      }
    }
  }

  lemma RenamingIsNew(s: State, p: Pid)
    requires Inv(s) && p in s.procs && s.procs[p].pc.PubRenaming?
    ensures s.procs[p].pc.generation !in s.disk.history
  {
    assert Knows(s.disk, s.procs[p].pc);
  }

  lemma ValueIsHistory(d: Disk, k: Key)
    requires Sane(d) && k in d.nodes
    ensures d.nodes[k] in d.history && ValueOf(d, k) == Some(d.history[d.nodes[k]].columns)
  {}

  /** While a key stays indexed its value never changes: not by a second publisher, not by a migration. */
  lemma StepKeepsValue(s: State, a: Action, k: Key)
    requires Inv(s) && Enabled(s, a) && k in s.disk.nodes
    requires a.Unlink? ==> a.key != k
    ensures k in Do(s, a).disk.nodes && ValueOf(Do(s, a).disk, k) == ValueOf(s.disk, k)
  {
    hide Do, Enabled, Leasing, Exclusion, Sane, ValueOf, Renamed;
    StepKeeps(s, a);
    IndexSteps(s, a);
    HistoryGrows(s, a);
    var d, d' := s.disk, Do(s, a).disk;
    ValueIsHistory(d, k);
    ValueIsHistory(d', k);
    if d'.nodes[k] != d.nodes[k] {
      var pc := s.procs[a.p].pc;
      assert Knows(d, pc);
      CommitCarries(d, pc.job, pc.generation);
    }
  }

  /** A commit over an indexed key is a migration, and carries the columns it replaces. */
  lemma CommitCarries(d: Disk, job: Job, g: Gen)
    requires Going(d, job) && Renamed(d, job, g) && job.strict && job.key in d.nodes
    ensures job.replace == Some(d.nodes[job.key])
    ensures job.replace.value in d.history && g in d.history
    ensures d.history[g].columns == d.history[d.nodes[job.key]].columns
  {}

  ghost predicate Spares(actions: seq<Action>, k: Key) {
    forall i :: 0 <= i < |actions| && actions[i].Unlink? ==> actions[i].key != k
  }

  /** From a node's publication until its eviction its value is constant. */
  lemma {:induction false} ValueIsStable(s: State, actions: seq<Action>, k: Key)
    requires Inv(s) && k in s.disk.nodes && Spares(actions, k)
    ensures k in Run(s, actions).disk.nodes && ValueOf(Run(s, actions).disk, k) == ValueOf(s.disk, k)
  {
    hide Inv, Do, Enabled, ValueOf;
    if |actions| > 0 {
      var rest, a := actions[..|actions| - 1], actions[|actions| - 1];
      ValueIsStable(s, rest, k);
      RunIsSafe(s, rest);
      if Enabled(Run(s, rest), a) {
        StepKeepsValue(Run(s, rest), a, k);
      }
    }
  }

  /** Every open by key between the two, at whatever moment, maps exactly that value. */
  lemma OpensAgree(s: State, actions: seq<Action>, k: Key, p: Pid)
    requires Inv(s) && k in s.disk.nodes && Spares(actions, k)
    requires p in Run(s, actions).procs
    requires var pc := Run(s, actions).procs[p].pc; pc.OpenMapped? && pc.query == ByKey(k)
    ensures Some(Run(s, actions).procs[p].pc.manifest.columns) == ValueOf(s.disk, k)
  {
    hide Run, Do, Enabled, Sane, Leasing, Exclusion;
    ValueIsStable(s, actions, k);
    RunIsSafe(s, actions);
    var s' := Run(s, actions);
    assert Knows(s'.disk, s'.procs[p].pc);
  }

  /** An open that has found its generation always succeeds in validating it. */
  lemma FoundIsReadable(actions: seq<Action>, p: Pid)
    requires p in Run(Empty, actions).procs && Run(Empty, actions).procs[p].pc.OpenFound?
    ensures var s := Run(Empty, actions); s.disk.Readable(s.procs[p].pc.query, s.procs[p].pc.generation)
  {
    hide Do, Enabled, Run;
    EmptyIsSafe();
    RunIsSafe(Empty, actions);
    var s := Run(Empty, actions);
    assert Knows(s.disk, s.procs[p].pc);
  }

  // ---- Migrations ----

  /** The step that commits a migration replacing a generation. */
  ghost predicate Replaces(s: State, a: Action, g: Gen) {
    && Enabled(s, a) && a.Advance? && s.procs[a.p].pc.PubIndexing?
    && s.procs[a.p].pc.job.strict && s.procs[a.p].pc.job.replace == Some(g)
  }

  lemma ReplacedIsRetired(s: State, a: Action, g: Gen)
    requires Inv(s) && Replaces(s, a, g)
    ensures g !in s.disk.retired && g in Do(s, a).disk.retired
  {
    hide Leasing, Exclusion;
    assert Knows(s.disk, s.procs[a.p].pc);
  }

  lemma {:induction false} RetiredStays(s: State, actions: seq<Action>, g: Gen)
    requires Inv(s) && g in s.disk.retired
    ensures g in Run(s, actions).disk.retired
  {
    hide Inv, Do, Enabled;
    if |actions| > 0 {
      var rest, a := actions[..|actions| - 1], actions[|actions| - 1];
      RetiredStays(s, rest, g);
      RunIsSafe(s, rest);
      if Enabled(Run(s, rest), a) {
        HistoryGrows(Run(s, rest), a);
      }
    }
  }

  /** At most one migration replaces a given generation, in any continuation of any schedule. */
  lemma MigrationReplacesOnce(s: State, first: Action, actions: seq<Action>, second: Action, g: Gen)
    requires Inv(s) && Replaces(s, first, g)
    ensures !Replaces(Run(Do(s, first), actions), second, g)
  {
    hide Inv, Do, Enabled, Run, Replaces;
    assert Enabled(s, first) by {
      ReplacesIsEnabled(s, first, g);
    }
    ReplacedIsRetired(s, first, g);
    StepKeeps(s, first);
    RetiredStays(Do(s, first), actions, g);
    RunIsSafe(Do(s, first), actions);
    if Replaces(Run(Do(s, first), actions), second, g) {
      ReplacedIsRetired(Run(Do(s, first), actions), second, g);
    }
  }

  lemma ReplacesIsEnabled(s: State, a: Action, g: Gen)
    requires Replaces(s, a, g)
    ensures Enabled(s, a)
  {}

  /** A migration commits exactly when its generation is still the indexed one; a losing one changes no file. */
  lemma LosingMigrationChangesNothing(s: State, p: Pid)
    requires p in s.procs && s.procs[p].pc.PubChecking? && s.procs[p].pc.job.replace.Some?
    ensures var job, s' := s.procs[p].pc.job, Do(s, Advance(p));
            && s'.disk == s.disk
            && (s'.procs[p].pc == PubStaging(job) <==> s.disk.Lookup(ByKey(job.key)) == job.replace)
            && (s'.procs[p].pc != PubStaging(job) ==> s'.procs[p].pc == Finishing)
  {}

  /** A process starts something new. */
  predicate Begins(a: Action, p: Pid) {
    (a.Spawn? || a.Open? || a.Publish? || a.Migrate? || a.Collect? || a.Evict?) && a.p == p
  }

  /** A step of the operation a process is in. */
  predicate OwnStep(a: Action, p: Pid) {
    (a.Advance? || a.Fail?) && a.p == p
  }

  /** A migration whose generation is no longer the indexed one, about to find out or on its way out. */
  predicate Losing(s: State, p: Pid) {
    p in s.procs ==>
      match s.procs[p].pc
      case PubChecking(job) => job.replace.Some? && s.disk.Lookup(ByKey(job.key)) != job.replace
      case Finishing => true
      case Idle => true
      case _ => false
  }

  lemma OthersSpareIt(s: State, a: Action, p: Pid)
    requires Enabled(s, a) && a.p != p
    ensures p in s.procs <==> p in Do(s, a).procs
    ensures p in s.procs ==> Do(s, a).procs[p] == s.procs[p]
  {
    hide StepOpen, StepReuse, StepPublish, StepCollect, StepEvict;
    if a.Advance? {
      AdvanceMovesOne(s, a.p, p);
    }
  }

  lemma AdvanceMovesOne(s: State, p: Pid, q: Pid)
    requires p in s.procs && q != p
    ensures q in s.procs <==> q in StepAdvance(s, p).procs
    ensures q in s.procs ==> StepAdvance(s, p).procs[q] == s.procs[q]
  {}

  /** Nobody else touches the index while a process holds the writer lock. */
  lemma WriterKeepsIndex(s: State, a: Action, p: Pid)
    requires Inv(s) && Enabled(s, a) && a.p != p && p in s.procs && s.procs[p].pc.Writes()
    ensures Do(s, a).disk.nodes == s.disk.nodes
  {
    IndexSteps(s, a);
    hide Inv, Do;
    if a.p in s.procs && s.procs[a.p].pc.Writes() {
      OneWriter(s, p, a.p);
    }
  }

  lemma OneWriter(s: State, p: Pid, q: Pid)
    requires Inv(s) && p in s.procs && q in s.procs && s.procs[p].pc.Writes() && s.procs[q].pc.Writes()
    ensures p == q
  {
    hide Sane, Leasing, Knows;
  }

  lemma LosingStep(s: State, a: Action, p: Pid)
    requires Inv(s) && Enabled(s, a) && Losing(s, p) && !Begins(a, p)
    ensures Losing(Do(s, a), p)
    ensures OwnStep(a, p) ==> Do(s, a).disk == s.disk
  {
    if a.p != p {
      OthersSpareIt(s, a, p);
      if p in s.procs && s.procs[p].pc.PubChecking? {
        WriterKeepsIndex(s, a, p);
      }
      hide Inv, Do, Enabled;
    } else {
      hide Inv, Do, Enabled, Losing, Begins;
      if a.Advance? {
        LosingAdvance(s, p);
      } else {
        LosingOther(s, a, p);
      }
    }
  }

  lemma LosingAdvance(s: State, p: Pid)
    requires Enabled(s, Advance(p)) && Losing(s, p)
    ensures Losing(Do(s, Advance(p)), p) && Do(s, Advance(p)).disk == s.disk
  {
    hide StepOpen, StepReuse, StepCollect, StepEvict;
    assert s.procs[p].pc.PubChecking? || s.procs[p].pc.Finishing?;
  }

  lemma LosingOther(s: State, a: Action, p: Pid)
    requires Enabled(s, a) && a.p == p && !a.Advance? && Losing(s, p) && !Begins(a, p)
    ensures Losing(Do(s, a), p) && (a.Fail? ==> Do(s, a).disk == s.disk)
  {
    hide StepAdvance;
  }

  /** A losing migration changes no file until it is done: over any schedule in which its process starts
      nothing new, it never gets past the check, and none of its own steps changes the disk. */
  lemma {:induction false} LosingMigrationChangesNoFile(s: State, actions: seq<Action>, p: Pid)
    requires Inv(s) && Losing(s, p) && forall k :: 0 <= k < |actions| ==> !Begins(actions[k], p)
    ensures Losing(Run(s, actions), p)
    ensures forall k :: 0 <= k < |actions| && OwnStep(actions[k], p) ==>
      Run(s, actions[..k + 1]).disk == Run(s, actions[..k]).disk
  {
    hide Inv, Do, Enabled, Losing, Begins, OwnStep;
    if |actions| > 0 {
      var n := |actions| - 1;
      var rest, a := actions[..n], actions[n];
      LosingMigrationChangesNoFile(s, rest, p);
      RunIsSafe(s, rest);
      if Enabled(Run(s, rest), a) {
        LosingStep(Run(s, rest), a, p);
      }
      forall k | 0 <= k < |actions| && OwnStep(actions[k], p)
        ensures Run(s, actions[..k + 1]).disk == Run(s, actions[..k]).disk
      {
        if k < n {
          assert rest[..k + 1] == actions[..k + 1] && rest[..k] == actions[..k];
        } else {
          assert actions[..k + 1] == actions;
        }
      }
    }
  }

  /** After any schedule, a migration past its check, up to its commit, still finds the generation it replaces
      under its key; so it commits over nothing else. */
  lemma MigrationCommitsOverItsOwn(actions: seq<Action>, p: Pid)
    requires p in Run(Empty, actions).procs
    requires var pc := Run(Empty, actions).procs[p].pc;
      (pc.PubStaging? || pc.PubWriting? || pc.PubWritten? || pc.PubRenaming? || pc.PubPointing? || pc.PubIndexing?)
      && pc.job.replace.Some?
    ensures var s := Run(Empty, actions);
            var job := s.procs[p].pc.job;
            job.key in s.disk.nodes && s.disk.nodes[job.key] == job.replace.value
  {
    hide Do, Enabled, Run, Sane, Leasing, Exclusion;
    EmptyIsSafe();
    RunIsSafe(Empty, actions);
  }

  // ---- Progress ----

  /** No deadlock: if any process is inside an operation, some process inside one can take its next step. */
  lemma SomebodyCanAdvance(s: State, p: Pid)
    requires Inv(s) && p in s.procs && !s.procs[p].pc.Idle?
    ensures exists q :: q in s.procs && !s.procs[q].pc.Idle? && Enabled(s, Advance(q))
  {
    hide Sane, Leasing, Knows;
    if q :| q in s.procs && s.procs[q].pc.Excludes() {
      assert Enabled(s, Advance(q));
    } else if q :| q in s.procs && s.procs[q].pc.Shares() {
      assert Enabled(s, Advance(q));
    } else {
      assert Enabled(s, Advance(p));
    }
  }
}
