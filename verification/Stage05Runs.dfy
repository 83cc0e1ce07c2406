/** Any number of Stage 05 runs, each ended by success, a caught error or a kill at any step. */
module Stage05Runs {
  import opened Errors
  import opened Folders
  import opened Hosts
  import opened JournalRecords
  import opened JournalRuns
  import opened JournalStores
  import opened PowerLoss
  import opened Outcomes
  import opened SecureTrees
  import opened Stage05
  import opened Stage05States

  datatype Operation = Execute | Rollback

  /** One run of the tool, and what befalls its system calls. */
  datatype Run = Run(operation: Operation, faults: seq<Fault>)

  predicate Executes(runs: seq<Run>) {
    forall run :: run in runs ==> run.operation.Execute?
  }

  predicate KilledExecutes(runs: seq<Run>) {
    forall run :: run in runs ==> run.operation.Execute? && Calm(run.faults)
  }

  lemma Appended(runs: seq<Run>, run: Run)
    ensures Executes(runs + [run]) <==> Executes(runs) && run.operation.Execute?
    ensures KilledExecutes(runs + [run]) <==> KilledExecutes(runs) && run.operation.Execute? && Calm(run.faults)
  {
    forall x ensures x in runs + [run] <==> x in runs || x == run {
    }
  }

  /** A machine, and the runs made on it since it had nothing of the installation. */
  class Installation {
    const plan: Plan
    const host: Host
    const reconciler: Reconciler
    ghost var runs: seq<Run>

    ghost predicate Valid()
      reads this, host
    {
      && reconciler.Wired() && reconciler.host == host && reconciler.plan == plan
      && Legal(plan, host.tree, host.journal, host.config) && Guarded(host.journal)
      && (KilledExecutes(runs) ==> ForwardOnly(host.journal))
      && (Executes(runs) ==> Gone(host.tree) == {})
    }

    constructor (plan: Plan)
      requires ValidIdentity(plan.identity)
      ensures Valid() && fresh(host) && this.plan == plan && runs == [] && !host.broken
              && !Exposed(host.tree, host.journal)
    {
      var machine := new Host();
      var tool := new Reconciler(machine, plan);
      this.plan, host, reconciler, runs := plan, machine, tool, [];
      new;
      PristineLegal(plan, host.tree, host.journal, host.config);
    }

    /** One run, however it ends, keeps the state legal and only extends the published history. */
    method Perform(run: Run) returns (r: Outcome<JournalRecord>)
      requires Valid()
      modifies this`runs, host
      ensures Valid() && runs == old(runs) + [run] && Extends(old(host.journal), host.journal)
      // a run that nothing disturbs
      ensures run == Run(Execute, []) ==> (r.Done? <==> old(CanExecute(host.journal, host.config)))
      ensures run.operation.Execute? && r.Done? ==> Installed(plan, host.tree, host.journal, host.config)
      ensures run == Run(Rollback, []) ==>
                && (r.Done? <==> old(CanRollback(host.journal, host.config)))
                && (r.Done? ==> Removed(plan, host.tree, host.journal, host.config))
                && (old(Removed(plan, host.tree, host.journal, host.config)) ==>
                      host.tree == old(host.tree) && host.journal == old(host.journal)
                      && host.config == old(host.config))
      // the write-ahead rule
      ensures run.operation.Execute? && old(!Exposed(host.tree, host.journal)) ==> WroteAhead(host.tree, host.journal)
      ensures run == Run(Execute, []) && r.Done?
              && old(Exposed(host.tree, host.journal) && WroteAhead(host.tree, host.journal)) ==>
                host.broken
      // removals that are not synced
      ensures run.operation.Execute? ==> Gone(host.tree) <= old(Gone(host.tree))
      ensures run.operation.Rollback? && r.Done? ==>
                Removed(plan, host.tree, host.journal, host.config) && Gone(host.tree) == old(Gone(host.tree))
    {
      hide ViewOf, ValidIdentity, Guarded, Ahead, WroteAhead, Exposed, Legal, Executes, KilledExecutes, Gone;
      Appended(runs, run);
      host.broken := false;
      host.faults := run.faults;
      runs := runs + [run];
      match run.operation {
        case Execute => r := reconciler.Execute();
        case Rollback => r := reconciler.Rollback();
      }
    }

    /**
     * After any number of `execute` runs killed at any step, one that is left alone installs everything, exactly when
     * no kill left a half-written temporary file.
     */
    method ExecuteConverges() returns (r: Outcome<JournalRecord>)
      requires Valid() && KilledExecutes(runs)
      modifies this`runs, host
      ensures Valid() && runs == old(runs) + [Run(Execute, [])]
      ensures r.Done? <==> old(!TornJournal(ViewOf(host.journal)) && ViewOf(host.config) != Draft(Torn))
      ensures r.Done? ==> Installed(plan, host.tree, host.journal, host.config)
    {
      hide ViewOf;
      r := Perform(Run(Execute, []));
    }

    /**
     * After any mix of runs, one `rollback` that is left alone removes everything, exactly when a record was published
     * and no half-written temporary file is left.
     */
    method RollbackConverges() returns (r: Outcome<JournalRecord>)
      requires Valid()
      modifies this`runs, host
      ensures Valid() && runs == old(runs) + [Run(Rollback, [])]
      ensures r.Done? <==> old(CanRollback(host.journal, host.config))
      ensures r.Done? ==> Removed(plan, host.tree, host.journal, host.config)
    {
      hide ViewOf;
      r := Perform(Run(Rollback, []));
    }

    /** Rolling back again changes nothing. */
    method RollbackRepeats() returns (r: Outcome<JournalRecord>)
      requires Valid() && Removed(plan, host.tree, host.journal, host.config)
      modifies this`runs, host
      ensures Valid() && r.Done?
      ensures host.tree == old(host.tree) && host.journal == old(host.journal)
      ensures ViewOf(host.config) != Draft(Torn) && host.config == old(host.config)
    {
      RemovedCanRollback(plan, host.tree, host.journal, host.config);
      hide ViewOf;
      r := Perform(Run(Rollback, []));
    }

    /**
     * An `execute` that does not start exposed, stopped anywhere, and then a loss of power: where any resource exists,
     * the journal and its directory come back, with a complete valid record that says applying.
     */
    method WritesAhead(faults: seq<Fault>) returns (r: Outcome<JournalRecord>)
      requires Valid() && !Exposed(host.tree, host.journal)
      modifies this`runs, host
      ensures Valid() && runs == old(runs) + [Run(Execute, faults)]
      ensures host.tree.dirs.Keys * {Config, Experiments, Workspace} != {} ==>
                forall u, j: Journal :: TreeLost(host.tree, u) && Lost(host.journal, j) ==>
                  && Roots(u)
                  && Held(j).Some? && Began(Held(j).value) && ValidRecord(Held(j).value.value)
      ensures r.Done? ==> !Exposed(host.tree, host.journal)
    {
      hide ViewOf, Guarded;
      r := Perform(Run(Execute, faults));
      hide Ahead, Lost, Held;
      ResourcesFollowJournal(plan, host.tree, host.journal, host.config);
      if Config in host.tree.dirs {
        forall u, j: Journal | TreeLost(host.tree, u) && Lost(host.journal, j)
          ensures Roots(u) && Held(j).Some? && Began(Held(j).value) && ValidRecord(Held(j).value.value)
        {
          RootsSurvive(host.tree, u);
          AheadSurvives(host.journal, j);
        }
      }
    }

    /**
     * One that starts exposed breaks the rule: it is broken at the start, or, in a run that is left alone, after some
     * step of it, where a kill and a loss of power leave a resource without a record that says applying.
     */
    method ExposedBreaks() returns (r: Outcome<JournalRecord>)
      requires Valid() && Exposed(host.tree, host.journal)
      modifies this`runs, host
      ensures Valid() && runs == old(runs) + [Run(Execute, [])]
      ensures old(!WroteAhead(host.tree, host.journal)) || host.broken
    {
      hide ViewOf, Guarded, Ahead;
      if Config !in host.tree.dirs {
        ExposedCanExecute(plan, host.tree, host.journal, host.config);
      }
      r := Perform(Run(Execute, []));
    }

    /**
     * Once a rollback has succeeded, however often it was disturbed, a loss of power brings no resource back, exactly
     * if no earlier removal was left unsynced when it started: it syncs what it removes itself, and nothing else.
     */
    method RollbackLasts(faults: seq<Fault>) returns (r: Outcome<JournalRecord>)
      requires Valid()
      modifies this`runs, host
      ensures Valid() && runs == old(runs) + [Run(Rollback, faults)]
      ensures r.Done? ==>
                ((forall u :: TreeLost(host.tree, u) ==> u.dirs.Keys * RESOURCES == {}) <==>
                   old(Gone(host.tree) * {Config, Experiments} == {}))
      // so the first rollback lasts
      ensures r.Done? && old(Executes(runs)) ==> forall u :: TreeLost(host.tree, u) ==> u.dirs.Keys * RESOURCES == {}
    {
      hide ViewOf, Guarded, Legal, Executes, Gone, TreeLost;
      r := Perform(Run(Rollback, faults));
      if r.Done? { RemovedStays(plan, host.tree, host.journal, host.config); }
    }
  }

  lemma RemovedCanRollback(p: Plan, t: Tree, j: Journal, c: MarkerFolder)
    requires Removed(p, t, j, c)
    ensures CanRollback(j, c) && ViewOf(c) != Draft(Torn)
  {
  }

  lemma ExposedCanExecute(p: Plan, t: Tree, j: Journal, c: MarkerFolder)
    requires Legal(p, t, j, c) && Exposed(t, j) && Config !in t.dirs
    ensures CanExecute(j, c)
  {
    hide ViewOf, Ahead;
    Reads(c);
  }

  /** Safety over every interleaving of runs. */
  method Operate(m: Installation, runs: seq<Run>)
    requires m.Valid()
    modifies m`runs, m.host
    ensures m.Valid() && m.runs == old(m.runs) + runs && Extends(old(m.host.journal), m.host.journal)
  {
    hide ViewOf, Legal, Guarded, ForwardOnly, Executes, KilledExecutes, Gone;
    assert m.runs + runs[..0] == m.runs;
    for i := 0 to |runs|
      invariant m.Valid() && m.runs == old(m.runs) + runs[..i] && Extends(old(m.host.journal), m.host.journal)
    {
      assert runs[..i + 1] == runs[..i] + [runs[i]];
      var _ := m.Perform(runs[i]);
    }
    assert runs[..|runs|] == runs;
  }

  lemma PristineLegal(p: Plan, t: Tree, j: Journal, c: MarkerFolder)
    requires t.dirs == map[] && j.entries == map[] && c.entries == map[]
    ensures Legal(p, t, j, c) && ForwardOnly(j)
  {
    assert Temps(j) == {} && Temps(c) == {};
  }

  /** What the resources are under each published state. */
  lemma ResourcesFollowJournal(p: Plan, t: Tree, j: Journal, c: MarkerFolder)
    requires Legal(p, t, j, c)
    ensures HasRecord(ViewOf(j)) ==> Roots(t) && Anchored(t)
    // the present resources are the first ones of the fixed order
    ensures Final in c.entries ==> Workspace in t.dirs
    ensures Workspace in t.dirs ==> Experiments in t.dirs
    ensures Experiments in t.dirs ==> Config in t.dirs
    // nothing is created before applying is published
    ensures Config in t.dirs ==> Applying in History(ViewOf(j))
    ensures !HasRecord(ViewOf(j)) || Last(History(ViewOf(j))) in {Planned, RolledBack} ==>
              Length(t, c) == 0 && c.entries == map[]
    ensures HasRecord(ViewOf(j)) && Last(History(ViewOf(j))) in {Applied, Validated} ==>
              Prefix(p, t, ViewOf(c), 4) && Durable(t, c, 4)
    ensures HasRecord(ViewOf(j)) && Last(History(ViewOf(j))).Failed? ==>
              Clean(p, t, c) && forall n :: n in c.entries ==> n == Final
  {
    hide ViewOf, ValidIdentity;
    Reads(c);
    if HasRecord(ViewOf(j)) && Last(History(ViewOf(j))).Planned? {
      HistoryShape(History(ViewOf(j)), |History(ViewOf(j))| - 1);
    }
    assert forall n :: n in c.entries ==> n == Final || n in Temps(c);
  }

  const NO_JOURNAL: Journal := Folder(map[], [], {}, {}, {None})
  const NO_MARKER: MarkerFolder := Folder(map[], [], {}, {}, {None})

  /** Both roots, created and synced. */
  const BARE_ROOTS: Tree := Tree(map[StateRoot := M0755, JournalRoot := M0700], {}, {})

  /**
   * A kill after the journal's first temporary file was opened leaves a legal state that blocks both operations for
   * good.
   */
  lemma TornBlocks(p: Plan, token: nat)
    ensures var opening := Apply(NO_JOURNAL, OpenExclusive(Temp(token)));
            && opening.Done? && Legal(p, BARE_ROOTS, opening.value, NO_MARKER) && ForwardOnly(opening.value)
            && !CanExecute(opening.value, NO_MARKER) && !CanRollback(opening.value, NO_MARKER)
  {
    AfterOpen(NO_JOURNAL, Temp(token));
    assert Temps(NO_JOURNAL) == {} && Temps(NO_MARKER) == {};
  }

  // ---- loss of power

  /**
   * A directory is kept only within its parent. Within a parent that is kept, the entries synced since their last
   * change stay as they are, present or absent, and synced modes stay; nothing is said of the others.
   */
  predicate TreeLost(t: Tree, u: Tree) {
    && (forall d :: d in u.dirs ==> Exists(u, Parent(d)))
    && (forall d :: d !in t.loose && Exists(u, Parent(d)) ==> (d in u.dirs <==> d in t.dirs))
    && (forall d :: d in t.dirs && d in u.dirs && Settled(t, d) ==> u.dirs[d] == t.dirs[d])
  }

  /** So do the names of a folder, and the text of its synced files. */
  predicate FolderLost(c: MarkerFolder, d: MarkerFolder) {
    && (forall n :: n in c.entries && n !in c.loose ==> n in d.entries && d.entries[n] == c.entries[n])
    && (forall ino :: 0 <= ino < |c.inodes| && ino !in c.stale ==>
          ino < |d.inodes| && d.inodes[ino].text == c.inodes[ino].text)
  }

  /** Once applied is recorded, all four resources outlive a loss of power in their exact form. */
  lemma AppliedSurvives(p: Plan, t: Tree, u: Tree, j: Journal, c: MarkerFolder, d: MarkerFolder)
    requires Legal(p, t, j, c) && HasRecord(ViewOf(j)) && Last(History(ViewOf(j))) in {Applied, Validated}
    requires TreeLost(t, u) && FolderLost(c, d)
    ensures Config in u.dirs && u.dirs[Config] == M0755
    ensures Experiments in u.dirs && u.dirs[Experiments] == M0700
    ensures Workspace in u.dirs && u.dirs[Workspace] == M0700
    ensures Final in d.entries && FileAt(d, Final).text == Whole(p.marker)
    ensures JournalRoot in u.dirs && u.dirs[JournalRoot] == M0700
  {
    hide ViewOf;
    Reads(c);
    RootsSurvive(t, u);
  }

  lemma RootsSurvive(t: Tree, u: Tree)
    requires Roots(t) && Anchored(t) && TreeLost(t, u)
    ensures Roots(u)
  {
    assert Exists(u, Parent(StateRoot)) && Exists(u, Parent(JournalRoot));
  }

  const RESOURCES: set<Dir> := {Config, Experiments, Workspace}

  /** Where no resource is left, none comes back exactly if the removal of the two outer ones is synced. */
  lemma RemovedStays(p: Plan, t: Tree, j: Journal, c: MarkerFolder)
    requires Legal(p, t, j, c) && Removed(p, t, j, c)
    ensures (forall u :: TreeLost(t, u) ==> u.dirs.Keys * RESOURCES == {}) <==> Gone(t) * {Config, Experiments} == {}
  {
    hide ViewOf;
    forall d | d in {Config, Experiments} && d in Gone(t)
      ensures exists u :: TreeLost(t, u) && u.dirs.Keys * RESOURCES != {}
    {
      var u := t.(dirs := t.dirs[d := M0700]);
      assert TreeLost(t, u) && d in u.dirs.Keys * RESOURCES;
    }
    if Gone(t) * {Config, Experiments} == {} {
      forall u | TreeLost(t, u) ensures u.dirs.Keys * RESOURCES == {} {
        assert forall d :: d in {Config, Experiments} && d in t.loose ==> d in Gone(t) * {Config, Experiments};
        assert Exists(u, Parent(Config)) && Config !in u.dirs;
        assert Exists(u, Parent(Experiments)) ==> Experiments !in u.dirs;
        assert Workspace in u.dirs ==> Exists(u, Parent(Workspace));
      }
    }
  }

  /**
   * A kill between the removal of a directory and the sync of its parent leaves a legal state that rollback finishes.
   */
  lemma GoneState(p: Plan, j: Journal) returns (t: Tree)
    requires ValidIdentity(p.identity)
    requires ViewOf(j) == Published(JournalRecord(p.identity, [Planned, Applying, RollingBack]))
    ensures ApplyTree(BARE_ROOTS.(dirs := BARE_ROOTS.dirs[Config := M0755]), {JournalRoot}, RemoveDir(Config))
              == Done(t)
    ensures Legal(p, t, j, NO_MARKER) && CanRollback(j, NO_MARKER) && Gone(t) == {Config}
  {
    StageForward();
    StageAdvance([Planned, Applying], RollingBack);
    assert [Planned, Applying] + [RollingBack] == [Planned, Applying, RollingBack];
    assert Temps(NO_MARKER) == {};
    hide ViewOf;
    var before := BARE_ROOTS.(dirs := BARE_ROOTS.dirs[Config := M0755]);
    t := BARE_ROOTS.(loose := {Config});
    assert Children(before, Config) == {} && before.loose + {Config} == {Config};
    assert before.dirs - {Config} == BARE_ROOTS.dirs;
    assert ViewOf(NO_MARKER).Empty? ==> Prefix(p, t, ViewOf(NO_MARKER), 0) && Length(t, NO_MARKER) == 0;
  }

  lemma RenamedView(f: Journal, temp: Name, next: JournalRecord)
    requires ViewOf(f).Published? && temp.Temp? && temp !in f.entries
    ensures var steps := [OpenExclusive(temp), Write(temp, next), SyncFile(temp), Rename(temp, Final)];
            Calls(f, steps).Done? ==> ViewOf(Calls(f, steps).value) == Published(next)
  {
    hide ViewOf;
    var created := Apply(f, OpenExclusive(temp)).value;
    AfterOpen(f, temp);
    var written := Apply(created, Write(temp, next)).value;
    AfterWrite(created, temp, next);
    AfterSync(written, SyncFile(temp));
    var synced := Apply(written, SyncFile(temp)).value;
    AfterRename(synced, temp);
    FourCalls(f, OpenExclusive(temp), Write(temp, next), SyncFile(temp), Rename(temp, Final));
  }

  lemma FourCalls(f: Journal, a: Call<JournalRecord>, b: Call<JournalRecord>, c: Call<JournalRecord>,
                  d: Call<JournalRecord>)
    ensures Calls(f, [a, b, c, d]) ==
            match Apply(f, a)
            case Done(f1) =>
              (match Apply(f1, b)
               case Done(f2) =>
                 (match Apply(f2, c)
                  case Done(f3) => Apply(f3, d)
                  case other => other)
               case other => other)
            case other => other
  {
    assert [a, b, c, d][1..] == [b, c, d] && [b, c, d][1..] == [c, d] && [c, d][1..] == [d] && [d][1..] == [];
    hide Apply;
    var f1 := Apply(f, a);
    if f1.Done? {
      var f2 := Apply(f1.value, b);
      if f2.Done? {
        var f3 := Apply(f2.value, c);
        if f3.Done? {
          assert Calls(f3.value, [d]) == Apply(f3.value, d);
        }
        assert Calls(f2.value, [c, d]) == if f3.Done? then Calls(f3.value, [d]) else f3;
      }
      assert Calls(f1.value, [b, c, d]) == if f2.Done? then Calls(f2.value, [c, d]) else f2;
    }
  }

  function PlannedOnDisk(p: Plan): Journal {
    Folder(map[Final := 0], [File(1, Whole(p.Record()))], {}, {}, {Some(0)})
  }

  lemma PlannedOnDiskGuarded(p: Plan)
    requires ValidIdentity(p.identity)
    ensures Guarded(PlannedOnDisk(p)) && ViewOf(PlannedOnDisk(p)) == Published(p.Record())
    ensures Held(PlannedOnDisk(p)) == Some(Whole(p.Record())) && ValidRecord(p.Record())
  {
    StageForward();
    assert Temps(PlannedOnDisk(p)) == {};
    assert HeldWhole(PlannedOnDisk(p), 0, p.Record());
  }

  /**
   * What is published survives a transition that was killed between its rename and its sync, but need not come back.
   */
  lemma ExposedState(p: Plan) returns (t: Tree, j: Journal, g: Journal)
    requires ValidIdentity(p.identity)
    ensures Legal(p, t, j, NO_MARKER) && ForwardOnly(j) && CanExecute(j, NO_MARKER)
    ensures Guarded(j) && Exposed(t, j) && !WroteAhead(t, j)
    ensures Lost(j, g) && Held(g) == Some(Whole(p.Record()))
  {
    var applying := JournalRecord(p.identity, [Planned, Applying]);
    StageForward();
    PlannedOnDiskGuarded(p);
    RenamedView(PlannedOnDisk(p), Temp(0), applying);
    j, g := LoadedMayVanish(PlannedOnDisk(p), Temp(0), applying);
    t := BARE_ROOTS.(dirs := BARE_ROOTS.dirs[Config := M0755]);
    assert Temps(NO_MARKER) == {};
    hide Calls, PlannedOnDisk, ViewOf;
    OneDirectory(p, t, j);
    NotAhead(p, j, g);
  }

  lemma OneDirectory(p: Plan, t: Tree, j: Journal)
    requires t == BARE_ROOTS.(dirs := BARE_ROOTS.dirs[Config := M0755])
    requires ViewOf(j) == Published(JournalRecord(p.identity, [Planned, Applying]))
    ensures Legal(p, t, j, NO_MARKER) && ForwardOnly(j) && CanExecute(j, NO_MARKER) && Applying in History(ViewOf(j))
  {
    StageForward();
    assert Temps(NO_MARKER) == {};
    hide ViewOf;
    assert Last([Planned, Applying]) == Applying;
    assert ViewOf(NO_MARKER).Empty? ==> Prefix(p, t, ViewOf(NO_MARKER), 1) && Length(t, NO_MARKER) == 1;
  }

  lemma NotAhead(p: Plan, j: Journal, g: Journal)
    requires Lost(j, g) && Held(g) == Some(Whole(p.Record()))
    ensures !Ahead(j)
  {
    if Ahead(j) { AheadSurvives(j, g); }
  }
}
