/** The store alone, over any sequence of operations, each of which may end anywhere. */
module JournalRuns {
  import opened Errors
  import opened Folders
  import opened Hosts
  import opened JournalRecords
  import opened JournalStores
  import opened Outcomes
  import opened PowerLoss

  datatype Operation = Create(record: JournalRecord) | Transition(identity: Identity, state: State) | Load

  /** What an operation may leave, by the contracts of `CreateAt`, `TransitionAt` and `LoadAt`. */
  ghost predicate MayStep(v: JournalView, op: Operation, w: JournalView) {
    match op
    case Create(record) => ValidRecord(record) && MayCreate(v, record, w)
    case Transition(identity, state) => MayTransition(v, identity, state, w)
    case Load => w == v || (v.Linked? && w == Bare(v))
  }

  /** Absent or one complete valid record; a second name only for the initial record. */
  ghost predicate StoreInvariant(v: JournalView) {
    && !v.Foreign?
    && (HasRecord(v) ==> ValidRecord(v.value))
    && (v.Linked? ==> Initial(v.value))
  }

  /** The history grows by at most one allowed state, under the same identity. */
  ghost predicate Grows(v: JournalView, w: JournalView) {
    && History(v) <= History(w)
    && |History(w)| <= |History(v)| + 1
    && (HasRecord(v) ==> HasRecord(w) && w.value.identity == v.value.identity)
  }

  lemma StepGrows(v: JournalView, op: Operation, w: JournalView)
    requires StoreInvariant(v) && MayStep(v, op, w)
    ensures StoreInvariant(w) && Grows(v, w)
  {
    if op.Transition? && Transitionable(v, op.identity, op.state) {
      AdvanceValid(v.value, op.state);
    }
  }

  lemma {:induction false} StoreRun(views: seq<JournalView>, ops: seq<Operation>, n: nat)
    requires n <= |ops| && |views| == |ops| + 1 && views[0].Empty?
    requires forall i :: 0 <= i < |ops| ==> MayStep(views[i], ops[i], views[i + 1])
    ensures StoreInvariant(views[n])
    ensures forall i :: 0 <= i <= n ==> History(views[i]) <= History(views[n])
  {
    hide StoreInvariant, MayStep;
    if n == 0 {
      assert StoreInvariant(views[0]) by { EmptyInvariant(); }
    } else {
      StoreRun(views, ops, n - 1);
      StepGrows(views[n - 1], ops[n - 1], views[n]);
    }
  }

  lemma EmptyInvariant()
    ensures StoreInvariant(Empty)
  {
  }

  /**
   * From an empty directory, every view ever left satisfies the invariant, and each history extends every earlier one.
   */
  lemma StoreRuns(views: seq<JournalView>, ops: seq<Operation>)
    requires |views| == |ops| + 1 && views[0].Empty?
    requires forall i :: 0 <= i < |ops| ==> MayStep(views[i], ops[i], views[i + 1])
    ensures forall i :: 0 <= i < |views| ==> StoreInvariant(views[i])
    ensures forall i, j :: 0 <= i <= j < |views| ==> History(views[i]) <= History(views[j])
    ensures forall i :: 0 <= i < |ops| ==> Grows(views[i], views[i + 1])
  {
    hide StoreInvariant, MayStep, Grows;
    forall j | 0 <= j < |views|
      ensures StoreInvariant(views[j]) && forall i :: 0 <= i <= j ==> History(views[i]) <= History(views[j])
    {
      StoreRun(views, ops, j);
    }
    forall i | 0 <= i < |ops| ensures Grows(views[i], views[i + 1]) {
      StepGrows(views[i], ops[i], views[i + 1]);
    }
  }

  /** What the invariant says about the directory itself. */
  lemma InvariantOnDisk(f: Journal)
    requires StoreInvariant(ViewOf(f))
    ensures forall a, b :: a in Temps(f) && b in Temps(f) ==> a == b
    ensures Final in f.entries ==>
              FileAt(f, Final).text.Whole? && ValidRecord(FileAt(f, Final).text.value)
              && FileAt(f, Final).links in {1, 2}
    ensures Final in f.entries && FileAt(f, Final).links == 2 ==>
              && Initial(FileAt(f, Final).text.value)
              && exists t :: Temps(f) == {t} && f.entries[t] == f.entries[Final]
    ensures forall t :: t in Temps(f) && Final in f.entries && f.entries[t] == f.entries[Final] ==>
              FileAt(f, Final).links == 2
  {
    Reads(f);
    if Temps(f) != {} {
      var t :| Temps(f) == {t};
      OnlyTemp(f, t);
      forall a | a in Temps(f) ensures a == t {
        assert a in {t};
      }
    }
  }

  // ---- loss of power

  /** Every record that can come back after a loss of power is whole, valid, and the current one or an earlier one. */
  ghost predicate Recoverable(f: Journal) {
    forall g: Journal :: Lost(f, g) && Final in g.entries ==>
      && FileAt(g, Final).text.Whole? && ValidRecord(FileAt(g, Final).text.value)
      && HasRecord(ViewOf(f)) && Earlier(FileAt(g, Final).text.value, ViewOf(f).value)
  }

  lemma GuardedRecoverable(f: Journal)
    requires Guarded(f) && StoreInvariant(ViewOf(f))
    ensures Recoverable(f)
  {
    hide Guarded, Lost, ViewOf;
    Reads(f);
    forall g: Journal | Lost(f, g) && Final in g.entries
      ensures FileAt(g, Final).text.Whole? && ValidRecord(FileAt(g, Final).text.value)
           && HasRecord(ViewOf(f)) && Earlier(FileAt(g, Final).text.value, ViewOf(f).value)
    {
      SurvivesLoss(f, g);
    }
  }

  method Perform(store: JournalStore, op: Operation) returns (r: Outcome<JournalRecord>)
    requires op.Create? ==> ValidRecord(op.record)
    modifies store.host`journal, store.host`faults, store.host`broken
    ensures old(Guarded(store.host.journal)) ==> Guarded(store.host.journal)
    ensures !old(ViewOf(store.host.journal)).Foreign? ==>
              MayStep(old(ViewOf(store.host.journal)), op, ViewOf(store.host.journal))
    ensures old(StoreInvariant(ViewOf(store.host.journal))) && r.Done? && !op.Load? ==>
              ViewOf(store.host.journal) == Published(r.value)
              && store.host.journal.kept == {Bound(store.host.journal.entries)}
  {
    hide Guarded, ViewOf, Held;
    match op {
      case Create(record) => r := store.CreateAt(record);
      case Transition(identity, state) => r := store.TransitionAt(identity, state);
      case Load => r := store.LoadAt(true);
    }
  }

  /**
   * From an empty directory, any sequence of operations, each failing or killed anywhere: at the end, and so at every
   * kill, even a loss of power leaves the final name absent or holding a complete valid record no newer than the
   * current one.
   */
  method Operate(host: Host, ops: seq<Operation>, faults: seq<seq<Fault>>)
    requires |faults| == |ops| && forall op :: op in ops && op.Create? ==> ValidRecord(op.record)
    requires host.journal == Folder(map[], [], {}, {}, {None})
    modifies host`journal, host`faults, host`broken
    ensures StoreInvariant(ViewOf(host.journal)) && Recoverable(host.journal)
  {
    EmptyGuarded();
    hide Guarded, ViewOf, Recoverable, StoreInvariant, MayStep;
    NotForeign();
    var store := new JournalStore(host);
    for i := 0 to |ops|
      invariant Guarded(host.journal) && StoreInvariant(ViewOf(host.journal))
    {
      host.faults := faults[i];
      ghost var v := ViewOf(host.journal);
      var _ := Perform(store, ops[i]);
      StepGrows(v, ops[i], ViewOf(host.journal));
    }
    GuardedRecoverable(host.journal);
  }

  lemma NotForeign()
    ensures forall v :: StoreInvariant(v) ==> !v.Foreign?
  {
  }

  lemma EmptyGuarded()
    ensures Guarded(Folder(map[], [], {}, {}, {None})) && StoreInvariant(ViewOf(Folder(map[], [], {}, {}, {None})))
  {
    var f: Journal := Folder(map[], [], {}, {}, {None});
    assert Temps(f) == {};
  }

  /**
   * A kill between the rename and the sync leaves the new record published, a later load returns it, and a loss of
   * power can still bring the old one back: a load does not sync the directory again.
   */
  lemma LoadedMayVanish(f: Journal, temp: Name, next: JournalRecord) returns (g: Journal, h: Journal)
    requires Guarded(f) && temp.Temp? && temp !in f.entries && Held(f).Some? && ValidRecord(next)
    ensures var steps := [OpenExclusive(temp), Write(temp, next), SyncFile(temp), Rename(temp, Final)];
            Calls(f, steps) == Done(g)
    ensures Held(g) == Some(Whole(next)) && Lost(g, h) && Held(h) == Held(f)
    ensures Replaces(f, next) ==> Guarded(g)
  {
    var created := Apply(f, OpenExclusive(temp)).value;
    var written := Apply(created, Write(temp, next)).value;
    var synced := Apply(written, SyncFile(temp)).value;
    g := Apply(synced, Rename(temp, Final)).value;
    h := g.(entries := f.entries);
    if Replaces(f, next) { RenamedGuarded(f, temp, next); }
    var last := [Rename(temp, Final)];
    assert last[1..] == [] && Calls(synced, last) == Done(g);
    var lastTwo := [SyncFile(temp), Rename(temp, Final)];
    assert lastTwo[1..] == last && Calls(written, lastTwo) == Done(g);
    var lastThree := [Write(temp, next), SyncFile(temp), Rename(temp, Final)];
    assert lastThree[1..] == lastTwo && Calls(created, lastThree) == Done(g);
    assert [OpenExclusive(temp), Write(temp, next), SyncFile(temp), Rename(temp, Final)][1..] == lastThree;
  }

  lemma RenamedGuarded(f: Journal, temp: Name, next: JournalRecord)
    requires Guarded(f) && temp.Temp? && temp !in f.entries && ValidRecord(next) && Replaces(f, next)
    ensures var created := Apply(f, OpenExclusive(temp)).value;
            var synced := Apply(Apply(created, Write(temp, next)).value, SyncFile(temp)).value;
            Apply(synced, Rename(temp, Final)).Done? ==> Guarded(Apply(synced, Rename(temp, Final)).value)
  {
    var created := Apply(f, OpenExclusive(temp)).value;
    OpenedFresh(f, temp);
    Untouched(f, OpenExclusive(temp));
    var written := Apply(created, Write(temp, next)).value;
    WrittenFresh(created, temp, next);
    SyncedReady(written, temp, next);
    Untouched(written, SyncFile(temp));
    var synced := Apply(written, SyncFile(temp)).value;
    hide Guarded, Held, Ready;
    if Apply(synced, Rename(temp, Final)).Done? {
      PublishedGuarded(synced, Rename(temp, Final), temp, next);
    }
  }

  function Calls(f: Journal, steps: seq<Call<JournalRecord>>): Outcome<Journal>
    decreases |steps|
  {
    if steps == [] then Done(f)
    else
      var g :- Apply(f, steps[0]);
      Calls(g, steps[1..])
  }
}
