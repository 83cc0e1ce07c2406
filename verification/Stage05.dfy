/** The Stage 05 reconciler: apply four resources under a journal, resume after any kill, or roll back. */
module Stage05 {
  import opened Errors
  import opened Folders
  import opened Hosts
  import opened JournalRecords
  import opened JournalStores
  import opened PowerLoss
  import opened Outcomes
  import opened SecureTrees
  import opened Stage05States

  class Reconciler {
    const host: Host
    const tree: SecureTree
    const store: JournalStore
    const plan: Plan

    ghost predicate Wired() {
      tree.host == host && store.host == host && ValidIdentity(plan.identity)
    }

    constructor (host: Host, plan: Plan)
      requires ValidIdentity(plan.identity)
      ensures Wired() && this.host == host && this.plan == plan
    {
      this.host := host;
      this.plan := plan;
      tree := new SecureTree(host);
      store := new JournalStore(host);
    }

    ghost predicate IsLegal()
      reads host
    {
      Legal(plan, host.tree, host.journal, host.config)
    }

    /** The production probes; any of them may refuse. */
    method RefuseProduction() returns (r: Outcome<()>)
      modifies host`faults
      ensures Follows(old(host.faults), host.faults, r)
      ensures r.Raised? ==> !Calm(old(host.faults))
    {
      var probe := host.Next();
      return if probe.Raised? then Raised(Refused(ProductionStatePresent)) else probe;
    }

    // ---- directories

    /** The first of the two roots. */
    method AllocateState() returns (r: Outcome<()>)
      requires Wired()
      modifies host`tree, host`faults, host`broken
      ensures Follows(old(host.faults), host.faults, r)
      ensures host.Watched(old(host.broken), old(host.Marked()))
      ensures Gone(host.tree) <= old(Gone(host.tree))
      ensures old(IsLegal()) ==> IsLegal() && host.tree.dirs.Keys <= old(host.tree.dirs.Keys) + {StateRoot}
      ensures old(IsLegal()) && r.Done? ==> StateRoot in host.tree.dirs && host.tree.dirs[StateRoot] == M0755
      ensures old(IsLegal()) && Calm(old(host.faults)) ==> !r.Raised?
      ensures old(IsLegal() && Roots(host.tree)) ==> host.tree == old(host.tree)
    {
      hide Gone, ViewOf, ValidIdentity, Calm, Guarded, Ahead, WroteAhead, Fits, StageHistory;
      Reads(host.journal);
      Reads(host.config);
      if StateRoot !in host.tree.dirs {
        var _ :- tree.CreateDirectory(StateRoot, M0755);
      } else {
        var exact := tree.ValidateDirectory(StateRoot, M0755, None);
        if exact.Raised? {
          if host.tree.dirs[StateRoot] != M0700 {
            return exact.PropagateFailure();
          }
          var _ :- tree.RecoverProvisionalDirectory(StateRoot, M0755, NOTHING);
        }
      }
      return Done(());
    }

    method AllocateRoots() returns (r: Outcome<()>)
      requires Wired()
      modifies host`tree, host`faults, host`broken
      ensures Follows(old(host.faults), host.faults, r)
      ensures host.Watched(old(host.broken), old(host.Marked()))
      ensures Gone(host.tree) <= old(Gone(host.tree))
      ensures old(IsLegal()) ==> IsLegal()
      ensures old(IsLegal()) && r.Done? ==> Roots(host.tree)
      ensures old(IsLegal()) && Calm(old(host.faults)) ==> !r.Raised?
      ensures old(IsLegal() && Roots(host.tree)) ==> host.tree == old(host.tree)
    {
      hide Gone, ViewOf, ValidIdentity, Calm, Guarded, Ahead, WroteAhead;
      Reads(host.journal);
      Reads(host.config);
      var _ :- AllocateState();
      if JournalRoot !in host.tree.dirs {
        var entries :- tree.ValidateDirectory(StateRoot, M0755, None);
        if entries != NOTHING {
          return Raised(Refused(JournalRootConflict));
        }
        var _ :- tree.SyncDirectory(StateRoot, M0755, Some(NOTHING));
        var _ :- tree.CreateDirectory(JournalRoot, M0700);
      } else {
        var _ :- tree.ValidateDirectory(JournalRoot, M0700, None);
      }
      return Done(());
    }

    function ValidateExistingRoots(): (r: Outcome<()>)
      reads host, tree.host
      ensures !r.Killed?
    {
      var _ :- tree.ValidateDirectory(StateRoot, M0755, None);
      var _ :- tree.ValidateDirectory(JournalRoot, M0700, None);
      if forall n :: n in host.journal.entries ==> FileAt(host.journal, n).links in {1, 2} then Done(())
      else Raised(Refused(JournalRootConflict))
    }

    method SyncBootstrapRoots() returns (r: Outcome<()>)
      requires Wired()
      modifies host`tree, host`faults, host`broken
      ensures Follows(old(host.faults), host.faults, r)
      ensures host.Watched(old(host.broken), old(host.Marked()))
      ensures Gone(host.tree) <= old(Gone(host.tree))
      ensures host.tree.dirs == old(host.tree.dirs)
      ensures host.tree.loose <= old(host.tree.loose) && host.tree.unsettled <= old(host.tree.unsettled)
      ensures r.Done? ==> Anchored(host.tree)
      ensures r.Raised? && Calm(old(host.faults)) ==>
                !Roots(old(host.tree)) || old(tree.Entries(StateRoot)) != Listing({JournalRoot}, {})
    {
      hide Gone, ViewOf, ValidIdentity, Calm, Guarded, Ahead, WroteAhead;
      var _ :- tree.SyncDirectory(JournalRoot, M0700, None);
      r := tree.SyncDirectory(StateRoot, M0755, Some(Listing({JournalRoot}, {})));
    }

    method SyncPrefix(length: nat) returns (r: Outcome<()>)
      requires Wired()
      modifies host`tree, host`config, host`faults, host`broken
      ensures Follows(old(host.faults), host.faults, r)
      ensures host.Watched(old(host.broken), old(host.Marked()))
      ensures Gone(host.tree) <= old(Gone(host.tree))
      ensures host.tree.dirs == old(host.tree.dirs) && ViewOf(host.config) == old(ViewOf(host.config))
      ensures host.tree.loose <= old(host.tree.loose) && host.tree.unsettled <= old(host.tree.unsettled)
      ensures r.Done? ==> Durable(host.tree, host.config, length)
      ensures r.Raised? && Calm(old(host.faults)) ==>
                !Roots(old(host.tree)) || !Prefix(plan, old(host.tree), old(ViewOf(host.config)), length)
    {
      hide Gone, ViewOf, ValidIdentity, Calm, Guarded, Ahead, WroteAhead;
      Reads(host.config);
      if length >= 1 {
        var _ :- tree.SyncDirectory(Config, M0755, Some(Listing({}, if length == 4 then {Final} else {})));
      }
      if length >= 2 {
        var _ :- tree.SyncDirectory(Experiments, M0700, Some(Listing(if length >= 3 then {Workspace} else {}, {})));
      }
      if length >= 3 {
        var _ :- tree.SyncDirectory(Workspace, M0700, Some(NOTHING));
      }
      if length >= 4 {
        var _ :- tree.SyncMarker(plan.marker);
      }
      return Done(());
    }

    // ---- prefixes

    function RawPrefixLength(): Outcome<nat>
      reads host
    {
      match (Config in host.tree.dirs, Experiments in host.tree.dirs, Workspace in host.tree.dirs,
             Final in host.config.entries)
      case (false, false, false, false) => Done(0)
      case (true, false, false, false) => Done(1)
      case (true, true, false, false) => Done(2)
      case (true, true, true, false) => Done(3)
      case (true, true, true, true) => Done(4)
      case _ => Raised(Refused(IllegalRecoveryState))
    }

    method PrefixLength(allowProvisional: bool) returns (r: Outcome<nat>)
      requires Wired()
      modifies host`tree, host`faults, host`broken
      ensures Follows(old(host.faults), host.faults, r)
      ensures host.Watched(old(host.broken), old(host.Marked()))
      ensures Gone(host.tree) <= old(Gone(host.tree))
      ensures old(Clean(plan, host.tree, host.config)) ==>
                host.tree == old(host.tree) && r == Done(Length(host.tree, host.config))
      ensures old(Provisional(host.tree, host.config)) ==>
                && (host.tree == old(host.tree)
                    || (allowProvisional && Prefix(plan, host.tree, ViewOf(host.config), 1))
                    || (allowProvisional && Provisional(host.tree, host.config)))
                && Gone(host.tree) == old(Gone(host.tree))
                && (r.Done? ==> r.value == 1 && Prefix(plan, host.tree, ViewOf(host.config), 1))
                && (r.Raised? && Calm(old(host.faults)) ==> !allowProvisional)
      ensures old(MarkerInFlight(plan, host.tree, host.config)) ==> host.tree == old(host.tree) && r.Raised?
      ensures old(IsLegal() && HasRecord(ViewOf(host.journal))) ==>
                IsLegal() && (r.Done? ==> Prefix(plan, host.tree, ViewOf(host.config), r.value))
    {
      hide Gone, ViewOf, ValidIdentity, Calm, Guarded, Ahead, WroteAhead;
      Reads(host.config);
      var length :- RawPrefixLength();
      if length >= 1 {
        var exact := tree.ValidateDirectory(Config, M0755, Some(Listing({}, if length == 4 then {Final} else {})));
        if exact.Raised? {
          if !allowProvisional || length != 1 {
            return exact.PropagateFailure();
          }
          ghost var before := host.tree;
          var recovered := tree.RecoverProvisionalDirectory(Config, M0755, NOTHING);
          ConfigRepaired(before, host.tree);
          var _ :- recovered;
        }
      }
      if length >= 2 {
        var _ :- tree.ValidateDirectory(Experiments, M0700, Some(Listing(if length >= 3 then {Workspace} else {}, {})));
      }
      if length >= 3 {
        var _ :- tree.ValidateDirectory(Workspace, M0700, Some(NOTHING));
      }
      if length == 4 {
        var _ :- tree.ReadFile(plan.marker);
      }
      return Done(length);
    }

    // ---- the journal

    predicate JournalLinks(allowed: set<nat>)
      reads host
    {
      Final in host.journal.entries && FileAt(host.journal, Final).links in allowed
    }

    method LoadExact() returns (r: Outcome<JournalRecord>)
      requires Wired()
      modifies host`journal, host`faults, host`broken
      ensures Follows(old(host.faults), host.faults, r)
      ensures host.Watched(old(host.broken), old(host.Marked()))
      ensures Cared(old(host.journal), host.journal)
      ensures r.Done? ==> ValidRecord(r.value)
      ensures old(IsLegal()) ==>
                var v, w := old(ViewOf(host.journal)), ViewOf(host.journal);
                && (w == v || (v.Linked? && w == Bare(v)))
                && (r.Done? ==> HasRecord(v) && r.value == v.value && !w.Linked?)
                && (r.Raised? && Calm(old(host.faults)) ==> !HasRecord(v))
    {
      hide Gone, ViewOf, ValidIdentity, Calm, Guarded, Ahead, WroteAhead;
      r := store.LoadAt(true);
      match r {
        case Raised(Corrupt) => return Raised(Refused(Reason.JournalCorrupt));
        case Raised(Insecure) => return Raised(Refused(Reason.JournalConflict));
        case _ =>
      }
      var record :- r;
      if record.identity != plan.identity {
        return Raised(Refused(Reason.JournalConflict));
      }
      Reads(host.journal);
      if !JournalLinks({1}) {
        return Raised(Refused(Reason.JournalConflict));
      }
    }

    method LoadUnpublishedExact() returns (r: Outcome<()>)
      requires Wired()
      ensures !r.Killed?
      ensures IsLegal() && ViewOf(host.journal).Draft? ==> (r.Done? <==> ViewOf(host.journal).text.Whole?)
    {
      hide Gone, ViewOf, ValidIdentity, Calm, Guarded, Ahead, WroteAhead;
      assert Last([Planned]) == Planned;
      var loaded := store.LoadUnpublished();
      if !loaded.Done? {
        return Raised(Refused(if loaded == Raised(Corrupt) then Reason.JournalCorrupt else Reason.JournalConflict));
      }
      return if loaded.value == plan.Record() then Done(()) else Raised(Refused(Reason.JournalConflict));
    }

    method CreateOrLoad() returns (r: Outcome<JournalRecord>)
      requires Wired()
      modifies host`journal, host`faults, host`broken
      ensures Follows(old(host.faults), host.faults, r)
      ensures host.Watched(old(host.broken), old(host.Marked()))
      ensures Cared(old(host.journal), host.journal)
      ensures r.Done? ==> ValidRecord(r.value)
      ensures old(IsLegal()) && Roots(host.tree) && Anchored(host.tree) && !HasRecord(old(ViewOf(host.journal))) ==>
                && IsLegal() && ForwardOnly(host.journal)
                && (r.Done? ==> ViewOf(host.journal) == Published(plan.Record()) && r.value == plan.Record())
                && (r.Raised? && Calm(old(host.faults)) ==> TornJournal(old(ViewOf(host.journal))))
    {
      hide Gone, ViewOf, ValidIdentity, Calm, Guarded, Ahead, WroteAhead;
      assert Last([Planned]) == Planned;
      r := store.CreateAt(plan.Record());
      if old(IsLegal()) && Roots(host.tree) && Anchored(host.tree) && !HasRecord(old(ViewOf(host.journal))) {
        CreateLegal(plan, host.tree, old(host.journal), host.journal, host.config);
      }
      Reads(host.journal);
      match r {
        case Raised(Conflict) => r := LoadExact();
        case Raised(Corrupt) => r := Raised(Refused(Reason.JournalCorrupt));
        case Raised(Insecure) => r := Raised(Refused(Reason.JournalConflict));
        case Done(_) => if !JournalLinks({1}) { r := Raised(Refused(Reason.JournalConflict)); }
        case _ =>
      }
    }

    /** Load the published record and drop a temporary file that holds one of its next states. */
    method PrepareExistingRecord() returns (r: Outcome<JournalRecord>)
      requires Wired()
      modifies host`journal, host`faults, host`broken
      ensures Follows(old(host.faults), host.faults, r)
      ensures host.Watched(old(host.broken), old(host.Marked()))
      ensures Cared(old(host.journal), host.journal)
      ensures r.Done? ==> ValidRecord(r.value)
      ensures old(IsLegal()) ==>
                var v, w := old(ViewOf(host.journal)), ViewOf(host.journal);
                && (w == v || w == Bare(v))
                && (r.Done? ==> HasRecord(v) && r.value == v.value && w == Bare(v) && !TornJournal(v))
                && (r.Raised? && Calm(old(host.faults)) ==> !HasRecord(v) || TornJournal(v))
                && (v.Published? ==> host.journal == old(host.journal))
      // Dropping a temporary file syncs the directory.
      ensures old(IsLegal() && Guarded(host.journal) && ViewOf(host.journal).Pending?) && r.Done?
              && Applying in r.value.transitions ==>
                Ahead(host.journal)
    {
      hide Gone, ViewOf, ValidIdentity, Calm, Guarded, Ahead, WroteAhead, Fits;
      var inspected := store.InspectResidue();
      if !inspected.Done? {
        return Raised(Refused(if inspected == Raised(Corrupt) then Reason.JournalCorrupt else Reason.JournalConflict));
      }
      var found := inspected.value;
      if found.record.identity != plan.identity {
        return Raised(Refused(Reason.JournalConflict));
      }
      Reads(host.journal);
      if !JournalLinks({1, 2}) {
        return Raised(Refused(Reason.JournalConflict));
      }
      var outbound := set s | s in Allowed(Last(found.record.transitions)) :: Advance(found.record, s);
      if found.links == 2 {
        if found.record != plan.Record() {
          return Raised(Refused(Reason.JournalConflict));
        }
        r := LoadExact();
        return;
      }
      if exists y :: y in found.residues && y !in outbound {
        return Raised(Refused(Reason.JournalConflict));
      }
      if found.residues == [] {
        return Done(found.record);
      }
      var cleaned := store.CleanupStaleTemps({found.record} + outbound);
      match cleaned {
        case Raised(Corrupt) => return Raised(Refused(Reason.JournalConflict));
        case Raised(Conflict) => return Raised(Refused(Reason.JournalConflict));
        case Raised(Insecure) => return Raised(Refused(Reason.JournalConflict));
        case _ =>
      }
      var _ :- cleaned;
      Reads(host.journal);
      if old(IsLegal() && Guarded(host.journal) && ViewOf(host.journal).Pending?)
         && Applying in found.record.transitions {
        DurableAhead(host.journal);
      }
      r := LoadExact();
    }

    ghost predicate FitsNext(s: State)
      reads host
    {
      var v := ViewOf(host.journal);
      && HasRecord(v) && v.value.transitions != []
      && StageHistory(v.value.transitions + [s])
      && Fits(plan, v.value.transitions + [s], host.tree, host.config)
    }

    method Transition(s: State) returns (r: Outcome<JournalRecord>)
      requires Wired()
      modifies host`journal, host`faults, host`broken
      ensures Follows(old(host.faults), host.faults, r)
      ensures host.Watched(old(host.broken), old(host.Marked()))
      ensures Cared(old(host.journal), host.journal)
      ensures r.Done? ==> ValidRecord(r.value)
      ensures old(IsLegal() && FitsNext(s)) ==>
                var v, w := old(ViewOf(host.journal)), ViewOf(host.journal);
                && IsLegal() && Extends(old(host.journal), host.journal)
                && (w == v || MayTransition(v, plan.identity, s, w))
                && (r.Done? ==> r.value == Advance(v.value, s) && w == Published(r.value))
                && (r.Raised? && Calm(old(host.faults)) && v.Published? ==> s !in Allowed(Last(v.value.transitions)))
      ensures old(IsLegal() && Guarded(host.journal)) && r.Done? && Applying in r.value.transitions ==>
                Ahead(host.journal)
    {
      hide Gone, ViewOf, ValidIdentity, Calm, Guarded, Ahead, WroteAhead;
      r := store.TransitionAt(plan.identity, s);
      if old(IsLegal() && Guarded(host.journal)) && r.Done? && Applying in r.value.transitions {
        DurableAhead(host.journal);
      }
      if old(IsLegal() && FitsNext(s)) {
        TransitionLegal(plan, s, host.tree, old(host.journal), host.journal, host.config);
      }
      Reads(host.journal);
      match r {
        case Raised(Conflict) => r := Raised(Refused(Reason.JournalConflict));
        case Raised(Corrupt) => r := Raised(Refused(Reason.JournalConflict));
        case Raised(Insecure) => r := Raised(Refused(Reason.JournalConflict));
        case Done(_) => if !JournalLinks({1}) { r := Raised(Refused(Reason.JournalConflict)); }
        case _ =>
      }
    }

    // ---- execute

    ghost predicate PublishedAs(h: seq<State>)
      reads host
    {
      ViewOf(host.journal) == Published(JournalRecord(plan.identity, h))
    }

    /** Ready to create the resources after the first `n`. */
    ghost predicate ApplyingAt(n: nat)
      reads host
    {
      && IsLegal() && PublishedAs([Planned, Applying])
      && Prefix(plan, host.tree, ViewOf(host.config), n) && Durable(host.tree, host.config, n)
    }

    method CreateResources(start: nat) returns (r: Outcome<()>)
      requires Wired()
      modifies host`tree, host`config, host`faults, host`broken
      ensures Follows(old(host.faults), host.faults, r)
      ensures host.Watched(old(host.broken), old(host.Marked()))
      ensures Gone(host.tree) <= old(Gone(host.tree))
      ensures old(ApplyingAt(start)) ==>
                IsLegal() && (r.Done? ==> ApplyingAt(4)) && (r.Raised? ==> !Calm(old(host.faults)))
    {
      hide Gone, ViewOf, ValidIdentity, Calm, Guarded, Ahead, WroteAhead;
      ghost var ready := ApplyingAt(start);
      Reads(host.config);
      var length := start;
      for index := 1 to 4
        invariant Follows(old(host.faults), host.faults, Done(()))
        invariant host.Watched(old(host.broken), old(host.Marked()))
        invariant ready ==> ApplyingAt(length) && index - 1 <= length <= 4 && start <= length
        invariant host.config == old(host.config) && Gone(host.tree) <= old(Gone(host.tree))
      {
        if length < index {
          ghost var before := host.tree;
          var created := tree.CreateDirectory(Target(index).0, Target(index).1);
          if ready { CreateStepLegal(plan, before, host.tree, host.journal, host.config, length); }
          var _ :- created;
          length := index;
        }
      }
      if length < 4 {
        ghost var before := host.config;
        var published := tree.PublishMarker(plan.marker);
        if ready { PublishStepLegal(plan, host.tree, host.journal, before, host.config); }
        var _ :- published;
      }
      return Done(());
    }

    /** All four resources exact and synced, under the published history `h`. */
    ghost predicate CompleteAt(h: seq<State>)
      reads host
    {
      && IsLegal() && PublishedAs(h)
      && Prefix(plan, host.tree, ViewOf(host.config), 4) && Durable(host.tree, host.config, 4)
    }

    /** Check the resources, then record the next forward state. */
    method Confirm(s: State, ghost h: seq<State>) returns (r: Outcome<JournalRecord>)
      requires Wired()
      modifies host`tree, host`journal, host`faults, host`broken
      ensures Follows(old(host.faults), host.faults, r)
      ensures host.Watched(old(host.broken), old(host.Marked()))
      ensures Gone(host.tree) <= old(Gone(host.tree))
      ensures Cared(old(host.journal), host.journal)
      ensures old(CompleteAt(h)) && StageHistory(h) && s in Allowed(Last(h)) && Forward(s) && s != Applying ==>
                && IsLegal() && host.tree == old(host.tree)
                && HasRecord(ViewOf(host.journal)) && h <= History(ViewOf(host.journal)) <= h + [s]
                && (r.Done? ==> CompleteAt(h + [s]) && r.value == JournalRecord(plan.identity, h + [s]))
                && (r.Raised? ==> !Calm(old(host.faults)))
    {
      hide Gone, ViewOf, ValidIdentity, Calm, Guarded, Ahead, WroteAhead;
      if CompleteAt(h) {
        PrefixLengthIs(plan, host.tree, host.config, 4);
        if StageHistory(h) && s in Allowed(Last(h)) && Forward(s) && s != Applying {
          ForwardFits(plan, h, s, host.tree, host.config);
        }
      }
      var _ :- RequireComplete();
      r := Transition(s);
    }

    method RequireComplete() returns (r: Outcome<()>)
      requires Wired()
      modifies host`tree, host`faults, host`broken
      ensures Follows(old(host.faults), host.faults, r)
      ensures host.Watched(old(host.broken), old(host.Marked()))
      ensures Gone(host.tree) <= old(Gone(host.tree))
      ensures Prefix(plan, old(host.tree), ViewOf(host.config), 4) ==> host.tree == old(host.tree) && r.Done?
    {
      if Prefix(plan, host.tree, ViewOf(host.config), 4) { PrefixLengthIs(plan, host.tree, host.config, 4); }
      var length :- PrefixLength(false);
      return if length == 4 then Done(()) else Raised(Refused(ResourceDesiredMismatch));
    }

    /** Create what is missing, then record applied and validated, checking the resources before each record. */
    method Apply(start: nat) returns (r: Outcome<JournalRecord>)
      requires Wired()
      modifies host`tree, host`config, host`journal, host`faults, host`broken
      ensures Follows(old(host.faults), host.faults, r)
      ensures host.Watched(old(host.broken), old(host.Marked()))
      ensures Gone(host.tree) <= old(Gone(host.tree))
      ensures Cared(old(host.journal), host.journal)
      ensures old(ApplyingAt(start)) ==>
                && IsLegal() && HasRecord(ViewOf(host.journal))
                && [Planned, Applying] <= History(ViewOf(host.journal)) <= [Planned, Applying, Applied, Validated]
                && (r.Done? ==> CompleteAt([Planned, Applying, Applied, Validated])
                                && r.value == ViewOf(host.journal).value)
                && (r.Raised? ==> !Calm(old(host.faults)))
                && (r.Done? && old(host.Marked() && !Ahead(host.journal)) ==> host.broken)
    {
      hide Gone, ViewOf, ValidIdentity, Calm, Guarded, Ahead, Fits;
      StageForward();
      var _ :- CreateResources(start);
      var _ :- Confirm(Applied, [Planned, Applying]);
      assert [Planned, Applying] + [Applied] == [Planned, Applying, Applied];
      var _ :- RefuseProduction();
      var record :- Confirm(Validated, [Planned, Applying, Applied]);
      assert [Planned, Applying, Applied] + [Validated] == [Planned, Applying, Applied, Validated];
      var _ :- RequireComplete();
      return Done(record);
    }

    /** The published history stays, or failed is added to applying over a clean prefix of the resources. */
    ghost predicate FailedAtMost(v: JournalView, w: JournalView)
      reads host
      requires HasRecord(v) && HasRecord(w)
    {
      || w.value == v.value
      || (w.value == Advance(v.value, Failed) && v.value.transitions != [] && Last(v.value.transitions).Applying?
          && Clean(plan, host.tree, host.config))
    }

    /**
     * After a caught failure: record it when the resources are a clean prefix, and otherwise leave the record alone.
     */
    method RecordFailedIfStable() returns (r: Outcome<()>)
      requires Wired()
      modifies host`tree, host`config, host`journal, host`faults, host`broken
      ensures Follows(old(host.faults), host.faults, r)
      ensures host.Watched(old(host.broken), old(host.Marked()))
      ensures Gone(host.tree) <= old(Gone(host.tree))
      ensures Cared(old(host.journal), host.journal)
      ensures !r.Raised?
      ensures old(IsLegal() && HasRecord(ViewOf(host.journal))) ==>
                IsLegal() && HasRecord(ViewOf(host.journal))
                && FailedAtMost(old(ViewOf(host.journal)), ViewOf(host.journal))
    {
      hide Gone, ViewOf, ValidIdentity, Calm, Guarded, Ahead, WroteAhead;
      var stable := RecordFailed();
      return if stable.Killed? then Killed else Done(());
    }

    method RecordFailed() returns (r: Outcome<()>)
      requires Wired()
      modifies host`tree, host`config, host`journal, host`faults, host`broken
      ensures Follows(old(host.faults), host.faults, r)
      ensures host.Watched(old(host.broken), old(host.Marked()))
      ensures Gone(host.tree) <= old(Gone(host.tree))
      ensures Cared(old(host.journal), host.journal)
      ensures old(IsLegal() && HasRecord(ViewOf(host.journal))) ==>
                var v, w := old(ViewOf(host.journal)), ViewOf(host.journal);
                && IsLegal() && HasRecord(w) && FailedAtMost(v, w)
                && (r.Done? && Last(v.value.transitions).Applying? ==> w == Published(Advance(v.value, Failed)))
                && (!Last(v.value.transitions).Applying? ==>
                      host.tree == old(host.tree) && host.config == old(host.config))
                && (r.Raised? && Calm(old(host.faults)) && v.Published? ==>
                      Last(v.value.transitions).Applying? && old(ViewOf(host.config)) == Draft(Torn))
    {
      hide Gone, ViewOf, ValidIdentity, Calm, Guarded, Ahead, WroteAhead;
      ghost var legal := IsLegal() && HasRecord(ViewOf(host.journal));
      var loaded := LoadExact();
      if legal { BareLegal(plan, host.tree, old(host.journal), host.journal, host.config); }
      var current :- loaded;
      if Last(current.transitions).Applying? {
        r := FailApplying();
      } else {
        r := Done(());
      }
    }

    /** An applying installation fails once its resources are a clean prefix. */
    method FailApplying() returns (r: Outcome<()>)
      requires Wired()
      modifies host`tree, host`config, host`journal, host`faults, host`broken
      ensures Follows(old(host.faults), host.faults, r)
      ensures host.Watched(old(host.broken), old(host.Marked()))
      ensures Gone(host.tree) <= old(Gone(host.tree))
      ensures Cared(old(host.journal), host.journal)
      ensures old(IsApplying()) ==>
                var v, w := old(ViewOf(host.journal)), ViewOf(host.journal);
                && IsLegal() && HasRecord(w) && FailedAtMost(v, w)
                && (r.Done? ==> w == Published(Advance(v.value, Failed)))
                && (r.Raised? && Calm(old(host.faults)) && v.Published? ==> old(ViewOf(host.config)) == Draft(Torn))
    {
      hide Gone, ViewOf, ValidIdentity, Calm, Guarded, Ahead, WroteAhead;
      ghost var legal := IsApplying();
      var length :- Recover();
      if legal { PrefixLengthIs(plan, host.tree, host.config, length); }
      if legal { FailedFits(plan, ViewOf(host.journal).value.transitions, host.tree, host.config); }
      var _ :- Transition(Failed);
      return Done(());
    }

    method ApplyOrRecordFailure(start: nat) returns (r: Outcome<JournalRecord>)
      requires Wired()
      modifies host`tree, host`config, host`journal, host`faults, host`broken
      ensures Follows(old(host.faults), host.faults, r)
      ensures host.Watched(old(host.broken), old(host.Marked()))
      ensures Gone(host.tree) <= old(Gone(host.tree))
      ensures Cared(old(host.journal), host.journal)
      ensures old(ApplyingAt(start)) ==>
                && IsLegal() && Extends(old(host.journal), host.journal)
                && (r.Done? ==> CompleteAt([Planned, Applying, Applied, Validated])
                                && r.value == ViewOf(host.journal).value)
                && (Calm(old(host.faults)) ==> !r.Raised? && ForwardOnly(host.journal))
                && (r.Done? && old(host.Marked() && !Ahead(host.journal)) ==> host.broken)
    {
      hide Gone, ViewOf, ValidIdentity, Calm, Guarded, Ahead, WroteAhead;
      ghost var ready := ApplyingAt(start);
      r := Apply(start);
      if r.Raised? {
        var recorded := RecordFailedIfStable();
        if recorded.Killed? {
          return Killed;
        }
      } else if ready {
        PartForward(History(ViewOf(host.journal)));
      }
    }

    ghost predicate At(record: JournalRecord)
      reads host
    {
      IsLegal() && ViewOf(host.journal) == Published(record)
    }

    ghost predicate IsApplying()
      reads host
    {
      IsLegal() && HasRecord(ViewOf(host.journal)) && Last(ViewOf(host.journal).value.transitions).Applying?
    }

    /** Bring the resources of an applying installation back to a clean prefix. */
    method Recover() returns (r: Outcome<nat>)
      requires Wired()
      modifies host`tree, host`config, host`faults, host`broken
      ensures Follows(old(host.faults), host.faults, r)
      ensures host.Watched(old(host.broken), old(host.Marked()))
      ensures Gone(host.tree) <= old(Gone(host.tree))
      ensures old(IsApplying()) ==>
                && IsLegal()
                && (r.Done? ==> Prefix(plan, host.tree, ViewOf(host.config), r.value)
                                && old(ViewOf(host.config)) != Draft(Torn))
                && (r.Raised? && Calm(old(host.faults)) ==> old(ViewOf(host.config)) == Draft(Torn))
    {
      hide Gone, ViewOf, ValidIdentity, Calm, Guarded, Ahead, WroteAhead;
      ghost var legal, before := IsApplying(), host.config;
      Reads(before);
      var recovered := tree.RecoverMarkerResidue(plan.marker);
      if legal { ResidueLegal(plan, host.tree, host.journal, before, host.config); }
      var _ :- recovered;
      r := PrefixLength(true);
    }

    method Resume() returns (r: Outcome<nat>)
      requires Wired()
      modifies host`tree, host`config, host`faults, host`broken
      ensures Follows(old(host.faults), host.faults, r)
      ensures host.Watched(old(host.broken), old(host.Marked()))
      ensures Gone(host.tree) <= old(Gone(host.tree))
      ensures old(IsApplying()) ==>
                && IsLegal()
                && (r.Done? ==> Prefix(plan, host.tree, ViewOf(host.config), r.value)
                                && Durable(host.tree, host.config, r.value) && old(ViewOf(host.config)) != Draft(Torn))
                && (r.Raised? && Calm(old(host.faults)) ==> old(ViewOf(host.config)) == Draft(Torn))
    {
      hide Gone, ViewOf, ValidIdentity, Calm, Guarded, Ahead, WroteAhead;
      ghost var legal := IsApplying();
      var _ :- RefuseProduction();
      var length :- Recover();
      ghost var tree0, config0 := host.tree, host.config;
      var synced := SyncPrefix(length);
      if legal { SyncedLegal(plan, tree0, host.tree, host.journal, config0, host.config); }
      var _ :- synced;
      return Done(length);
    }

    /** From planned, with nothing present. */
    method Begin(length: nat) returns (r: Outcome<JournalRecord>)
      requires Wired()
      modifies host`tree, host`config, host`journal, host`faults, host`broken
      ensures Follows(old(host.faults), host.faults, r)
      ensures host.Watched(old(host.broken), old(host.Marked()))
      ensures Gone(host.tree) <= old(Gone(host.tree))
      ensures Cared(old(host.journal), host.journal)
      ensures old(IsLegal() && PublishedAs([Planned]))
              && Prefix(plan, old(host.tree), old(ViewOf(host.config)), length) ==>
                && IsLegal() && Extends(old(host.journal), host.journal)
                && (r.Done? ==>
                      CompleteAt([Planned, Applying, Applied, Validated]) && r.value == ViewOf(host.journal).value)
                && (Calm(old(host.faults)) ==> !r.Raised? && ForwardOnly(host.journal))
                && (Guarded(old(host.journal)) ==> WroteAhead(host.tree, host.journal))
    {
      hide Gone, ViewOf, ValidIdentity, Calm, Guarded, Ahead;
      ghost var legal := IsLegal() && PublishedAs([Planned]) && Prefix(plan, host.tree, ViewOf(host.config), length);
      if legal {
        PrefixLengthIs(plan, host.tree, host.config, length);
        ForwardHistory([Planned]);
        NothingYet(plan, host.tree, host.journal, host.config);
      }
      if length != 0 {
        return Raised(Refused(ResourcePriorMismatch));
      }
      var _ :- RefuseProduction();
      if legal { PlannedFits(plan, host.tree, host.config); }
      var _ :- Transition(Applying);
      assert [Planned] + [Applying] == [Planned, Applying];
      r := ApplyOrRecordFailure(length);
    }

    /** From applied, with everything present. */
    method Finish(length: nat) returns (r: Outcome<JournalRecord>)
      requires Wired()
      modifies host`journal, host`faults, host`broken
      ensures Follows(old(host.faults), host.faults, r)
      ensures host.Watched(old(host.broken), old(host.Marked()))
      ensures Cared(old(host.journal), host.journal)
      ensures old(CompleteAt([Planned, Applying, Applied])) && length == 4 ==>
                && IsLegal() && Extends(old(host.journal), host.journal)
                && (r.Done? ==>
                      CompleteAt([Planned, Applying, Applied, Validated]) && r.value == ViewOf(host.journal).value)
                && (Calm(old(host.faults)) ==> !r.Raised? && ForwardOnly(host.journal))
    {
      hide Gone, ViewOf, ValidIdentity, Calm, Guarded, Ahead, WroteAhead;
      StageForward();
      if length != 4 {
        return Raised(Refused(ResourceDesiredMismatch));
      }
      var _ :- RefuseProduction();
      if CompleteAt([Planned, Applying, Applied]) {
        ForwardFits(plan, [Planned, Applying, Applied], Validated, host.tree, host.config);
      }
      r := Transition(Validated);
      assert [Planned, Applying, Applied] + [Validated] == [Planned, Applying, Applied, Validated];
    }

    /** Carry an installation from its published record to validated. */
    method Continue(record: JournalRecord) returns (r: Outcome<JournalRecord>)
      requires Wired() && ValidRecord(record)
      modifies host`tree, host`config, host`journal, host`faults, host`broken
      ensures Follows(old(host.faults), host.faults, r)
      ensures host.Watched(old(host.broken), old(host.Marked()))
      ensures Gone(host.tree) <= old(Gone(host.tree))
      ensures Cared(old(host.journal), host.journal)
      ensures old(At(record)) ==>
                && IsLegal() && Extends(old(host.journal), host.journal)
                && (r.Done? ==> CompleteAt([Planned, Applying, Applied, Validated]) && Forward(Last(record.transitions))
                                && r.value == ViewOf(host.journal).value && old(ViewOf(host.config)) != Draft(Torn))
                && (Calm(old(host.faults)) && Forward(Last(record.transitions))
                    && old(ViewOf(host.config)) != Draft(Torn) ==>
                      !r.Raised?)
                && (Calm(old(host.faults)) && Forward(Last(record.transitions)) ==> ForwardOnly(host.journal))
                && (Last(record.transitions).Validated? ==>
                      host.tree == old(host.tree) && host.config == old(host.config)
                      && host.journal == old(host.journal))
                && (old(Guarded(host.journal) && !Exposed(host.tree, host.journal)) ==>
                      WroteAhead(host.tree, host.journal))
                && (r.Done? && old(host.Marked() && !Ahead(host.journal)) && Last(record.transitions).Applying? ==>
                      host.broken)
    {
      hide Gone, ViewOf, ValidIdentity, Calm, Guarded, Ahead;
      var state := Last(record.transitions);
      if At(record) && Forward(state) { ForwardHistory(record.transitions); }
      if At(record) && Applying !in record.transitions { NothingYet(plan, host.tree, host.journal, host.config); }
      if state.Applying? {
        var present :- Resume();
        var _ :- RefuseProduction();
        r := ApplyOrRecordFailure(present);
        return;
      }
      var length :- PrefixLength(false);
      if state.Validated? {
        if length != 4 {
          return Raised(Refused(ResourceDesiredMismatch));
        }
        var _ :- RefuseProduction();
        return Done(record);
      }
      if state.Failed? || state.RollingBack? || state.RolledBack? {
        return Raised(Refused(IllegalRecoveryState));
      }
      if state.Planned? {
        r := Begin(length);
      } else {
        r := Finish(length);
      }
    }

    /** Load the published record, or publish the planned one. */
    method ObtainRecord() returns (r: Outcome<JournalRecord>)
      requires Wired()
      modifies host`tree, host`journal, host`faults, host`broken
      ensures Follows(old(host.faults), host.faults, r)
      ensures host.Watched(old(host.broken), old(host.Marked()))
      ensures Gone(host.tree) <= old(Gone(host.tree))
      ensures Cared(old(host.journal), host.journal)
      ensures r.Done? ==> ValidRecord(r.value)
      ensures old(IsLegal() && Roots(host.tree)) ==>
                var v := old(ViewOf(host.journal));
                && IsLegal() && Extends(old(host.journal), host.journal)
                && (ForwardOnly(old(host.journal)) ==> ForwardOnly(host.journal))
                && (r.Done? ==>
                      At(r.value) && !TornJournal(v) && r.value == if HasRecord(v) then v.value else plan.Record())
                && (r.Raised? && Calm(old(host.faults)) ==> TornJournal(v))
                && (v.Published? ==> host.tree == old(host.tree) && host.journal == old(host.journal))
      ensures host.tree.dirs == old(host.tree.dirs)
      ensures (old(IsLegal() && Roots(host.tree) && Guarded(host.journal) && ViewOf(host.journal).Pending?)
               && r.Done? && Applying in r.value.transitions) ==> Ahead(host.journal)
    {
      hide Gone, ViewOf, ValidIdentity, Calm, Guarded, Ahead, WroteAhead;
      ghost var legal := IsLegal() && Roots(host.tree);
      assert Last([Planned]) == Planned;
      Reads(host.config);
      Reads(host.journal);
      var journalPresent := Final in host.journal.entries;
      var rawLength :- RawPrefixLength();
      if !journalPresent && rawLength != 0 {
        return Raised(Refused(ResourcePriorMismatch));
      }
      if journalPresent {
        r := PrepareExistingRecord();
        if legal { BareLegal(plan, host.tree, old(host.journal), host.journal, host.config); }
      } else {
        r := PublishPlanned();
      }
    }

    method PublishPlanned() returns (r: Outcome<JournalRecord>)
      requires Wired()
      modifies host`tree, host`journal, host`faults, host`broken
      ensures Follows(old(host.faults), host.faults, r)
      ensures host.Watched(old(host.broken), old(host.Marked()))
      ensures Gone(host.tree) <= old(Gone(host.tree))
      ensures Cared(old(host.journal), host.journal)
      ensures r.Done? ==> ValidRecord(r.value)
      ensures old(IsLegal() && Roots(host.tree) && !HasRecord(ViewOf(host.journal))) ==>
                && IsLegal() && ForwardOnly(host.journal)
                && (r.Done? ==>
                      At(plan.Record()) && r.value == plan.Record() && !TornJournal(old(ViewOf(host.journal))))
                && (r.Raised? && Calm(old(host.faults)) ==> TornJournal(old(ViewOf(host.journal))))
                && (HasRecord(ViewOf(host.journal)) ==> Anchored(host.tree))
      ensures host.tree.dirs == old(host.tree.dirs)
    {
      hide Gone, ViewOf, ValidIdentity, Calm, Guarded, Ahead, WroteAhead;
      assert Last([Planned]) == Planned;
      Reads(host.journal);
      if host.journal.entries != map[] {
        var _ :- LoadUnpublishedExact();
      }
      var _ :- SyncBootstrapRoots();
      r := CreateOrLoad();
    }

    method OpenRoots() returns (r: Outcome<()>)
      requires Wired()
      modifies host`tree, host`faults, host`broken
      ensures Follows(old(host.faults), host.faults, r)
      ensures host.Watched(old(host.broken), old(host.Marked()))
      ensures Gone(host.tree) <= old(Gone(host.tree))
      ensures old(IsLegal()) ==> IsLegal() && (r.Done? ==> Roots(host.tree)) && (r.Raised? ==> !Calm(old(host.faults)))
      ensures old(IsLegal() && Roots(host.tree)) ==> host.tree == old(host.tree)
    {
      hide Gone, ViewOf, ValidIdentity, Calm, Guarded, Ahead, WroteAhead;
      var _ :- RefuseProduction();
      var _ :- AllocateRoots();
      Reads(host.journal);
      var _ :- ValidateExistingRoots();
      r := RefuseProduction();
    }

    method Execute() returns (r: Outcome<JournalRecord>)
      requires Wired()
      modifies host`tree, host`config, host`journal, host`faults, host`broken
      ensures Follows(old(host.faults), host.faults, r)
      ensures host.Watched(old(host.broken), old(host.Marked()))
      ensures Gone(host.tree) <= old(Gone(host.tree))
      ensures Cared(old(host.journal), host.journal)
      // However it ends, the state is legal and the published history has only grown.
      ensures old(IsLegal()) ==> IsLegal() && Extends(old(host.journal), host.journal)
      // Success means installed, and without an injected error the only refusals are the final states and torn files.
      ensures old(IsLegal()) && r.Done? ==>
                Installed(plan, host.tree, host.journal, host.config) && old(CanExecute(host.journal, host.config))
      ensures old(IsLegal() && CanExecute(host.journal, host.config)) && Calm(old(host.faults)) ==> !r.Raised?
      ensures old(IsLegal() && ForwardOnly(host.journal)) && Calm(old(host.faults)) ==> ForwardOnly(host.journal)
      // Repeating a successful run changes nothing.
      ensures old(IsLegal() && Installed(plan, host.tree, host.journal, host.config)) ==>
                host.tree == old(host.tree) && host.config == old(host.config) && host.journal == old(host.journal)
      // Wherever it is stopped, a loss of power leaves no resource without a record that says applying, unless it
      // started exposed. Then the rule is broken already, or on the way of a run that is left alone.
      ensures old(IsLegal() && Guarded(host.journal) && !Exposed(host.tree, host.journal)) ==>
                WroteAhead(host.tree, host.journal)
      ensures old(IsLegal() && Exposed(host.tree, host.journal) && host.Marked()) && r.Done? ==> host.broken
    {
      hide Gone, ViewOf, ValidIdentity, Calm, Guarded, Ahead;
      ghost var early := IsLegal() && Applying !in History(ViewOf(host.journal));
      if early { NothingYet(plan, host.tree, host.journal, host.config); }
      var rooted := OpenRoots();
      if early { NothingYet(plan, host.tree, host.journal, host.config); }
      var _ :- rooted;
      var record :- ObtainRecord();
      r := Continue(record);
    }

    // ---- rollback

    /** Rolling back, with exactly the first `n` resources left. */
    ghost predicate RollingAt(n: nat)
      reads host
    {
      && IsLegal() && ViewOf(host.journal).Published?
      && Last(ViewOf(host.journal).value.transitions).RollingBack?
      && Prefix(plan, host.tree, ViewOf(host.config), n)
    }

    /** Remove the marker first, then the directories in reverse order. */
    method RemoveResources(start: nat) returns (r: Outcome<()>)
      requires Wired()
      modifies host`tree, host`config, host`faults, host`broken
      ensures Follows(old(host.faults), host.faults, r)
      ensures host.Watched(old(host.broken), old(host.Marked()))
      ensures old(RollingAt(start)) ==>
                && IsLegal() && (r.Done? ==> RollingAt(0) && Gone(host.tree) == old(Gone(host.tree)))
                && (r.Raised? ==> !Calm(old(host.faults)))
    {
      hide Gone, ViewOf, ValidIdentity, Calm, Guarded, Ahead, WroteAhead, Fits;
      ghost var ready := RollingAt(start);
      var length := start;
      if length == 4 {
        ghost var before := host.config;
        var removed := tree.RemoveMarker(plan.marker);
        if ready { RemoveMarkerLegal(plan, host.tree, host.journal, before, host.config); }
        var _ :- removed;
        length := 3;
      }
      for index := 4 downto 1
        invariant Follows(old(host.faults), host.faults, Done(()))
        invariant host.Watched(old(host.broken), old(host.Marked()))
        invariant ready ==> RollingAt(length) && length < index && Gone(host.tree) == old(Gone(host.tree))
      {
        if length == index {
          ghost var before := host.tree;
          Reads(host.config);
          var removed := tree.RemoveDirectory(Target(index).0, Target(index).1);
          if ready { RemoveStepLegal(plan, before, host.tree, host.journal, host.config, length); }
          var _ :- removed;
          length := length - 1;
        }
      }
      return Done(());
    }

    /** A planned installation is recorded as failed before it is rolled back. */
    method FailPlanned(found: JournalRecord, length: nat) returns (r: Outcome<JournalRecord>)
      requires Wired() && ValidRecord(found)
      modifies host`journal, host`faults, host`broken
      ensures Follows(old(host.faults), host.faults, r)
      ensures host.Watched(old(host.broken), old(host.Marked()))
      ensures Cared(old(host.journal), host.journal)
      ensures r.Done? ==> ValidRecord(r.value)
      ensures old(At(found)) && Prefix(plan, host.tree, ViewOf(host.config), length) ==>
                && IsLegal() && Extends(old(host.journal), host.journal)
                && (r.Done? ==> At(r.value) && r.value.transitions == found.transitions
                                + if Last(found.transitions).Planned? then [Failed] else [])
                && (r.Raised? ==> !Calm(old(host.faults)))
    {
      hide Gone, ViewOf, ValidIdentity, Calm, Guarded, Ahead, WroteAhead;
      ghost var legal := At(found) && Prefix(plan, host.tree, ViewOf(host.config), length);
      if !Last(found.transitions).Planned? {
        return Done(found);
      }
      if legal {
        PrefixLengthIs(plan, host.tree, host.config, length);
        ForwardHistory(found.transitions);
      }
      if length != 0 {
        return Raised(Refused(RollbackForeignState));
      }
      if legal { PlannedFits(plan, host.tree, host.config); }
      r := Transition(Failed);
    }

    /** Record rolling back, unless it already is. */
    method StartRollingBack(found: JournalRecord, length: nat) returns (r: Outcome<JournalRecord>)
      requires Wired() && ValidRecord(found)
      modifies host`journal, host`faults, host`broken
      ensures Follows(old(host.faults), host.faults, r)
      ensures host.Watched(old(host.broken), old(host.Marked()))
      ensures Cared(old(host.journal), host.journal)
      ensures old(At(found)) && Prefix(plan, host.tree, ViewOf(host.config), length)
              && !Last(found.transitions).RolledBack? ==>
                && IsLegal() && Extends(old(host.journal), host.journal)
                && (r.Done? ==> RollingAt(length) && ViewOf(host.journal) == Published(r.value))
                && (r.Raised? ==> !Calm(old(host.faults)))
    {
      hide Gone, ViewOf, ValidIdentity, Calm, Guarded, Ahead, WroteAhead, Legal, Fits, StageHistory;
      ghost var legal := At(found) && Prefix(plan, host.tree, ViewOf(host.config), length)
                && !Last(found.transitions).RolledBack?;
      if legal { PrefixLengthIs(plan, host.tree, host.config, length); }
      var record :- FailPlanned(found, length);
      r := RecordRollingBack(record, length);
    }

    method RecordRollingBack(found: JournalRecord, length: nat) returns (r: Outcome<JournalRecord>)
      requires Wired() && ValidRecord(found)
      modifies host`journal, host`faults, host`broken
      ensures Follows(old(host.faults), host.faults, r)
      ensures host.Watched(old(host.broken), old(host.Marked()))
      ensures Cared(old(host.journal), host.journal)
      ensures (old(At(found)) && Prefix(plan, host.tree, ViewOf(host.config), length)
               && !Last(found.transitions).RolledBack? && !Last(found.transitions).Planned?) ==>
                && IsLegal() && Extends(old(host.journal), host.journal)
                && (r.Done? ==> RollingAt(length) && ViewOf(host.journal) == Published(r.value))
                && (r.Raised? ==> !Calm(old(host.faults)))
    {
      hide Gone, ViewOf, ValidIdentity, Calm, Guarded, Ahead, WroteAhead, Legal, Fits, StageHistory;
      ghost var legal := At(found) && Prefix(plan, host.tree, ViewOf(host.config), length);
      if legal { PrefixLengthIs(plan, host.tree, host.config, length); }
      var record := found;
      if Last(record.transitions) in {Applying, Applied, Validated, Failed} {
        var _ :- RefuseProduction();
        if legal { RollingNext(plan, host.tree, host.journal, host.config, record); }
        record :- Transition(RollingBack);
      }
      if Last(record.transitions) != RollingBack {
        return Raised(Refused(IllegalRecoveryState));
      }
      return Done(record);
    }

    /** The prefix to roll back; residue is recovered first where the record allows it. */
    method Unwindable(state: State) returns (r: Outcome<nat>)
      requires Wired()
      modifies host`tree, host`config, host`faults, host`broken
      ensures Follows(old(host.faults), host.faults, r)
      ensures host.Watched(old(host.broken), old(host.Marked()))
      ensures old(IsLegal() && HasRecord(ViewOf(host.journal))
                  && Last(ViewOf(host.journal).value.transitions) == state) ==>
                && IsLegal() && Gone(host.tree) == old(Gone(host.tree))
                && (r.Done? ==> Prefix(plan, host.tree, ViewOf(host.config), r.value)
                                && old(ViewOf(host.config)) != Draft(Torn))
                && (r.Raised? && Calm(old(host.faults)) ==> old(ViewOf(host.config)) == Draft(Torn))
                && (!state.Applying? ==> host.tree == old(host.tree) && host.config == old(host.config))
    {
      hide Gone, ViewOf, ValidIdentity, Calm, Guarded, Ahead, WroteAhead;
      ghost var legal, before := IsApplying() && state.Applying?, host.config;
      Reads(before);
      if state.Applying? || state.RollingBack? {
        var _ :- RefuseProduction();
        var recovered := tree.RecoverMarkerResidue(plan.marker);
        if legal { ResidueLegal(plan, host.tree, host.journal, before, host.config); }
        var _ :- recovered;
      }
      r := PrefixLength(state.Applying?);
      if r.Raised? && r.error.Refused? {
        return Raised(Refused(RollbackForeignState));
      }
    }

    method Unwind(found: JournalRecord) returns (r: Outcome<JournalRecord>)
      requires Wired() && ValidRecord(found)
      modifies host`tree, host`config, host`journal, host`faults, host`broken
      ensures Follows(old(host.faults), host.faults, r)
      ensures host.Watched(old(host.broken), old(host.Marked()))
      ensures Cared(old(host.journal), host.journal)
      ensures old(At(found)) ==>
                && IsLegal() && Extends(old(host.journal), host.journal)
                && (r.Done? ==>
                      Removed(plan, host.tree, host.journal, host.config) && Gone(host.tree) == old(Gone(host.tree))
                                && old(ViewOf(host.config)) != Draft(Torn) && r.value == ViewOf(host.journal).value)
                && (Calm(old(host.faults)) && old(ViewOf(host.config)) != Draft(Torn) ==> !r.Raised?)
                && (Last(found.transitions).RolledBack? ==>
                      host.tree == old(host.tree) && host.config == old(host.config)
                      && host.journal == old(host.journal))
    {
      hide Gone, ViewOf, ValidIdentity, Calm, Guarded, Ahead, WroteAhead;
      ghost var legal := At(found);
      var length :- Unwindable(Last(found.transitions));
      if legal { PrefixLengthIs(plan, host.tree, host.config, length); }
      if Last(found.transitions).RolledBack? {
        if length != 0 {
          return Raised(Refused(RollbackForeignState));
        }
        return Done(found);
      }
      var _ :- RefuseProduction();
      var record :- StartRollingBack(found, length);
      r := FinishRollingBack(record, length);
    }

    method FinishRollingBack(record: JournalRecord, length: nat) returns (r: Outcome<JournalRecord>)
      requires Wired()
      modifies host`tree, host`config, host`journal, host`faults, host`broken
      ensures Follows(old(host.faults), host.faults, r)
      ensures host.Watched(old(host.broken), old(host.Marked()))
      ensures Cared(old(host.journal), host.journal)
      ensures old(RollingAt(length)) ==>
                && IsLegal() && Extends(old(host.journal), host.journal)
                && (r.Done? ==>
                      Removed(plan, host.tree, host.journal, host.config) && Gone(host.tree) == old(Gone(host.tree))
                                && r.value == ViewOf(host.journal).value)
                && (r.Raised? ==> !Calm(old(host.faults)))
    {
      hide Gone, ViewOf, ValidIdentity, Calm, Guarded, Ahead, WroteAhead;
      ghost var ready := RollingAt(length);
      var _ :- RemoveResources(length);
      if ready {
        PrefixLengthIs(plan, host.tree, host.config, 0);
        RolledFits(plan, ViewOf(host.journal).value.transitions, host.tree, host.config);
      }
      var left :- PrefixLength(false);
      if left != 0 {
        return Raised(Refused(RollbackForeignState));
      }
      r := Transition(RolledBack);
    }

    method Rollback() returns (r: Outcome<JournalRecord>)
      requires Wired()
      modifies host`tree, host`config, host`journal, host`faults, host`broken
      ensures Follows(old(host.faults), host.faults, r)
      ensures host.Watched(old(host.broken), old(host.Marked()))
      ensures Cared(old(host.journal), host.journal)
      // However it ends, the state is legal and the published history has only grown.
      ensures old(IsLegal()) ==> IsLegal() && Extends(old(host.journal), host.journal)
      // Success means removed, and without an injected error the only refusals are a missing record and torn files.
      ensures old(IsLegal()) && r.Done? ==>
                Removed(plan, host.tree, host.journal, host.config) && old(CanRollback(host.journal, host.config))
      ensures old(IsLegal() && CanRollback(host.journal, host.config)) && Calm(old(host.faults)) ==> !r.Raised?
      // It leaves no removal unsynced but those that it found.
      ensures old(IsLegal()) && r.Done? ==> Gone(host.tree) == old(Gone(host.tree))
      // Repeating a successful run changes nothing.
      ensures old(IsLegal() && Removed(plan, host.tree, host.journal, host.config)) ==>
                host.tree == old(host.tree) && host.config == old(host.config) && host.journal == old(host.journal)
    {
      hide Gone, ViewOf, ValidIdentity, Calm, Guarded, Ahead, WroteAhead;
      ghost var legal := IsLegal();
      Reads(host.journal);
      var _ :- RefuseProduction();
      if JournalRoot !in host.tree.dirs {
        return Raised(Refused(JournalRootConflict));
      }
      var _ :- RefuseProduction();
      if !ValidateExistingRoots().Done? {
        return Raised(Refused(RollbackForeignState));
      }
      var prepared := PrepareExistingRecord();
      if legal { BareLegal(plan, host.tree, old(host.journal), host.journal, host.config); }
      var record :- prepared;
      r := Unwind(record);
    }
  }
}
