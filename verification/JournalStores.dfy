/** The journal store: publication by temporary file, hard link and rename, and recovery of what those leave behind. */
module JournalStores {
  import opened Errors
  import opened Folders
  import opened Hosts
  import opened JournalRecords
  import opened Outcomes
  import opened PowerLoss

  datatype Reading = Reading(record: JournalRecord, links: nat, ino: nat)

  datatype Residue = Residue(record: JournalRecord, links: nat, residues: seq<JournalRecord>)

  type JournalView = View<JournalRecord>

  // ---- what a view holds

  predicate HasRecord(v: JournalView) {
    v.Published? || v.Linked? || v.Pending?
  }

  /** The published history; nothing before publication. */
  function History(v: JournalView): seq<State> {
    if HasRecord(v) then v.value.transitions else []
  }

  /** The view once its temporary name is gone. */
  function Bare<T>(v: View<T>): View<T> {
    match v
    case Draft(_) => Empty
    case Linked(x) => Published(x)
    case Pending(x, _) => Published(x)
    case _ => v
  }

  predicate Cleanable(v: JournalView, expected: set<JournalRecord>) {
    match v
    case Draft(Whole(x)) => ValidRecord(x) && x in expected
    case Draft(Torn) => false
    case Linked(x) => ValidRecord(x) && x in expected
    case Pending(_, Whole(x)) => ValidRecord(x) && x in expected
    case Pending(_, Torn) => false
    case _ => true
  }

  predicate Initial(r: JournalRecord) {
    r.transitions == [Planned]
  }

  predicate Loadable(v: JournalView) {
    HasRecord(v) && ValidRecord(v.value)
  }

  predicate Transitionable(v: JournalView, identity: Identity, s: State) {
    && Loadable(v)
    && v.value.identity == identity
    && s in Allowed(Last(v.value.transitions))
    && |v.value.transitions| < MAX_TRANSITIONS
    && (v.Linked? || Cleanable(v, {v.value, Advance(v.value, s)}))
  }

  /** Every view that creating `record` from `v` can leave, however it ends. */
  ghost predicate MayCreate(v: JournalView, record: JournalRecord, w: JournalView) {
    || w == v
    || (Cleanable(v, {record}) && w == Bare(v))
    || (Bare(v).Empty? && Cleanable(v, {record}) && Initial(record) &&
        w in {Draft(Torn), Draft(Whole(record)), Linked(record), Published(record)})
  }

  /** Every view that moving the record of `v` to state `s` can leave, however it ends. */
  ghost predicate MayTransition(v: JournalView, identity: Identity, s: State, w: JournalView) {
    || w == v
    || (v.Linked? && w == Bare(v))
    || (Transitionable(v, identity, s) &&
        var next := Advance(v.value, s);
        w in {Published(v.value), Pending(v.value, Torn), Pending(v.value, Whole(next)), Published(next)})
  }

  // ---- reading

  function ReadAt(f: Journal, name: Name, allowed: set<nat>): Outcome<Reading> {
    if name !in f.entries || FileAt(f, name).links !in allowed then Raised(Insecure)
    else
      match FileAt(f, name).text
      case Torn => Raised(Corrupt)
      case Whole(record) =>
        if ValidRecord(record) then Done(Reading(record, FileAt(f, name).links, f.entries[name])) else Raised(Corrupt)
  }

  class JournalStore {
    const host: Host

    constructor (host: Host)
      ensures this.host == host
    {
      this.host := host;
    }

    /** The one temporary name that shares the published inode, and nothing else. */
    method ValidateLinkedCreate(expected: JournalRecord, final: Reading) returns (r: Outcome<Name>)
      ensures !r.Killed?
      ensures r.Done? ==> Temps(host.journal) == {r.value}
      ensures (ReadAt(host.journal, Final, {1, 2}) == Done(final) && final.links == 2 && expected == final.record
               && !ViewOf(host.journal).Foreign?) ==> r.Done? && ViewOf(host.journal) == Linked(expected)
    {
      var candidates := Temps(host.journal);
      if |candidates| != 1 {
        ghost var v := ViewOf(host.journal);
        if candidates != {} {
          var t :| t in candidates;
          OneTemp(host.journal, t);
        }
        return Raised(Insecure);
      }
      var candidate :| candidate in candidates;
      OneTemp(host.journal, candidate);
      OnlyTemp(host.journal, candidate);
      var residue :- ReadAt(host.journal, candidate, {2});
      if residue.record != expected || residue.ino != final.ino {
        return Raised(Insecure);
      }
      return Done(candidate);
    }

    method RecoverLinkedCreate(expected: JournalRecord, final: Reading) returns (r: Outcome<()>)
      requires ReadAt(host.journal, Final, {1, 2}) == Done(final) && final.links == 2 && expected == final.record
      modifies host`journal, host`faults, host`broken
      ensures Follows(old(host.faults), host.faults, r)
      ensures host.Watched(old(host.broken), old(host.Marked()))
      ensures !old(ViewOf(host.journal)).Foreign? ==>
                var v := old(ViewOf(host.journal));
                && v == Linked(expected)
                && (ViewOf(host.journal) == v || ViewOf(host.journal) == Bare(v))
                && (r.Done? ==> ViewOf(host.journal) == Bare(v) && host.journal.loose == {})
                && (r.Raised? ==> !Calm(old(host.faults)))
      ensures KeepsRecord(old(host.journal), host.journal)
    {
      hide Guarded, Ahead, WroteAhead, Held;
      var candidate :- ValidateLinkedCreate(expected, final);
      OnlyTemp(host.journal, candidate);
      AfterUnlink(host.journal, candidate);
      Untouched(host.journal, Unlink(candidate));
      var _ :- host.OnJournal(Unlink(candidate));
      AfterSync(host.journal, SyncFolder);
      Untouched(host.journal, SyncFolder);
      var _ :- host.OnJournal(SyncFolder);
      return Done(());
    }

    method LoadAt(recover: bool) returns (r: Outcome<JournalRecord>)
      modifies host`journal, host`faults, host`broken
      ensures Follows(old(host.faults), host.faults, r)
      ensures host.Watched(old(host.broken), old(host.Marked()))
      ensures r.Done? ==> ValidRecord(r.value)
      ensures !old(ViewOf(host.journal)).Foreign? ==>
                var v, w := old(ViewOf(host.journal)), ViewOf(host.journal);
                && (w == v || (v.Linked? && recover && w == Bare(v)))
                && (r.Done? ==> Loadable(v) && r.value == v.value && (v.Linked? ==> recover)
                                && w == if v.Linked? then Bare(v) else v)
                && (r.Raised? && Calm(old(host.faults)) ==> !Loadable(v) || (v.Linked? && !recover))
                && (!v.Linked? ==> host.journal == old(host.journal) && !r.Killed?)
      ensures KeepsRecord(old(host.journal), host.journal)
      ensures r.Done? ==> Held(host.journal) == Some(Whole(r.value))
    {
      hide Guarded, Ahead, WroteAhead;
      Reads(host.journal);
      var final :- ReadAt(host.journal, Final, {1, 2});
      if final.links == 1 {
        return Done(final.record);
      }
      if !recover {
        return Raised(Insecure);
      }
      var _ :- RecoverLinkedCreate(final.record, final);
      Reads(host.journal);
      var recovered :- ReadAt(host.journal, Final, {1});
      return Done(recovered.record);
    }

    method InspectResidue() returns (r: Outcome<Residue>)
      ensures !r.Killed?
      ensures r.Done? ==> ValidRecord(r.value.record)
      ensures !ViewOf(host.journal).Foreign? ==> r == Inspected(ViewOf(host.journal))
    {
      Reads(host.journal);
      var final :- ReadAt(host.journal, Final, {1, 2});
      var candidates := Temps(host.journal);
      if final.links == 2 {
        var _ :- ValidateLinkedCreate(final.record, final);
        return Done(Residue(final.record, 2, [final.record]));
      }
      if candidates == {} {
        return Done(Residue(final.record, 1, []));
      }
      var candidate :| candidate in candidates;
      OneTemp(host.journal, candidate);
      if |candidates| != 1 {
        return Raised(Insecure);
      }
      OnlyTemp(host.journal, candidate);
      var residue :- ReadAt(host.journal, candidate, {1});
      return Done(Residue(final.record, 1, [residue.record]));
    }

    method LoadUnpublished() returns (r: Outcome<JournalRecord>)
      ensures !r.Killed?
      ensures !ViewOf(host.journal).Foreign? ==>
                var v := ViewOf(host.journal);
                r == match v
                  case Draft(Whole(x)) => if ValidRecord(x) then Done(x) else Raised(Corrupt)
                  case Draft(Torn) => Raised(Corrupt)
                  case _ => Raised(Insecure)
    {
      Reads(host.journal);
      if Final in host.journal.entries {
        return Raised(Insecure);
      }
      var candidates := Temps(host.journal);
      if candidates == {} {
        return Raised(Insecure);
      }
      var candidate :| candidate in candidates;
      OneTemp(host.journal, candidate);
      if |candidates| != 1 {
        return Raised(Insecure);
      }
      OnlyTemp(host.journal, candidate);
      var residue :- ReadAt(host.journal, candidate, {1});
      return Done(residue.record);
    }

    // ---- writing

    /** Write and sync a fresh temporary file; a caught failure removes it again. */
    method NewTemp(record: JournalRecord) returns (r: Outcome<Name>)
      modifies host`journal, host`faults, host`broken
      ensures Follows(old(host.faults), host.faults, r)
      ensures host.Watched(old(host.broken), old(host.Marked()))
      ensures r.Raised? ==> r.error in {InputOutput, Conflict, FileMissing}
      ensures r.Done? ==> r.value.Temp?
      ensures var v, w := old(ViewOf(host.journal)), ViewOf(host.journal);
              v.Empty? || v.Published? ==>
                && w in {v, WithTemp(v, Torn), WithTemp(v, Whole(record))}
                && (r.Done? ==> Temps(host.journal) == {r.value} && w == WithTemp(v, Whole(record)))
                && (r.Raised? ==> !Calm(old(host.faults)))
      ensures Guarded(old(host.journal)) ==>
                KeepsRecord(old(host.journal), host.journal) && (r.Done? ==> Ready(host.journal, r.value, record))
    {
      hide Guarded, Ahead, WroteAhead, Held, Fresh, Ready;
      ghost var v := ViewOf(host.journal);
      var temp := Temp(0);
      var created := false;
      for attempt := 0 to 8
        invariant Follows(old(host.faults), host.faults, Done(()))
        invariant host.Watched(old(host.broken), old(host.Marked()))
        invariant created ==> Apply(old(host.journal), OpenExclusive(temp)) == Done(host.journal)
        invariant temp.Temp?
        invariant !created ==> host.journal == old(host.journal)
        invariant !created && attempt > 0 ==> Temps(host.journal) != {}
      {
        var token: nat := *;
        temp := Temp(token);
        var o := host.OnJournal(OpenExclusive(temp));
        if o.Done? {
          created := true;
          break;
        }
        if o.Killed? || o.error != FileExists {
          return o.PropagateFailure();
        }
        assert temp in Temps(host.journal);
      }
      if !created {
        if v.Empty? || v.Published? { PublishedAlone(host.journal); }
        return Raised(Conflict);
      }
      AfterOpen(old(host.journal), temp);
      OpenedFresh(old(host.journal), temp);
      Untouched(old(host.journal), OpenExclusive(temp));
      var filled := Fill(temp, record, v);
      if filled.Done? {
        return Done(temp);
      }
      if filled.Raised? {
        if v.Empty? || v.Published? { AfterUnlink(host.journal, temp); }
        if temp in host.journal.entries { Untouched(host.journal, Unlink(temp)); }
        var removed := host.OnJournal(Unlink(temp));
        if removed.Killed? {
          return Killed;
        }
      }
      return filled.PropagateFailure();
    }

    method Fill(temp: Name, record: JournalRecord, ghost v: JournalView) returns (r: Outcome<()>)
      modifies host`journal, host`faults, host`broken
      ensures Follows(old(host.faults), host.faults, r)
      ensures host.Watched(old(host.broken), old(host.Marked()))
      ensures r.Raised? ==> r.error in {InputOutput, FileMissing}
      ensures (v.Empty? || v.Published?) && Temps(old(host.journal)) == {temp}
              && old(ViewOf(host.journal)) == WithTemp(v, Torn) ==>
                && Temps(host.journal) == {temp}
                && ViewOf(host.journal) in {WithTemp(v, Torn), WithTemp(v, Whole(record))}
                && (r.Done? ==> ViewOf(host.journal) == WithTemp(v, Whole(record)))
                && (r.Raised? ==> !Calm(old(host.faults)))
      ensures Guarded(old(host.journal)) && Fresh(old(host.journal), temp) ==>
                KeepsRecord(old(host.journal), host.journal) && (r.Done? ==> Ready(host.journal, temp, record))
    {
      hide Guarded, Ahead, WroteAhead, Held, Ready;
      ghost var unpublished := Fresh(host.journal, temp);
      if unpublished { WrittenFresh(host.journal, temp, record); }
      if Temps(host.journal) == {temp} { AfterWrite(host.journal, temp, record); }
      var _ :- host.OnJournal(Write(temp, record));
      if temp in host.journal.entries {
        AfterSync(host.journal, SyncFile(temp));
        Untouched(host.journal, SyncFile(temp));
      }
      if unpublished { SyncedReady(host.journal, temp, record); }
      var _ :- host.OnJournal(SyncFile(temp));
      return Done(());
    }

    method CleanupStaleTemps(expected: set<JournalRecord>) returns (r: Outcome<()>)
      modifies host`journal, host`faults, host`broken
      ensures Follows(old(host.faults), host.faults, r)
      ensures host.Watched(old(host.broken), old(host.Marked()))
      ensures !old(ViewOf(host.journal)).Foreign? ==>
                var v, w := old(ViewOf(host.journal)), ViewOf(host.journal);
                && (w == v || (Cleanable(v, expected) && w == Bare(v)))
                && (r.Done? ==> Cleanable(v, expected) && w == Bare(v)
                                && (w != v ==>
                                      host.journal.loose == {} && host.journal.kept == {Bound(host.journal.entries)}))
                && (r.Raised? && Calm(old(host.faults)) ==> !Cleanable(v, expected))
                && (!Cleanable(v, expected) ==> r.Raised?)
      ensures KeepsRecord(old(host.journal), host.journal)
    {
      hide Guarded, Ahead, WroteAhead, Held;
      var candidates := Temps(host.journal);
      if candidates == {} {
        return Done(());
      }
      var name :| name in candidates;
      OneTemp(host.journal, name);
      if |candidates| > 1 {
        return Raised(Insecure);
      }
      OnlyTemp(host.journal, name);
      var read := ReadAt(host.journal, name, {1, 2});
      if !read.Done? {
        return Raised(Insecure);
      }
      var residue := read.value;
      if residue.record !in expected {
        return Raised(Conflict);
      }
      if residue.links == 2 && (Final !in host.journal.entries || host.journal.entries[Final] != residue.ino) {
        return Raised(Insecure);
      }
      AfterUnlink(host.journal, name);
      Untouched(host.journal, Unlink(name));
      var _ :- host.OnJournal(Unlink(name));
      AfterSync(host.journal, SyncFolder);
      Untouched(host.journal, SyncFolder);
      var _ :- host.OnJournal(SyncFolder);
      return Done(());
    }

    /** Link the temporary file into place, where nothing is published yet. */
    method LinkIntoPlace(temp: Name, ghost record: JournalRecord) returns (r: Outcome<()>)
      modifies host`journal, host`faults, host`broken
      ensures Follows(old(host.faults), host.faults, r)
      ensures host.Watched(old(host.broken), old(host.Marked()))
      ensures Temps(old(host.journal)) == {temp} && old(ViewOf(host.journal)).Draft?
              && old(ViewOf(host.journal)).text.Whole? ==>
                var v, w := old(ViewOf(host.journal)), ViewOf(host.journal);
                && (w == v || w == Linked(v.text.value)) && Temps(host.journal) == {temp}
                && (r.Done? ==> w.Linked?)
                && (r.Raised? ==> !Calm(old(host.faults)))
      ensures Guarded(old(host.journal)) && Ready(old(host.journal), temp, record) && ValidRecord(record) ==>
                Cared(old(host.journal), host.journal) && temp.Temp?
    {
      hide Guarded, Ahead, WroteAhead, Held, ViewOf;
      if Guarded(host.journal) && Ready(host.journal, temp, record) && ValidRecord(record)
         && Apply(host.journal, Link(temp, Final)).Done? {
        LinkedAnew(host.journal, temp);
        PublishedGuarded(host.journal, Link(temp, Final), temp, record);
      }
      if Temps(host.journal) == {temp} && ViewOf(host.journal).Draft? && ViewOf(host.journal).text.Whole? {
        AfterLink(host.journal, temp);
      }
      var linked := host.OnJournal(Link(temp, Final));
      if linked == Raised(FileExists) {
        return Raised(Conflict);
      }
      var _ :- linked;
      AfterSync(host.journal, SyncFolder);
      Untouched(host.journal, SyncFolder);
      r := host.OnJournal(SyncFolder);
    }

    /** Link the temporary file into place and drop its temporary name. */
    method PublishLink(temp: Name, ghost record: JournalRecord) returns (r: Outcome<()>)
      modifies host`journal, host`faults, host`broken
      ensures Follows(old(host.faults), host.faults, r)
      ensures host.Watched(old(host.broken), old(host.Marked()))
      ensures Temps(old(host.journal)) == {temp} && old(ViewOf(host.journal)).Draft?
              && old(ViewOf(host.journal)).text.Whole? ==>
                var v, w := old(ViewOf(host.journal)), ViewOf(host.journal);
                && w in {v, Linked(v.text.value), Published(v.text.value)}
                && (w.Published? || Temps(host.journal) == {temp})
                && (r.Done? ==> w.Published? && host.journal.loose == {})
                && (r.Raised? ==> !Calm(old(host.faults)))
      ensures r.Done? ==> host.journal.kept == {Bound(host.journal.entries)}
      ensures Guarded(old(host.journal)) && Ready(old(host.journal), temp, record) && ValidRecord(record) ==>
                Cared(old(host.journal), host.journal) && temp.Temp?
    {
      hide Guarded, Ahead, WroteAhead, Held, Ready, ViewOf;
      var _ :- LinkIntoPlace(temp, record);
      if Temps(host.journal) == {temp} { AfterUnlink(host.journal, temp); }
      if temp.Temp? && temp in host.journal.entries { Untouched(host.journal, Unlink(temp)); }
      var _ :- host.OnJournal(Unlink(temp));
      AfterSync(host.journal, SyncFolder);
      Untouched(host.journal, SyncFolder);
      r := host.OnJournal(SyncFolder);
    }

    method AtomicCreate(record: JournalRecord) returns (r: Outcome<()>)
      modifies host`journal, host`faults, host`broken
      ensures Follows(old(host.faults), host.faults, r)
      ensures host.Watched(old(host.broken), old(host.Marked()))
      ensures old(ViewOf(host.journal)).Empty? ==>
                var w := ViewOf(host.journal);
                && w in {Empty, Draft(Torn), Draft(Whole(record)), Linked(record), Published(record)}
                && (r.Done? ==> w == Published(record) && host.journal.loose == {})
                && (r.Raised? ==> !Calm(old(host.faults)))
      ensures r.Done? ==> host.journal.kept == {Bound(host.journal.entries)}
      ensures Guarded(old(host.journal)) && ValidRecord(record) ==> Cared(old(host.journal), host.journal)
    {
      hide Guarded, Ahead, WroteAhead, Held, Ready;
      var temp :- NewTemp(record);
      r := PublishLink(temp, record);
      if r.Raised? {
        if Temps(host.journal) == {temp} { AfterUnlink(host.journal, temp); }
        if Temps(host.journal) == {} { assert temp !in Temps(host.journal); }
        if temp.Temp? && temp in host.journal.entries { Untouched(host.journal, Unlink(temp)); }
        var removed := host.OnJournal(Unlink(temp));
        if removed.Killed? {
          return Killed;
        }
      }
    }

    /** Rename the temporary file into place. */
    method PublishRename(temp: Name, ghost record: JournalRecord) returns (r: Outcome<()>)
      modifies host`journal, host`faults, host`broken
      ensures Follows(old(host.faults), host.faults, r)
      ensures host.Watched(old(host.broken), old(host.Marked()))
      ensures Temps(old(host.journal)) == {temp} && old(ViewOf(host.journal)).Pending?
              && old(ViewOf(host.journal)).text.Whole? ==>
                var v, w := old(ViewOf(host.journal)), ViewOf(host.journal);
                && (w == Published(v.text.value) || (w == v && Temps(host.journal) == {temp}))
                && (r.Done? ==> w.Published? && host.journal.loose == {})
                && (r.Raised? ==> !Calm(old(host.faults)))
      ensures r.Done? ==> host.journal.kept == {Bound(host.journal.entries)}
      ensures (Guarded(old(host.journal)) && Ready(old(host.journal), temp, record) && ValidRecord(record)
               && Replaces(old(host.journal), record)) ==> Cared(old(host.journal), host.journal)
    {
      hide ViewOf, Guarded, Ahead, WroteAhead, Held, Ready;
      ghost var ready := Guarded(host.journal) && Ready(host.journal, temp, record) && ValidRecord(record)
                         && Replaces(host.journal, record);
      if ready && Apply(host.journal, Rename(temp, Final)).Done? {
        PublishedGuarded(host.journal, Rename(temp, Final), temp, record);
      }
      if Temps(host.journal) == {temp} && ViewOf(host.journal).Pending? && ViewOf(host.journal).text.Whole? {
        AfterRename(host.journal, temp);
      }
      var _ :- host.OnJournal(Rename(temp, Final));
      AfterSync(host.journal, SyncFolder);
      Untouched(host.journal, SyncFolder);
      r := host.OnJournal(SyncFolder);
    }

    method AtomicReplace(record: JournalRecord) returns (r: Outcome<()>)
      modifies host`journal, host`faults, host`broken
      ensures Follows(old(host.faults), host.faults, r)
      ensures host.Watched(old(host.broken), old(host.Marked()))
      ensures old(ViewOf(host.journal)).Published? ==>
                var v, w := old(ViewOf(host.journal)), ViewOf(host.journal);
                && w in {v, Pending(v.value, Torn), Pending(v.value, Whole(record)), Published(record)}
                && (r.Done? ==> w == Published(record) && host.journal.loose == {})
                && (r.Raised? ==> !Calm(old(host.faults)))
      ensures r.Done? ==> host.journal.kept == {Bound(host.journal.entries)}
      ensures Guarded(old(host.journal)) && ValidRecord(record) && Replaces(old(host.journal), record) ==>
                Cared(old(host.journal), host.journal)
    {
      hide ViewOf, Guarded, Ahead, WroteAhead, Held, Ready;
      ghost var v := ViewOf(host.journal);
      var temp :- NewTemp(record);
      r := PublishRename(temp, record);
      if r.Raised? {
        if temp in host.journal.entries { Untouched(host.journal, Unlink(temp)); }
        if v.Published? {
          if ViewOf(host.journal).Published? {
            PublishedAlone(host.journal);
            assert temp !in Temps(host.journal);
          } else {
            AfterUnlink(host.journal, temp);
          }
        }
        var removed := host.OnJournal(Unlink(temp));
        if removed.Killed? {
          return Killed;
        }
      }
    }

    method CreateAt(record: JournalRecord) returns (r: Outcome<JournalRecord>)
      requires ValidRecord(record)
      modifies host`journal, host`faults, host`broken
      ensures Follows(old(host.faults), host.faults, r)
      ensures host.Watched(old(host.broken), old(host.Marked()))
      ensures r.Done? ==> ValidRecord(r.value)
      ensures !old(ViewOf(host.journal)).Foreign? ==>
                var v, w := old(ViewOf(host.journal)), ViewOf(host.journal);
                && MayCreate(v, record, w)
                && (r.Done? ==> w == Published(record) && r.value == record && host.journal.loose == {}
                                && host.journal.kept == {Bound(host.journal.entries)}
                                && (v.Empty? || v == Draft(Whole(record))) && Initial(record))
                && (r.Raised? && Calm(old(host.faults)) ==>
                      !(Initial(record) && (v.Empty? || v == Draft(Whole(record)))))
      ensures Cared(old(host.journal), host.journal)
    {
      AheadGuarded(host.journal);
      hide ViewOf, Guarded, Ahead, WroteAhead, Held;
      if record.transitions != [Planned] {
        return Raised(Conflict);
      }
      var _ :- CleanupStaleTemps({record});
      Reads(host.journal);
      if Final in host.journal.entries {
        return Raised(Conflict);
      }
      var _ :- AtomicCreate(record);
      r := LoadAt(true);
    }

    /** Drop what an interrupted replacement left, and put the new record in place. */
    method Replace(record: JournalRecord, updated: JournalRecord) returns (r: Outcome<JournalRecord>)
      requires ValidRecord(updated) && Earlier(record, updated)
      modifies host`journal, host`faults, host`broken
      ensures Follows(old(host.faults), host.faults, r)
      ensures host.Watched(old(host.broken), old(host.Marked()))
      ensures r.Done? ==> ValidRecord(r.value)
      ensures !old(ViewOf(host.journal)).Foreign? && Loadable(old(ViewOf(host.journal)))
              && !old(ViewOf(host.journal)).Linked?
              && old(ViewOf(host.journal)).value == record ==>
                var v, w := old(ViewOf(host.journal)), ViewOf(host.journal);
                && (w == v || (Cleanable(v, {record, updated}) &&
                               w in {Published(record), Pending(record, Torn), Pending(record, Whole(updated)),
                                     Published(updated)}))
                && (r.Done? ==> Cleanable(v, {record, updated}) && r.value == updated && w == Published(updated)
                                && host.journal.loose == {} && host.journal.kept == {Bound(host.journal.entries)})
                && (r.Raised? && Calm(old(host.faults)) ==> !Cleanable(v, {record, updated}))
      ensures r.Done? ==> Held(host.journal) == Some(Whole(r.value))
      ensures old(Held(host.journal)) == Some(Whole(record)) ==> Cared(old(host.journal), host.journal)
    {
      AheadGuarded(host.journal);
      hide ViewOf, Guarded, Ahead, WroteAhead, Held;
      var _ :- CleanupStaleTemps({record, updated});
      var _ :- AtomicReplace(updated);
      r := LoadAt(true);
    }

    method TransitionAt(identity: Identity, state: State) returns (r: Outcome<JournalRecord>)
      modifies host`journal, host`faults, host`broken
      ensures Follows(old(host.faults), host.faults, r)
      ensures host.Watched(old(host.broken), old(host.Marked()))
      ensures r.Done? ==> ValidRecord(r.value)
      ensures !old(ViewOf(host.journal)).Foreign? ==>
                var v, w := old(ViewOf(host.journal)), ViewOf(host.journal);
                && MayTransition(v, identity, state, w)
                && (r.Done? ==> Transitionable(v, identity, state) && r.value == Advance(v.value, state)
                                && w == Published(r.value) && host.journal.loose == {}
                                && host.journal.kept == {Bound(host.journal.entries)})
                && (r.Raised? && Calm(old(host.faults)) ==> !Transitionable(v, identity, state))
      ensures r.Done? ==> Held(host.journal) == Some(Whole(r.value))
      ensures Cared(old(host.journal), host.journal)
    {
      AheadGuarded(host.journal);
      hide ViewOf, Guarded, Ahead, WroteAhead, Held, Cleanable, NextRecord, MayTransition, Transitionable;
      ghost var v := ViewOf(host.journal);
      UntouchedMay(v, identity, state);
      var record :- LoadAt(true);
      ghost var u := ViewOf(host.journal);
      if !v.Foreign? { LoadedMay(v, record, identity, state); }
      var updated :- NextRecord(record, identity, state);
      r := Replace(record, updated);
      if !v.Foreign? { ReplacedMay(v, record, identity, state, ViewOf(host.journal)); }
    }
  }

  lemma UntouchedMay(v: JournalView, identity: Identity, s: State)
    ensures MayTransition(v, identity, s, v) && (v.Linked? ==> MayTransition(v, identity, s, Bare(v)))
    ensures Transitionable(v, identity, s) ==> Loadable(v)
  {
  }

  lemma LoadedMay(v: JournalView, record: JournalRecord, identity: Identity, s: State)
    requires Loadable(v) && record == v.value
    ensures !NextRecord(record, identity, s).Done? ==> !Transitionable(v, identity, s)
  {
  }

  lemma ReplacedMay(v: JournalView, record: JournalRecord, identity: Identity, s: State, w: JournalView)
    requires Loadable(v) && record == v.value && NextRecord(record, identity, s).Done?
    ensures var u, next := if v.Linked? then Bare(v) else v, NextRecord(record, identity, s).value;
            && (Cleanable(u, {record, next}) <==> Transitionable(v, identity, s))
            && ((w == u || (Cleanable(u, {record, next}) &&
                            w in {Published(record), Pending(record, Torn), Pending(record, Whole(next)),
                                  Published(next)})) ==>
                  MayTransition(v, identity, s, w))
  {
  }

  /** The record after one more state, where identity, state and length allow it. */
  function NextRecord(record: JournalRecord, identity: Identity, state: State): (r: Outcome<JournalRecord>)
    requires ValidRecord(record)
    ensures !r.Killed?
    ensures r.Done? <==>
              record.identity == identity && state in Allowed(Last(record.transitions))
              && |record.transitions| < MAX_TRANSITIONS
    ensures r.Done? ==> r.value == Advance(record, state) && ValidRecord(r.value) && Earlier(record, r.value)
  {
    if record.identity != identity || state !in Allowed(Last(record.transitions)) then Raised(Conflict)
    else
      AdvanceValid(record, state);
      if ValidRecord(Advance(record, state)) then Done(Advance(record, state)) else Raised(InvalidValue)
  }

  function WithTemp<T>(v: View<T>, text: Text<T>): View<T> {
    match v
    case Empty => Draft(text)
    case Published(x) => Pending(x, text)
    case _ => v
  }

  function Inspected(v: JournalView): Outcome<Residue> {
    match v
    case Published(x) => if ValidRecord(x) then Done(Residue(x, 1, [])) else Raised(Corrupt)
    case Linked(x) => if ValidRecord(x) then Done(Residue(x, 2, [x])) else Raised(Corrupt)
    case Pending(x, Whole(y)) => if ValidRecord(x) && ValidRecord(y) then Done(Residue(x, 1, [y])) else Raised(Corrupt)
    case Pending(_, Torn) => Raised(Corrupt)
    case _ => Raised(Insecure)
  }
}
