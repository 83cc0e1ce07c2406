/** Fixed-path operations on the Stage 05 resources: three directories and the marker file. */
module SecureTrees {
  import opened Errors
  import opened Folders
  import opened Hosts
  import opened Outcomes

  datatype Listing = Listing(dirs: set<Dir>, files: set<Name>)

  const NOTHING := Listing({}, {})

  type MarkerFolder = Folder<string>
  type MarkerView = View<string>

  /** The marker's directory entry and its bytes have been synced since they last changed. */
  predicate MarkerDurable(c: MarkerFolder) {
    Final in c.entries && Final !in c.loose && c.entries[Final] !in c.stale
  }

  predicate Settled(t: Tree, d: Dir) {
    d !in t.loose && d !in t.unsettled
  }

  /** Residue of a marker publication that recovery accepts. */
  predicate MarkerCleanable(m: MarkerView, expected: string) {
    match m
    case Draft(text) => text == Whole(expected)
    case Linked(x) => x == expected
    case Pending(_, _) => false
    case _ => true
  }

  function BareMarker(m: MarkerView): MarkerView {
    match m
    case Draft(_) => Empty
    case Linked(x) => Published(x)
    case _ => m
  }

  class SecureTree {
    const host: Host

    constructor (host: Host)
      ensures this.host == host
    {
      this.host := host;
    }

    function Entries(d: Dir): Listing
      reads host
    {
      Listing(Children(host.tree, d),
              if d.Config? then host.config.entries.Keys
              else if d.JournalRoot? then host.journal.entries.Keys
              else {})
    }

    // ---- directories

    function ValidateDirectory(d: Dir, mode: Mode, allowed: Option<Listing>): (r: Outcome<Listing>)
      reads host
      ensures !r.Killed?
      ensures r.Done? <==>
              d in host.tree.dirs && host.tree.dirs[d] == mode && (allowed.Some? ==> Entries(d) == allowed.value)
    {
      if d !in host.tree.dirs then Raised(Refused(TypeConflict))
      else if host.tree.dirs[d] != mode then Raised(Refused(ResourceDesiredMismatch))
      else if allowed.Some? && Entries(d) != allowed.value then Raised(Refused(UnexpectedEntry))
      else Done(Entries(d))
    }

    /** Sync a directory, then its parent. */
    method Settle(d: Dir) returns (r: Outcome<()>)
      modifies host`tree, host`faults, host`broken
      ensures Follows(old(host.faults), host.faults, r)
      ensures host.Watched(old(host.broken), old(host.Marked()))
      ensures var t, u := old(host.tree), host.tree;
              && u.dirs == t.dirs && u.loose <= t.loose && u.unsettled <= t.unsettled
              && Elsewhere(Elsewhere(t.loose, In(d)), Parent(d)) <= u.loose && Gone(u) <= Gone(t)
              && (r.Done? ==> Settled(u, d))
              && (r.Raised? && Calm(old(host.faults)) ==> d !in t.dirs || !Exists(t, Parent(d)))
    {
      hide WroteAhead;
      var _ :- host.OnTree(SyncPlace(In(d)));
      var _ :- host.OnTree(SyncPlace(Parent(d)));
      return Done(());
    }

    /** Create a directory and give it its mode. */
    method MakeDirectory(d: Dir, mode: Mode) returns (r: Outcome<()>)
      modifies host`tree, host`faults, host`broken
      ensures Follows(old(host.faults), host.faults, r)
      ensures host.Watched(old(host.broken), old(host.Marked()))
      ensures var t, u := old(host.tree), host.tree;
              && (u == t || (d !in t.dirs && Exists(t, Parent(d)) && u.loose == t.loose + {d}
                             && u.unsettled == t.unsettled + {d}
                             && (u.dirs == t.dirs[d := M0700] || u.dirs == t.dirs[d := mode])))
              && (r.Done? ==> u.dirs == t.dirs[d := mode] && u.loose == t.loose + {d} && d !in t.dirs)
              && (r.Raised? && Calm(old(host.faults)) ==> d in t.dirs || !Exists(t, Parent(d)))
    {
      hide WroteAhead;
      var made := host.OnTree(MakeDir(d));
      if made == Raised(FileExists) {
        return Raised(Refused(ResourcePriorMismatch));
      }
      var _ :- made;
      if mode != M0700 {
        var _ :- host.OnTree(ChangeMode(d, mode));
      }
      return Done(());
    }

    method CreateDirectory(d: Dir, mode: Mode) returns (r: Outcome<()>)
      modifies host`tree, host`faults, host`broken
      ensures Follows(old(host.faults), host.faults, r)
      ensures host.Watched(old(host.broken), old(host.Marked()))
      ensures var t, u := old(host.tree), host.tree;
              && (u.dirs == t.dirs || (d !in t.dirs && (u.dirs == t.dirs[d := M0700] || u.dirs == t.dirs[d := mode])))
              && u.loose <= t.loose + {d} && u.unsettled <= t.unsettled + {d} && Gone(u) <= Gone(t)
              && (u.dirs == t.dirs ==> u == t)
              && (r.Done? ==> d !in t.dirs && u.dirs == t.dirs[d := mode] && Settled(u, d))
              && (r.Raised? && Calm(old(host.faults)) ==>
                    d in t.dirs || !Exists(t, Parent(d)) || old(Entries(d)) != NOTHING)
    {
      hide WroteAhead;
      var _ :- MakeDirectory(d, mode);
      var _ :- Settle(d);
      var _ :- ValidateDirectory(d, mode, Some(NOTHING));
      return Done(());
    }

    method SyncDirectory(d: Dir, mode: Mode, allowed: Option<Listing>) returns (r: Outcome<()>)
      modifies host`tree, host`faults, host`broken
      ensures Follows(old(host.faults), host.faults, r)
      ensures host.Watched(old(host.broken), old(host.Marked()))
      ensures var t, u := old(host.tree), host.tree;
              && u.dirs == t.dirs && u.loose <= t.loose && u.unsettled <= t.unsettled && Gone(u) <= Gone(t)
              && (r.Done? ==> old(ValidateDirectory(d, mode, allowed)).Done? && Settled(u, d))
              && (r.Raised? && Calm(old(host.faults)) ==>
                    !old(ValidateDirectory(d, mode, allowed)).Done? || !Exists(t, Parent(d)))
    {
      hide WroteAhead;
      var _ :- ValidateDirectory(d, mode, None);
      if allowed.Some? && Entries(d) != allowed.value {
        return Raised(Refused(IllegalRecoveryState));
      }
      var _ :- Settle(d);
      return Done(());
    }

    /** Finish the mode change of a directory that a kill left at its creation mode. */
    method RecoverProvisionalDirectory(d: Dir, mode: Mode, allowed: Listing) returns (r: Outcome<()>)
      modifies host`tree, host`faults, host`broken
      ensures Follows(old(host.faults), host.faults, r)
      ensures host.Watched(old(host.broken), old(host.Marked()))
      ensures var t, u := old(host.tree), host.tree;
              && (u.dirs == t.dirs
                  || (old(ValidateDirectory(d, M0700, Some(allowed))).Done? && u.dirs == t.dirs[d := mode]))
              && u.loose <= t.loose && u.unsettled <= t.unsettled + {d}
              && Elsewhere(Elsewhere(t.loose, In(d)), Parent(d)) <= u.loose && Gone(u) <= Gone(t)
              && (r.Done? ==> old(ValidateDirectory(d, M0700, Some(allowed))).Done? && u.dirs == t.dirs[d := mode]
                              && Settled(u, d))
              && (r.Raised? && Calm(old(host.faults)) ==>
                    !old(ValidateDirectory(d, M0700, Some(allowed))).Done? || !Exists(t, Parent(d)))
    {
      hide WroteAhead, Children;
      if d !in host.tree.dirs {
        return Raised(Refused(TypeConflict));
      }
      if host.tree.dirs[d] != M0700 || Entries(d) != allowed {
        return Raised(Refused(IllegalRecoveryState));
      }
      var _ :- host.OnTree(ChangeMode(d, mode));
      var _ :- Settle(d);
      return Done(());
    }

    method RemoveDirectory(d: Dir, mode: Mode) returns (r: Outcome<()>)
      modifies host`tree, host`faults, host`broken
      ensures Follows(old(host.faults), host.faults, r)
      ensures host.Watched(old(host.broken), old(host.Marked()))
      ensures var t, u := old(host.tree), host.tree;
              && (u.dirs == t.dirs
                  || (old(ValidateDirectory(d, mode, Some(NOTHING))).Done? && u.dirs == t.dirs - {d}))
              && u.loose <= t.loose + {d} && u.unsettled <= t.unsettled
              && (r.Done? ==> old(ValidateDirectory(d, mode, Some(NOTHING))).Done? && u.dirs == t.dirs - {d}
                              && u.loose == Elsewhere(t.loose, Parent(d)))
              && (r.Raised? && Calm(old(host.faults)) ==>
                    !old(ValidateDirectory(d, mode, Some(NOTHING))).Done? || !Exists(t, Parent(d)))
    {
      hide WroteAhead, Children;
      var _ :- ValidateDirectory(d, mode, None);
      if Entries(d) != NOTHING {
        return Raised(Refused(RollbackForeignState));
      }
      var _ :- host.OnTree(RemoveDir(d));
      var _ :- host.OnTree(SyncPlace(Parent(d)));
      return Done(());
    }

    // ---- the marker

    function ReadFile(expected: string): (r: Outcome<()>)
      reads host
      ensures !r.Killed?
    {
      if Final !in host.config.entries then Raised(Refused(ResourceDesiredMismatch))
      else if FileAt(host.config, Final) == File(1, Whole(expected)) then Done(())
      else Raised(Refused(MarkerContentMismatch))
    }

    method SyncMarker(expected: string) returns (r: Outcome<()>)
      modifies host`config, host`faults
      ensures Follows(old(host.faults), host.faults, r)
      ensures ViewOf(host.config) == old(ViewOf(host.config))
      ensures host.config.entries == old(host.config.entries) && host.config.inodes == old(host.config.inodes)
      ensures r.Done? ==> MarkerDurable(host.config)
      ensures r.Raised? && Calm(old(host.faults)) ==> !old(ReadFile(expected)).Done?
    {
      var _ :- ReadFile(expected);
      AfterSync(host.config, SyncFile(Final));
      var _ :- host.OnConfig(SyncFile(Final));
      AfterSync(host.config, SyncFolder);
      var _ :- host.OnConfig(SyncFolder);
      return ReadFile(expected);
    }

    /** Discard one temporary marker left by a killed publication. */
    method RecoverMarkerTemp(expected: string) returns (r: Outcome<()>)
      modifies host`config, host`faults
      ensures Follows(old(host.faults), host.faults, r)
      ensures r.Raised? ==> r.error != FileExists
      ensures !old(ViewOf(host.config)).Foreign? ==>
                var m, n := old(ViewOf(host.config)), ViewOf(host.config);
                && (n == m || (MarkerCleanable(m, expected) && n == BareMarker(m)))
                && (r.Done? ==> MarkerCleanable(m, expected) && n == BareMarker(m))
                && (r.Raised? && Calm(old(host.faults)) ==> !MarkerCleanable(m, expected))
                && (n == m && BareMarker(m) == m ==> host.config == old(host.config))
    {
      Reads(host.config);
      var candidates := Temps(host.config);
      if candidates == {} {
        return Done(());
      }
      var candidate :| candidate in candidates;
      OneTemp(host.config, candidate);
      if |candidates| != 1 {
        return Raised(Refused(UnexpectedEntry));
      }
      OnlyTemp(host.config, candidate);
      var exists_ := Final in host.config.entries;
      if FileAt(host.config, candidate) != File(if exists_ then 2 else 1, Whole(expected)) {
        return Raised(Refused(MarkerContentMismatch));
      }
      if exists_ && host.config.entries[Final] != host.config.entries[candidate] {
        return Raised(Refused(MarkerContentMismatch));
      }
      AfterUnlink(host.config, candidate);
      var _ :- host.OnConfig(Unlink(candidate));
      AfterSync(host.config, SyncFolder);
      var _ :- host.OnConfig(SyncFolder);
      return Done(());
    }

    method RecoverMarkerResidue(expected: string) returns (r: Outcome<()>)
      modifies host`config, host`faults
      ensures Follows(old(host.faults), host.faults, r)
      ensures !old(ViewOf(host.config)).Foreign? && Config in host.tree.dirs ==>
                var m, n := old(ViewOf(host.config)), ViewOf(host.config);
                && (n == m || (MarkerCleanable(m, expected) && n == BareMarker(m)))
                && (r.Done? ==> MarkerCleanable(m, expected) && n == BareMarker(m))
                && (r.Raised? && Calm(old(host.faults)) ==> !MarkerCleanable(m, expected))
                && (n == m && BareMarker(m) == m ==> host.config == old(host.config))
      ensures Config !in host.tree.dirs ==> r.Done? && host.config == old(host.config)
    {
      if Config !in host.tree.dirs {
        return Done(());
      }
      r := RecoverMarkerTemp(expected);
    }

    /** Create, write and sync the temporary file. */
    method DraftMarker(temp: Name, content: string) returns (r: Outcome<()>)
      requires temp.Temp?
      modifies host`config, host`faults
      ensures Follows(old(host.faults), host.faults, r)
      ensures old(ViewOf(host.config)).Empty? ==>
                var n := ViewOf(host.config);
                && n in {Empty, Draft(Torn), Draft(Whole(content))}
                && (n.Empty? || Temps(host.config) == {temp})
                && (r.Done? ==> n == Draft(Whole(content)) && host.config.entries[temp] !in host.config.stale)
                && (r.Raised? ==> r.error != FileExists && !Calm(old(host.faults)))
    {
      ghost var clear := ViewOf(host.config).Empty?;
      Reads(host.config);
      if temp !in host.config.entries { AfterOpen(host.config, temp); }
      var _ :- host.OnConfig(OpenExclusive(temp));
      if clear { AfterWrite(host.config, temp, content); }
      var _ :- host.OnConfig(Write(temp, content));
      AfterSync(host.config, SyncFile(temp));
      var _ :- host.OnConfig(SyncFile(temp));
      return Done(());
    }

    method LinkIntoPlace(temp: Name, content: string) returns (r: Outcome<()>)
      requires temp.Temp?
      modifies host`config, host`faults
      ensures Follows(old(host.faults), host.faults, r)
      ensures (Temps(old(host.config)) == {temp} && old(ViewOf(host.config)) == Draft(Whole(content))
               && old(host.config.entries[temp] !in host.config.stale)) ==>
                var n := ViewOf(host.config);
                && n in {Draft(Whole(content)), Linked(content)} && Temps(host.config) == {temp}
                && (r.Done? ==> n == Linked(content) && host.config.entries[Final] !in host.config.stale)
                && (r.Raised? ==> r.error != FileExists && !Calm(old(host.faults)))
    {
      hide ViewOf;
      if Temps(host.config) == {temp} && ViewOf(host.config) == Draft(Whole(content)) { AfterLink(host.config, temp); }
      Reads(host.config);
      var _ :- host.OnConfig(Link(temp, Final));
      AfterSync(host.config, SyncFolder);
      r := host.OnConfig(SyncFolder);
    }

    /** Link the temporary file into place and drop its temporary name. */
    method LinkMarker(temp: Name, content: string) returns (r: Outcome<()>)
      requires temp.Temp?
      modifies host`config, host`faults
      ensures Follows(old(host.faults), host.faults, r)
      ensures (Temps(old(host.config)) == {temp} && old(ViewOf(host.config)) == Draft(Whole(content))
               && old(host.config.entries[temp] !in host.config.stale)) ==>
                var n := ViewOf(host.config);
                && n in {Draft(Whole(content)), Linked(content), Published(content)}
                && (n.Published? || Temps(host.config) == {temp})
                && (r.Done? ==> n == Published(content) && MarkerDurable(host.config))
                && (r.Raised? ==> r.error != FileExists && !Calm(old(host.faults)))
    {
      hide ViewOf;
      var _ :- LinkIntoPlace(temp, content);
      if Temps(host.config) == {temp} { AfterUnlink(host.config, temp); }
      Reads(host.config);
      var _ :- host.OnConfig(Unlink(temp));
      AfterSync(host.config, SyncFolder);
      var _ :- host.OnConfig(SyncFolder);
      Reads(host.config);
      return ReadFile(content);
    }

    method WriteMarker(temp: Name, content: string) returns (r: Outcome<()>)
      requires temp.Temp?
      modifies host`config, host`faults
      ensures Follows(old(host.faults), host.faults, r)
      ensures old(ViewOf(host.config)).Empty? ==>
                var n := ViewOf(host.config);
                && n in {Empty, Draft(Torn), Draft(Whole(content)), Linked(content), Published(content)}
                && (n.Empty? || n.Published? || Temps(host.config) == {temp})
                && (r.Done? ==> n == Published(content) && MarkerDurable(host.config))
                && (r.Raised? ==> r.error != FileExists && !Calm(old(host.faults)))
    {
      var _ :- DraftMarker(temp, content);
      r := LinkMarker(temp, content);
    }

    method PublishMarker(content: string) returns (r: Outcome<()>)
      modifies host`config, host`faults
      ensures Follows(old(host.faults), host.faults, r)
      ensures !old(ViewOf(host.config)).Foreign? && BareMarker(old(ViewOf(host.config))).Empty? ==>
                var m, n := old(ViewOf(host.config)), ViewOf(host.config);
                && (n == m || n in {Empty, Draft(Torn), Draft(Whole(content)), Linked(content), Published(content)})
                && (r.Done? ==> n == Published(content) && MarkerDurable(host.config))
                && (r.Raised? && Calm(old(host.faults)) ==>
                      !MarkerCleanable(m, content) || Config !in host.tree.dirs || host.tree.dirs[Config] != M0755)
    {
      var _ :- ValidateDirectory(Config, M0755, None);
      var token: nat := *;
      var temp := Temp(token);
      r := RecoverMarkerTemp(content);
      if r.Done? {
        r := WriteMarker(temp, content);
      }
      if r == Raised(FileExists) {
        return Raised(Refused(ResourcePriorMismatch));
      }
      if r.Raised? {
        var removed := DropTemp(temp);
        if removed.Killed? {
          return Killed;
        }
      }
    }

    /** The handler of a failed publication: unlink and sync, ignoring errors. */
    method DropTemp(temp: Name) returns (r: Outcome<()>)
      requires temp.Temp?
      modifies host`config, host`faults
      ensures Follows(old(host.faults), host.faults, r)
      ensures !r.Raised?
      ensures !old(ViewOf(host.config)).Foreign? ==>
                ViewOf(host.config) == old(ViewOf(host.config))
                || ViewOf(host.config) == BareMarker(old(ViewOf(host.config)))
                || (old(ViewOf(host.config)).Pending?
                    && ViewOf(host.config) == Published(old(ViewOf(host.config)).value))
    {
      hide ViewOf;
      Reads(host.config);
      if temp in host.config.entries {
        OneTemp(host.config, temp);
        if !ViewOf(host.config).Foreign? { AfterUnlink(host.config, temp); }
      }
      var removed := host.OnConfig(Unlink(temp));
      if removed.Done? {
        AfterSync(host.config, SyncFolder);
        removed := host.OnConfig(SyncFolder);
      }
      return if removed.Killed? then Killed else Done(());
    }

    method RemoveMarker(expected: string) returns (r: Outcome<()>)
      modifies host`config, host`faults
      ensures Follows(old(host.faults), host.faults, r)
      ensures old(ViewOf(host.config)) == Published(expected) ==>
                var n := ViewOf(host.config);
                && (n.Empty? || n == Published(expected))
                && (r.Done? ==> n.Empty? && host.config.loose == {})
                && (r.Raised? ==> !Calm(old(host.faults)))
    {
      Reads(host.config);
      var _ :- ReadFile(expected);
      if ViewOf(host.config).Published? { AfterUnlinkFinal(host.config); }
      var _ :- host.OnConfig(Unlink(Final));
      AfterSync(host.config, SyncFolder);
      var _ :- host.OnConfig(SyncFolder);
      return Done(());
    }
  }
}
