/** Publishing staged template directories: rename without replacing, or recognise the tree that is already there. */
module TreePublication {
  import opened Errors
  import opened Outcomes

  type Bytes = seq<bv8>
  type Name = string
  type Path = seq<Name>

  datatype Meta = Meta(uid: nat, gid: nat, mode: nat, links: nat)

  /** `Other` is a symbolic link or a special file. */
  datatype Tree =
    | File(meta: Meta, contents: Bytes)
    | Directory(meta: Meta, size: nat, children: map<Name, Tree>)
    | Other(meta: Meta)

  // ---- a tree by its paths

  function At(t: Tree, path: Path): Option<Tree> {
    if path == [] then Some(t)
    else if t.Directory? && path[0] in t.children then At(t.children[path[0]], path[1..])
    else None
  }

  /** Directories and regular files all the way down. */
  ghost predicate Plain(t: Tree) {
    forall path :: At(t, path).Some? ==> !At(t, path).value.Other?
  }

  datatype Kind = Regular | Folder | Special

  datatype Stat = Stat(kind: Kind, meta: Meta, size: nat)

  /** What lstat reports and the comparison looks at. */
  function StatOf(t: Tree): Stat {
    match t
    case File(meta, contents) => Stat(Regular, meta, |contents|)
    case Directory(meta, size, _) => Stat(Folder, meta, size)
    case Other(meta) => Stat(Special, meta, 0)
  }

  /** The flat map of everything below a directory. */
  ghost predicate Flattens(entries: map<Path, Stat>, t: Tree) {
    && (forall path :: path in entries <==> path != [] && At(t, path).Some?)
    && (forall path :: path in entries ==> entries[path] == StatOf(At(t, path).value))
  }

  /** The entries of a child, seen from its parent. */
  function Below(name: Name, entries: map<Path, Stat>): (r: map<Path, Stat>)
    ensures forall path :: path in r <==> path != [] && path[0] == name && path[1..] in entries
    ensures forall path :: path in r ==> r[path] == entries[path[1..]]
  {
    var paths := set path | path in entries :: [name] + path;
    assert forall path :: path in paths ==> path[0] == name && path[1..] in entries by {
      forall path | path in paths ensures path[0] == name && path[1..] in entries {
        var p :| p in entries && path == [name] + p;
        assert path[1..] == p;
      }
    }
    assert forall path: Path :: path != [] && path[0] == name && path[1..] in entries ==> path in paths by {
      forall path: Path | path != [] && path[0] == name && path[1..] in entries ensures path in paths {
        assert path == [name] + path[1..];
      }
    }
    map path | path in paths :: entries[path[1..]]
  }

  lemma NotPlain(t: Tree, name: Name)
    requires t.Directory? && name in t.children && !Plain(t.children[name])
    ensures !Plain(t)
  {
    var path :| At(t.children[name], path).Some? && At(t.children[name], path).value.Other?;
    assert ([name] + path)[1..] == path;
    assert At(t, [name] + path) == At(t.children[name], path);
  }

  /** The part of the flat map that comes from the children already visited. */
  ghost predicate FlattensBut(entries: map<Path, Stat>, t: Tree, left: set<Name>) {
    && (forall path :: path in entries <==> path != [] && path[0] !in left && At(t, path).Some?)
    && (forall path :: path in entries ==> entries[path] == StatOf(At(t, path).value))
  }

  ghost predicate PlainBut(t: Tree, left: set<Name>)
    requires t.Directory?
  {
    forall name :: name in t.children && name !in left ==> Plain(t.children[name])
  }

  lemma FlattenOne(entries: map<Path, Stat>, t: Tree, left: set<Name>, name: Name, below: map<Path, Stat>)
    requires t.Directory? && name in left && left <= t.children.Keys && FlattensBut(entries, t, left)
    requires if t.children[name].Directory? then Flattens(below, t.children[name]) else below == map[]
    ensures FlattensBut(entries[[name] := StatOf(t.children[name])] + Below(name, below), t, left - {name})
  {
    var child := t.children[name];
    var more := entries[[name] := StatOf(child)] + Below(name, below);
    forall path ensures path in more <==> path != [] && path[0] !in left - {name} && At(t, path).Some? {
      if path != [] && path[0] == name {
        assert At(t, path) == At(child, path[1..]);
        assert path[1..] == [] ==> path == [name];
      }
    }
    forall path | path in more ensures more[path] == StatOf(At(t, path).value) {
      if path[0] == name {
        assert At(t, path) == At(child, path[1..]);
        assert path[1..] == [] ==> path == [name];
      }
    }
  }

  /** The walk over a directory: the flat map, or nothing at all where it meets anything but directories and files. */
  method Entries(t: Tree) returns (r: Option<map<Path, Stat>>)
    requires t.Directory?
    ensures r.Some? <==> Plain(t)
    ensures r.Some? ==> Flattens(r.value, t)
    decreases t
  {
    hide Plain, Flattens, FlattensBut;
    var entries: map<Path, Stat> := map[];
    var left := t.children.Keys;
    NothingYet(t);
    while left != {}
      invariant left <= t.children.Keys && FlattensBut(entries, t, left) && PlainBut(t, left)
      decreases left
    {
      var name :| name in left;
      var child := t.children[name];
      if !child.Directory? { LeafPlain(child); }
      if child.Other? {
        NotPlain(t, name);
        return None;
      }
      var below: map<Path, Stat> := map[];
      if child.Directory? {
        var walked := Entries(child);
        if walked.None? {
          NotPlain(t, name);
          return None;
        }
        below := walked.value;
      }
      FlattenOne(entries, t, left, name, below);
      entries := entries[[name] := StatOf(child)] + Below(name, below);
      left := left - {name};
    }
    AllFlat(entries, t);
    return Some(entries);
  }

  lemma LeafPlain(t: Tree)
    requires !t.Directory?
    ensures Plain(t) <==> t.File?
  {
    assert At(t, []) == Some(t);
  }

  lemma NothingYet(t: Tree)
    requires t.Directory?
    ensures FlattensBut(map[], t, t.children.Keys)
  {
  }

  lemma AllFlat(entries: map<Path, Stat>, t: Tree)
    requires t.Directory? && FlattensBut(entries, t, {}) && PlainBut(t, {})
    ensures Plain(t) && Flattens(entries, t)
  {
    forall path | At(t, path).Some? ensures !At(t, path).value.Other? {
      if path != [] {
        assert At(t, path) == At(t.children[path[0]], path[1..]);
        assert Plain(t.children[path[0]]);
      }
    }
  }

  // ---- comparing two trees

  const READ_SIZE := 1_048_576

  /** One read from a file at `offset`. */
  function ReadAt(contents: Bytes, offset: nat): Bytes
    requires offset <= |contents|
  {
    if |contents| - offset <= READ_SIZE then contents[offset..] else contents[offset..offset + READ_SIZE]
  }

  method FilesEqual(first: Bytes, second: Bytes) returns (equal: bool)
    ensures equal <==> first == second
  {
    var offset := 0;
    while true
      invariant offset <= |first| && offset <= |second| && first[..offset] == second[..offset]
      decreases |first| - offset
    {
      var left, right := ReadAt(first, offset), ReadAt(second, offset);
      if left != right {
        return false;
      }
      if left == [] {
        assert first == first[..offset] && second == second[..offset];
        return true;
      }
      assert first[..offset + |left|] == first[..offset] + left
             && second[..offset + |left|] == second[..offset] + right;
      offset := offset + |left|;
    }
  }

  /** At every path, the same status, and the same contents where it is a file. */
  ghost predicate SamePaths(a: Tree, b: Tree) {
    forall path ::
      && (At(a, path).Some? <==> At(b, path).Some?)
      && (At(a, path).Some? ==> SameHere(At(a, path).value, At(b, path).value))
  }

  predicate SameHere(a: Tree, b: Tree) {
    StatOf(a) == StatOf(b) && (a.File? ==> b.File? && a.contents == b.contents)
  }

  /** The flat comparison is the comparison of trees. */
  lemma {:induction false} SamePathsSameTree(a: Tree, b: Tree)
    requires SamePaths(a, b)
    ensures a == b
    decreases a
  {
    assert At(a, []) == Some(a) && At(b, []) == Some(b);
    assert SameHere(a, b);
    if a.Directory? {
      forall name ensures name in a.children <==> name in b.children {
        assert At(a, [name]).Some? <==> name in a.children;
        assert At(b, [name]).Some? <==> name in b.children;
      }
      forall name | name in a.children ensures a.children[name] == b.children[name] {
        SubtreesSame(a, b, name);
        SamePathsSameTree(a.children[name], b.children[name]);
      }
      assert a.children == b.children;
    }
  }

  lemma SubtreesSame(a: Tree, b: Tree, name: Name)
    requires SamePaths(a, b) && a.Directory? && b.Directory? && name in a.children && name in b.children
    ensures SamePaths(a.children[name], b.children[name])
  {
    forall path
      ensures At(a.children[name], path) == At(a, [name] + path) && At(b.children[name], path) == At(b, [name] + path) {
      assert ([name] + path)[1..] == path;
    }
  }

  function ContentsAt(t: Tree, path: Path): Bytes {
    var node := At(t, path);
    if node.Some? && node.value.File? then node.value.contents else []
  }

  /** The comparison by flat maps and file contents is exactly equality of trees of directories and files. */
  method TreesEqual(first: Tree, second: Tree) returns (equal: bool)
    ensures equal <==> first == second && first.Directory? && Plain(first)
  {
    hide Plain, Flattens;
    if !first.Directory? || !second.Directory? {
      return false;
    }
    var firstEntries := Entries(first);
    if firstEntries.None? {
      return false;
    }
    var secondEntries := Entries(second);
    if secondEntries.None? {
      return false;
    }
    var a, b := firstEntries.value, secondEntries.value;
    EqualTreesEqualMaps(first, second, a, b);
    if StatOf(first) != StatOf(second) || a.Keys != b.Keys {
      return false;
    }
    var left := a.Keys;
    while left != {}
      invariant left <= a.Keys
      invariant forall path :: path in a && path !in left ==>
                  a[path] == b[path] && ContentsAt(first, path) == ContentsAt(second, path)
      decreases left
    {
      var path :| path in left;
      left := left - {path};
      if a[path] != b[path] {
        return false;
      }
      if a[path].kind == Regular {
        var same := FilesEqual(ContentsAt(first, path), ContentsAt(second, path));
        if !same {
          return false;
        }
      } else {
        NoContents(first, a, path);
        NoContents(second, b, path);
      }
    }
    EqualMapsEqualTrees(first, second, a, b);
    return true;
  }

  lemma EqualTreesEqualMaps(first: Tree, second: Tree, a: map<Path, Stat>, b: map<Path, Stat>)
    requires Flattens(a, first) && Flattens(b, second)
    ensures first == second ==> a == b
  {
  }

  lemma NoContents(t: Tree, entries: map<Path, Stat>, path: Path)
    requires Flattens(entries, t) && path in entries && entries[path].kind != Regular
    ensures ContentsAt(t, path) == []
  {
  }

  lemma EqualMapsEqualTrees(first: Tree, second: Tree, a: map<Path, Stat>, b: map<Path, Stat>)
    requires Flattens(a, first) && Flattens(b, second) && first.Directory? && second.Directory?
             && StatOf(first) == StatOf(second)
    requires a == b && forall path :: path in a ==> ContentsAt(first, path) == ContentsAt(second, path)
    ensures first == second
  {
    forall path ensures (At(first, path).Some? <==> At(second, path).Some?)
                && (At(first, path).Some? ==> SameHere(At(first, path).value, At(second, path).value)) {
      if path != [] {
        assert path in a <==> At(first, path).Some?;
        assert path in b <==> At(second, path).Some?;
      }
    }
    SamePathsSameTree(first, second);
  }

  // ---- publication

  datatype Trouble =
    | Exit65    // the program's own refusal
    | OsError

  predicate Distinct(names: seq<Name>) {
    forall i, j :: 0 <= i < j < |names| ==> names[i] != names[j]
  }

  predicate ValidName(name: Name) {
    name != "" && name != "." && name != ".." && '/' !in name
  }

  function NameSet(names: seq<Name>): set<Name> {
    set name | name in names
  }

  /** Every name can be published: its staged tree is plain, and its target is absent or equal. */
  ghost predicate Publishable(stage: map<Name, Tree>, target: map<Name, Tree>, names: seq<Name>) {
    forall name :: name in names ==>
      && name in stage && stage[name].Directory? && Plain(stage[name])
      && (name in target ==> target[name] == stage[name])
  }

  /** The targets may only have gained staged trees, each under its own name. */
  ghost predicate Gains(before: map<Name, Tree>, after: map<Name, Tree>, stage: map<Name, Tree>) {
    && (forall name :: name in before ==> name in after && after[name] == before[name])
    && (forall name :: name in after && name !in before ==> name in stage && after[name] == stage[name])
  }

  /**
   * Trees were moved from the staging to the target directory, under names among `names`, and nothing else happened.
   */
  ghost predicate Moved(stage: map<Name, Tree>, before: map<Name, Tree>, source: map<Name, Tree>,
                        target: map<Name, Tree>, names: set<Name>) {
    && Gains(before, target, stage) && target.Keys <= before.Keys + names && source.Keys <= stage.Keys
    && forall name :: name in stage ==>
         if name in source then source[name] == stage[name]
         else name in names && name in target && target[name] == stage[name]
  }

  lemma MovedTwice(stage: map<Name, Tree>, before: map<Name, Tree>, source: map<Name, Tree>, target: map<Name, Tree>,
                   names: set<Name>, later: map<Name, Tree>, after: map<Name, Tree>, name: Name)
    requires Moved(stage, before, source, target, names) && Moved(source, target, later, after, {name})
    ensures Moved(stage, before, later, after, names + {name})
  {
  }

  /** Whether a name can be published does not depend on what happened to the others. */
  lemma OthersIgnored(stage: map<Name, Tree>, before: map<Name, Tree>, source: map<Name, Tree>, target: map<Name, Tree>,
                      names: set<Name>, name: Name)
    requires Moved(stage, before, source, target, names) && name !in names && name in stage
    ensures name in source && Publishable(source, target, [name]) == Publishable(stage, before, [name])
  {
    hide Plain;
  }

  lemma PublishableSplit(stage: map<Name, Tree>, before: map<Name, Tree>, names: seq<Name>, k: nat)
    requires k < |names|
    ensures Publishable(stage, before, names[..k + 1]) <==>
              Publishable(stage, before, names[..k]) && Publishable(stage, before, [names[k]])
    ensures !Publishable(stage, before, names[..k + 1]) ==> !Publishable(stage, before, names)
  {
    hide Plain;
    assert names[..k + 1] == names[..k] + [names[k]];
    assert names[k] in [names[k]];
    assert forall name :: name in names[..k + 1] ==> name in names;
  }

  /** The staging and the target directory, which lie on one device or not. */
  class Publisher {
    var source: map<Name, Tree>
    var target: map<Name, Tree>
    const sameDevice: bool
    var faults: seq<Fault>
    /** Staged trees of which every file and directory has been fsynced. */
    ghost var synced: set<Name>
    /** The target directory was fsynced after its last change. */
    ghost var settled: bool

    constructor (stage: map<Name, Tree>, target: map<Name, Tree>, sameDevice: bool)
      ensures source == stage && this.target == target && this.sameDevice == sameDevice && faults == [] && synced == {}
              && settled
    {
      source, this.target, this.sameDevice, faults, synced, settled := stage, target, sameDevice, [], {}, true;
    }

    method Next() returns (r: Result<(), Trouble>)
      modifies this`faults
      ensures old(faults) == [] ==> faults == [] && r.Done?
      ensures r.Raised? ==> r.error == OsError
    {
      r := Done(());
      if faults != [] {
        r := match faults[0] case Pass => Done(()) case Fail => Raised(OsError) case Kill => Killed;
        faults := faults[1..];
      }
    }

    /** Every file and directory of a staged tree is fsynced; anything else in it makes this fail. */
    method SyncTree(name: Name) returns (r: Result<(), Trouble>)
      requires name in source
      modifies this`faults, this`synced
      ensures r.Done? ==> source[name].Directory? && Plain(source[name]) && synced == old(synced) + {name}
      ensures !r.Done? ==> synced == old(synced)
      ensures old(faults) == [] ==> faults == [] && !r.Killed?
      ensures old(faults) == [] ==> (r.Done? <==> source[name].Directory? && Plain(source[name]))
    {
      var _ :- Next();
      if !source[name].Directory? {
        return Raised(OsError);
      }
      var walked := Entries(source[name]);
      if walked.None? {
        return Raised(Exit65);
      }
      synced := synced + {name};
      return Done(());
    }

    /** Rename to a name that must not exist; false if it does. */
    method RenameNoReplace(name: Name) returns (r: Result<bool, Trouble>)
      requires name in source
      modifies this`faults, this`source, this`target, this`settled
      ensures r.Done? ==> (r.value <==> name !in old(target))
      ensures if r == Done(true) then source == old(source) - {name} && target == old(target)[name := old(source)[name]]
              else source == old(source) && target == old(target) && settled == old(settled)
      ensures old(faults) == [] ==> faults == [] && r.Done?
    {
      var _ :- Next();
      if name in target {
        return Done(false);
      }
      source, target, settled := source - {name}, target[name := source[name]], false;
      return Done(true);
    }

    method SyncTarget() returns (r: Result<(), Trouble>)
      modifies this`faults, this`settled
      ensures if r.Done? then settled else settled == old(settled)
      ensures old(faults) == [] ==> faults == [] && r.Done?
    {
      var _ :- Next();
      settled := true;
      return Done(());
    }

    /** One name: its tree is moved to the target, or was there already. */
    method PublishOne(name: Name) returns (r: Result<(), Trouble>)
      requires name in source
      modifies this`faults, this`source, this`target, this`synced, this`settled
      ensures Moved(old(source), old(target), source, target, {name})
      ensures (name in target && name !in old(target) ==> name in synced) && old(synced) <= synced
      ensures r.Done? ==> name in target && target[name] == old(source)[name] && settled
      ensures r.Done? ==> Publishable(old(source), old(target), [name])
      ensures old(faults) == [] ==>
                faults == [] && !r.Killed? && (r.Done? <==> Publishable(old(source), old(target), [name]))
    {
      hide Plain;
      var _ :- SyncTree(name);
      var renamed := RenameNoReplace(name);
      if renamed.Killed? {
        return Killed;
      }
      if renamed.Raised? {
        return Raised(Exit65);
      }
      if !renamed.value {
        var equal := TreesEqual(source[name], target[name]);
        if !equal {
          return Raised(Exit65);
        }
      }
      r := SyncTarget();
    }

    method PublishAll(names: seq<Name>) returns (r: Result<(), Trouble>)
      requires Distinct(names) && source.Keys == NameSet(names)
      modifies this`faults, this`source, this`target, this`synced, this`settled
      ensures Moved(old(source), old(target), source, target, NameSet(names))
      ensures target.Keys - old(target).Keys <= synced
      ensures r.Done? ==> settled && Holds(target, old(source), names)
      ensures old(faults) == [] ==> faults == [] && !r.Killed?
      ensures old(faults) == [] ==> (r.Done? <==> Publishable(old(source), old(target), names))
    {
      ghost var stage, before := source, target;
      hide Moved, Publishable, Plain, Holds;
      Beginning(stage, before);
      assert names[..0] == [] && NameSet(names[..0]) == {};
      for k := 0 to |names|
        invariant Moved(stage, before, source, target, NameSet(names[..k])) && Publishable(stage, before, names[..k])
        invariant Holds(target, stage, names[..k]) && target.Keys - before.Keys <= synced
        invariant old(faults) == [] ==> faults == []
      {
        var name := names[k];
        Grow(names, k);
        OthersIgnored(stage, before, source, target, NameSet(names[..k]), name);
        PublishableSplit(stage, before, names, k);
        ghost var source0, target0 := source, target;
        hide Distinct;
        var one := PublishOne(name);
        MovedTwice(stage, before, source0, target0, NameSet(names[..k]), source, target, name);
        GainedOne(source0, target0, source, target, name);
        if !one.Done? {
          MovedWithin(stage, before, source, target, NameSet(names[..k + 1]), NameSet(names));
          return one;
        }
        HoldsNext(stage, before, source0, target0, source, target, NameSet(names[..k]), names[..k], name);
      }
      assert names[..|names|] == names;
      r := SyncTarget();
    }

    /** All the names in turn. It stops at the first that cannot be published, and can be stopped anywhere. */
    method Publish(names: seq<Name>) returns (r: Result<(), Trouble>)
      modifies this`faults, this`source, this`target, this`synced, this`settled
      ensures Moved(old(source), old(target), source, target, NameSet(names))
      ensures target.Keys - old(target).Keys <= synced
      ensures r.Done? ==> settled && Holds(target, old(source), names)
      ensures old(faults) == [] ==> faults == [] && !r.Killed?
      ensures old(faults) == [] ==>
                (r.Done? <==> Admitted(names, old(source), sameDevice) && Publishable(old(source), old(target), names))
    {
      hide Publishable, Holds;
      if !Distinct(names) || !(forall name :: name in names ==> ValidName(name)) || source.Keys != NameSet(names)
         || !sameDevice {
        return Raised(Exit65);
      }
      r := PublishAll(names);
    }
  }

  lemma Grow(names: seq<Name>, k: nat)
    requires k < |names| && Distinct(names)
    ensures names[..k + 1] == names[..k] + [names[k]] && names[k] !in NameSet(names[..k])
    ensures NameSet(names[..k + 1]) == NameSet(names[..k]) + {names[k]} && NameSet(names[..k + 1]) <= NameSet(names)
  {
  }

  /** Every name holds its staged tree. */
  ghost predicate Holds(target: map<Name, Tree>, stage: map<Name, Tree>, names: seq<Name>) {
    forall name :: name in names ==> name in target && name in stage && target[name] == stage[name]
  }

  lemma Beginning(stage: map<Name, Tree>, before: map<Name, Tree>)
    ensures Moved(stage, before, stage, before, {}) && Publishable(stage, before, []) && Holds(before, stage, [])
  {
  }

  lemma HoldsNext(stage: map<Name, Tree>, before: map<Name, Tree>, source: map<Name, Tree>, target: map<Name, Tree>,
                  later: map<Name, Tree>, after: map<Name, Tree>, moved: set<Name>, names: seq<Name>, name: Name)
    requires Moved(stage, before, source, target, moved) && Moved(source, target, later, after, {name})
    requires Holds(target, stage, names) && name in stage && name in source && name in after
             && after[name] == source[name]
    ensures Holds(after, stage, names + [name])
  {
  }

  lemma GainedOne(stage: map<Name, Tree>, before: map<Name, Tree>, source: map<Name, Tree>, target: map<Name, Tree>,
                  name: Name)
    requires Moved(stage, before, source, target, {name})
    ensures target.Keys - before.Keys <= {name}
  {
  }

  lemma MovedWithin(stage: map<Name, Tree>, before: map<Name, Tree>, source: map<Name, Tree>, target: map<Name, Tree>,
                    names: set<Name>, more: set<Name>)
    requires Moved(stage, before, source, target, names) && names <= more
    ensures Moved(stage, before, source, target, more)
  {
  }

  /** What is asked of the names and the staging directory before anything is done. */
  predicate Admitted(names: seq<Name>, stage: map<Name, Tree>, sameDevice: bool) {
    Distinct(names) && (forall name :: name in names ==> ValidName(name)) && stage.Keys == NameSet(names) && sameDevice
  }

  // ---- starting over

  lemma StillPublishable(stage: map<Name, Tree>, before: map<Name, Tree>, after: map<Name, Tree>, names: seq<Name>)
    requires Gains(before, after, stage)
    ensures Publishable(stage, after, names) <==> Publishable(stage, before, names)
  {
    hide Plain;
  }

  /**
   * The same trees staged again and again, each publication stopped anywhere. One that is left alone then succeeds
   * exactly if the very first one would have, and the targets come out the same.
   */
  method Restart(stage: map<Name, Tree>, before: map<Name, Tree>, names: seq<Name>, sameDevice: bool,
                 runs: seq<seq<Fault>>)
    returns (p: Publisher, r: Result<(), Trouble>)
    ensures !r.Killed? && (r.Done? <==> Admitted(names, stage, sameDevice) && Publishable(stage, before, names))
    ensures Gains(before, p.target, stage)
    ensures r.Done? ==> p.target == before + stage && p.settled
  {
    hide Publishable, Admitted;
    p := new Publisher(stage, before, sameDevice);
    for k := 0 to |runs|
      invariant fresh(p) && Gains(before, p.target, stage)
    {
      p.source, p.faults := stage, runs[k];
      var _ := p.Publish(names);
    }
    p.source, p.faults := stage, [];
    StillPublishable(stage, before, p.target, names);
    r := p.Publish(names);
    if r.Done? {
      AllStaged(stage, before, p.target, names, sameDevice);
    }
  }

  lemma AllStaged(stage: map<Name, Tree>, before: map<Name, Tree>, target: map<Name, Tree>, names: seq<Name>,
                  sameDevice: bool)
    requires Admitted(names, stage, sameDevice) && Gains(before, target, stage) && Holds(target, stage, names)
    ensures target == before + stage
  {
  }
}
