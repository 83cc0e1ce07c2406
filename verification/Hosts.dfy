/** The machine the installer runs on: five directories, the files of two of them, and the faults still to come. */
module Hosts {
  import opened Errors
  import opened Folders
  import opened JournalRecords
  import opened Outcomes
  import opened PowerLoss

  datatype Mode = M0700 | M0755 | OtherMode

  datatype Dir = StateRoot | JournalRoot | Config | Experiments | Workspace

  datatype Place = Etc | VarLib | In(dir: Dir)

  function Parent(d: Dir): Place {
    match d
    case StateRoot => VarLib
    case JournalRoot => In(StateRoot)
    case Config => Etc
    case Experiments => In(StateRoot)
    case Workspace => In(Experiments)
  }

  /** `loose`: names changed since their parent was fsynced. `unsettled`: directories changed since their own fsync. */
  datatype Tree = Tree(dirs: map<Dir, Mode>, loose: set<Dir>, unsettled: set<Dir>)

  datatype TreeCall =
    | MakeDir(dir: Dir)
    | ChangeMode(dir: Dir, mode: Mode)
    | RemoveDir(dir: Dir)
    | SyncPlace(place: Place)

  predicate Exists(t: Tree, p: Place) {
    p.In? ==> p.dir in t.dirs
  }

  function Children(t: Tree, d: Dir): set<Dir> {
    set c | c in t.dirs && Parent(c) == In(d)
  }

  /** The names that are not entries of `p`. */
  function Elsewhere(names: set<Dir>, p: Place): set<Dir> {
    set c | c in names && Parent(c) != p
  }

  /** Names removed since their parent was last synced. */
  function Gone(t: Tree): set<Dir> {
    t.loose - t.dirs.Keys
  }

  /** The effect of one system call; `occupied` are the directories that hold files. */
  function ApplyTree(t: Tree, occupied: set<Dir>, call: TreeCall): Outcome<Tree> {
    match call
    case MakeDir(d) =>
      if d in t.dirs then Raised(FileExists)
      else if !Exists(t, Parent(d)) then Raised(FileMissing)
      else Done(Tree(t.dirs[d := M0700], t.loose + {d}, t.unsettled + {d}))
    case ChangeMode(d, mode) =>
      if d !in t.dirs then Raised(FileMissing)
      else Done(t.(dirs := t.dirs[d := mode], unsettled := t.unsettled + {d}))
    case RemoveDir(d) =>
      if d !in t.dirs then Raised(FileMissing)
      else if d in occupied || Children(t, d) != {} then Raised(InputOutput)
      else Done(t.(dirs := t.dirs - {d}, loose := t.loose + {d}))
    case SyncPlace(p) =>
      if !Exists(t, p) then Raised(FileMissing)
      else Done(t.(loose := Elsewhere(t.loose, p), unsettled := if p.In? then t.unsettled - {p.dir} else t.unsettled))
  }

  // ---- the write-ahead rule

  /** No resource directory exists unless every journal record that may survive a loss of power says applying. */
  ghost predicate WroteAhead(t: Tree, j: Journal) {
    Config in t.dirs ==> Ahead(j)
  }

  class Host {
    var tree: Tree
    var journal: Folder<JournalRecord>
    var config: Folder<string>
    var faults: seq<Fault>
    /** After some step of the current run, and so for a kill right after it, the write-ahead rule did not hold. */
    ghost var broken: bool

    constructor ()
      ensures tree == Tree(map[], {}, {})
      ensures journal == Folder(map[], [], {}, {}, {None}) && config == Folder(map[], [], {}, {}, {None})
      ensures faults == [] && !broken
    {
      tree := Tree(map[], {}, {});
      journal, config := Folder(map[], [], {}, {}, {None}), Folder(map[], [], {}, {}, {None});
      faults, broken := [], false;
    }

    /** The rule holds, or that it did not was noticed. */
    ghost predicate Marked()
      reads this`tree, this`journal, this`broken
    {
      broken || WroteAhead(tree, journal)
    }

    /** Nothing noticed is forgotten, and nothing escapes notice. */
    ghost predicate Watched(wasBroken: bool, wasMarked: bool)
      reads this`tree, this`journal, this`broken
    {
      (wasBroken ==> broken) && (wasMarked ==> Marked())
    }

    function Occupied(): set<Dir>
      reads this
    {
      (if journal.entries == map[] then {} else {JournalRoot}) + (if config.entries == map[] then {} else {Config})
    }

    method Next() returns (r: Outcome<()>)
      modifies this`faults
      ensures Follows(old(faults), faults, r)
      ensures r.Raised? ==> r.error == InputOutput && !Calm(old(faults))
    {
      r := Done(());
      if faults != [] {
        r := match faults[0] case Pass => Done(()) case Fail => Raised(InputOutput) case Kill => Killed;
        faults := faults[1..];
      }
    }

    method OnTree(call: TreeCall) returns (r: Outcome<()>)
      modifies this`tree, this`faults, this`broken
      ensures Follows(old(faults), faults, r)
      ensures broken == (old(broken) || (r.Done? && !WroteAhead(tree, journal)))
      ensures r.Done? ==> ApplyTree(old(tree), Occupied(), call) == Done(tree)
      ensures !r.Done? ==> tree == old(tree)
      ensures r.Raised? ==>
                ApplyTree(old(tree), Occupied(), call) == Raised(r.error)
                || (r.error == InputOutput && !Calm(old(faults)))
    {
      var _ :- Next();
      tree :- ApplyTree(tree, Occupied(), call);
      broken := broken || !WroteAhead(tree, journal);
      return Done(());
    }

    method OnJournal(call: Call<JournalRecord>) returns (r: Outcome<()>)
      modifies this`journal, this`faults, this`broken
      ensures Follows(old(faults), faults, r)
      ensures broken == (old(broken) || (r.Done? && !WroteAhead(tree, journal)))
      ensures r.Done? ==> Apply(old(journal), call) == Done(journal)
      ensures !r.Done? ==> journal == old(journal)
      ensures r.Raised? ==>
                Apply(old(journal), call) == Raised(r.error) || (r.error == InputOutput && !Calm(old(faults)))
    {
      var _ :- Next();
      journal :- Apply(journal, call);
      broken := broken || !WroteAhead(tree, journal);
      return Done(());
    }

    method OnConfig(call: Call<string>) returns (r: Outcome<()>)
      modifies this`config, this`faults
      ensures Follows(old(faults), faults, r)
      ensures r.Done? ==> Apply(old(config), call) == Done(config)
      ensures !r.Done? ==> config == old(config)
      ensures r.Raised? ==>
                Apply(old(config), call) == Raised(r.error) || (r.error == InputOutput && !Calm(old(faults)))
    {
      var _ :- Next();
      config :- Apply(config, call);
      return Done(());
    }
  }
}
