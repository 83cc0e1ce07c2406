/**
 * One directory of small files, as the kernel keeps it: names, inodes with link counts, and what is not yet on disk.
 */
module Folders {
  import opened Errors
  import opened Outcomes

  /** A file's bytes: all of them, or some proper prefix left by an interrupted write. */
  datatype Text<+T> = Torn | Whole(value: T)

  datatype File<+T> = File(links: nat, text: Text<T>)

  /** The published name, and the temporary names beside it with their random suffix. */
  datatype Name = Final | Temp(token: nat)

  /**
   * `loose`: names changed since the directory was last fsynced. `stale`: inodes changed since their last fsync.
   * `kept`: what the published name was bound to at any time since the directory was last fsynced.
   */
  datatype RawFolder<T> = Folder(
    entries: map<Name, nat>, inodes: seq<File<T>>, loose: set<Name>, stale: set<nat>, kept: set<Option<nat>>)

  predicate Sound<T>(f: RawFolder<T>) {
    forall n :: n in f.entries ==> f.entries[n] < |f.inodes|
  }

  type Folder<T> = f: RawFolder<T> | Sound(f) witness Folder(map[], [], {}, {}, {None})

  datatype Call<+T> =
    | OpenExclusive(name: Name)
    | Write(name: Name, value: T)
    | SyncFile(name: Name)
    | Link(source: Name, target: Name)
    | Unlink(name: Name)
    | Rename(source: Name, target: Name)
    | SyncFolder

  function FileAt<T>(f: Folder<T>, name: Name): File<T>
    requires name in f.entries
  {
    f.inodes[f.entries[name]]
  }

  function Relink<T>(inodes: seq<File<T>>, ino: nat, change: int): seq<File<T>>
    requires ino < |inodes|
  {
    var file := inodes[ino];
    inodes[ino := file.(links := if file.links + change < 0 then 0 else file.links + change)]
  }

  /** The inode of the published name. */
  function Bound(entries: map<Name, nat>): Option<nat> {
    if Final in entries then Some(entries[Final]) else None
  }

  /** The effect of one system call. */
  function Apply<T>(f: Folder<T>, call: Call<T>): Outcome<Folder<T>> {
    match Effect(f, call)
    case Done(g) => Done(g.(kept := if call.SyncFolder? then {Bound(g.entries)} else f.kept + {Bound(g.entries)}))
    case Raised(error) => Raised(error)
    case Killed => Killed
  }

  function Effect<T>(f: Folder<T>, call: Call<T>): Outcome<Folder<T>> {
    match call
    case OpenExclusive(name) =>
      if name in f.entries then Raised(FileExists)
      else Done(Folder(f.entries[name := |f.inodes|], f.inodes + [File(1, Torn)],
                       f.loose + {name}, f.stale + {|f.inodes|}, f.kept))
    case Write(name, value) =>
      if name !in f.entries then Raised(FileMissing)
      else
        var ino := f.entries[name];
        Done(f.(inodes := f.inodes[ino := f.inodes[ino].(text := Whole(value))], stale := f.stale + {ino}))
    case SyncFile(name) =>
      if name !in f.entries then Raised(FileMissing)
      else Done(f.(stale := f.stale - {f.entries[name]}))
    case Link(source, target) =>
      if source !in f.entries then Raised(FileMissing)
      else if target in f.entries then Raised(FileExists)
      else
        var ino := f.entries[source];
        Done(f.(entries := f.entries[target := ino], inodes := Relink(f.inodes, ino, 1), loose := f.loose + {target}))
    case Unlink(name) =>
      if name !in f.entries then Raised(FileMissing)
      else
        Done(f.(entries := f.entries - {name}, inodes := Relink(f.inodes, f.entries[name], -1),
                loose := f.loose + {name}))
    case Rename(source, target) =>
      if source !in f.entries then Raised(FileMissing)
      else if target in f.entries && f.entries[source] == f.entries[target] then Done(f)
      else
        var inodes := if target in f.entries then Relink(f.inodes, f.entries[target], -1) else f.inodes;
        Done(f.(entries := f.entries[target := f.entries[source]] - {source}, inodes := inodes,
                loose := f.loose + {source, target}))
    case SyncFolder => Done(f.(loose := {}))
  }

  function Temps<T>(f: Folder<T>): set<Name> {
    set n | n in f.entries && n.Temp?
  }

  /** What a directory that publishes one file through temporary names can look like. */
  datatype View<+T> =
    | Empty
    | Draft(text: Text<T>)                   // one temporary file, nothing published
    | Published(value: T)
    | Linked(value: T)                       // published, and the temporary name of the same inode still there
    | Pending(value: T, text: Text<T>)       // published, beside one unrelated temporary file
    | Foreign

  ghost function ViewOf<T>(f: Folder<T>): View<T> {
    if Temps(f) == {} then Alone(f)
    else if exists t :: Temps(f) == {t} then
      var t :| Temps(f) == {t};
      Beside(f, t)
    else Foreign
  }

  ghost function Alone<T>(f: Folder<T>): View<T> {
    if Final !in f.entries then Empty
    else if FileAt(f, Final).links == 1 && FileAt(f, Final).text.Whole? then Published(FileAt(f, Final).text.value)
    else Foreign
  }

  ghost function Beside<T>(f: Folder<T>, t: Name): View<T>
    requires t in f.entries
  {
    var temp := FileAt(f, t);
    if Final !in f.entries then
      if temp.links == 1 then Draft(temp.text) else Foreign
    else
      var final := FileAt(f, Final);
      if !final.text.Whole? then Foreign
      else if f.entries[t] == f.entries[Final] then
        if final.links == 2 then Linked(final.text.value) else Foreign
      else if final.links == 1 && temp.links == 1 then Pending(final.text.value, temp.text)
      else Foreign
  }

  lemma OnlyTemp<T>(f: Folder<T>, t: Name)
    requires Temps(f) == {t}
    ensures t in f.entries && t.Temp? && ViewOf(f) == Beside(f, t)
  {
    assert t in Temps(f);
    var u :| Temps(f) == {u};
    assert u in Temps(f);
  }

  lemma OneTemp<T>(f: Folder<T>, t: Name)
    requires t in Temps(f)
    ensures |Temps(f)| == 1 <==> Temps(f) == {t}
    ensures |Temps(f)| >= 1
    ensures ViewOf(f).Draft? || ViewOf(f).Linked? || ViewOf(f).Pending? ==> Temps(f) == {t}
  {
    if |Temps(f)| == 1 {
      assert |Temps(f) - {t}| == 0;
      assert Temps(f) == {t} + (Temps(f) - {t});
    }
    if exists u :: Temps(f) == {u} {
      var u :| Temps(f) == {u};
      assert t == u;
    }
  }

  /** A temporary file appears, half written. */
  lemma AfterOpen<T>(f: Folder<T>, t: Name)
    requires t.Temp? && Apply(f, OpenExclusive(t)).Done?
    ensures ViewOf(f).Empty? ==> ViewOf(Apply(f, OpenExclusive(t)).value) == Draft(Torn)
    ensures ViewOf(f).Published? ==>
              ViewOf(Apply(f, OpenExclusive(t)).value) == Pending(ViewOf(f).value, Torn)
    ensures ViewOf(f).Empty? || ViewOf(f).Published? ==> Temps(Apply(f, OpenExclusive(t)).value) == {t}
  {
    var g := Apply(f, OpenExclusive(t)).value;
    if Temps(f) == {} {
      assert Temps(g) == {t} by {
        forall n ensures n in Temps(g) <==> n == t {
          assert n in Temps(g) ==> n == t || n in Temps(f);
        }
      }
      OnlyTemp(g, t);
    }
  }

  lemma AfterWrite<T>(f: Folder<T>, t: Name, value: T)
    requires Temps(f) == {t}
    ensures Apply(f, Write(t, value)).Done?
    ensures Temps(Apply(f, Write(t, value)).value) == {t}
    ensures ViewOf(f).Draft? ==> ViewOf(Apply(f, Write(t, value)).value) == Draft(Whole(value))
    ensures ViewOf(f).Pending? ==>
              ViewOf(Apply(f, Write(t, value)).value) == Pending(ViewOf(f).value, Whole(value))
  {
    OnlyTemp(f, t);
    var g := Apply(f, Write(t, value)).value;
    assert Temps(g) == Temps(f);
    OnlyTemp(g, t);
  }

  lemma AfterLink<T>(f: Folder<T>, t: Name)
    requires Temps(f) == {t} && ViewOf(f).Draft? && ViewOf(f).text.Whole?
    ensures Apply(f, Link(t, Final)).Done?
    ensures Temps(Apply(f, Link(t, Final)).value) == {t}
    ensures ViewOf(Apply(f, Link(t, Final)).value) == Linked(ViewOf(f).text.value)
  {
    OnlyTemp(f, t);
    var g := Apply(f, Link(t, Final)).value;
    assert Temps(g) == Temps(f);
    OnlyTemp(g, t);
  }

  /** Removing the temporary name leaves whatever is published. */
  lemma AfterUnlink<T>(f: Folder<T>, t: Name)
    requires Temps(f) == {t}
    ensures Apply(f, Unlink(t)).Done?
    ensures Temps(Apply(f, Unlink(t)).value) == {}
    ensures ViewOf(f).Draft? ==> ViewOf(Apply(f, Unlink(t)).value).Empty?
    ensures ViewOf(f).Linked? || ViewOf(f).Pending? ==>
              ViewOf(Apply(f, Unlink(t)).value) == Published(ViewOf(f).value)
  {
    OnlyTemp(f, t);
    var g := Apply(f, Unlink(t)).value;
    assert forall n :: n in Temps(g) ==> n in Temps(f) && n != t;
    assert Temps(g) == {};
  }

  lemma AfterUnlinkFinal<T>(f: Folder<T>)
    requires ViewOf(f).Published?
    ensures Apply(f, Unlink(Final)).Done?
    ensures ViewOf(Apply(f, Unlink(Final)).value).Empty?
  {
    PublishedAlone(f);
    var g := Apply(f, Unlink(Final)).value;
    assert forall n :: n in Temps(g) ==> n in Temps(f);
    assert Temps(g) == {};
  }

  /** A rename replaces the published file in one step. */
  lemma AfterRename<T>(f: Folder<T>, t: Name)
    requires Temps(f) == {t} && ViewOf(f).Pending? && ViewOf(f).text.Whole?
    ensures Apply(f, Rename(t, Final)).Done?
    ensures ViewOf(Apply(f, Rename(t, Final)).value) == Published(ViewOf(f).text.value)
  {
    OnlyTemp(f, t);
    var g := Apply(f, Rename(t, Final)).value;
    assert forall n :: n in Temps(g) ==> n in Temps(f) && n != t;
    assert Temps(g) == {};
  }

  lemma AfterSync<T>(f: Folder<T>, call: Call<T>)
    requires call.SyncFile? || call.SyncFolder?
    requires Apply(f, call).Done?
    ensures ViewOf(Apply(f, call).value) == ViewOf(f)
    ensures Temps(Apply(f, call).value) == Temps(f)
  {
    var g := Apply(f, call).value;
    assert Temps(g) == Temps(f);
    if exists t :: Temps(f) == {t} {
      var t :| Temps(f) == {t};
      OnlyTemp(f, t);
      OnlyTemp(g, t);
    }
  }

  lemma PublishedAlone<T>(f: Folder<T>)
    requires ViewOf(f).Published? || ViewOf(f).Empty?
    ensures Temps(f) == {} && ViewOf(f) == Alone(f)
  {
    if exists t :: Temps(f) == {t} {
      var t :| Temps(f) == {t};
      OnlyTemp(f, t);
    }
  }

  /** What the published name says about the whole directory. */
  lemma Reads<T>(f: Folder<T>)
    ensures !ViewOf(f).Foreign? ==>
              var v := ViewOf(f);
              && (Final in f.entries <==> v.Published? || v.Linked? || v.Pending?)
              && (Final in f.entries ==> FileAt(f, Final) == File(if v.Linked? then 2 else 1, Whole(v.value)))
              && (f.entries == map[] <==> v.Empty?)
              && (v.Empty? || v.Published? <==> Temps(f) == {})
              && (f.entries.Keys == {Final} <==> v.Published?)
              && (forall n :: n in f.entries ==> FileAt(f, n).links in {1, 2})
  {
    if Temps(f) == {} {
      assert forall n :: n in f.entries ==> n == Final || n in Temps(f);
      if f.entries != map[] {
        assert exists n :: n in f.entries;
      }
    } else if exists t :: Temps(f) == {t} {
      var t :| Temps(f) == {t};
      OnlyTemp(f, t);
      assert forall n :: n in f.entries ==> n == Final || n in Temps(f);
    }
  }
}
