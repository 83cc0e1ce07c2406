/** What a loss of power can do to a journal directory, and the care that keeps its record whole. */
module PowerLoss {
  import opened Folders
  import opened JournalRecords
  import opened Outcomes

  type Journal = Folder<JournalRecord>

  /** The same record at an earlier time, or now. */
  predicate Earlier(x: JournalRecord, y: JournalRecord) {
    x.identity == y.identity && x.transitions <= y.transitions
  }

  /** What the published name holds. */
  function Held(f: Journal): Option<Text<JournalRecord>> {
    if Final in f.entries then Some(FileAt(f, Final).text) else None
  }

  predicate HeldWhole(f: Journal, ino: nat, current: JournalRecord) {
    && ino < |f.inodes| && ino !in f.stale
    && f.inodes[ino].text.Whole? && ValidRecord(f.inodes[ino].text.value) && Earlier(f.inodes[ino].text.value, current)
  }

  /** Whatever the published name may come back as is a record that was synced before it was published. */
  ghost predicate Guarded(f: Journal) {
    && Bound(f.entries) in f.kept
    && forall b :: b in f.kept && b.Some? ==>
         Held(f).Some? && Held(f).value.Whole? && HeldWhole(f, b.value, Held(f).value.value)
  }

  /**
   * After a loss of power the published name is bound to something it was bound to since the directory was last synced,
   * and only a file that was not synced itself may have lost its text. Nothing is said of other names, or of link
   * counts.
   */
  ghost predicate Lost(f: Journal, g: Journal) {
    && Bound(g.entries) in f.kept
    && forall ino :: 0 <= ino < |f.inodes| && ino !in f.stale ==>
         ino < |g.inodes| && g.inodes[ino].text == f.inodes[ino].text
  }

  /** The published name is absent or holds one complete valid record, the current one or an earlier one. */
  lemma SurvivesLoss(f: Journal, g: Journal)
    requires Guarded(f) && Lost(f, g)
    ensures Final in g.entries ==>
              && FileAt(g, Final).text.Whole? && ValidRecord(FileAt(g, Final).text.value)
              && Final in f.entries && FileAt(f, Final).text.Whole?
              && Earlier(FileAt(g, Final).text.value, FileAt(f, Final).text.value)
    ensures f.kept == {Bound(f.entries)} ==> Held(g) == Held(f)
  {
    var b := Bound(g.entries);
    if b.Some? {
      assert HeldWhole(f, b.value, Held(f).value.value);
    }
  }

  /** Whatever may come back says that applying was recorded. */
  ghost predicate Ahead(f: Journal) {
    && Guarded(f) && None !in f.kept
    && forall b :: b in f.kept ==> b.value < |f.inodes| && Began(f.inodes[b.value].text)
  }

  predicate Began(text: Text<JournalRecord>) {
    text.Whole? && Applying in text.value.transitions
  }

  /** From `f` to `g` nothing was done that a loss of power could turn against the record. */
  ghost predicate Cared(f: Journal, g: Journal) {
    (Guarded(f) ==> Guarded(g)) && (Ahead(f) ==> Ahead(g))
  }

  ghost predicate KeepsRecord(f: Journal, g: Journal) {
    Held(g) == Held(f) && Cared(f, g)
  }

  lemma DurableAhead(f: Journal)
    requires Guarded(f) && f.kept == {Bound(f.entries)} && Held(f).Some? && Began(Held(f).value)
    ensures Ahead(f)
  {
  }

  lemma AheadGuarded(f: Journal)
    ensures Ahead(f) ==> Guarded(f)
  {
  }

  /** What comes back says so too. */
  lemma AheadSurvives(f: Journal, g: Journal)
    requires Ahead(f) && Lost(f, g)
    ensures Held(g).Some? && Began(Held(g).value) && ValidRecord(Held(g).value.value)
  {
    assert HeldWhole(f, Bound(g.entries).value, Held(f).value.value);
  }

  /** The record may come after what is published. */
  predicate Replaces(f: Journal, record: JournalRecord) {
    Held(f).Some? && Held(f).value.Whole? ==> Earlier(Held(f).value.value, record)
  }

  // ---- exactly when nothing is lost

  /** What the published name would hold if it came back bound to `b`. */
  function HeldBy(f: Journal, b: Option<nat>): Option<Text<JournalRecord>> {
    if b.Some? && b.value < |f.inodes| then Some(f.inodes[b.value].text) else None
  }

  /** Every binding that was kept can be what a loss of power leaves. */
  lemma ComesBack(f: Journal, b: Option<nat>) returns (g: Journal)
    requires Guarded(f) && b in f.kept
    ensures Lost(f, g) && Held(g) == HeldBy(f, b)
  {
    assert b.Some? ==> HeldWhole(f, b.value, Held(f).value.value);
    g := f.(entries := if b.Some? then map[Final := b.value] else map[]);
  }

  lemma LostIsKept(f: Journal, g: Journal)
    requires Guarded(f) && Lost(f, g)
    ensures Held(g) == HeldBy(f, Bound(g.entries))
  {
    var b := Bound(g.entries);
    assert b.Some? ==> HeldWhole(f, b.value, Held(f).value.value);
  }

  /** What is published outlives every loss of power exactly if every kept binding holds it. */
  lemma SurvivesExactly(f: Journal)
    requires Guarded(f)
    ensures (forall g: Journal :: Lost(f, g) ==> Held(g) == Held(f)) <==>
              (forall b :: b in f.kept ==> HeldBy(f, b) == Held(f))
  {
    hide Guarded, Lost, HeldBy, Held;
    if forall g: Journal :: Lost(f, g) ==> Held(g) == Held(f) {
      forall b | b in f.kept ensures HeldBy(f, b) == Held(f) {
        var g := ComesBack(f, b);
      }
    }
    forall g: Journal | Lost(f, g) ensures Held(g) == HeldBy(f, Bound(g.entries)) && Bound(g.entries) in f.kept {
      LostIsKept(f, g);
      LostBound(f, g);
    }
  }

  lemma LostBound(f: Journal, g: Journal)
    requires Lost(f, g)
    ensures Bound(g.entries) in f.kept
  {
  }

  /** Every record that can come back says applying exactly if the rule `Ahead` holds. */
  lemma AheadExactly(f: Journal)
    requires Guarded(f)
    ensures Ahead(f) <==> forall g: Journal :: Lost(f, g) ==> Held(g).Some? && Began(Held(g).value)
  {
    if Ahead(f) {
      forall g: Journal | Lost(f, g) ensures Held(g).Some? && Began(Held(g).value) {
        AheadSurvives(f, g);
      }
    }
    if forall g: Journal :: Lost(f, g) ==> Held(g).Some? && Began(Held(g).value) {
      forall b | b in f.kept ensures b.Some? && b.value < |f.inodes| && Began(f.inodes[b.value].text) {
        var g := ComesBack(f, b);
      }
    }
  }

  // ---- which calls keep the guard

  predicate Touches(call: Call<JournalRecord>) {
    match call
    case OpenExclusive(name) => name.Final?
    case Unlink(name) => name.Final?
    case SyncFile(_) => false
    case SyncFolder => false
    case _ => true
  }

  lemma Untouched(f: Journal, call: Call<JournalRecord>)
    requires !Touches(call) && Apply(f, call).Done?
    ensures Held(Apply(f, call).value) == Held(f)
    ensures Cared(f, Apply(f, call).value)
    ensures Guarded(f) && call.SyncFolder? ==> Apply(f, call).value.kept == {Bound(f.entries)}
  {
    var g := Apply(f, call).value;
    assert Bound(g.entries) == Bound(f.entries);
    if Guarded(f) {
      forall b | b in g.kept && b.Some?
        ensures Held(g).Some? && Held(g).value.Whole? && HeldWhole(g, b.value, Held(g).value.value) {
        assert HeldWhole(f, b.value, Held(f).value.value);
      }
      SameTextsAhead(f, g);
    }
  }

  lemma SameTextsAhead(f: Journal, g: Journal)
    requires Guarded(f) && Guarded(g) && g.kept <= f.kept
    requires forall b :: b in f.kept && b.Some? && b.value < |f.inodes| ==>
               b.value < |g.inodes| && g.inodes[b.value].text == f.inodes[b.value].text
    ensures Ahead(f) ==> Ahead(g)
  {
  }

  /** A temporary file whose inode was never published. */
  predicate Fresh(f: Journal, temp: Name) {
    temp.Temp? && temp in f.entries && Some(f.entries[temp]) !in f.kept && Bound(f.entries) != Some(f.entries[temp])
  }

  /** Written and synced, and so ready to be published. */
  predicate Ready(f: Journal, temp: Name, record: JournalRecord) {
    Fresh(f, temp) && f.entries[temp] !in f.stale && FileAt(f, temp).text == Whole(record)
  }

  lemma OpenedFresh(f: Journal, temp: Name)
    requires temp.Temp? && Apply(f, OpenExclusive(temp)).Done?
    ensures Guarded(f) ==> Fresh(Apply(f, OpenExclusive(temp)).value, temp)
  {
    forall b | Guarded(f) && b in f.kept && b.Some? ensures b.value < |f.inodes| {
      assert HeldWhole(f, b.value, Held(f).value.value);
    }
  }

  lemma WrittenFresh(f: Journal, temp: Name, record: JournalRecord)
    requires Fresh(f, temp)
    ensures Apply(f, Write(temp, record)).Done?
    ensures var g := Apply(f, Write(temp, record)).value;
            && Fresh(g, temp) && FileAt(g, temp).text == Whole(record) && Held(g) == Held(f)
            && Cared(f, g)
  {
    var g := Apply(f, Write(temp, record)).value;
    if Guarded(f) {
      forall b | b in g.kept && b.Some?
        ensures Held(g).Some? && Held(g).value.Whole? && HeldWhole(g, b.value, Held(g).value.value) {
        assert HeldWhole(f, b.value, Held(f).value.value);
      }
      SameTextsAhead(f, g);
    }
  }

  lemma SyncedReady(f: Journal, temp: Name, record: JournalRecord)
    requires Fresh(f, temp) && FileAt(f, temp).text == Whole(record)
    ensures Apply(f, SyncFile(temp)).Done? && Ready(Apply(f, SyncFile(temp)).value, temp, record)
  {
  }

  lemma LinkedAnew(f: Journal, temp: Name)
    requires Apply(f, Link(temp, Final)).Done?
    ensures forall record :: Replaces(f, record)
  {
  }

  /** Publishing a record that is ready and not older than the one before it. */
  lemma PublishedGuarded(f: Journal, call: Call<JournalRecord>, temp: Name, record: JournalRecord)
    requires Guarded(f) && Ready(f, temp, record) && ValidRecord(record) && Apply(f, call).Done?
    requires call == Link(temp, Final) || call == Rename(temp, Final)
    requires Replaces(f, record)
    ensures Guarded(Apply(f, call).value) && Held(Apply(f, call).value) == Some(Whole(record))
    ensures Ahead(f) ==> Ahead(Apply(f, call).value)
  {
    var g := Apply(f, call).value;
    assert Bound(g.entries) == Some(f.entries[temp]);
    forall b | b in g.kept && b.Some? ensures HeldWhole(g, b.value, record) {
      if b != Some(f.entries[temp]) {
        assert HeldWhole(f, b.value, Held(f).value.value);
      }
    }
    if Ahead(f) {
      StillBegan(f, record);
      forall b | b in g.kept ensures b.Some? && b.value < |g.inodes| && Began(g.inodes[b.value].text) {
        if b != Some(f.entries[temp]) { assert b in f.kept; }
      }
    }
  }

  lemma StillBegan(f: Journal, record: JournalRecord)
    requires Ahead(f) && Replaces(f, record)
    ensures Applying in record.transitions
  {
    assert Began(f.inodes[Bound(f.entries).value].text);
  }
}
