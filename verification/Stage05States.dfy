/** Which machine states a Stage 05 installation can be in, and what each published state promises. */
module Stage05States {
  import opened Folders
  import opened Hosts
  import opened JournalRecords
  import opened JournalStores
  import opened PowerLoss
  import opened SecureTrees

  /** What one approved bundle installs: the identity its journal records, and the marker's bytes. */
  datatype Plan = Plan(identity: Identity, marker: string) {
    function Record(): JournalRecord {
      JournalRecord(identity, [Planned])
    }
  }

  /** How many of the four resources are present. */
  function Length(t: Tree, c: MarkerFolder): nat {
    if Final in c.entries then 4
    else if Workspace in t.dirs then 3
    else if Experiments in t.dirs then 2
    else if Config in t.dirs then 1
    else 0
  }

  /** Exactly the first `n` resources are present, each in its final form. */
  predicate Prefix(p: Plan, t: Tree, m: MarkerView, n: nat) {
    && n <= 4
    && (Config in t.dirs <==> n >= 1)
    && (Experiments in t.dirs <==> n >= 2)
    && (Workspace in t.dirs <==> n >= 3)
    && m == (if n == 4 then Published(p.marker) else Empty)
    && (n >= 1 ==> t.dirs[Config] == M0755)
    && (n >= 2 ==> t.dirs[Experiments] == M0700)
    && (n >= 3 ==> t.dirs[Workspace] == M0700)
  }

  ghost predicate Clean(p: Plan, t: Tree, c: MarkerFolder) {
    Prefix(p, t, ViewOf(c), Length(t, c))
  }

  /** A config directory killed between its creation and its mode change. */
  ghost predicate Provisional(t: Tree, c: MarkerFolder) {
    && Config in t.dirs && t.dirs[Config] == M0700
    && Experiments !in t.dirs && Workspace !in t.dirs
    && ViewOf(c).Empty?
  }

  /** A marker killed during its publication. */
  ghost predicate MarkerInFlight(p: Plan, t: Tree, c: MarkerFolder) {
    var m := ViewOf(c);
    || (m in {Draft(Torn), Draft(Whole(p.marker))} && Prefix(p, t, Empty, 3))
    || (m == Linked(p.marker) && Prefix(p, t, Published(p.marker), 4))
  }

  ghost predicate Rough(p: Plan, t: Tree, c: MarkerFolder) {
    Clean(p, t, c) || Provisional(t, c) || MarkerInFlight(p, t, c)
  }

  /** Every directory entry, mode and marker byte of the first `n` resources has been synced since its last change. */
  predicate Durable(t: Tree, c: MarkerFolder, n: nat) {
    && (n >= 1 ==> Settled(t, Config))
    && (n >= 2 ==> Settled(t, Experiments))
    && (n >= 3 ==> Settled(t, Workspace))
    && (n >= 4 ==> MarkerDurable(c))
  }

  /** What the resources must look like once history `h` is published. */
  ghost predicate Fits(p: Plan, h: seq<State>, t: Tree, c: MarkerFolder)
    requires h != []
  {
    && (if Last(h).Applying? then Rough(p, t, c) else Clean(p, t, c))
    && (Applying !in h || Last(h).RolledBack? ==> Prefix(p, t, ViewOf(c), 0))
    && (Last(h).Applied? || Last(h).Validated? ==> Prefix(p, t, ViewOf(c), 4) && Durable(t, c, 4))
  }

  function Longest(s: State): nat {
    match s
    case Planned => 1
    case Applying => 2
    case Applied => 3
    case Validated => 4
    case Failed => 3
    case RollingBack => 5
    case RolledBack => 6
  }

  predicate StageHistory(h: seq<State>) {
    ValidHistory(h) && |h| <= Longest(Last(h))
  }

  predicate Outbound(x: JournalRecord, y: JournalRecord) {
    && x.transitions != [] && y.transitions != []
    && y == Advance(x, Last(y.transitions))
    && Last(y.transitions) in Allowed(Last(x.transitions))
  }

  predicate Roots(t: Tree) {
    StateRoot in t.dirs && t.dirs[StateRoot] == M0755 && JournalRoot in t.dirs && t.dirs[JournalRoot] == M0700
  }

  /** Both roots, their names and their modes, have been synced. */
  predicate Anchored(t: Tree) {
    Settled(t, StateRoot) && Settled(t, JournalRoot)
  }

  /** From `t` to `u` only `d` lost a sync. */
  predicate Unsynced(t: Tree, u: Tree, d: Dir) {
    u.loose <= t.loose + {d} && u.unsettled <= t.unsettled + {d}
  }

  /** Every state that runs of the installer, however they end, can leave. */
  ghost predicate Legal(p: Plan, t: Tree, j: Journal, c: MarkerFolder) {
    var v := ViewOf(j);
    match v
    case Foreign => false
    case Empty =>
      && t.dirs.Keys <= {StateRoot, JournalRoot}
      && (t.dirs == map[] || t.dirs == map[StateRoot := M0700] || t.dirs == map[StateRoot := M0755] || Roots(t))
      && ViewOf(c).Empty?
    case Draft(text) =>
      && t.dirs.Keys == {StateRoot, JournalRoot} && Roots(t)
      && ViewOf(c).Empty?
      && text in {Torn, Whole(p.Record())}
    case _ =>
      var x := v.value;
      && x.identity == p.identity && StageHistory(x.transitions)
      && Roots(t) && Anchored(t) && Fits(p, x.transitions, t, c)
      && (v.Linked? ==> x == p.Record())
      && (v.Pending? ==> !Last(x.transitions).RolledBack? && (v.text.Whole? ==> Outbound(x, v.text.value)))
  }

  /** A file that a kill left half written; recovery refuses to touch it. */
  predicate TornJournal(v: JournalView) {
    (v.Draft? || v.Pending?) && v.text.Torn?
  }

  ghost predicate CanExecute(j: Journal, c: MarkerFolder) {
    && !TornJournal(ViewOf(j)) && ViewOf(c) != Draft(Torn)
    && ForwardOnly(j)
  }

  ghost predicate CanRollback(j: Journal, c: MarkerFolder) {
    HasRecord(ViewOf(j)) && !TornJournal(ViewOf(j)) && ViewOf(c) != Draft(Torn)
  }

  /** History planned, applying, applied, validated; four exact, synced resources; no temporary file. */
  ghost predicate Installed(p: Plan, t: Tree, j: Journal, c: MarkerFolder) {
    && ViewOf(j) == Published(JournalRecord(p.identity, [Planned, Applying, Applied, Validated]))
    && Prefix(p, t, ViewOf(c), 4) && Durable(t, c, 4)
    && Roots(t)
  }

  /** Rolled back, with none of the four resources. */
  ghost predicate Removed(p: Plan, t: Tree, j: Journal, c: MarkerFolder) {
    && ViewOf(j).Published? && ViewOf(j).value.identity == p.identity
    && ViewOf(j).value.transitions != [] && Last(ViewOf(j).value.transitions).RolledBack?
    && Prefix(p, t, ViewOf(c), 0)
    && Roots(t)
  }

  ghost predicate ForwardOnly(j: Journal) {
    History(ViewOf(j)) != [] ==> Forward(Last(History(ViewOf(j))))
  }

  /** The published history only grows. */
  ghost predicate Extends(before: Journal, after: Journal) {
    History(ViewOf(before)) <= History(ViewOf(after))
  }

  // ---- the write-ahead rule

  /**
   * The journal shows applying, a loss of power may still take that back, and either a resource is there already or
   * `execute` will create one without syncing the journal again.
   */
  ghost predicate Exposed(t: Tree, j: Journal) {
    && Applying in History(ViewOf(j)) && !Ahead(j)
    && (Config in t.dirs || (ViewOf(j).Published? && Last(History(ViewOf(j))).Applying?))
  }

  /** Before applying is published there are no resources. */
  lemma NothingYet(p: Plan, t: Tree, j: Journal, c: MarkerFolder)
    requires Legal(p, t, j, c) && Applying !in History(ViewOf(j))
    ensures Config !in t.dirs && (HasRecord(ViewOf(j)) ==> Clean(p, t, c))
  {
    hide ViewOf;
    Reads(c);
    if HasRecord(ViewOf(j)) { PrefixLengthIs(p, t, c, 0); }
  }

  // ---- the prefix length is what the code counts

  lemma PrefixLengthIs(p: Plan, t: Tree, c: MarkerFolder, n: nat)
    requires Prefix(p, t, ViewOf(c), n)
    ensures Length(t, c) == n && Clean(p, t, c)
  {
    Reads(c);
  }

  // ---- steps of the journal keep legality

  lemma BareLegal(p: Plan, t: Tree, j: Journal, k: Journal, c: MarkerFolder)
    requires Legal(p, t, j, c) && (ViewOf(k) == ViewOf(j) || ViewOf(k) == Bare(ViewOf(j)))
    ensures Legal(p, t, k, c) && Extends(j, k)
  {
  }

  /** A transition may end anywhere on its way; every place is legal when the resources fit the next state. */
  lemma TransitionLegal(p: Plan, s: State, t: Tree, j: Journal, k: Journal, c: MarkerFolder)
    requires ValidIdentity(p.identity)
    requires Legal(p, t, j, c) && HasRecord(ViewOf(j))
    requires MayTransition(ViewOf(j), p.identity, s, ViewOf(k))
    requires var h := ViewOf(j).value.transitions;
             s in Allowed(Last(h)) ==> StageHistory(h + [s]) && Fits(p, h + [s], t, c)
    ensures Legal(p, t, k, c) && Extends(j, k)
  {
    hide ViewOf;
    var v, w := ViewOf(j), ViewOf(k);
    if Transitionable(v, p.identity, s) {
      var next := Advance(v.value, s);
      assert Last(next.transitions) == s;
      assert Outbound(v.value, next);
      AdvanceValid(v.value, s);
    }
  }

  lemma CreateLegal(p: Plan, t: Tree, j: Journal, k: Journal, c: MarkerFolder)
    requires ValidIdentity(p.identity)
    requires Legal(p, t, j, c) && Roots(t) && Anchored(t) && (ViewOf(j).Empty? || ViewOf(j).Draft?)
    requires MayCreate(ViewOf(j), p.Record(), ViewOf(k))
    ensures Legal(p, t, k, c) && Extends(j, k) && ForwardOnly(k)
  {
    hide ViewOf;
    Reads(c);
    PrefixLengthIs(p, t, c, 0);
    assert Last([Planned]) == Planned;
  }

  lemma StageAdvance(h: seq<State>, s: State)
    requires StageHistory(h) && s in Allowed(Last(h))
    requires s.Failed? ==> Last(h).Planned? || Last(h).Applying?
    ensures StageHistory(h + [s]) && Last(h + [s]) == s
    ensures Applying in h + [s] <==> Applying in h || s.Applying?
  {
    var r := JournalRecord(Identity("", "", "", [ResourceRecord("", "", "", "")]), h);
    AdvanceValid(r, s);
  }

  /** A history whose last state is one of the forward states is the forward history up to it. */
  lemma ForwardHistory(h: seq<State>)
    requires StageHistory(h) && Forward(Last(h))
    ensures h == match Last(h)
                 case Planned => [Planned]
                 case Applying => [Planned, Applying]
                 case Applied => [Planned, Applying, Applied]
                 case _ => [Planned, Applying, Applied, Validated]
    ensures Applying in h <==> !Last(h).Planned?
  {
    forall k | 0 <= k < |h| ensures h[k] == [Planned, Applying, Applied, Validated][k] {
      HistoryShape(h, k);
      HistoryShape(h, |h| - 1);
    }
    if |h| >= 2 { assert h[1] == Applying; }
  }

  /** Recovering a marker residue keeps an applying installation legal, and clean but for its config directory. */
  lemma ResidueLegal(p: Plan, t: Tree, j: Journal, c: MarkerFolder, d: MarkerFolder)
    requires Legal(p, t, j, c) && HasRecord(ViewOf(j)) && Last(ViewOf(j).value.transitions).Applying?
    requires ViewOf(d) == ViewOf(c) || (MarkerCleanable(ViewOf(c), p.marker) && ViewOf(d) == BareMarker(ViewOf(c)))
    ensures Legal(p, t, j, d)
    ensures ViewOf(d) == BareMarker(ViewOf(c)) ==> Clean(p, t, d) || Provisional(t, d)
  {
    hide ViewOf;
    var h := ViewOf(j).value.transitions;
    ForwardHistory(h);
    Reads(c);
    Reads(d);
  }

  function Target(index: nat): (Dir, Mode) {
    if index <= 1 then (Config, M0755) else if index == 2 then (Experiments, M0700) else (Workspace, M0700)
  }

  /** While applying, creating the next directory is legal at each of its steps. */
  lemma CreateStepLegal(p: Plan, t: Tree, u: Tree, j: Journal, c: MarkerFolder, n: nat)
    requires Legal(p, t, j, c) && HasRecord(ViewOf(j)) && ViewOf(j).value.transitions == [Planned, Applying]
    requires n < 3 && Prefix(p, t, ViewOf(c), n)
    requires var (d, mode) := Target(n + 1);
             && (u.dirs == t.dirs || u.dirs == t.dirs[d := M0700] || u.dirs == t.dirs[d := mode])
             && Unsynced(t, u, d)
    ensures Legal(p, u, j, c)
    ensures u.dirs == t.dirs[Target(n + 1).0 := Target(n + 1).1] ==> Prefix(p, u, ViewOf(c), n + 1)
  {
    hide ViewOf;
    Reads(c);
    assert Last([Planned, Applying]) == Applying;
    var (d, mode) := Target(n + 1);
    if u.dirs == t.dirs[d := mode] {
      PrefixLengthIs(p, u, c, n + 1);
    } else if u.dirs == t.dirs {
      PrefixLengthIs(p, u, c, n);
    } else {
      assert Provisional(u, c);
    }
  }

  /** Repairing the config directory forgets no removal. */
  lemma ConfigRepaired(t: Tree, u: Tree)
    requires Config in t.dirs && u.dirs.Keys == t.dirs.Keys && u.loose <= t.loose
    requires Elsewhere(Elsewhere(t.loose, In(Config)), Parent(Config)) <= u.loose
    ensures Gone(u) == Gone(t)
  {
    forall d | d in Gone(t) ensures d in Gone(u) {
      assert Parent(d) != In(Config) && Parent(d) != Parent(Config);
      assert d in Elsewhere(Elsewhere(t.loose, In(Config)), Parent(Config));
    }
  }

  /** While applying, publishing the marker is legal at each of its steps. */
  lemma PublishStepLegal(p: Plan, t: Tree, j: Journal, c: MarkerFolder, d: MarkerFolder)
    requires Legal(p, t, j, c) && HasRecord(ViewOf(j)) && ViewOf(j).value.transitions == [Planned, Applying]
    requires Prefix(p, t, ViewOf(c), 3)
    requires ViewOf(d) in {Empty, Draft(Torn), Draft(Whole(p.marker)), Linked(p.marker), Published(p.marker)}
    ensures Legal(p, t, j, d)
    ensures ViewOf(d).Published? ==> Prefix(p, t, ViewOf(d), 4)
  {
    hide ViewOf;
    Reads(c);
    Reads(d);
    assert Last([Planned, Applying]) == Applying;
  }

  lemma ForwardFits(p: Plan, h: seq<State>, s: State, t: Tree, c: MarkerFolder)
    requires StageHistory(h) && s in Allowed(Last(h)) && Forward(s) && s != Applying
    requires Prefix(p, t, ViewOf(c), 4) && Durable(t, c, 4)
    ensures StageHistory(h + [s]) && Fits(p, h + [s], t, c)
  {
    PrefixLengthIs(p, t, c, 4);
    StageAdvance(h, s);
    ForwardHistory(h);
  }

  lemma StageForward()
    ensures StageHistory([Planned]) && StageHistory([Planned, Applying]) && StageHistory([Planned, Applying, Applied])
    ensures StageHistory([Planned, Applying, Applied, Validated])
  {
    StageAdvance([Planned], Applying);
    StageAdvance([Planned, Applying], Applied);
    StageAdvance([Planned, Applying, Applied], Validated);
    assert [Planned] + [Applying] == [Planned, Applying];
    assert [Planned, Applying] + [Applied] == [Planned, Applying, Applied];
    assert [Planned, Applying, Applied] + [Validated] == [Planned, Applying, Applied, Validated];
  }

  lemma FailedFits(p: Plan, h: seq<State>, t: Tree, c: MarkerFolder)
    requires StageHistory(h) && Last(h).Applying? && Clean(p, t, c)
    ensures StageHistory(h + [Failed]) && Fits(p, h + [Failed], t, c)
  {
    ForwardHistory(h);
    StageAdvance(h, Failed);
  }

  lemma PlannedFits(p: Plan, t: Tree, c: MarkerFolder)
    requires Prefix(p, t, ViewOf(c), 0)
    ensures StageHistory([Planned] + [Applying]) && Fits(p, [Planned] + [Applying], t, c)
    ensures StageHistory([Planned] + [Failed]) && Fits(p, [Planned] + [Failed], t, c)
  {
    PrefixLengthIs(p, t, c, 0);
    StageAdvance([Planned], Applying);
    StageAdvance([Planned], Failed);
  }

  /** Syncing changes nothing a legal state depends on, except that more is durable. */
  lemma SyncedLegal(p: Plan, t: Tree, u: Tree, j: Journal, c: MarkerFolder, d: MarkerFolder)
    requires Legal(p, t, j, c) && HasRecord(ViewOf(j)) && Last(ViewOf(j).value.transitions).Applying?
    requires u.dirs == t.dirs && u.loose <= t.loose && u.unsettled <= t.unsettled && ViewOf(d) == ViewOf(c)
    ensures Legal(p, u, j, d)
    ensures forall n :: Prefix(p, t, ViewOf(c), n) ==> Prefix(p, u, ViewOf(d), n)
  {
    hide ViewOf;
    Reads(c);
    Reads(d);
  }

  lemma PartForward(h: seq<State>)
    requires h != [] && h <= [Planned, Applying, Applied, Validated]
    ensures Forward(Last(h))
  {
    assert Last(h) == [Planned, Applying, Applied, Validated][|h| - 1];
  }

  lemma RollingFits(p: Plan, h: seq<State>, t: Tree, c: MarkerFolder)
    requires StageHistory(h) && RollingBack in Allowed(Last(h)) && Fits(p, h, t, c) && Clean(p, t, c)
    ensures StageHistory(h + [RollingBack]) && Fits(p, h + [RollingBack], t, c)
  {
    StageAdvance(h, RollingBack);
  }

  /** The same from what is published. */
  lemma RollingNext(p: Plan, t: Tree, j: Journal, c: MarkerFolder, record: JournalRecord)
    requires Legal(p, t, j, c) && ViewOf(j) == Published(record) && Clean(p, t, c)
    ensures record.transitions != []
    ensures RollingBack in Allowed(Last(record.transitions)) ==>
              StageHistory(record.transitions + [RollingBack]) && Fits(p, record.transitions + [RollingBack], t, c)
  {
    hide ViewOf, Fits, Clean;
    if RollingBack in Allowed(Last(record.transitions)) { RollingFits(p, record.transitions, t, c); }
  }

  lemma RolledFits(p: Plan, h: seq<State>, t: Tree, c: MarkerFolder)
    requires StageHistory(h) && Last(h).RollingBack? && Prefix(p, t, ViewOf(c), 0)
    ensures StageHistory(h + [RolledBack]) && Fits(p, h + [RolledBack], t, c)
  {
    PrefixLengthIs(p, t, c, 0);
    StageAdvance(h, RolledBack);
  }

  lemma RemoveMarkerLegal(p: Plan, t: Tree, j: Journal, c: MarkerFolder, d: MarkerFolder)
    requires Legal(p, t, j, c) && HasRecord(ViewOf(j)) && Last(ViewOf(j).value.transitions).RollingBack?
    requires Prefix(p, t, ViewOf(c), 4)
    requires ViewOf(d).Empty? || ViewOf(d) == Published(p.marker)
    ensures Legal(p, t, j, d)
    ensures ViewOf(d).Empty? ==> Prefix(p, t, ViewOf(d), 3)
  {
    hide ViewOf;
    Reads(c);
    Reads(d);
  }

  lemma RemoveStepLegal(p: Plan, t: Tree, u: Tree, j: Journal, c: MarkerFolder, n: nat)
    requires Legal(p, t, j, c) && HasRecord(ViewOf(j)) && Last(ViewOf(j).value.transitions).RollingBack?
    requires 1 <= n <= 3 && Prefix(p, t, ViewOf(c), n)
    requires u.dirs == t.dirs || u.dirs == t.dirs - {Target(n).0}
    requires Unsynced(t, u, Target(n).0)
    ensures Legal(p, u, j, c)
    ensures u.dirs == t.dirs - {Target(n).0} && u.loose == Elsewhere(t.loose, Parent(Target(n).0)) ==>
              Gone(u) == Gone(t)
    ensures u.dirs == t.dirs - {Target(n).0} ==> Prefix(p, u, ViewOf(c), n - 1)
  {
    hide ViewOf;
    Reads(c);
    PrefixLengthIs(p, u, c, if u.dirs == t.dirs then n else n - 1);
  }
}
